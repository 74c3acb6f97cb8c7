/** An undisturbed refresh job makes progress, and ends after a fixed number of
    units of work. */
module RefreshLiveness {
  import opened Wrappers
  import opened HydrationCache
  import opened RefreshTables
  import opened RefreshRuns
  import opened RefreshSafety
  import opened RefreshHistory
  import opened RefreshTheorems
  import opened RefreshPolicy
  import Progress

  /** GitHub answers all that a unit of this job may ask, each answer is about
      what was asked, and the configuration still has what the job names. */
  ghost predicate Cooperative(entry: Entry, github: Answers, t: Tables, now: int) {
    var repository := entry.job.repository;
    && github.discovery.Some? && ValidDiscovery(github.discovery.value) && github.discovery.value.discoveredAt <= now
    && github.progress.Some?
    && (entry.generation.Some? ==>
          var g := entry.generation.value;
          && (forall n :: n in Pending(g) ==>
                n in github.observe && github.observe[n].pr.number == n
                    && github.observe[n].pr.repository == repository)
          && (forall n, c :: n in g.items && c in g.items[n].collections ==> Configures(t, c, repository))
          && (g.progress.Some? && Progress.LinkedTo(t.links, repository) != {} ==>
                Progress.Accepted(t.progress, t.links, repository, g.progress.value)))
  }

  /** The stored generation was started under the job's own flag, and no
      rediscovery of it is asked for. */
  predicate Settled(entry: Entry) {
    entry.generation.Some? ==> entry.generation.value.forced == entry.job.forced && !entry.generation.value.rediscovery
  }

  lemma OwnAnswerIsNotMisdirected(observation: Observation, item: Discovered, cached: Option<Cached>, forced: bool,
                                  repository: string)
    requires observation.pr.number == item.number && observation.pr.repository == repository
    requires cached.Some? ==> cached.value.pr.number == item.number && cached.value.pr.repository == repository
    ensures !Misdirected(observation, item, cached, forced, repository)
  {
  }

  lemma CooperativeBatchIsAccepted(p: Point, github: Answers, now: int)
    requires p.slot.worker.Some? && SlotOk(p.slot) && p.slot.worker.value.stage.Batched?
             && p.slot.entry.generation.Some?
    requires Cooperative(p.slot.entry, github, p.tables, now)
    ensures var worker := p.slot.worker.value;
            && Answered(worker.stage.batch, github.observe)
            && BatchAccepted(p.slot.entry.generation,
                             HydratedBatch(worker.stage.batch, github.observe, worker.stage.cached, worker.forced))
  {
    hide WellFormed, BatchOk, BatchAccepted, HydratedBatch, Misdirected, HydrateOne, Pending;
    var entry, worker, g := p.slot.entry, p.slot.worker.value, p.slot.entry.generation.value;
    forall n | n in worker.stage.batch
      ensures n in github.observe
      ensures !Misdirected(github.observe[n], worker.stage.batch[n], CacheEntry(worker.stage.cached, n), worker.forced,
                           entry.job.repository)
    {
      BatchIsPending(entry, worker, g, n);
      OwnAnswerIsNotMisdirected(github.observe[n], worker.stage.batch[n], CacheEntry(worker.stage.cached, n),
                                worker.forced,
                                entry.job.repository);
    }
    AcceptedUnlessMisdirected(entry, worker, g, github.observe);
  }

  lemma {:induction false} ServeKeepsSlot(p: Point, github: Answers, now: int)
    requires SlotOk(p.slot) && RowsOwn(p.tables.rows)
    ensures SlotOk(Serve(p, github, now).slot) && RowsOwn(Serve(p, github, now).tables.rows)
    decreases Rank(p.slot.worker)
  {
    hide SlotOk, RowsOwn, Choice, EnabledIn, Moved, Affected;
    if p.slot.worker.Some? {
      var a := Choice(p, github, now);
      StepsDescend(p, a, now);
      WorkerKeepsSlot(p.slot.entry, p.slot.worker.value, a, p.tables, now);
      RowsStayOwn(p.slot.entry, p.slot.worker.value, a, p.tables, now);
      ServeKeepsSlot(Step(p, a, now), github, now);
    }
  }

  // ----- One unit -----

  /** The unit brought the job one unit further: it is queued again, with the
      members it had or has just discovered. */
  ghost predicate OneFurther(before: Entry, after: Slot, github: Answers, now: int) {
    && github.discovery.Some?
    && after.worker.None? && after.entry.job == before.job.(status := Queued, scheduledFor := now)
    && after.entry.generation.Some? && Settled(after.entry)
    && Units(after.entry.generation) == Units(before.generation) + 1
    && after.entry.generation.value.items.Keys
       == (if before.generation.None? then github.discovery.value.members.Keys else before.generation.value.items.Keys)
  }

  predicate IsPublishing(entry: Entry) {
    entry.generation.Some? && entry.generation.value.phase == Publishing
  }

  lemma HydrationUnit(p: Point, github: Answers, now: int)
    requires SlotOk(p.slot) && RowsOwn(p.tables.rows) && p.slot.worker.Some? && p.slot.entry.generation.Some?
    requires var g := p.slot.entry.generation.value;
             p.slot.worker.value == Worker(p.slot.entry.job.forced, Loaded(g)) && g.phase == Hydrating
    requires Settled(p.slot.entry) && Cooperative(p.slot.entry, github, p.tables, now)
    ensures OneFurther(p.slot.entry, Serve(p, github, now).slot, github, now)
  {
    hide Serve, SlotOk, RowsOwn, IsNextBatch, BatchOf, CachedRows, Cooperative, Units, WithBatch, HydratedBatch,
      BatchAccepted, PublishBatch, StageOk;
    var entry, worker, g := p.slot.entry, p.slot.worker.value, p.slot.entry.generation.value;
    var numbers := NextNumbers(entry.generation);
    SlotIsRunning(p.slot);
    CooperativeDiscovers(entry, github, p.tables, now);
    BatchLoadServed(p, github, now, numbers);
    var next := Step(p, LoadBatch(numbers), now);
    WorkerKeepsSlot(entry, worker, LoadBatch(numbers), p.tables, now);
    if BatchOf(entry.generation, numbers) == map[] {
      EndOfHydrationServed(next, github, now);
      EndedUnits(next.slot);
    } else {
      CooperativeBatchIsAccepted(next, github, now);
      HydrationServed(next, github, now);
      BatchUnits(next.slot, github.observe, p.tables, now);
      SameMembers(g,
                  HydratedBatch(next.slot.worker.value.stage.batch, github.observe, next.slot.worker.value.stage.cached,
                                worker.forced));
    }
  }

  lemma SameMembers(g: Generation, staged: map<Number, Hydrated>)
    ensures WithBatch(g, staged).items.Keys == g.items.Keys
  {
  }

  lemma PublishingUnit(p: Point, github: Answers, now: int)
    requires SlotOk(p.slot) && RowsOwn(p.tables.rows) && p.slot.worker.Some? && p.slot.entry.generation.Some?
    requires var g := p.slot.entry.generation.value;
             p.slot.worker.value == Worker(p.slot.entry.job.forced, Loaded(g)) && g.phase == Publishing
    requires Settled(p.slot.entry) && Cooperative(p.slot.entry, github, p.tables, now)
    ensures Serve(p, github, now).slot == Ended(p.slot.entry)
  {
    hide Serve, WellFormed, RowsOwn, StagedItems, Complete, Relabelled, SnapshotAccepted, ReplaceSnapshot, Publication,
      Configured, Progress.Accepted, Progress.Apply, Progress.LinkedTo, BatchOk, Pending, Done;
    var entry, worker, g := p.slot.entry, p.slot.worker.value, p.slot.entry.generation.value;
    StagedUnlessGone(entry, worker);
    StagedServed(p, github, now);
    StagedPayloads(entry.generation);
    StagedIsComplete(g, entry.generation);
    var ready := Point(Goes(entry, worker, Ready(g, StagedItems(entry.generation))), p.tables);
    PublishingHasProgress(g);
    ReadyUnlessUnconfigured(entry, ready.slot.worker.value, p.tables, now);
    PublishStep(ready, now);
    PublicationServed(ready, github, now);
    SnapshotKeepsProgress(p.tables, entry.job.repository, Relabelled(StagedItems(entry.generation)),
                          Publication(entry, ready.slot.worker.value));
  }

  lemma PublishingHasProgress(g: Generation)
    requires WellFormed(g) && g.phase == Publishing
    ensures g.progress.Some?
  {
  }

  /** With every answer at hand, a unit of an undisturbed job raises its count
      of units by exactly one, and the publishing unit completes it. */
  lemma {:induction false} UnitMakesProgress(p: Point, github: Answers, now: int)
    requires SlotOk(p.slot) && RowsOwn(p.tables.rows) && p.slot.worker == Some(Worker(p.slot.entry.job.forced, Claimed))
    requires Settled(p.slot.entry) && Cooperative(p.slot.entry, github, p.tables, now)
    ensures var q := Serve(p, github, now).slot;
            && SlotOk(q)
            && if IsPublishing(p.slot.entry) then q == Ended(p.slot.entry) else OneFurther(p.slot.entry, q, github, now)
  {
    hide Serve, RowsOwn, Cooperative, WellFormed, NewGeneration, ValidDiscovery, Units, BatchOk;
    var entry, worker := p.slot.entry, p.slot.worker.value;
    ServeKeepsSlot(p, github, now);
    LoadServed(p, github, now);
    if entry.generation.None? {
      CooperativeDiscovers(entry, github, p.tables, now);
      DiscoveryServed(Point(Goes(entry, worker, Discovering), p.tables), github, now);
      StartedUnits(entry.job, github.discovery.value);
      StartedMembers(entry.job, github.discovery.value);
    } else {
      var g := entry.generation.value;
      var loaded := Point(Goes(entry, worker, Loaded(g)), p.tables);
      match g.phase {
        case Hydrating => HydrationUnit(loaded, github, now);
        case CollectingProgress =>
          CooperativeDiscovers(entry, github, p.tables, now);
          CollectionServed(loaded, github, now);
          CollectedUnits(g, github.progress);
        case Publishing => PublishingUnit(loaded, github, now);
      }
    }
  }

  lemma CooperativeDiscovers(entry: Entry, github: Answers, t: Tables, now: int)
    requires Cooperative(entry, github, t, now)
    ensures github.discovery.Some? && ValidDiscovery(github.discovery.value)
            && github.discovery.value.discoveredAt <= now
    ensures github.progress.Some?
  {
  }

  lemma StartedMembers(job: Job, d: Discovery)
    ensures var g := NewGeneration(job, d); g.items.Keys == d.members.Keys && g.forced == job.forced && !g.rediscovery
    ensures Units(None) == 0
  {
  }

  // ----- Unit after unit -----

  /** What one unit meets; between two units the tables may have changed. */
  datatype Occasion = Occasion(tables: Tables, github: Answers, now: int)

  /** A job after `k` units, claimed again each time it has been given back. */
  ghost function AfterUnits(entry: Entry, occasions: seq<Occasion>, k: nat): Entry
    requires k <= |occasions|
  {
    if k == 0 then entry
    else
      var before, o := AfterUnits(entry, occasions, k - 1), occasions[k - 1];
      Serve(Point(Taken(Slot(before, None)), o.tables), o.github, o.now).slot.entry
  }

  ghost predicate Smooth(entry: Entry, occasions: seq<Occasion>, k: nat)
    requires k <= |occasions|
  {
    forall i :: 0 <= i < k ==>
      && RowsOwn(occasions[i].tables.rows)
      && Cooperative(AfterUnits(entry, occasions, i), occasions[i].github, occasions[i].tables, occasions[i].now)
  }

  lemma TakenKeepsCooperation(entry: Entry, github: Answers, t: Tables, now: int)
    requires Cooperative(entry, github, t, now) && SlotOk(Slot(entry, None)) && Settled(entry)
    ensures var s := Taken(Slot(entry, None));
            Cooperative(s.entry, github, t, now) && SlotOk(s) && Settled(s.entry)
  {
    hide WellFormed, ValidDiscovery, Pending, Configures, Progress.LinkedTo, Progress.Accepted;
  }

  lemma NextUnit(entry: Entry, o: Occasion)
    requires RowsOwn(o.tables.rows) && Cooperative(entry, o.github, o.tables, o.now) && SlotOk(Slot(entry, None))
             && Settled(entry)
    ensures var q := Serve(Point(Taken(Slot(entry, None)), o.tables), o.github, o.now).slot;
            && SlotOk(q)
            && if IsPublishing(entry) then q.entry == entry.(job := entry.job.(status := Completed))
               else OneFurther(entry, q, o.github, o.now)
  {
    hide Serve, SlotOk, Cooperative, RowsOwn, Units;
    TakenKeepsCooperation(entry, o.github, o.tables, o.now);
    UnitMakesProgress(Point(Taken(Slot(entry, None)), o.tables), o.github, o.now);
  }

  lemma UnitsTell(g: Generation)
    ensures Units(Some(g)) <= 3 + Batches(|g.items|)
    ensures Units(Some(g)) == 3 + Batches(|g.items|) <==> g.phase == Publishing
  {
  }

  /** A queued job that has `k` units behind it. */
  ghost predicate Underway(entry: Entry, members: set<Number>, k: nat) {
    && entry.job.status == Queued && Settled(entry) && SlotOk(Slot(entry, None))
    && entry.generation.Some? && entry.generation.value.items.Keys == members && Units(entry.generation) == k
  }

  lemma {:induction false} UnitsAdd(entry: Entry, occasions: seq<Occasion>, members: set<Number>, k: nat)
    requires 1 <= k <= |occasions| && k <= Batches(|members|) + 3
    requires entry.job.status == Queued && entry.generation.None? && Smooth(entry, occasions, k)
    requires occasions[0].github.discovery.Some? && members == occasions[0].github.discovery.value.members.Keys
    ensures Underway(AfterUnits(entry, occasions, k), members, k)
  {
    hide Serve, Cooperative, SlotOk, RowsOwn, Units, Batches;
    var before, o := AfterUnits(entry, occasions, k - 1), occasions[k - 1];
    if k == 1 {
      FreshIsOk(entry);
      NextUnit(entry, o);
    } else {
      UnitsAdd(entry, occasions, members, k - 1);
      UnitsTell(before.generation.value);
      assert |before.generation.value.items| == |members| by { assert before.generation.value.items.Keys == members; }
      NextUnit(before, o);
    }
  }

  lemma FreshIsOk(entry: Entry)
    requires entry.job.status == Queued && entry.generation.None?
    ensures SlotOk(Slot(entry, None)) && Settled(entry) && Units(entry.generation) == 0
  {
  }

  /** A fresh job that discovers `n` pull requests, and whose units are not
      disturbed, is still queued after each of the first ceil(n/20) + 3 units,
      and completed by the next one. */
  lemma {:induction false} CompletesInExactly(entry: Entry, occasions: seq<Occasion>, n: nat)
    requires entry.job.status == Queued && entry.generation.None?
    requires |occasions| >= Batches(n) + 4 && Smooth(entry, occasions, Batches(n) + 4)
    requires occasions[0].github.discovery.Some? && n == |occasions[0].github.discovery.value.members|
    ensures forall k :: 0 <= k < Batches(n) + 4 ==> AfterUnits(entry, occasions, k).job.status == Queued
    ensures var last := AfterUnits(entry, occasions, Batches(n) + 4);
            && last.job.status == Completed
            && last.generation.Some?
            && last.generation.value.items.Keys == occasions[0].github.discovery.value.members.Keys
  {
    hide Serve, Cooperative, SlotOk, RowsOwn, Units, Batches;
    var members := occasions[0].github.discovery.value.members.Keys;
    assert |members| == n;
    forall k | 0 <= k < Batches(n) + 4
      ensures AfterUnits(entry, occasions, k).job.status == Queued
      ensures k > 0 ==> Underway(AfterUnits(entry, occasions, k), members, k)
    {
      if k > 0 {
        UnitsAdd(entry, occasions, members, k);
      }
    }
    var before, o := AfterUnits(entry, occasions, Batches(n) + 3), occasions[Batches(n) + 3];
    assert Underway(before, members, Batches(n) + 3);
    UnitsTell(before.generation.value);
    assert |before.generation.value.items| == n by { assert before.generation.value.items.Keys == members; }
    NextUnit(before, o);
  }

  // ----- In every run -----

  /** A worker of an undisturbed job always has a step to take that is neither a
      failure nor a loss, if GitHub answers and its repository is configured. */
  lemma {:induction false} UndisturbedWorkerCanStep(ws: seq<World>, es: seq<Event>, n: nat, j: nat, github: Answers)
    requires IsRun(ws, es) && n <= |es| && j < |ws[n].slots| && ws[n].slots[j].worker.Some?
             && !Past(ws, es, n, j, 0).disturbed
    requires Cooperative(ws[n].slots[j].entry, github, ws[n].tables, ws[n].now)
    requires Configured(ws[n].tables, ws[n].slots[j].entry.job.repository)
    ensures var a := Choice(Point(ws[n].slots[j], ws[n].tables), github, ws[n].now);
            Enabled(ws[n], j, a) && !a.Lose? && !a.Fail?
  {
    hide EnabledIn, Remembers, Inv, Past, Cooperative, Configured, Referential, Next;
    var p := Point(ws[n].slots[j], ws[n].tables);
    RunsRemember(ws, es, n, j, 0);
    RunsAreSafe(ws, es, n);
    TablesStayReferential(ws, es, n);
    SafeSlotInTime(ws[n], j);
    RefreshedIffConfigured(ws[n].tables, p.slot.entry.job.repository);
    CanStep(p, Past(ws, es, n, j, 0), github, ws[n].now);
    NoClaim(p.slot.entry, p.slot.worker.value, Choice(p, github, ws[n].now), p.tables, ws[n].now);
  }

  lemma SafeSlotInTime(w: World, j: nat)
    requires Inv(w) && j < |w.slots|
    ensures InTime(w.slots[j], w.now)
  {
  }

  lemma RefreshedIffConfigured(t: Tables, repository: string)
    requires Referential(t)
    ensures repository in t.refreshes <==> Configured(t, repository)
  {
  }

  lemma CanStep(p: Point, h: History, github: Answers, now: int)
    requires p.slot.worker.Some? && Remembers(p.slot, h, 0, now) && !h.disturbed && InTime(p.slot, now)
    requires Cooperative(p.slot.entry, github, p.tables, now) && p.slot.entry.job.repository in p.tables.refreshes
    ensures !Choice(p, github, now).Lose? && !Choice(p, github, now).Fail?
  {
    hide EnabledIn, WellFormed, BatchOk, ShowsDiscovery, HydratedOnce, Waits, RequestsOk, Misdirected, Retries, Between,
      Units, ValidDiscovery, Pending, Configures, Configured;
    var entry, worker := p.slot.entry, p.slot.worker.value;
    LosesIffObstructed(p, github, now);
    if worker.stage.Batched? {
      CooperativeBatchIsAccepted(p, github, now);
      AcceptedUnlessMisdirected(entry, worker, entry.generation.value, github.observe);
    }
  }

  /** At rest, an undisturbed job that has lost no worker is queued or completed,
      and it is completed exactly when it has been claimed ceil(n/20) + 4 times. */
  lemma {:induction false} CompletedIffClaimed(ws: seq<World>, es: seq<Event>, n: nat, j: nat)
    requires IsRun(ws, es) && n <= |es| && j < |ws[n].slots| && ws[n].slots[j].worker.None?
    requires !Past(ws, es, n, j, 0).disturbed && Past(ws, es, n, j, 0).losses == 0
    ensures var h, job := Past(ws, es, n, j, 0), ws[n].slots[j].entry.job;
            && job.status != Running
            && (job.status == Completed <==> h.discovery.Some? && h.claims == Batches(|h.discovery.value.members|) + 4)
  {
    hide Batches, SlotOk, HydratedOnce, Waits, RequestsOk, FlagsOk, Units, Past, Next;
    RunsRemember(ws, es, n, j, 0);
    var s, h := ws[n].slots[j], Past(ws, es, n, j, 0);
    PublishingUnits(Generation("", Hydrating, false, 0, [], map[], None, false, 0));
    if s.entry.generation.Some? {
      ShownSize(s.entry.generation.value, h.discovery);
      UnitsTell(s.entry.generation.value);
    }
  }

  // ----- The work that is left -----

  function Standing(s: Slot): nat {
    if s.worker.None? then 8 else if s.worker.value.stage.Releasing? then 9 else Rank(s.worker)
  }

  /** How far a job that has discovered its pull requests is from its end. */
  function Left(s: Slot): int
    requires s.entry.generation.Some?
  {
    if s.entry.job.status == Completed then 0
    else 10 * (4 + Batches(|s.entry.generation.value.items|) - Units(s.entry.generation)) + Standing(s)
  }

  function Acts(es: seq<Event>, m: nat, n: nat, j: nat): nat
    requires m <= n <= |es|
  {
    if m == n then 0 else Acts(es, m, n - 1, j) + (if Mine(es[n - 1], j) then 1 else 0)
  }

  lemma ActsBringCloser(s: Slot, a: Action, t: Tables, now: int, h: History)
    requires s.worker.Some? && EnabledIn(s.entry, s.worker.value, a, t, now) && !a.Lose?
    requires SlotOk(s) && Costs(s, h) && FlagsOk(s, h) && s.entry.generation.Some? && s.entry.job.status == Running
    requires SlotOk(Moved(s.entry, s.worker.value, a, t, now))
             && Costs(Moved(s.entry, s.worker.value, a, t, now), NoteAction(h, s, a, 0))
    requires !NoteAction(h, s, a, 0).disturbed && Moved(s.entry, s.worker.value, a, t, now).entry.generation.Some?
    ensures Left(Moved(s.entry, s.worker.value, a, t, now)) < Left(s)
  {
    hide IsNextBatch, BatchOf, HydratedBatch, CachedRows, StagedItems, Complete, Payloads, Relabelled, SnapshotAccepted,
      WellFormed, Batches, BatchOk, BatchAccepted, Reconciled, WithBatch, Units, Between, NewGeneration;
    var g := s.entry.generation.value;
    UnitsTell(g);
    match a {
      case Hydrate(observe) =>
        var worker := s.worker.value;
        BatchUnits(s, observe, t, now);
        SameMembers(g, HydratedBatch(worker.stage.batch, observe, worker.stage.cached, worker.forced));
        assert |Moved(s.entry, worker, a, t, now).entry.generation.value.items.Keys| == |g.items.Keys|;
      case EndHydration => EndedUnits(s);
      case Collect(snapshot) => CollectedUnits(g, Some(snapshot));
      case _ =>
    }
  }

  lemma EventBringsCloser(s: Slot, e: Event, j: nat, t: Tables, now: int, h: History)
    requires Possible(s, e, j, t, now) && SlotOk(s) && Costs(s, h) && FlagsOk(s, h) && s.entry.generation.Some?
    requires var q, g := SlotAfter(s, e, j, t, now), Note(h, s, e, j, 0);
             SlotOk(q) && Costs(q, g) && q.entry.generation.Some? && !g.disturbed && g.losses == h.losses
    ensures Left(SlotAfter(s, e, j, t, now)) <= Left(s) - (if Mine(e, j) then 1 else 0)
  {
    hide EnabledIn, Moved, StageOk, WellFormed, Between, Units, Batches;
    if Mine(e, j) && !e.action.Claim? {
      ActsBringCloser(s, e.action, t, now, h);
    }
  }

  lemma HistoryGrows(h: History, s: Slot, e: Event, j: nat)
    ensures h.losses <= Note(h, s, e, j, 0).losses && (h.disturbed ==> Note(h, s, e, j, 0).disturbed)
    ensures h.discovery.Some? ==> Note(h, s, e, j, 0).discovery.Some?
  {
  }

  lemma {:induction false} PastGrows(ws: seq<World>, es: seq<Event>, m: nat, n: nat, j: nat)
    requires IsRun(ws, es) && m <= n <= |es|
    ensures var h, g := Past(ws, es, m, j, 0), Past(ws, es, n, j, 0);
            h.losses <= g.losses && (h.disturbed ==> g.disturbed) && (h.discovery.Some? ==> g.discovery.Some?)
    ensures |ws[m].slots| <= |ws[n].slots|
  {
    hide Note, Next;
    if m < n {
      PastGrows(ws, es, m, n - 1, j);
      EventMovesSlots(ws[n - 1], es[n - 1], ws[n], j);
      if j < |ws[n - 1].slots| {
        HistoryGrows(Past(ws, es, n - 1, j, 0), ws[n - 1].slots[j], es[n - 1], j);
      }
    }
  }

  lemma CostsOf(s: Slot, h: History, now: int)
    requires Remembers(s, h, 0, now) && !h.disturbed
    ensures SlotOk(s) && Costs(s, h) && FlagsOk(s, h) && (h.discovery.Some? ==> s.entry.generation.Some?)
  {
  }

  /** From its discovery on, every step of an undisturbed job that loses no
      worker brings it closer to its end, whatever else happens in between. */
  lemma {:induction false} WorkIsBounded(ws: seq<World>, es: seq<Event>, m: nat, n: nat, j: nat)
    requires IsRun(ws, es) && m <= n <= |es| && j < |ws[m].slots|
    requires Past(ws, es, m, j, 0).discovery.Some? && !Past(ws, es, n, j, 0).disturbed
    requires Past(ws, es, m, j, 0).losses == Past(ws, es, n, j, 0).losses
    ensures j < |ws[n].slots| && ws[m].slots[j].entry.generation.Some? && ws[n].slots[j].entry.generation.Some?
    ensures Left(ws[n].slots[j]) + Acts(es, m, n, j) <= Left(ws[m].slots[j])
    ensures 0 <= Left(ws[n].slots[j])
  {
    hide Remembers, Costs, FlagsOk, SlotOk, Left, Note, Next, Possible, SlotAfter;
    PastGrows(ws, es, m, n, j);
    RunsRemember(ws, es, n, j, 0);
    CostsOf(ws[n].slots[j], Past(ws, es, n, j, 0), ws[n].now);
    LeftIsNatural(ws[n].slots[j]);
    if m < n {
      PastGrows(ws, es, m, n - 1, j);
      PastGrows(ws, es, n - 1, n, j);
      WorkIsBounded(ws, es, m, n - 1, j);
      RunsRemember(ws, es, n - 1, j, 0);
      CostsOf(ws[n - 1].slots[j], Past(ws, es, n - 1, j, 0), ws[n - 1].now);
      EventMovesSlots(ws[n - 1], es[n - 1], ws[n], j);
      EventBringsCloser(ws[n - 1].slots[j], es[n - 1], j, ws[n - 1].tables, ws[n - 1].now, Past(ws, es, n - 1, j, 0));
    }
  }

  /** What is left right after the discovery of `n` pull requests. */
  lemma LeftAfterDiscovery(entry: Entry, worker: Worker, d: Discovery, t: Tables, now: int)
    requires EnabledIn(entry, worker, Start(d), t, now)
    ensures var s := Moved(entry, worker, Start(d), t, now);
            s.entry.generation.Some? && Left(s) == 10 * (Batches(|d.members|) + 3) + 9
  {
    hide NewGeneration, Batches, Units;
    var g := NewGeneration(entry.job, d);
    StartedUnits(entry.job, d);
    StartedMembers(entry.job, d);
    assert |g.items.Keys| == |d.members.Keys|;
  }

  lemma LeftIsNatural(s: Slot)
    requires s.entry.generation.Some?
    ensures 0 <= Left(s)
  {
    UnitsTell(s.entry.generation.value);
  }
}
