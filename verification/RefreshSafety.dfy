/** What every reachable state of the refresh protocol satisfies. */
module RefreshSafety {
  import opened Wrappers
  import opened HydrationCache
  import opened RefreshTables
  import opened RefreshRuns

  /** A completed item carries its own pull request, and was hydrated without
      the cache exactly when the generation is forced. */
  predicate ItemOk(g: Generation, n: Number, h: Hydrated) {
    h.pr.number == n && h.pr.repository == g.repository && (h.outcome == Bypass <==> g.forced)
  }

  /** Nothing is pending once hydration has ended. */
  predicate WellFormed(g: Generation) {
    && (forall n :: n in Done(g) ==> ItemOk(g, n, g.items[n].staged.value))
    && (forall n :: n in g.items ==> n > 0)
    && (g.phase != Hydrating ==> Pending(g) == {})
    && (g.phase == Publishing ==> g.progress.Some?)
  }

  /** The generation a worker holds is the stored one, except that a scheduled
      rediscovery may have been requested or a reload may have deleted it. */
  predicate Holds(entry: Entry, forced: bool, g: Generation) {
    && WellFormed(g) && g.forced == forced && g.repository == entry.job.repository
    && (entry.generation.Some? ==> entry.generation.value.(rediscovery := g.rediscovery) == g)
  }

  predicate BatchOk(g: Generation, batch: map<Number, Discovered>) {
    && |batch| == Least(BATCH_SIZE, |Pending(g)|)
    && forall n :: n in batch ==> n in Pending(g) && batch[n] == Discovered(n, g.items[n].collections, g.limits)
  }

  /** The cached payloads a worker took with it are those of its repository. */
  predicate CopiesOwn(repository: string, cached: map<Number, Cached>) {
    forall n :: n in cached ==> cached[n].pr.number == n && cached[n].pr.repository == repository
  }

  /** Every row holds the payload of the pull request it is keyed by. */
  ghost predicate RowsOwn(rows: map<PullRequestKey, Cached>) {
    forall k :: k in rows ==> rows[k].pr.number == k.number && rows[k].pr.repository == k.repository
  }

  predicate StageOk(entry: Entry, worker: Worker) {
    match worker.stage
    case Loaded(g) => Holds(entry, worker.forced, g)
    case Batched(g, batch, cached) =>
      && Holds(entry, worker.forced, g) && !g.rediscovery && g.phase == Hydrating
      && CopiesOwn(entry.job.repository, cached)
      && (BatchOk(g, batch) || (entry.generation.None? && batch == map[]))
    case Ready(g, staged) =>
      Holds(entry, worker.forced, g) && !g.rediscovery && g.phase == Publishing && staged == g.items
    case Recording(s) =>
      entry.generation.Some? ==>
          entry.generation.value.phase == Publishing && entry.generation.value.progress == Some(s)
    case Discovering => entry.generation.None?
    case _ => true
  }

  predicate InTime(s: Slot, now: int) {
    s.worker.Some? && s.worker.value.stage.Releasing? ==> s.worker.value.stage.since <= now
  }

  predicate SlotOk(s: Slot) {
    && (s.entry.generation.Some? ==>
        s.entry.generation.value.repository == s.entry.job.repository && WellFormed(s.entry.generation.value))
    && (s.worker.Some? ==> s.entry.job.status == Running && StageOk(s.entry, s.worker.value))
  }

  predicate OneActive(slots: seq<Slot>) {
    forall i, k :: 0 <= i < k < |slots| && Active(slots[i].entry.job) && Active(slots[k].entry.job)
      ==> slots[i].entry.job.repository != slots[k].entry.job.repository
  }

  ghost predicate Inv(w: World) {
    && OneActive(w.slots) && RowsOwn(w.tables.rows)
    && forall j :: 0 <= j < |w.slots| ==> SlotOk(w.slots[j]) && InTime(w.slots[j], w.now)
  }

  // ----- Generations stay well formed -----

  lemma NewGenerationIsWellFormed(job: Job, d: Discovery)
    requires ValidDiscovery(d)
    ensures WellFormed(NewGeneration(job, d)) && Pending(NewGeneration(job, d)) == d.members.Keys
  {
  }

  lemma ReconciledIsWellFormed(g: Generation, d: Discovery)
    requires WellFormed(g) && ValidDiscovery(d)
    ensures WellFormed(Reconciled(g, d))
  {
    RediscoveryKeepsCompletedWork(g, d);
  }

  lemma HydratedBatchIsOk(g: Generation, batch: map<Number, Discovered>, observe: map<Number, Observation>,
                          cached: map<Number, Cached>)
    requires Answered(batch, observe)
    requires BatchAccepted(Some(g), HydratedBatch(batch, observe, cached, g.forced))
    ensures forall n :: n in batch ==> ItemOk(g, n, HydratedBatch(batch, observe, cached, g.forced)[n])
  {
  }

  lemma WithBatchIsWellFormed(g: Generation, staged: map<Number, Hydrated>)
    requires WellFormed(g) && BatchAccepted(Some(g), staged)
    requires forall n :: n in staged ==> ItemOk(g, n, staged[n])
    ensures WellFormed(WithBatch(g, staged))
    ensures Pending(WithBatch(g, staged)) == Pending(g) - staged.Keys
    ensures Done(WithBatch(g, staged)) == Done(g) + staged.Keys
  {
    hide ItemOk;
    var next := WithBatch(g, staged);
    forall n | n in Done(next)
      ensures ItemOk(next, n, next.items[n].staged.value)
    {
      SameItem(g, next, n, next.items[n].staged.value);
    }
  }

  lemma SameItem(g: Generation, next: Generation, n: Number, h: Hydrated)
    requires g.repository == next.repository && g.forced == next.forced
    ensures ItemOk(g, n, h) == ItemOk(next, n, h)
  {
  }

  lemma BatchIsOk(g: Generation, numbers: seq<Number>)
    requires g.phase == Hydrating && IsNextBatch(Some(g), numbers)
    ensures BatchOk(g, BatchOf(Some(g), numbers))
  {
    var batch := BatchOf(Some(g), numbers);
    FirstOfHolds(numbers, |numbers|);
    assert batch.Keys == FirstOf(numbers, |numbers|);
    AsManyAsPlaces(numbers, |numbers|);
  }

  ghost function FirstOf(numbers: seq<Number>, n: nat): set<Number>
    requires n <= |numbers|
  {
    if n == 0 then {} else FirstOf(numbers, n - 1) + {numbers[n - 1]}
  }

  lemma {:induction false} FirstOfHolds(numbers: seq<Number>, n: nat)
    requires n <= |numbers|
    ensures forall k :: k in FirstOf(numbers, n) <==> exists i :: 0 <= i < n && numbers[i] == k
  {
    if n > 0 {
      FirstOfHolds(numbers, n - 1);
    }
  }

  /** An ascending sequence has as many members as places. */
  lemma {:induction false} AsManyAsPlaces(numbers: seq<Number>, n: nat)
    requires n <= |numbers| && forall i, j :: 0 <= i < j < |numbers| ==> numbers[i] < numbers[j]
    ensures |FirstOf(numbers, n)| == n
  {
    if n > 0 {
      AsManyAsPlaces(numbers, n - 1);
      LastIsNew(numbers, n - 1);
    }
  }

  lemma LastIsNew(numbers: seq<Number>, k: nat)
    requires k < |numbers| && forall i, j :: 0 <= i < j < |numbers| ==> numbers[i] < numbers[j]
    ensures numbers[k] !in FirstOf(numbers, k)
  {
    FirstOfHolds(numbers, k);
  }

  // ----- Steps keep the invariant -----

  lemma WorkerKeepsSlot(entry: Entry, worker: Worker, a: Action, t: Tables, now: int)
    requires SlotOk(Slot(entry, Some(worker))) && EnabledIn(entry, worker, a, t, now) && RowsOwn(t.rows)
    ensures SlotOk(Moved(entry, worker, a, t, now)) && InTime(Moved(entry, worker, a, t, now), now)
  {
    hide WellFormed, IsNextBatch, BatchOf, Reconciled, WithBatch, HydratedBatch, CachedRows, StagedItems, BatchOk,
      Complete, RowsOwn, CopiesOwn;
    CachedRowsOwn(t, entry.job.repository);
    match a {
      case Start(d) => NewGenerationIsWellFormed(entry.job, d);
      case Rediscover(d) => ReconciledKeeps(entry, d);
      case LoadBatch(numbers) => LoadedBatchIsOk(entry, worker, numbers);
      case Hydrate(observe) => HydrationKeeps(entry, worker, observe);
      case EndHydration => EndKeeps(entry, worker);
      case Collect(snapshot) => CollectKeeps(entry.generation.value, snapshot);
      case LoadStaged => StagedIsComplete(worker.stage.generation, entry.generation);
      case Fail(retryable) => RetryKeeps(entry);
      case _ =>
    }
  }

  lemma CachedRowsOwn(t: Tables, repository: string)
    requires RowsOwn(t.rows)
    ensures CopiesOwn(repository, CachedRows(t, repository)) && CopiesOwn(repository, map[])
  {
  }

  lemma BatchRowsOwn(t: Tables, g: Generation, staged: map<Number, Hydrated>)
    requires RowsOwn(t.rows) && BatchAccepted(Some(g), staged)
    ensures RowsOwn(PublishBatch(t, g.repository, staged).rows)
  {
  }

  lemma SnapshotRowsOwn(t: Tables, repository: string, g: Generation, refresh: Refresh)
    requires RowsOwn(t.rows) && WellFormed(g) && Pending(g) == {} && g.repository == repository && Payloads(g.items)
    ensures RowsOwn(ReplaceSnapshot(t, repository, Relabelled(g.items), refresh).rows)
  {
    assert forall n :: n in g.items ==> n in Done(g);
  }

  /** Every write of the published tables keeps each row its own. */
  lemma RowsStayOwn(entry: Entry, worker: Worker, a: Action, t: Tables, now: int)
    requires SlotOk(Slot(entry, Some(worker))) && EnabledIn(entry, worker, a, t, now) && RowsOwn(t.rows)
    ensures RowsOwn(Affected(entry, worker, a, t, now).rows)
  {
    hide HydratedBatch, SnapshotAccepted, Desired, IsNextBatch, Complete, RowsOwn, PublishBatch, ReplaceSnapshot,
      Relabelled, CopiesOwn, BatchOk, BatchAccepted;
    match a {
      case Hydrate(observe) =>
        var staged := HydratedBatch(worker.stage.batch, observe, worker.stage.cached, worker.forced);
        AcceptedHasGeneration(entry.generation, staged);
        BatchRowsOwn(t, entry.generation.value, staged);
      case Publish =>
        if Configured(t, entry.job.repository) {
          SnapshotRowsOwn(t, entry.job.repository, worker.stage.generation, Publication(entry, worker));
        }
      case _ =>
    }
  }

  lemma ReconciledKeeps(entry: Entry, d: Discovery)
    requires entry.generation.Some? && WellFormed(entry.generation.value) && ValidDiscovery(d)
    ensures WellFormed(Reconciled(entry.generation.value, d))
    ensures Reconciled(entry.generation.value, d).repository == entry.generation.value.repository
  {
    ReconciledIsWellFormed(entry.generation.value, d);
  }

  lemma LoadedBatchIsOk(entry: Entry, worker: Worker, numbers: seq<Number>)
    requires worker.stage.Loaded? && Holds(entry, worker.forced, worker.stage.generation)
    requires worker.stage.generation.phase == Hydrating && IsNextBatch(entry.generation, numbers)
    ensures BatchOk(worker.stage.generation, BatchOf(entry.generation, numbers))
            || (entry.generation.None? && BatchOf(entry.generation, numbers) == map[])
  {
    if entry.generation.Some? {
      var g := worker.stage.generation;
      assert entry.generation.value.items == g.items && entry.generation.value.limits == g.limits;
      assert Pending(entry.generation.value) == Pending(g);
      BatchIsOk(entry.generation.value, numbers);
    }
  }

  lemma HydrationKeeps(entry: Entry, worker: Worker, observe: map<Number, Observation>)
    requires worker.stage.Batched? && Holds(entry, worker.forced, worker.stage.generation)
    requires Answered(worker.stage.batch, observe) && entry.generation.Some? && WellFormed(entry.generation.value)
    requires BatchAccepted(entry.generation,
                           HydratedBatch(worker.stage.batch, observe, worker.stage.cached, worker.forced))
    ensures var staged := HydratedBatch(worker.stage.batch, observe, worker.stage.cached, worker.forced);
            WellFormed(WithBatch(entry.generation.value, staged))
            && WithBatch(entry.generation.value, staged).repository == entry.generation.value.repository
  {
    hide WellFormed, ItemOk;
    var g := entry.generation.value;
    HydratedBatchIsOk(g, worker.stage.batch, observe, worker.stage.cached);
    WithBatchIsWellFormed(g, HydratedBatch(worker.stage.batch, observe, worker.stage.cached, worker.forced));
  }

  lemma EndKeeps(entry: Entry, worker: Worker)
    requires worker.stage.Batched? && StageOk(entry, worker) && worker.stage.batch == map[] && entry.generation.Some?
    requires WellFormed(entry.generation.value)
    ensures WellFormed(Advanced(entry.generation.value, CollectingProgress, None))
  {
    var g := worker.stage.generation;
    assert Pending(entry.generation.value) == Pending(g);
    assert |Pending(g)| == 0;
    AdvancedItems(entry.generation.value, CollectingProgress, None);
  }

  lemma CollectKeeps(g: Generation, snapshot: RefreshTables.Progress.Snapshot)
    requires WellFormed(g) && g.phase == CollectingProgress
    ensures WellFormed(Advanced(g, Publishing, Some(snapshot)))
  {
    AdvancedItems(g, Publishing, Some(snapshot));
  }

  lemma AdvancedItems(g: Generation, to: Phase, payload: Option<RefreshTables.Progress.Snapshot>)
    ensures Pending(Advanced(g, to, payload)) == Pending(g) && Done(Advanced(g, to, payload)) == Done(g)
    ensures forall n, h :: ItemOk(Advanced(g, to, payload), n, h) == ItemOk(g, n, h)
  {
  }

  lemma StagedIsComplete(g: Generation, stored: Option<Generation>)
    requires WellFormed(g) && Complete(g, StagedItems(stored))
    requires stored.Some? ==> stored.value.(rediscovery := g.rediscovery) == g
    ensures StagedItems(stored) == g.items
  {
    assert forall n :: n in g.items ==> n in Done(g);
    if stored.None? {
      assert Done(g) == {};
    }
  }

  lemma RetryKeeps(entry: Entry)
    requires entry.generation.Some? ==> WellFormed(entry.generation.value)
    ensures entry.generation.Some? ==> var g := entry.generation.value; WellFormed(g.(retries := g.retries + 1))
  {
    if entry.generation.Some? {
      var g := entry.generation.value;
      var next := g.(retries := g.retries + 1);
      assert Pending(next) == Pending(g) && Done(next) == Done(g);
      forall n | n in Done(next) ensures ItemOk(next, n, next.items[n].staged.value) {
        SameItem(g, next, n, next.items[n].staged.value);
      }
    }
  }

  lemma ShakingKeepsSlot(s: Slot, e: Event)
    requires SlotOk(s) && (e.Recover? ==> s.worker.None?)
    ensures SlotOk(Shaken(s, e)) && Shaken(s, e).worker in {s.worker, None}
  {
    hide WellFormed;
    if e.EnqueueAll? && Active(s.entry.job) && s.entry.generation.Some? {
      RediscoveryFlagKeeps(s.entry.generation.value);
    }
  }

  lemma RediscoveryFlagKeeps(g: Generation)
    requires WellFormed(g)
    ensures WellFormed(g.(rediscovery := true))
  {
    var next := g.(rediscovery := true);
    assert Pending(next) == Pending(g) && Done(next) == Done(g);
    forall n | n in Done(next) ensures ItemOk(next, n, next.items[n].staged.value) {
      SameItem(g, next, n, next.items[n].staged.value);
    }
  }

  /** Another status of the same job never adds an active one. */
  ghost predicate NoneActivated(before: seq<Slot>, after: seq<Slot>) {
    && |before| == |after|
    && forall j :: 0 <= j < |before| ==>
         && after[j].entry.job.repository == before[j].entry.job.repository
         && (Active(after[j].entry.job) ==> Active(before[j].entry.job))
  }

  lemma StillOneActive(before: seq<Slot>, after: seq<Slot>)
    requires OneActive(before) && NoneActivated(before, after)
    ensures OneActive(after)
  {
  }

  lemma ActKeepsInv(w: World, j: nat, a: Action, v: World)
    requires Inv(w) && Next(w, Act(j, a)) == Some(v)
    ensures Inv(v)
  {
    hide EnabledIn, Moved, Affected, SlotOk, IsNextDue, OneActive, RowsOwn;
    var s := w.slots[j];
    if a.Claim? {
      TakenSlotIsOk(s, w.slots, a.read, j);
      assert NoneActivated(w.slots, v.slots) by { DueIsActive(w.slots, a.read, j); }
    } else {
      WorkerMoves(s.entry, s.worker.value, a, w.tables, w.now);
      assert SlotOk(s);
      WorkerKeepsSlot(s.entry, s.worker.value, a, w.tables, w.now);
      RowsStayOwn(s.entry, s.worker.value, a, w.tables, w.now);
      assert NoneActivated(w.slots, v.slots) by { SlotIsRunning(s); }
    }
    StillOneActive(w.slots, v.slots);
  }

  lemma DueIsActive(slots: seq<Slot>, now: int, j: nat)
    requires IsNextDue(Jobs(slots), now, j)
    ensures j < |slots| && slots[j].entry.job.status == Queued && slots[j].entry.job.scheduledFor <= now
  {
  }

  lemma SlotIsRunning(s: Slot)
    requires SlotOk(s) && s.worker.Some?
    ensures s.entry.job.status == Running
  {
  }

  lemma TakenSlotIsOk(s: Slot, slots: seq<Slot>, now: int, j: nat)
    requires IsNextDue(Jobs(slots), now, j) && s == slots[j] && SlotOk(s)
    ensures SlotOk(Taken(s))
  {
  }

  /** A step changes only the status and the due time of its job. */
  lemma WorkerMoves(entry: Entry, worker: Worker, a: Action, t: Tables, now: int)
    requires EnabledIn(entry, worker, a, t, now)
    ensures var s := Moved(entry, worker, a, t, now);
            && s.entry.job == entry.job.(status := s.entry.job.status, scheduledFor := s.entry.job.scheduledFor)
            && (a.Release? || a.Finish? || a.Lose? <==> s.worker.None?)
            && (s.worker.Some? ==> s.worker.value.forced == worker.forced && s.entry.job == entry.job)
            && (a.Lose? ==> s.entry == entry)
            && (a.Release? ==> s.entry.job.status == Queued) && (a.Finish? ==> s.entry.job.status == Completed)
  {
    hide BatchOf, Reconciled, WithBatch, HydratedBatch, NewGeneration, CachedRows, StagedItems, IsNextBatch,
      BatchAccepted, Complete;
  }

  lemma InsertKeepsInv(slots: seq<Slot>, repository: string, at: int, forced: bool, now: int)
    requires OneActive(slots) && forall j :: 0 <= j < |slots| ==> SlotOk(slots[j]) && InTime(slots[j], now)
    ensures var after := InsertJob(slots, repository, at, forced);
            && OneActive(after) && |slots| <= |after| && after[..|slots|] == slots
            && forall j :: 0 <= j < |after| ==> SlotOk(after[j]) && InTime(after[j], now)
  {
    hide SlotOk;
    var added := Slot(Entry(Job(repository, Queued, at, forced), None), None);
    assert SlotOk(added) by { FreshSlotIsOk(repository, at, forced); }
  }

  lemma FreshSlotIsOk(repository: string, at: int, forced: bool)
    ensures SlotOk(Slot(Entry(Job(repository, Queued, at, forced), None), None))
  {
  }

  lemma {:induction false} InsertsKeepInv(slots: seq<Slot>, repositories: seq<string>, n: nat, at: int, now: int)
    requires n <= |repositories|
    requires OneActive(slots) && forall j :: 0 <= j < |slots| ==> SlotOk(slots[j]) && InTime(slots[j], now)
    ensures var after := InsertJobs(slots, repositories, n, at);
            && OneActive(after) && |slots| <= |after| && after[..|slots|] == slots
            && forall j :: 0 <= j < |after| ==> SlotOk(after[j]) && InTime(after[j], now)
  {
    hide SlotOk, OneActive, InsertJob;
    if n > 0 {
      InsertsKeepInv(slots, repositories, n - 1, at, now);
      InsertKeepsInv(InsertJobs(slots, repositories, n - 1, at), repositories[n - 1], at, false, now);
    }
  }

  lemma OutsideKeepsInv(w: World, e: Event, v: World)
    requires Inv(w) && !e.Act? && Next(w, e) == Some(v)
    ensures Inv(v)
  {
    hide SlotOk, Shaken, InsertJob, InsertJobs, OneActive;
    var slots := ShakenSlots(w.slots, e);
    forall j | 0 <= j < |slots|
      ensures SlotOk(slots[j]) && InTime(slots[j], v.now)
    {
      assert SlotOk(w.slots[j]);
      ShakingKeepsSlot(w.slots[j], e);
    }
    ShakingActivatesNone(w.slots, e);
    StillOneActive(w.slots, slots);
    match e {
      case Enqueue(repository, at, forced) => InsertKeepsInv(slots, repository, at, forced, v.now);
      case EnqueueAll(repositories, at) => InsertsKeepInv(slots, repositories, |repositories|, at, v.now);
      case _ =>
    }
  }

  lemma ShakingActivatesNone(slots: seq<Slot>, e: Event)
    ensures NoneActivated(slots, ShakenSlots(slots, e))
  {
  }

  /** Every state of every run: one active job for each repository, a worker
      only for a running job, each generation well formed and owned by its
      job's repository, and every worker's copy of it accurate. */
  lemma {:induction false} RunsAreSafe(ws: seq<World>, es: seq<Event>, n: nat)
    requires IsRun(ws, es) && n <= |es|
    ensures Inv(ws[n])
  {
    hide Next, Inv;
    if n == 0 {
      assert Inv(Initially()) by { InitiallySafe(); }
    } else {
      RunsAreSafe(ws, es, n - 1);
      assert Next(ws[n - 1], es[n - 1]) == Some(ws[n]);
      match es[n - 1] {
        case Act(j, a) => ActKeepsInv(ws[n - 1], j, a, ws[n]);
        case _ => OutsideKeepsInv(ws[n - 1], es[n - 1], ws[n]);
      }
    }
  }

  lemma InitiallySafe()
    ensures Inv(Initially())
  {
  }

  lemma SafeSlot(w: World, j: nat)
    requires Inv(w) && j < |w.slots|
    ensures SlotOk(w.slots[j])
  {
  }

  lemma AcceptedHasGeneration(g: Option<Generation>, staged: map<Number, Hydrated>)
    requires BatchAccepted(g, staged)
    ensures g.Some?
  {
  }
}
