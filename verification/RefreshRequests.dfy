/** Requests that reach a refresh job while it runs: exactly when a force
    upgrade or a scheduled rediscovery is lost. */
module RefreshRequests {
  import opened Wrappers
  import opened HydrationCache
  import opened RefreshTables
  import opened RefreshRuns
  import opened RefreshSafety
  import opened RefreshHistory
  import opened RefreshPolicy
  import Progress

  // ----- A completed job -----

  lemma CompletedIsIdle(w: World, j: nat, a: Action)
    requires Inv(w) && j < |w.slots| && w.slots[j].entry.job.status == Completed
    ensures w.slots[j].worker.None? && !Enabled(w, j, a)
  {
    hide EnabledIn, StageOk, WellFormed, RowsOwn;
    assert SlotOk(w.slots[j]);
  }

  /** A completed job stays completed, and is never claimed again. */
  lemma CompletedIsFinal(w: World, e: Event, v: World, j: nat)
    requires Inv(w) && Next(w, e) == Some(v) && j < |w.slots| && w.slots[j].entry.job.status == Completed
    ensures j < |v.slots| && v.slots[j].entry.job == w.slots[j].entry.job && v.slots[j].worker.None?
    ensures !Mine(e, j)
  {
    hide Enabled, EnabledIn, Moved, Inv, Affected, Synced, InsertJobs, InsertJob;
    forall a ensures w.slots[j].worker.None? && !Enabled(w, j, a) {
      CompletedIsIdle(w, j, a);
    }
    CompletedIsIdle(w, j, Lose);
    EventMovesSlots(w, e, v, j);
  }

  lemma {:induction false} CompletedForGood(ws: seq<World>, es: seq<Event>, m: nat, n: nat, j: nat)
    requires IsRun(ws, es) && m <= n <= |es| && j < |ws[m].slots| && ws[m].slots[j].entry.job.status == Completed
    ensures j < |ws[n].slots| && ws[n].slots[j].entry.job.status == Completed
    ensures n < |es| ==> !Mine(es[n], j)
  {
    hide Next, Inv;
    RunsAreSafe(ws, es, n);
    if m < n {
      CompletedForGood(ws, es, m, n - 1, j);
      RunsAreSafe(ws, es, n - 1);
      CompletedIsFinal(ws[n - 1], es[n - 1], ws[n], j);
    }
    if n < |es| {
      CompletedIsFinal(ws[n], es[n], ws[n + 1], j);
    }
  }

  // ----- What happened since -----

  predicate ForcesJob(w: World, e: Event, j: nat) {
    && j < |w.slots| && Active(w.slots[j].entry.job)
    && e == Force(w.slots[j].entry.job.repository)
  }

  predicate AsksJob(w: World, e: Event, j: nat) {
    j < |w.slots| && Active(w.slots[j].entry.job) && e.EnqueueAll?
  }

  predicate Claims(e: Event, j: nat) {
    Mine(e, j) && e.action.Claim?
  }

  predicate Discovers(e: Event, j: nat) {
    Mine(e, j) && (e.action.Start? || e.action.Rediscover?)
  }

  /** The job was forced, and has not been claimed since. */
  ghost predicate ForcedSinceClaim(ws: seq<World>, es: seq<Event>, n: nat, j: nat)
    requires n <= |es| < |ws|
  {
    exists i :: 0 <= i < n && ForcesJob(ws[i], es[i], j) && forall k :: i < k < n ==> !Claims(es[k], j)
  }

  /** Rediscovery was asked for, and no discovery has been committed since. */
  ghost predicate AskedSinceDiscovery(ws: seq<World>, es: seq<Event>, n: nat, j: nat)
    requires n <= |es| < |ws|
  {
    exists i :: 0 <= i < n && AsksJob(ws[i], es[i], j) && forall k :: i < k < n ==> !Discovers(es[k], j)
  }

  lemma NotedForce(w: World, e: Event, j: nat, h: History)
    requires j < |w.slots|
    ensures Note(h, w.slots[j], e, j, 0).requests.forced <==> ForcesJob(w, e, j) || (h.requests.forced && !Claims(e, j))
  {
  }

  lemma NotedAsk(w: World, e: Event, j: nat, h: History)
    requires j < |w.slots|
    ensures Note(h, w.slots[j], e, j, 0).requests.asked <==> AsksJob(w, e, j) || (h.requests.asked && !Discovers(e, j))
  {
  }

  lemma {:induction false} ForcedIsRemembered(ws: seq<World>, es: seq<Event>, n: nat, j: nat)
    requires IsRun(ws, es) && n <= |es|
    ensures Past(ws, es, n, j, 0).requests.forced <==> ForcedSinceClaim(ws, es, n, j)
  {
    hide Next, Note, Claims, ForcesJob;
    if n > 0 {
      ForcedIsRemembered(ws, es, n - 1, j);
      EventMovesSlots(ws[n - 1], es[n - 1], ws[n], j);
      if j < |ws[n - 1].slots| {
        NotedForce(ws[n - 1], es[n - 1], j, Past(ws, es, n - 1, j, 0));
      } else {
        NothingToNote(ws[n - 1], es[n - 1], j);
      }
      OneMoreForced(ws, es, n, j);
    }
  }

  lemma NothingToNote(w: World, e: Event, j: nat)
    requires |w.slots| <= j && !Mine(e, j)
    ensures !ForcesJob(w, e, j) && !AsksJob(w, e, j) && !Claims(e, j) && !Discovers(e, j)
  {
  }

  lemma OneMoreForced(ws: seq<World>, es: seq<Event>, n: nat, j: nat)
    requires 0 < n <= |es| < |ws|
    ensures ForcedSinceClaim(ws, es, n, j) <==>
              ForcesJob(ws[n - 1], es[n - 1], j) || (ForcedSinceClaim(ws, es, n - 1, j) && !Claims(es[n - 1], j))
  {
    hide Claims, ForcesJob;
    if ForcedSinceClaim(ws, es, n - 1, j) && !Claims(es[n - 1], j) {
      var i :| 0 <= i < n - 1 && ForcesJob(ws[i], es[i], j) && forall k :: i < k < n - 1 ==> !Claims(es[k], j);
      assert forall k :: i < k < n ==> !Claims(es[k], j);
    }
  }

  lemma OneMoreAsked(ws: seq<World>, es: seq<Event>, n: nat, j: nat)
    requires 0 < n <= |es| < |ws|
    ensures AskedSinceDiscovery(ws, es, n, j) <==>
              AsksJob(ws[n - 1], es[n - 1], j) || (AskedSinceDiscovery(ws, es, n - 1, j) && !Discovers(es[n - 1], j))
  {
    hide Discovers, AsksJob;
    if AskedSinceDiscovery(ws, es, n - 1, j) && !Discovers(es[n - 1], j) {
      var i :| 0 <= i < n - 1 && AsksJob(ws[i], es[i], j) && forall k :: i < k < n - 1 ==> !Discovers(es[k], j);
      assert forall k :: i < k < n ==> !Discovers(es[k], j);
    }
  }

  lemma {:induction false} AskedIsRemembered(ws: seq<World>, es: seq<Event>, n: nat, j: nat)
    requires IsRun(ws, es) && n <= |es|
    ensures Past(ws, es, n, j, 0).requests.asked <==> AskedSinceDiscovery(ws, es, n, j)
  {
    hide Next, Note, Discovers, AsksJob;
    if n > 0 {
      AskedIsRemembered(ws, es, n - 1, j);
      EventMovesSlots(ws[n - 1], es[n - 1], ws[n], j);
      if j < |ws[n - 1].slots| {
        NotedAsk(ws[n - 1], es[n - 1], j, Past(ws, es, n - 1, j, 0));
      } else {
        NothingToNote(ws[n - 1], es[n - 1], j);
      }
      OneMoreAsked(ws, es, n, j);
    }
  }

  // ----- Exactly when a request is lost -----

  /** A job completes with an unserved force flag exactly when it was upgraded
      after its last claim, and that claim was not forced itself. An upgrade
      that finds no active job leaves no flag: see `RefreshUpgrades`. */
  lemma {:induction false} ForceIsLostIff(ws: seq<World>, es: seq<Event>, n: nat, j: nat)
    requires IsRun(ws, es) && n < |es| && es[n] == Act(j, Finish)
    ensures j < |ws[n].slots| <= |ws[n + 1].slots|
    ensures var job, claimedForced := ws[n + 1].slots[j].entry.job, Past(ws, es, n, j, 0).requests.claimedForced;
            && job.status == Completed
            && (job.forced && !claimedForced <==> !claimedForced && ForcedSinceClaim(ws, es, n, j))
            && (claimedForced ==> job.forced)
  {
    assert Next(ws[n], es[n]) == Some(ws[n + 1]);
    hide Remembers, Past, ForcedSinceClaim;
    RunsRemember(ws, es, n, j, 0);
    ForcedIsRemembered(ws, es, n, j);
    RequestsOf(ws[n].slots[j], Past(ws, es, n, j, 0), ws[n].now);
  }

  lemma RequestsOf(s: Slot, h: History, now: int)
    requires Remembers(s, h, 0, now)
    ensures RequestsOk(s, h) && FlagsOk(s, h)
  {
  }

  /** The stored flag asks for rediscovery exactly when it was asked for after
      the last discovery was committed, so a generation that is dropped with the flag set
      takes an unserved request with it. */
  lemma {:induction false} FlagAsksIff(ws: seq<World>, es: seq<Event>, n: nat, j: nat)
    requires IsRun(ws, es) && n <= |es| && j < |ws[n].slots| && ws[n].slots[j].entry.generation.Some?
    ensures ws[n].slots[j].entry.generation.value.rediscovery <==> AskedSinceDiscovery(ws, es, n, j)
  {
    hide Remembers, Past, AskedSinceDiscovery, Next;
    RunsRemember(ws, es, n, j, 0);
    AskedIsRemembered(ws, es, n, j);
    RequestsOf(ws[n].slots[j], Past(ws, es, n, j, 0), ws[n].now);
  }

  /** Some request for rediscovery is never served, however long the run goes on. */
  ghost predicate NeverServed(ws: seq<World>, es: seq<Event>, n: nat, j: nat)
    requires n <= |es| < |ws|
  {
    exists i :: 0 <= i < n && AsksJob(ws[i], es[i], j) && forall k :: i < k < |es| ==> !Discovers(es[k], j)
  }

  /** When a job completes, published or abandoned, a request for rediscovery is
      lost for good exactly when it came after the last discovery was committed.
      A discovery serves it even if GitHub was asked before the request came:
      the commit clears the flag all the same. A published
      generation still carries it, and it came after the worker's last reading;
      an abandoned one takes it away. */
  lemma {:induction false} RediscoveryIsLostIff(ws: seq<World>, es: seq<Event>, n: nat, j: nat)
    requires IsRun(ws, es) && n < |es| && es[n] == Act(j, Finish)
    ensures j < |ws[n].slots| <= |ws[n + 1].slots| && ws[n + 1].slots[j].entry.job.status == Completed
    ensures NeverServed(ws, es, n, j) <==> AskedSinceDiscovery(ws, es, n, j)
    ensures ws[n + 1].slots[j].entry.generation.Some? ==>
              && (ws[n + 1].slots[j].entry.generation.value.rediscovery <==> AskedSinceDiscovery(ws, es, n, j))
              && (Past(ws, es, n, j, 0).requests.late <==> AskedSinceDiscovery(ws, es, n, j))
  {
    assert Next(ws[n], es[n]) == Some(ws[n + 1]);
    hide Remembers, Past, AskedSinceDiscovery;
    if ws[n].slots[j].entry.generation.Some? {
      FlagAsksIff(ws, es, n, j);
      RunsRemember(ws, es, n, j, 0);
      RequestsOf(ws[n].slots[j], Past(ws, es, n, j, 0), ws[n].now);
    }
    NothingIsDiscoveredLater(ws, es, n, j);
  }

  lemma {:induction false} NothingIsDiscoveredLater(ws: seq<World>, es: seq<Event>, n: nat, j: nat)
    requires IsRun(ws, es) && n < |es| && es[n] == Act(j, Finish)
    requires j < |ws[n + 1].slots| && ws[n + 1].slots[j].entry.job.status == Completed
    ensures NeverServed(ws, es, n, j) <==> AskedSinceDiscovery(ws, es, n, j)
  {
    hide Next, AsksJob;
    forall k | n <= k < |es|
      ensures !Discovers(es[k], j)
    {
      if k > n {
        CompletedForGood(ws, es, n + 1, k, j);
      }
    }
    if AskedSinceDiscovery(ws, es, n, j) {
      var i :| 0 <= i < n && AsksJob(ws[i], es[i], j) && forall k :: i < k < n ==> !Discovers(es[k], j);
      assert forall k :: i < k < |es| ==> !Discovers(es[k], j);
    }
  }

  // ----- What can be read off when a request arrives -----

  /** Nobody works on the job, or its claim can only end by giving it back. */
  predicate Resting(s: Slot) {
    s.worker.None? || s.worker.value.stage.Releasing?
  }

  /** The claim can only end by completing the job, or by a loss. */
  predicate Doomed(s: Slot) {
    && s.worker.Some?
    && match s.worker.value.stage
       case Loaded(g) => !g.rediscovery && g.phase == Publishing
       case Ready(_, _) => true
       case Recording(_) => true
       case Failed => true
       case Finishing => true
       case _ => false
  }

  predicate Loses(e: Event, j: nat) {
    (Mine(e, j) && e.action.Lose?) || e.Crash?
  }

  lemma RestingStays(s: Slot, e: Event, j: nat, t: Tables, now: int)
    requires Possible(s, e, j, t, now) && Resting(s) && !Claims(e, j)
    ensures Resting(SlotAfter(s, e, j, t, now)) && !(Mine(e, j) && e.action.Finish?)
  {
    hide IsNextBatch, BatchOf, HydratedBatch, CachedRows, StagedItems, Complete, BatchAccepted;
  }

  lemma DoomedStays(s: Slot, e: Event, j: nat, t: Tables, now: int)
    requires Possible(s, e, j, t, now) && SlotOk(s) && !Loses(e, j)
    requires Doomed(s) || s.entry.job.status == Completed
    ensures Doomed(SlotAfter(s, e, j, t, now)) || SlotAfter(s, e, j, t, now).entry.job.status == Completed
    ensures !Claims(e, j) && !Discovers(e, j) && !(Mine(e, j) && e.action.Release?)
  {
    hide IsNextBatch, BatchOf, HydratedBatch, CachedRows, StagedItems, Complete, BatchAccepted, WellFormed;
  }

  lemma {:induction false} RestsUntilClaimed(ws: seq<World>, es: seq<Event>, i: nat, n: nat, j: nat)
    requires IsRun(ws, es) && i <= n <= |es| && j < |ws[i].slots| && Resting(ws[i].slots[j])
    requires forall k :: i <= k < n ==> !Claims(es[k], j)
    ensures j < |ws[n].slots| && Resting(ws[n].slots[j])
  {
    hide Next, Resting, Claims;
    if i < n {
      RestsUntilClaimed(ws, es, i, n - 1, j);
      EventMovesSlots(ws[n - 1], es[n - 1], ws[n], j);
      RestingStays(ws[n - 1].slots[j], es[n - 1], j, ws[n - 1].tables, ws[n - 1].now);
    }
  }

  lemma {:induction false} DoomedUntilLost(ws: seq<World>, es: seq<Event>, i: nat, n: nat, j: nat)
    requires IsRun(ws, es) && i <= n <= |es| && j < |ws[i].slots| && Doomed(ws[i].slots[j])
    requires forall k :: i <= k < n ==> !Loses(es[k], j)
    ensures j < |ws[n].slots| && (Doomed(ws[n].slots[j]) || ws[n].slots[j].entry.job.status == Completed)
  {
    hide Next, Doomed, Loses;
    if i < n {
      DoomedUntilLost(ws, es, i, n - 1, j);
      RunsAreSafe(ws, es, n - 1);
      SafeSlot(ws[n - 1], j);
      EventMovesSlots(ws[n - 1], es[n - 1], ws[n], j);
      DoomedStays(ws[n - 1].slots[j], es[n - 1], j, ws[n - 1].tables, ws[n - 1].now);
    }
  }

  lemma ForcedStays(s: Slot, e: Event, j: nat, t: Tables, now: int)
    requires Possible(s, e, j, t, now)
    ensures SlotAfter(s, e, j, t, now).entry.job.repository == s.entry.job.repository
    ensures s.entry.job.forced ==> SlotAfter(s, e, j, t, now).entry.job.forced
  {
    hide EnabledIn, Moved;
    if Mine(e, j) && !e.action.Claim? {
      WorkerMoves(s.entry, s.worker.value, e.action, t, now);
    }
  }

  lemma {:induction false} ForcedForGood(ws: seq<World>, es: seq<Event>, m: nat, n: nat, j: nat)
    requires IsRun(ws, es) && m <= n <= |es| && j < |ws[m].slots| && ws[m].slots[j].entry.job.forced
    ensures j < |ws[n].slots| && ws[n].slots[j].entry.job.forced
  {
    hide Next, Possible, SlotAfter;
    if m < n {
      ForcedForGood(ws, es, m, n - 1, j);
      EventMovesSlots(ws[n - 1], es[n - 1], ws[n], j);
      ForcedStays(ws[n - 1].slots[j], es[n - 1], j, ws[n - 1].tables, ws[n - 1].now);
    }
  }

  lemma ForceSetsFlag(w: World, e: Event, v: World, j: nat)
    requires ForcesJob(w, e, j) && Next(w, e) == Some(v)
    ensures j < |v.slots| && v.slots[j].entry.job.forced && !Claims(e, j)
  {
  }

  lemma ClaimNeeded(ws: seq<World>, es: seq<Event>, i: nat, n: nat, j: nat) returns (c: nat)
    requires IsRun(ws, es) && i < n < |es| && j < |ws[i].slots| && Resting(ws[i].slots[j])
    requires es[n] == Act(j, Finish) && !Claims(es[i], j)
    ensures i < c < n && Claims(es[c], j)
  {
    hide Next, Resting, Claims, SlotAfter, Possible;
    if forall k :: i <= k < n ==> !Claims(es[k], j) {
      RestsUntilClaimed(ws, es, i, n, j);
      EventMovesSlots(ws[n], es[n], ws[n + 1], j);
      FinishIsNoClaim(es[n], j);
      RestingStays(ws[n].slots[j], es[n], j, ws[n].tables, ws[n].now);
    }
    c :| i <= c < n && Claims(es[c], j);
  }

  lemma FinishIsNoClaim(e: Event, j: nat)
    requires e == Act(j, Finish)
    ensures !Claims(e, j) && Mine(e, j) && e.action.Finish?
  {
  }

  /** A force that finds the job queued, unattended or about to be given back is
      always served: the job cannot complete before a claim that is forced. */
  lemma {:induction false} RestingForceIsServed(ws: seq<World>, es: seq<Event>, i: nat, n: nat, j: nat)
    requires IsRun(ws, es) && i < n < |es| && ForcesJob(ws[i], es[i], j) && Resting(ws[i].slots[j])
             && es[n] == Act(j, Finish)
    ensures exists c :: i < c < n && Claims(es[c], j) && j < |ws[c].slots| && ws[c].slots[j].entry.job.forced
  {
    hide Resting, Claims, ForcesJob;
    assert Next(ws[i], es[i]) == Some(ws[i + 1]);
    hide Next;
    ForceSetsFlag(ws[i], es[i], ws[i + 1], j);
    EventMovesSlots(ws[i], es[i], ws[i + 1], j);
    JobExists(ws[i], es[i], j);
    var c := ClaimNeeded(ws, es, i, n, j);
    ForcedForGood(ws, es, i + 1, c, j);
  }

  lemma JobExists(w: World, e: Event, j: nat)
    requires ForcesJob(w, e, j)
    ensures j < |w.slots|
  {
  }

  /** A force or a request for rediscovery that finds the job publishing,
      recording, finishing or given up is lost, unless the worker is: without a
      loss nothing claims the job or discovers for it any more. */
  lemma {:induction false} DoomedRequestIsLost(ws: seq<World>, es: seq<Event>, i: nat, n: nat, j: nat)
    requires IsRun(ws, es) && i <= n < |es| && j < |ws[i].slots| && Doomed(ws[i].slots[j])
    requires forall k :: i <= k <= n ==> !Loses(es[k], j)
    ensures !Claims(es[n], j) && !Discovers(es[n], j)
  {
    hide Next, Doomed, Loses, Claims, Discovers, SlotAfter, Possible;
    DoomedUntilLost(ws, es, i, n, j);
    RunsAreSafe(ws, es, n);
    SafeSlot(ws[n], j);
    EventMovesSlots(ws[n], es[n], ws[n + 1], j);
    DoomedStays(ws[n].slots[j], es[n], j, ws[n].tables, ws[n].now);
  }

  // ----- How a claim ends -----

  /** A failed collection drops the generation that has been read. */
  ghost predicate Abandons(g: Generation, github: Answers, now: int) {
    !(github.retryable && now - g.discoveredAt < RETRY_WINDOW)
  }

  ghost predicate CanRecord(repository: string, s: Progress.Snapshot, t: Tables) {
    Progress.LinkedTo(t.links, repository) == {} || Progress.Accepted(t.progress, t.links, repository, s)
  }

  ghost predicate CanPublish(repository: string, g: Generation, t: Tables) {
    !Configured(t, repository)
    || (&& (forall n, c :: n in g.items && c in g.items[n].collections ==> Configures(t, c, repository))
        && g.progress.Some? && CanRecord(repository, g.progress.value, t))
  }

  ghost predicate EndsAfterReading(entry: Entry, g: Generation, github: Answers, t: Tables, now: int) {
    if g.rediscovery then github.discovery.None? && Abandons(g, github, now)
    else (
      match g.phase
      case Hydrating => Abandons(g, github, now) && exists n ::
          n in NextNumbers(entry.generation) && n !in github.observe
      case CollectingProgress => github.progress.None? && Abandons(g, github, now)
      case Publishing => (entry.generation.Some? || g.items == map[]) && CanPublish(entry.job.repository, g, t)
    )
  }

  /** The claim, left alone, ends by completing the job: by the stage of its
      worker, the phase of the generation, and what GitHub answers. */
  ghost predicate EndsJob(entry: Entry, worker: Worker, github: Answers, t: Tables, now: int) {
    match worker.stage
    case Claimed =>
      if entry.generation.Some? && entry.generation.value.forced == worker.forced then
        EndsAfterReading(entry, entry.generation.value, github, t, now)
      else github.discovery.None? && !github.retryable
    case Stale => github.discovery.None? && !github.retryable
    case Discovering => github.discovery.None? && !github.retryable
    case Loaded(g) => EndsAfterReading(entry, g, github, t, now)
    case Batched(g, batch, _) => batch != map[] && !Answered(batch, github.observe) && Abandons(g, github, now)
    case Ready(g, _) => CanPublish(entry.job.repository, g, t)
    case Recording(s) =>
      CanRecord(entry.job.repository, s, t)
      && (Progress.LinkedTo(t.links, entry.job.repository) != {} ==> entry.job.repository in t.refreshes)
    case Releasing(_, _) => false
    case Failed => true
    case Finishing => true
  }

  lemma RecordEndsIff(p: Point, github: Answers, now: int)
    requires p.slot.worker.Some? && p.slot.worker.value.stage.Recording? && p.slot.entry.job.status == Running
    ensures Serve(p, github, now).slot.entry.job.status == Completed
       <==> EndsJob(p.slot.entry, p.slot.worker.value, github, p.tables, now)
  {
    hide Serve, Progress.LinkedTo, Progress.Accepted, Progress.Apply;
    RecordServed(p, github, now);
  }

  lemma PublicationEndsIff(p: Point, github: Answers, now: int)
    requires p.slot.worker.Some? && p.slot.worker.value.stage.Ready? && SlotOk(p.slot)
    ensures Serve(p, github, now).slot.entry.job.status == Completed
       <==> CanPublish(p.slot.entry.job.repository, p.slot.worker.value.stage.generation, p.tables)
  {
    hide Serve, WellFormed, Progress.LinkedTo, Progress.Accepted, Progress.Apply, Relabelled, SnapshotAccepted,
      ReplaceSnapshot, Configured, Publication, BatchOk, CopiesOwn;
    var entry, worker, g := p.slot.entry, p.slot.worker.value, p.slot.worker.value.stage.generation;
    ReadyIsStaged(g);
    ReadyUnlessUnconfigured(entry, worker, p.tables, now);
    PublishStep(p, now);
    PublicationServed(p, github, now);
    SnapshotKeepsProgress(p.tables, entry.job.repository, Relabelled(g.items), Publication(entry, worker));
  }

  lemma ReadyIsStaged(g: Generation)
    requires WellFormed(g) && g.phase == Publishing
    ensures Payloads(g.items) && g.progress.Some?
  {
    assert forall n :: n in g.items ==> n in Done(g);
  }

  lemma BatchEndsIff(p: Point, github: Answers, now: int)
    requires p.slot.worker.Some? && p.slot.worker.value.stage.Batched? && p.slot.entry.job.status == Running
    ensures Serve(p, github, now).slot.entry.job.status == Completed
       <==> EndsJob(p.slot.entry, p.slot.worker.value, github, p.tables, now)
  {
    hide Serve, HydratedBatch, BatchAccepted, WithBatch, PublishBatch;
    var batch := p.slot.worker.value.stage.batch;
    if batch == map[] {
      EndOfHydrationServed(p, github, now);
    } else if Answered(batch, github.observe) {
      HydrationServed(p, github, now);
    } else {
      FailureServed(p, github, now);
    }
  }

  lemma DiscoveryEndsIff(p: Point, github: Answers, now: int)
    requires p.slot.worker.Some? && p.slot.worker.value.stage.Discovering? && p.slot.entry.job.status == Running
    requires github.discovery.Some? ==> github.discovery.value.discoveredAt <= now
    ensures Serve(p, github, now).slot.entry.job.status == Completed <==> github.discovery.None? && !github.retryable
  {
    hide Serve, NewGeneration;
    if github.discovery.Some? {
      DiscoveryServed(p, github, now);
    } else {
      FailureServed(p, github, now);
    }
  }

  lemma BatchIsMissing(g: Option<Generation>, numbers: seq<Number>, observe: map<Number, Observation>)
    requires IsNextBatch(g, numbers)
    ensures BatchOf(g, numbers) != map[] && !Answered(BatchOf(g, numbers), observe) <==>
              exists n :: n in numbers && n !in observe
  {
    var batch := BatchOf(g, numbers);
    if n :| n in numbers && n !in observe {
      assert n in batch;
    }
  }

  lemma ReadingEndsIff(p: Point, github: Answers, now: int)
    requires p.slot.worker.Some? && p.slot.worker.value.stage.Loaded? && SlotOk(p.slot)
    requires github.discovery.Some? ==> github.discovery.value.discoveredAt <= now
    ensures Serve(p, github, now).slot.entry.job.status == Completed
       <==> EndsAfterReading(p.slot.entry, p.slot.worker.value.stage.generation, github, p.tables, now)
  {
    hide Serve, WellFormed, IsNextBatch, BatchOf, CachedRows, StagedItems, Complete, Reconciled, ValidDiscovery,
      CanPublish, BatchOk, CopiesOwn, Answered;
    var entry, worker, g := p.slot.entry, p.slot.worker.value, p.slot.worker.value.stage.generation;
    if g.rediscovery {
      if github.discovery.Some? { RediscoveryServed(p, github, now); } else { FailureServed(p, github, now); }
    } else {
      match g.phase {
        case Hydrating =>
          var numbers := NextNumbers(entry.generation);
          BatchLoadServed(p, github, now, numbers);
          BatchIsMissing(entry.generation, numbers, github.observe);
          BatchEndsIff(Step(p, LoadBatch(numbers), now), github, now);
        case CollectingProgress =>
          if github.progress.Some? { CollectionServed(p, github, now); } else { FailureServed(p, github, now); }
        case Publishing =>
          StagedServed(p, github, now);
          StagedUnlessGone(entry, worker);
          if Complete(g, StagedItems(entry.generation)) {
            StagedIsComplete(g, entry.generation);
            PublicationEndsIff(Point(Goes(entry, worker, Ready(g, StagedItems(entry.generation))), p.tables), github,
                               now);
          }
      }
    }
  }

  /** Left alone, a claim ends by completing its job exactly as `EndsJob` says. */
  lemma {:induction false} ClaimEndsIff(p: Point, github: Answers, now: int)
    requires p.slot.worker.Some? && SlotOk(p.slot) && InTime(p.slot, now)
    requires github.discovery.Some? ==> github.discovery.value.discoveredAt <= now
    ensures Serve(p, github, now).slot.entry.job.status == Completed
       <==> EndsJob(p.slot.entry, p.slot.worker.value, github, p.tables, now)
  {
    hide Serve, WellFormed, EndsAfterReading, CanPublish, CanRecord, BatchOk, CopiesOwn;
    var entry, worker := p.slot.entry, p.slot.worker.value;
    match worker.stage {
      case Claimed =>
        LoadServed(p, github, now);
        if entry.generation.Some? && entry.generation.value.forced == worker.forced {
          ReadingEndsIff(Point(Goes(entry, worker, Loaded(entry.generation.value)), p.tables), github, now);
        } else {
          DiscoveryEndsIff(Point(Goes(entry.(generation := None), worker, Discovering), p.tables), github, now);
        }
      case Stale =>
        Takes(p, github, now, DropStale);
        DiscoveryEndsIff(Step(p, DropStale, now), github, now);
      case Discovering => DiscoveryEndsIff(p, github, now);
      case Loaded(_) => ReadingEndsIff(p, github, now);
      case Batched(_, _, _) => BatchEndsIff(p, github, now);
      case Ready(_, _) => PublicationEndsIff(p, github, now);
      case Recording(_) => RecordEndsIff(p, github, now);
      case Releasing(_, delay) => GivesBack(p, github, now, delay);
      case Failed => AbandonmentServed(p, github, now);
      case Finishing => Ends(p, github, now);
    }
  }

  lemma {:induction false} ServeKeepsForce(p: Point, github: Answers, now: int)
    ensures Serve(p, github, now).slot.entry.job.forced == p.slot.entry.job.forced
    decreases Rank(p.slot.worker)
  {
    hide Choice, EnabledIn, Moved, Affected;
    if p.slot.worker.Some? {
      var a := Choice(p, github, now);
      StepsDescend(p, a, now);
      WorkerMoves(p.slot.entry, p.slot.worker.value, a, p.tables, now);
      ServeKeepsForce(Step(p, a, now), github, now);
    }
  }

  lemma ForcedSlotIsOk(s: Slot, now: int)
    requires SlotOk(s) && InTime(s, now) && s.worker.Some?
    ensures var forced := Shaken(s, Force(s.entry.job.repository));
            && forced.entry == s.entry.(job := s.entry.job.(forced := true)) && forced.worker == s.worker
            && SlotOk(forced) && InTime(forced, now)
  {
    hide WellFormed, BatchOk, CopiesOwn;
  }

  /** A force that finds a worker at its job, whose claim then goes on alone, is
      lost exactly when that claim was not forced and ends the job. Otherwise
      the job stays active with its flag set. */
  lemma {:induction false} RunningForceIsLostIff(s: Slot, t: Tables, github: Answers, now: int)
    requires SlotOk(s) && InTime(s, now) && s.worker.Some?
    requires github.discovery.Some? ==> github.discovery.value.discoveredAt <= now
    ensures var worker, forced := s.worker.value, Shaken(s, Force(s.entry.job.repository));
            var job := Serve(Point(forced, t), github, now).slot.entry.job;
            && job.forced
            && (job.status == Completed && !worker.forced <==>
                !worker.forced && EndsJob(s.entry, worker, github, t, now))
  {
    hide Serve, SlotOk, InTime;
    var p := Point(Shaken(s, Force(s.entry.job.repository)), t);
    ForcedSlotIsOk(s, now);
    ClaimEndsIff(p, github, now);
    ServeKeepsForce(p, github, now);
  }
}
