/** How often a job has failed in a row, and how long it waits, over every run. */
module RefreshRetries {
  import opened Wrappers
  import opened HydrationCache
  import opened RefreshTables
  import opened RefreshRuns
  import opened RefreshSafety
  import opened RefreshHistory

  const DAY: int := 86_400

  /** A unit of work of a generation fails in a way that may pass, within a day
      of the generation's discovery. */
  predicate FailsInTime(s: Slot, e: Event, j: nat, now: int) {
    && e == Act(j, Fail(true)) && s.worker.Some?
    && match s.worker.value.stage
       case Loaded(g) => now - g.discoveredAt < DAY
       case Batched(g, _, _) => now - g.discoveredAt < DAY
       case _ => false
  }

  /** A unit of work of job `j` is committed. */
  predicate Commits(e: Event, j: nat) {
    && Mine(e, j)
    && (e.action.Start? || e.action.Rediscover? || e.action.Hydrate? || e.action.EndHydration? || e.action.Collect?)
  }

  /** How many failures the first `n` events hold since the last commit. */
  function Failures(ws: seq<World>, es: seq<Event>, n: nat, j: nat): nat
    requires n <= |es| < |ws|
  {
    if n == 0 || Commits(es[n - 1], j) then 0
    else if j < |ws[n - 1].slots| && FailsInTime(ws[n - 1].slots[j], es[n - 1], j, ws[n - 1].now)
    then Failures(ws, es, n - 1, j) + 1
    else Failures(ws, es, n - 1, j)
  }

  lemma RetriesMove(s: Slot, e: Event, j: nat, t: Tables, now: int)
    requires Possible(s, e, j, t, now)
    ensures var before, after := s.entry.generation, SlotAfter(s, e, j, t, now).entry.generation;
            after.Some? ==>
              if Commits(e, j) then after.value.retries == 0
              else before.Some? && after.value.retries == before.value.retries
                   + if FailsInTime(s, e, j, now) then 1 else 0
  {
    hide IsNextBatch, BatchOf, HydratedBatch, CachedRows, StagedItems, Complete, Payloads, Relabelled, SnapshotAccepted,
      BatchAccepted, Configured, AllRepositories;
  }

  /** In every run a stored generation counts its failures since the last commit. */
  lemma {:induction false} RetriesCountFailures(ws: seq<World>, es: seq<Event>, n: nat, j: nat)
    requires IsRun(ws, es) && n <= |es| && j < |ws[n].slots| && ws[n].slots[j].entry.generation.Some?
    ensures ws[n].slots[j].entry.generation.value.retries == Failures(ws, es, n, j)
  {
    hide Next, Possible, SlotAfter, FailsInTime, Commits;
    if n > 0 {
      EventMovesSlots(ws[n - 1], es[n - 1], ws[n], j);
      if j < |ws[n - 1].slots| {
        RetriesMove(ws[n - 1].slots[j], es[n - 1], j, ws[n - 1].tables, ws[n - 1].now);
        if ws[n - 1].slots[j].entry.generation.Some? {
          RetriesCountFailures(ws, es, n - 1, j);
        }
      }
    }
  }

  /** The worker has recorded the failure and still has to give the job back. */
  predicate Gives(s: Slot, since: int, delay: int) {
    s.worker.Some? && s.worker.value.stage == Releasing(since, delay)
  }

  lemma FailureGives(s: Slot, e: Event, j: nat, t: Tables, now: int)
    requires Possible(s, e, j, t, now) && FailsInTime(s, e, j, now)
    ensures var after := SlotAfter(s, e, j, t, now);
            after.entry.generation.Some? && Gives(after, now, Delay(after.entry.generation.value.retries))
  {
    hide IsNextBatch, Delay;
  }

  /** Another event leaves it there, unless the process dies. */
  lemma StillGives(s: Slot, e: Event, j: nat, t: Tables, now: int, since: int, delay: int)
    requires Possible(s, e, j, t, now) && Gives(s, since, delay) && !Mine(e, j) && !e.Crash?
    ensures Gives(SlotAfter(s, e, j, t, now), since, delay)
  {
  }

  lemma {:induction false} GivesUntilReleased(ws: seq<World>, es: seq<Event>, n: nat, m: nat, j: nat, delay: int)
    requires IsRun(ws, es) && n < m <= |es| && j < |ws[n + 1].slots| && Gives(ws[n + 1].slots[j], ws[n].now, delay)
    requires forall k :: n < k < m ==> !Mine(es[k], j) && !es[k].Crash?
    ensures j < |ws[m].slots| && Gives(ws[m].slots[j], ws[n].now, delay)
  {
    hide Next, Possible, SlotAfter, Gives;
    if n + 1 < m {
      GivesUntilReleased(ws, es, n, m - 1, j, delay);
      EventMovesSlots(ws[m - 1], es[m - 1], ws[m], j);
      StillGives(ws[m - 1].slots[j], es[m - 1], j, ws[m - 1].tables, ws[m - 1].now, ws[n].now, delay);
    }
  }

  lemma ReleaseIsDue(s: Slot, read: int, j: nat, t: Tables, now: int, since: int, delay: int)
    requires Possible(s, Act(j, Release(read)), j, t, now) && Gives(s, since, delay)
    ensures since <= read <= now
    ensures var after := SlotAfter(s, Act(j, Release(read)), j, t, now);
            after.worker.None? && after.entry.job == s.entry.job.(status := Queued, scheduledFor := read + delay)
  {
  }

  /** In any run, the r-th failure in a row puts the job back for two to the power
      of r - 1 minutes if it is one of the first five, and for sixteen after
      that. */
  lemma {:induction false} FailureBacksOff(ws: seq<World>, es: seq<Event>, n: nat, m: nat, j: nat, read: int)
    requires IsRun(ws, es) && n < m < |es| && j < |ws[n].slots|
    requires FailsInTime(ws[n].slots[j], es[n], j, ws[n].now) && es[m] == Act(j, Release(read))
    requires forall k :: n < k < m ==> !Mine(es[k], j) && !es[k].Crash?
    ensures j < |ws[m + 1].slots| && ws[n].now <= read <= ws[m].now
    ensures var job, r := ws[m + 1].slots[j].entry.job, Failures(ws, es, n + 1, j);
            && r > 0 && job.status == Queued
            && job.scheduledFor == read + 60 * (if r <= 5 then Power(r - 1) else 16)
  {
    hide Next, Possible, SlotAfter, Gives, Delay, Power;
    assert !Commits(es[n], j);
    EventMovesSlots(ws[n], es[n], ws[n + 1], j);
    FailureGives(ws[n].slots[j], es[n], j, ws[n].tables, ws[n].now);
    RetriesCountFailures(ws, es, n + 1, j);
    var r := Failures(ws, es, n + 1, j);
    DelayDoubles(r);
    GivesUntilReleased(ws, es, n, m, j, Delay(r));
    EventMovesSlots(ws[m], es[m], ws[m + 1], j);
    ReleaseIsDue(ws[m].slots[j], read, j, ws[m].tables, ws[m].now, ws[n].now, Delay(r));
  }
}
