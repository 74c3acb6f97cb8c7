/** Analysis jobs that are put back after their head has moved: which collections
    are left without work, in every run. */
module Stranding {
  import opened Wrappers
  import opened Handoff

  /** Putting everything back after a crash strands the collection likewise: what
      waits or runs afterwards is what waited for the current head, or ran for
      it. If a job ran for another head, nothing can be claimed. */
  lemma RecoveryStrandsIff(t: Tables, providers: set<string>, c: string)
    requires Live(t, c) && t.head.Some?
    ensures var js, after := JobsOf(t, c), JobsOf(After(t, providers, RecoverAnalysis), c);
            && (QueuedAt(after, t.head.value) || IsRunning(after) <==>
                  QueuedAt(js, t.head.value) || (IsRunning(js) && !RunsStale(t, js)))
            && (RunsStale(t, js) ==> forall k: nat, now ::
                  !Claimable(After(t, providers, RecoverAnalysis), providers, c, k, now))
  {
    var js := JobsOf(t, c);
    var after := Recovered(js);
    assert JobsOf(After(t, providers, RecoverAnalysis), c) == after;
    if i :| 0 <= i < |js| && js[i].status == Running {
      assert after[i].status == Queued && after[i].head == js[i].head;
      forall k | 0 <= k < |js| && k != i ensures after[k] == js[k] && !ActiveStatus(js[k].status) {
      }
      assert RunsStale(t, js) <==> js[i].head != t.head.value;
    } else {
      assert after == js;
    }
  }

  // ----- Stranded collections over whole runs -----

  /** A queued job waits for a head that is gone. */
  predicate WaitsForGone(t: Tables, c: string) {
    exists i :: 0 <= i < |JobsOf(t, c)| && JobsOf(t, c)[i].status == Queued && t.head != Some(JobsOf(t, c)[i].head)
  }

  /** A pull request with members has a head, and a stranded collection's only
      active job waits for one that is gone. */
  ghost predicate StrandedOk(t: Tables, c: string, stranded: bool) {
    && (t.members != {} ==> t.head.Some?)
    && (stranded ==> c in t.members && WaitsForGone(t, c))
  }

  lemma StuckStays(t: Tables, u: Tables, c: string, k: nat)
    requires k < |JobsOf(t, c)| <= |JobsOf(u, c)| && JobsOf(t, c)[k].status == Queued
             && t.head != Some(JobsOf(t, c)[k].head)
    requires JobsOf(u, c)[k] == JobsOf(t, c)[k] && u.head == t.head
    ensures WaitsForGone(u, c)
  {
  }

  lemma StuckJob(t: Tables, c: string) returns (k: nat)
    requires WaitsForGone(t, c)
    ensures k < |JobsOf(t, c)| && JobsOf(t, c)[k].status == Queued && t.head != Some(JobsOf(t, c)[k].head)
  {
    k :| k < |JobsOf(t, c)| && JobsOf(t, c)[k].status == Queued && t.head != Some(JobsOf(t, c)[k].head);
  }

  lemma OnlyActive(js: seq<Job>, k: nat)
    requires OneActive(js) && k < |js| && ActiveStatus(js[k].status)
    ensures forall i :: 0 <= i < |js| && i != k ==> !ActiveStatus(js[i].status)
    ensures HasActive(js)
  {
  }

  lemma RecoveredJobs(t: Tables, providers: set<string>, c: string)
    ensures JobsOf(After(t, providers, RecoverAnalysis), c) == Recovered(JobsOf(t, c))
  {
    NothingToRecover();
  }

  lemma StuckThroughWorker(t: Tables, providers: set<string>, e: Event, c: string, k: nat)
    requires e.ClaimAnalysis? || e.Record? || e.CompleteAnalysis? || e.Requeue? || e.RecoverAnalysis?
    requires Enabled(t, providers, e) && After(t, providers, e).head == t.head
    requires k < |JobsOf(t, c)| && JobsOf(t, c)[k].status == Queued && t.head != Some(JobsOf(t, c)[k].head)
    requires forall l :: 0 <= l < |JobsOf(t, c)| && l != k ==> !ActiveStatus(JobsOf(t, c)[l].status)
    ensures WaitsForGone(After(t, providers, e), c)
  {
    hide SetJob, Recovered, Terminal, CompletedAnalysis, WaitsForGone;
    var u := After(t, providers, e);
    match e {
      case ClaimAnalysis(d, i, _) =>
        SetJobAt(t, d, i, JobsOf(t, d)[i].(status := Running, started := true), c);
        StuckStays(t, u, c, k);
      case Record(_, _, _) => StuckStays(t, u, c, k);
      case CompleteAnalysis(d, i, at) => StuckThroughCompletion(t, providers, d, i, at, c, k);
      case Requeue(d, i, at) =>
        SetJobAt(t, d, i, JobsOf(t, d)[i].(status := Queued, started := false, scheduledFor := at), c);
        StuckStays(t, u, c, k);
      case RecoverAnalysis =>
        RecoveredJobs(t, providers, c);
        RecoveredLeaves(JobsOf(t, c), k);
        StuckStays(t, u, c, k);
    }
  }

  /** An event that neither asks for the collection nor moves head or membership
      leaves its stuck job where it is. */
  lemma StuckThroughEvent(t: Tables, providers: set<string>, e: Event, c: string, k: nat)
    requires Enabled(t, providers, e) && Live(t, c) && t.head.Some? && c in t.members
    requires k < |JobsOf(t, c)| && JobsOf(t, c)[k].status == Queued && t.head != Some(JobsOf(t, c)[k].head)
    requires After(t, providers, e).head == t.head && c in After(t, providers, e).members
    requires !e.Finalize? && !(e.CompleteDiff? && t.head == Some(e.head)) && !(e.Request? && e.collection == c)
    ensures WaitsForGone(After(t, providers, e), c)
  {
    hide OneActive, StartedOk, EnqueueDiff, WithMembers, EnqueueFor, Enqueued, SetJob, Recovered, ReloadFor, Inserted,
      Reusable, Terminal, SetDiff, WaitsForGone, CompletedAnalysis;
    var u := After(t, providers, e);
    OnlyActive(JobsOf(t, c), k);
    match e {
      case PublishBatch(_, _) => StuckStays(t, u, c, k);
      case Remove => assert false;
      case Unlink(d) =>
        WithMembersAt(t, t.members - {d}, c);
        StuckStays(t, u, c, k);
      case Reload(collections, at) =>
        ReloadForAt(t, providers, collections, at, c);
        ReloadLeaves(JobsOf(t, c), t.head.value, at);
        StuckStays(t, u, c, k);
      case Request(d, forced, at) =>
        EnqueueForAt(t, providers, {d}, forced, at, c);
        StuckStays(t, u, c, k);
      case ClaimDiff(head, i) =>
        SetDiffKeeps(t, head, i, Running);
        StuckStays(t, u, c, k);
      case SupersedeDiff(head, i) =>
        SetDiffKeeps(t, head, i, Completed);
        StuckStays(t, u, c, k);
      case CompleteDiff(head, i, completeness, _) =>
        SetDiffKeeps(t.(evidence := t.evidence[head := completeness]), head, i, Completed);
        StuckStays(t, u, c, k);
      case RecoverDiffs => StuckStays(t, u, c, k);
      case _ => StuckThroughWorker(t, providers, e, c, k);
    }
  }

  lemma ReloadLeaves(js: seq<Job>, head: string, at: int)
    requires HasActive(js)
    ensures Inserted(js, head, at) == js
  {
  }

  lemma RecoveredLeaves(js: seq<Job>, k: nat)
    requires k < |js| && js[k].status == Queued
    ensures |Recovered(js)| == |js| && Recovered(js)[k] == js[k]
  {
  }

  lemma StuckThroughCompletion(t: Tables, providers: set<string>, d: string, i: nat, at: int, c: string, k: nat)
    requires HoldsJob(t, d, i) && k < |JobsOf(t, c)| && JobsOf(t, c)[k].status == Queued
             && t.head != Some(JobsOf(t, c)[k].head)
    requires forall l :: 0 <= l < |JobsOf(t, c)| && l != k ==> !ActiveStatus(JobsOf(t, c)[l].status)
    ensures WaitsForGone(CompletedAnalysis(t, providers, d, i, at), c)
  {
    hide SetJob, EnqueueFor, Enqueued, Terminal;
    var u := CompletedAnalysis(t, providers, d, i, at);
    if JobsOf(t, d)[i].status != Deleted {
      var j := JobsOf(t, d)[i].(status := Completed);
      SetJobAt(t, d, i, j, c);
      EnqueueForAt(SetJob(t, d, i, j), providers, {d}, false, at, c);
    }
    StuckStays(t, u, c, k);
  }

  lemma NewlyStranded(t: Tables, providers: set<string>, e: Event, c: string)
    requires Enabled(t, providers, e) && t.head.Some?
    requires (e.Requeue? && e.collection == c && StaleAt(t, c, e.index))
             || (e.RecoverAnalysis? && RunsStale(t, JobsOf(t, c)))
    ensures WaitsForGone(After(t, providers, e), c)
  {
    hide SetJob, Recovered;
    var u := After(t, providers, e);
    if e.Requeue? {
      SetJobAt(t, c, e.index, JobsOf(t, c)[e.index].(status := Queued, started := false, scheduledFor := e.at), c);
      assert JobsOf(u, c)[e.index].status == Queued;
    } else {
      var i: nat :| i < |JobsOf(t, c)| && JobsOf(t, c)[i].status == Running && t.head != Some(JobsOf(t, c)[i].head);
      RecoveredJobs(t, providers, c);
      RecoveredMoves(JobsOf(t, c), i);
    }
  }

  lemma RecoveredMoves(js: seq<Job>, i: nat)
    requires i < |js| && js[i].status == Running
    ensures |Recovered(js)| == |js| && Recovered(js)[i].status == Queued && Recovered(js)[i].head == js[i].head
  {
  }

  lemma HeadsStay(t: Tables, providers: set<string>, e: Event)
    requires Enabled(t, providers, e) && (t.members != {} ==> t.head.Some?)
    ensures After(t, providers, e).members != {} ==> After(t, providers, e).head.Some?
  {
    hide Enqueued, Cancelled, Reusable, Terminal, Inserted;
    if e.Finalize? {
      FinalizedHead(WithMembers(t.(head := Some(e.head)), e.members), providers, e.at);
    }
  }

  lemma FinalizedHead(t: Tables, providers: set<string>, at: int)
    ensures EnqueueDiff(t, providers, at).head == t.head
  {
  }

  lemma StillStranded(t: Tables, providers: set<string>, e: Event, c: string, m: Mark)
    requires Enabled(t, providers, e) && Live(t, c) && StrandedOk(t, c, m.stranded)
    ensures StrandedOk(After(t, providers, e), c, Note(m, t, e, After(t, providers, e), c).stranded)
  {
    hide OneActive, StartedOk, After, WaitsForGone, RunsStale, StaleAt, Reusable;
    var u := After(t, providers, e);
    HeadsStay(t, providers, e);
    var next := Note(m, t, e, u, c);
    if next.stranded {
      if (e.Requeue? && e.collection == c && StaleAt(t, c, e.index))
          || (e.RecoverAnalysis? && RunsStale(t, JobsOf(t, c))) {
        NewlyStranded(t, providers, e, c);
      } else {
        var k := StuckJob(t, c);
        StuckThroughEvent(t, providers, e, c, k);
      }
    }
  }

  lemma LiveOf(t: Tables, c: string, m: Mark)
    requires Awake(t, c, m)
    ensures Live(t, c)
  {
  }

  lemma {:induction false} StrandedInRuns(providers: set<string>, ts: seq<Tables>, es: seq<Event>, n: nat, c: string)
    requires IsRun(providers, ts, es) && n <= |es| && c in providers
    ensures StrandedOk(ts[n], c, Past(ts, es, n, c).stranded)
  {
    hide Awake, After, Enabled, Note, Live, StrandedOk;
    if n == 0 {
      NothingIsStranded(c);
    } else {
      StrandedInRuns(providers, ts, es, n - 1, c);
      assert Enabled(ts[n - 1], providers, es[n - 1]) && ts[n] == After(ts[n - 1], providers, es[n - 1]);
      NoLostWakeUp(providers, ts, es, n - 1, c);
      LiveOf(ts[n - 1], c, Past(ts, es, n - 1, c));
      StillStranded(ts[n - 1], providers, es[n - 1], c, Past(ts, es, n - 1, c));
    }
  }

  lemma NothingIsStranded(c: string)
    ensures StrandedOk(NOTHING, c, false)
  {
  }

  /** In every run, a collection that a stale job was put back in has nothing
      that runs, waits for the current head or could be claimed, at any time.
      Once its diff has been released, these are exactly the collections without
      work for a head they have not analysed yet. */
  lemma {:induction false} StrandedIff(providers: set<string>, ts: seq<Tables>, es: seq<Event>, n: nat, c: string)
    requires IsRun(providers, ts, es) && n <= |es| && c in providers
    ensures var t, js, m := ts[n], JobsOf(ts[n], c), Past(ts, es, n, c);
            && (m.stranded ==>
                  && t.head.Some? && !IsRunning(js) && !QueuedAt(js, t.head.value)
                  && forall k: nat, now :: !Claimable(t, providers, c, k, now))
            && (m.released ==>
                  && t.head.Some?
                  && (!DoneAt(js, t.head.value) ==>
                        (m.stranded <==> !IsRunning(js) && !QueuedAt(js, t.head.value))))
  {
    hide After, Enabled, Note;
    NoLostWakeUp(providers, ts, es, n, c);
    StrandedInRuns(providers, ts, es, n, c);
    if Past(ts, es, n, c).stranded {
      StuckIsIdle(ts[n], providers, c, Past(ts, es, n, c));
    }
  }

  lemma StuckIsIdle(t: Tables, providers: set<string>, c: string, m: Mark)
    requires Awake(t, c, m) && StrandedOk(t, c, m.stranded) && m.stranded
    ensures t.head.Some? && !IsRunning(JobsOf(t, c)) && !QueuedAt(JobsOf(t, c), t.head.value)
    ensures forall k: nat, now :: !Claimable(t, providers, c, k, now)
  {
    var k := StuckJob(t, c);
    OnlyActive(JobsOf(t, c), k);
  }
}
