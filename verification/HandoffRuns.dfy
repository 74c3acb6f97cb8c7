/** What every run of the hand-off keeps of its rows: diff jobs end once and are
    pursued until then, and a collection that has left has nothing. */
module HandoffRuns {
  import opened Wrappers
  import opened Handoff

  predicate OneActiveDiff(statuses: seq<Status>) {
    forall i, k :: 0 <= i < k < |statuses| ==>
      !(statuses[i] in {Queued, Running} && statuses[k] in {Queued, Running})
  }

  predicate AllDeleted(statuses: seq<Status>) {
    forall i :: 0 <= i < |statuses| ==> statuses[i] == Deleted
  }

  /** A head has at most one active diff job, and none without a pull request. */
  predicate DiffsOk(t: Tables, head: string) {
    OneActiveDiff(DiffsOf(t, head)) && (t.head.None? ==> AllDeleted(DiffsOf(t, head)))
  }

  /** What one event makes of the diff jobs of one head. */
  lemma DiffsMove(t: Tables, providers: set<string>, e: Event, head: string)
    requires Enabled(t, providers, e)
    ensures var before, after := DiffsOf(t, head), DiffsOf(After(t, providers, e), head);
            match e
            case Finalize(current, members, _) =>
              if current == head && !Reusable(WithMembers(t.(head := Some(current)), members), current)
              then after == InsertDiff(before) else after == before
            case Remove => after == Erase(before)
            case ClaimDiff(h, i) => after == if h == head then before[i := Running] else before
            case SupersedeDiff(h, i) =>
              after == if h == head && before[i] != Deleted then before[i := Completed] else before
            case CompleteDiff(h, i, _, _) =>
              after == if h == head && before[i] != Deleted && t.head.Some? then before[i := Completed] else before
            case RecoverDiffs => after == RecoveredDiffs(before)
            case _ => after == before
  {
    hide EnqueueFor, WithMembers, CompletedAnalysis, ReloadFor, Recovered;
    match e {
      case Finalize(current, members, at) => FinalizedDiffs(t, providers, current, members, at, head);
      case CompleteDiff(h, i, completeness, at) => CompletedDiffIsExact(t, providers, h, i, completeness, at);
      case CompleteAnalysis(c, i, at) => CompletedAnalysisIsExact(t, providers, c, i, at);
      case Reload(collections, at) => ReloadForAt(t, providers, collections, at, "");
      case Request(c, forced, at) => EnqueueForAt(t, providers, {c}, forced, at, c);
      case Unlink(c) => MembersKeepDiffs(t, t.members - {c});
      case Remove => MembersKeepDiffs(t, {});
      case _ =>
    }
  }

  lemma MembersKeepDiffs(t: Tables, members: set<string>)
    ensures WithMembers(t, members).diffs == t.diffs && WithMembers(t, members).head == t.head
    ensures WithMembers(t, members).members == members
  {
  }

  lemma FinalizedDiffs(t: Tables, providers: set<string>, current: string, members: set<string>, at: int, head: string)
    ensures var s := WithMembers(t.(head := Some(current)), members);
            DiffsOf(EnqueueDiff(s, providers, at), head)
              == if current == head && !Reusable(s, current) then InsertDiff(DiffsOf(t, head)) else DiffsOf(t, head)
  {
    hide EnqueueFor, WithMembers, Cancelled;
    var s := WithMembers(t.(head := Some(current)), members);
    MembersKeepDiffs(t.(head := Some(current)), members);
    var u := s.(jobs := map c | c in s.jobs :: Cancelled(s.jobs[c], current));
    EnqueueForAt(u, providers, u.members, false, at, "");
  }

  lemma DiffsStayOk(t: Tables, providers: set<string>, e: Event, head: string)
    requires Enabled(t, providers, e) && DiffsOk(t, head)
    ensures DiffsOk(After(t, providers, e), head)
  {
    hide After, WithMembers, Reusable;
    DiffsMove(t, providers, e, head);
    HeadMoves(t, providers, e);
  }

  /** Only a removal takes the head, and only a publication brings one. */
  lemma HeadMoves(t: Tables, providers: set<string>, e: Event)
    requires Enabled(t, providers, e)
    ensures After(t, providers, e).head
         == match e
            case PublishBatch(current, _) => Some(current)
            case Finalize(current, _, _) => Some(current)
            case Remove => None
            case _ => t.head
  {
    hide EnqueueFor, WithMembers, CompletedAnalysis, CompletedDiff, ReloadFor, EnqueueDiff;
    match e {
      case Finalize(current, members, at) =>
        MembersKeepDiffs(t.(head := Some(current)), members);
        EnqueuedDiffIsExact(WithMembers(t.(head := Some(current)), members), providers, at);
      case CompleteDiff(h, i, completeness, at) => CompletedDiffIsExact(t, providers, h, i, completeness, at);
      case CompleteAnalysis(c, i, at) => CompletedAnalysisIsExact(t, providers, c, i, at);
      case Reload(collections, at) => ReloadForAt(t, providers, collections, at, "");
      case Request(c, forced, at) => EnqueueForAt(t, providers, {c}, forced, at, c);
      case Unlink(c) => MembersKeepDiffs(t, t.members - {c});
      case _ =>
    }
  }

  /** In every run one head has at most one active diff job. */
  lemma {:induction false} OneDiffAtATime(providers: set<string>, ts: seq<Tables>, es: seq<Event>, n: nat, head: string)
    requires IsRun(providers, ts, es) && n <= |es|
    ensures DiffsOk(ts[n], head)
  {
    hide After, Enabled, DiffsOk;
    if n == 0 {
      NothingIsOk(head);
    } else {
      OneDiffAtATime(providers, ts, es, n - 1, head);
      DiffsStayOk(ts[n - 1], providers, es[n - 1], head);
    }
  }

  lemma NothingIsOk(head: string)
    ensures DiffsOk(NOTHING, head)
  {
  }

  predicate Over(t: Tables, head: string, i: nat) {
    i < |DiffsOf(t, head)| && (DiffsOf(t, head)[i] == Completed || DiffsOf(t, head)[i] == Deleted)
  }

  lemma StaysOver(t: Tables, providers: set<string>, e: Event, head: string, i: nat)
    requires Enabled(t, providers, e) && Over(t, head, i)
    ensures Over(After(t, providers, e), head, i) && e != ClaimDiff(head, i)
  {
    hide After, WithMembers, Reusable;
    DiffsMove(t, providers, e, head);
  }

  lemma CompletionIsOver(t: Tables, providers: set<string>, e: Event, head: string, i: nat)
    requires Enabled(t, providers, e) && DiffsOk(t, head)
    requires e == SupersedeDiff(head, i) || (e.CompleteDiff? && e.head == head && e.index == i)
    ensures Over(After(t, providers, e), head, i)
  {
    hide After, WithMembers, Reusable;
    DiffsMove(t, providers, e, head);
  }

  /** In any run, a diff job that was completed is completed, or its row has
      gone, and it is never claimed again. */
  lemma {:induction false} CompletedDiffIsFinal(providers: set<string>, ts: seq<Tables>, es: seq<Event>, n: nat, m: nat,
                                                head: string, i: nat)
    requires IsRun(providers, ts, es) && n < m <= |es|
    requires es[n] == SupersedeDiff(head, i) || (es[n].CompleteDiff? && es[n].head == head && es[n].index == i)
    ensures Over(ts[m], head, i)
    ensures m < |es| ==> es[m] != ClaimDiff(head, i)
  {
    hide After, Enabled, Over;
    if n + 1 == m {
      OneDiffAtATime(providers, ts, es, n, head);
      CompletionIsOver(ts[n], providers, es[n], head, i);
    } else {
      CompletedDiffIsFinal(providers, ts, es, n, m - 1, head, i);
      StaysOver(ts[m - 1], providers, es[m - 1], head, i);
    }
    if m < |es| {
      StaysOver(ts[m], providers, es[m], head, i);
    }
  }

  /** The event ends the active diff job of a head. */
  predicate EndsDiff(t: Tables, e: Event, head: string) {
    match e
    case Remove => true
    case SupersedeDiff(h, i) => h == head && i < |DiffsOf(t, h)| && DiffsOf(t, h)[i] == Running
    case CompleteDiff(h, i, _, _) => h == head && i < |DiffsOf(t, h)| && DiffsOf(t, h)[i] == Running
    case _ => false
  }

  predicate IsPursued(t: Tables, head: string) {
    exists i :: 0 <= i < |DiffsOf(t, head)| && DiffsOf(t, head)[i] in {Queued, Running}
  }

  /** An active diff job is over exactly when it is completed or superseded, or
      its pull request goes: neither recovery nor another head ends it. */
  lemma PursuedUntilEnded(t: Tables, providers: set<string>, e: Event, head: string)
    requires Enabled(t, providers, e) && DiffsOk(t, head) && IsPursued(t, head)
    ensures IsPursued(After(t, providers, e), head) <==> !EndsDiff(t, e, head)
  {
    hide After, WithMembers, Reusable;
    DiffsMove(t, providers, e, head);
    var before, after := DiffsOf(t, head), DiffsOf(After(t, providers, e), head);
    var i :| 0 <= i < |before| && before[i] in {Queued, Running};
    if !EndsDiff(t, e, head) {
      assert HasActiveDiff(before);
      assert after[i] in {Queued, Running};
    }
  }

  /** A finalization has the diff collected exactly if neither an empty head nor
      usable evidence releases analysis; a job that is active already stays. */
  lemma FinalizationCollectsIff(t: Tables, providers: set<string>, head: string, members: set<string>, at: int)
    requires members != {}
    ensures IsPursued(After(t, providers, Finalize(head, members, at)), head) <==>
              IsPursued(t, head)
              || !(head == "" || (head in t.evidence && (t.evidence[head] == Complete || t.evidence[head] == Partial)))
  {
    hide After;
    var e := Finalize(head, members, at);
    DiffsMove(t, providers, e, head);
    assert WithMembers(t.(head := Some(head)), members).evidence == t.evidence;
    var before, after := DiffsOf(t, head), DiffsOf(After(t, providers, e), head);
    assert IsPursued(t, head) <==> HasActiveDiff(before);
    if !HasActiveDiff(before) {
      assert InsertDiff(before)[|before|] == Queued;
    }
  }

  /** In any run, a requested diff is pursued until an event ends it. */
  lemma {:induction false} RequestedDiffIsPursued(providers: set<string>, ts: seq<Tables>, es: seq<Event>, n: nat,
                                                  m: nat, head: string)
    requires IsRun(providers, ts, es) && n <= m <= |es| && IsPursued(ts[n], head)
    requires forall k :: n <= k < m ==> !EndsDiff(ts[k], es[k], head)
    ensures IsPursued(ts[m], head)
  {
    hide After, Enabled, IsPursued, EndsDiff;
    if n < m {
      RequestedDiffIsPursued(providers, ts, es, n, m - 1, head);
      OneDiffAtATime(providers, ts, es, m - 1, head);
      PursuedUntilEnded(ts[m - 1], providers, es[m - 1], head);
    }
  }

  // ----- Analysis jobs -----

  predicate IsActive(t: Tables, c: string, i: nat) {
    i < |JobsOf(t, c)| && JobsOf(t, c)[i].status in {Queued, Running}
  }

  /** The event completes the job: its worker does, or a finalization finds it
      queued for another head. */
  predicate Completes(t: Tables, e: Event, c: string, i: nat) {
    && i < |JobsOf(t, c)|
    && match e
       case CompleteAnalysis(d, k, _) => d == c && k == i
       case Finalize(head, members, _) =>
         c in members && JobsOf(t, c)[i].status == Queued && JobsOf(t, c)[i].head != head
       case _ => false
  }

  predicate Leaves(e: Event, c: string) {
    match e
    case Finalize(_, members, _) => c !in members
    case Remove => true
    case Unlink(d) => d == c
    case _ => false
  }

  lemma AskedStaysActive(js: seq<Job>, after: seq<Job>, head: string, forced: bool, at: int, i: nat)
    requires Asks(js, after, head, forced, at) && i < |js|
    ensures i < |after| && after[i].status == js[i].status
  {
  }

  lemma FinalizedJob(t: Tables, providers: set<string>, head: string, members: set<string>, at: int, c: string, i: nat)
    requires IsActive(t, c, i) && c in members
    ensures var u := EnqueueDiff(WithMembers(t.(head := Some(head)), members), providers, at);
            && i < |JobsOf(u, c)|
            && JobsOf(u, c)[i].status == if JobsOf(t, c)[i].status == Queued && JobsOf(t, c)[i].head != head
                                         then Completed else JobsOf(t, c)[i].status
  {
    hide EnqueueDiff, Asks, WithMembers;
    var s := WithMembers(t.(head := Some(head)), members);
    MembersKeepDiffs(t.(head := Some(head)), members);
    assert JobsOf(s, c) == JobsOf(t, c) by { MembersKeepJobs(t, head, members, c); }
    EnqueuedDiffIsExact(s, providers, at);
    var u := EnqueueDiff(s, providers, at);
    var asks := (head == "" || (head in s.evidence && s.evidence[head] in {Complete, Partial})) && c in providers;
    assert Settles(JobsOf(s, c), JobsOf(u, c), head, asks, at);
    var mid :| Cancels(JobsOf(s, c), mid, head)
               && if asks then Asks(mid, JobsOf(u, c), head, false, at) else JobsOf(u, c) == mid;
    if asks {
      AskedStaysActive(mid, JobsOf(u, c), head, false, at, i);
    }
  }

  lemma MembersKeepJobs(t: Tables, head: string, members: set<string>, c: string)
    requires c in members
    ensures JobsOf(WithMembers(t.(head := Some(head)), members), c) == JobsOf(t, c)
  {
  }

  /** An active analysis job of a member ends exactly when it is completed or its
      collection lets the pull request go: no request, reload, diff, crash or
      recovery drops it. */
  lemma AnalysisEndsIff(t: Tables, providers: set<string>, e: Event, c: string, i: nat)
    requires Enabled(t, providers, e) && c in t.members && IsActive(t, c, i)
    ensures var u := After(t, providers, e);
            && i < |JobsOf(u, c)|
            && (JobsOf(u, c)[i].status == Completed <==> Completes(t, e, c, i))
            && (JobsOf(u, c)[i].status == Deleted <==> Leaves(e, c))
            && (IsActive(u, c, i) <==> !Completes(t, e, c, i) && !Leaves(e, c))
  {
    hide EnqueueDiff, WithMembers, CompletedAnalysis, CompletedDiff, EnqueueFor, ReloadFor, Recovered, SetJob, Asks;
    var js, u := JobsOf(t, c), After(t, providers, e);
    match e {
      case Finalize(head, members, at) =>
        if c in members {
          FinalizedJob(t, providers, head, members, at, c, i);
        } else {
          FinalizedNonMember(t, providers, head, members, at, c);
          FinalizedLength(t, providers, head, members, at, c);
        }
      case Remove => LeavingDeletes(t, {}, c);
      case Unlink(d) =>
        if d == c { LeavingDeletes(t, t.members - {d}, c); } else { StayingKeeps(t, t.members - {d}, c); }
      case Reload(collections, at) => ReloadForAt(t, providers, collections, at, c);
      case Request(d, forced, at) => RequestKeeps(t, providers, d, forced, at, c, i);
      case CompleteDiff(h, k, completeness, at) =>
        CompletedDiffIsExact(t, providers, h, k, completeness, at);
        if t.head == Some(h) && c in providers {
          AskedStaysActive(js, JobsOf(u, c), h, false, at, i);
        }
      case ClaimAnalysis(d, k, _) => SetJobAt(t, d, k, JobsOf(t, d)[k].(status := Running, started := true), c);
      case CompleteAnalysis(d, k, at) => CompletionKeeps(t, providers, d, k, at, c, i);
      case Requeue(d, k, at) =>
        SetJobAt(t, d, k, JobsOf(t, d)[k].(status := Queued, started := false, scheduledFor := at), c);
      case RecoverAnalysis => RecoveredAt(t, c, i);
      case _ =>
    }
  }

  lemma RequestKeeps(t: Tables, providers: set<string>, d: string, forced: bool, at: int, c: string, i: nat)
    requires IsActive(t, c, i)
    ensures var u := EnqueueFor(t, providers, {d}, forced, at);
            i < |JobsOf(u, c)| && JobsOf(u, c)[i].status == JobsOf(t, c)[i].status
  {
    hide EnqueueFor;
    EnqueueForAt(t, providers, {d}, forced, at, c);
  }

  lemma CompletionKeeps(t: Tables, providers: set<string>, d: string, k: nat, at: int, c: string, i: nat)
    requires HoldsJob(t, d, k) && IsActive(t, c, i)
    ensures var u := CompletedAnalysis(t, providers, d, k, at);
            && i < |JobsOf(u, c)|
            && JobsOf(u, c)[i].status == if d == c && k == i then Completed else JobsOf(t, c)[i].status
  {
    hide CompletedAnalysis, Asks;
    CompletedAnalysisIsExact(t, providers, d, k, at);
    var u, job := CompletedAnalysis(t, providers, d, k, at), JobsOf(t, d)[k];
    if d == c && job.status != Deleted {
      var js := JobsOf(t, c)[k := job.(status := Completed)];
      if JobsOf(u, c) != js {
        AskedStaysActive(js, JobsOf(u, c), t.head.value, false, at, i);
      }
    }
  }

  lemma RecoveredAt(t: Tables, c: string, i: nat)
    requires IsActive(t, c, i)
    ensures var u := t.(jobs := map d | d in t.jobs :: Recovered(t.jobs[d]));
            i < |JobsOf(u, c)| && JobsOf(u, c)[i].status == Queued
  {
    assert JobsOf(t.(jobs := map d | d in t.jobs :: Recovered(t.jobs[d])), c) == Recovered(JobsOf(t, c));
  }

  lemma LeavingDeletes(t: Tables, members: set<string>, c: string)
    requires c !in members
    ensures var u := WithMembers(t, members);
            |JobsOf(u, c)| == |JobsOf(t, c)| && forall i :: 0 <= i < |JobsOf(u, c)| ==>
              JobsOf(u, c)[i].status == Deleted
  {
    assert c in t.jobs ==> JobsOf(WithMembers(t, members), c) == Gone(JobsOf(t, c));
  }

  lemma StayingKeeps(t: Tables, members: set<string>, c: string)
    requires c in members
    ensures JobsOf(WithMembers(t, members), c) == JobsOf(t, c)
  {
  }

  lemma FinalizedLength(t: Tables, providers: set<string>, head: string, members: set<string>, at: int, c: string)
    requires c !in members
    ensures |JobsOf(EnqueueDiff(WithMembers(t.(head := Some(head)), members), providers, at), c)| == |JobsOf(t, c)|
  {
    hide EnqueueDiff, Asks, WithMembers;
    var s := WithMembers(t.(head := Some(head)), members);
    LeavingDeletes(t.(head := Some(head)), members, c);
    MembersKeepDiffs(t.(head := Some(head)), members);
    EnqueuedDiffIsExact(s, providers, at);
    assert Settles(JobsOf(s, c), JobsOf(EnqueueDiff(s, providers, at), c), head, false, at);
    assert JobsOf(t.(head := Some(head)), c) == JobsOf(t, c);
  }

  // ----- Collections that have left -----

  predicate HasNothing(t: Tables, c: string) {
    && (forall i :: 0 <= i < |JobsOf(t, c)| ==> JobsOf(t, c)[i].status == Deleted)
    && c !in t.attempts && c !in t.results
  }

  /** A collection that does not hold the pull request has neither jobs nor
      results of it. */
  lemma NonMembersStayEmpty(t: Tables, providers: set<string>, e: Event, c: string)
    requires Enabled(t, providers, e) && (c !in t.members ==> HasNothing(t, c))
    requires c !in After(t, providers, e).members
    ensures HasNothing(After(t, providers, e), c)
  {
    hide EnqueueDiff, WithMembers, CompletedAnalysis, CompletedDiff, EnqueueFor, ReloadFor, Recovered, SetJob;
    var u := After(t, providers, e);
    match e {
      case Finalize(head, members, at) => FinalizedNonMember(t, providers, head, members, at, c);
      case Remove =>
        LeavingTakesAll(t, {}, c);
        EqualRowsAreNothing(WithMembers(t, {}), u, c);
      case Unlink(d) =>
        MembersKeepDiffs(t, t.members - {d});
        LeavingTakesAll(t, t.members - {d}, c);
      case Reload(collections, at) => ReloadForAt(t, providers, collections, at, c);
      case Request(d, forced, at) => EnqueueForAt(t, providers, {d}, forced, at, c);
      case CompleteDiff(h, i, completeness, at) => CompletedDiffIsExact(t, providers, h, i, completeness, at);
      case ClaimAnalysis(d, i, _) => SetJobAt(t, d, i, JobsOf(t, d)[i].(status := Running, started := true), c);
      case CompleteAnalysis(d, i, at) => CompletedAnalysisIsExact(t, providers, d, i, at);
      case Requeue(d, i, at) =>
        SetJobAt(t, d, i, JobsOf(t, d)[i].(status := Queued, started := false, scheduledFor := at), c);
      case RecoverAnalysis => RecoveredKeepsDeleted(t, c);
      case _ => EqualRowsAreNothing(t, u, c);
    }
  }

  lemma EqualRowsAreNothing(t: Tables, u: Tables, c: string)
    requires HasNothing(t, c) && u.jobs == t.jobs
    requires (c in u.attempts ==> c in t.attempts) && (c in u.results ==> c in t.results)
    ensures HasNothing(u, c)
  {
    assert JobsOf(u, c) == JobsOf(t, c);
  }

  lemma RecoveredKeepsDeleted(t: Tables, c: string)
    requires HasNothing(t, c)
    ensures HasNothing(t.(jobs := map d | d in t.jobs :: Recovered(t.jobs[d])), c)
  {
    var u := t.(jobs := map d | d in t.jobs :: Recovered(t.jobs[d]));
    assert c in t.jobs ==> JobsOf(u, c) == Recovered(JobsOf(t, c));
  }

  lemma LeavingTakesAll(t: Tables, members: set<string>, c: string)
    requires c !in members
    ensures HasNothing(WithMembers(t, members), c)
  {
    assert c in t.jobs ==> JobsOf(WithMembers(t, members), c) == Gone(JobsOf(t, c));
  }

  lemma FinalizedNonMember(t: Tables, providers: set<string>, head: string, members: set<string>, at: int, c: string)
    ensures var u := EnqueueDiff(WithMembers(t.(head := Some(head)), members), providers, at);
            u.members == members && (c !in members ==> HasNothing(u, c))
  {
    hide EnqueueDiff, Asks, JobsOf;
    var s := WithMembers(t.(head := Some(head)), members);
    EnqueuedDiffIsExact(s, providers, at);
    if c !in members {
      LeavingTakesAll(t.(head := Some(head)), members, c);
      var u := EnqueueDiff(s, providers, at);
      assert Settles(JobsOf(s, c), JobsOf(u, c), head, false, at);
    }
  }

  /** In every run, a collection that does not hold the pull request has no job
      whose row is still there, no attempt and no result. */
  lemma {:induction false} NonMembersHaveNothing(providers: set<string>, ts: seq<Tables>, es: seq<Event>, n: nat,
                                                 c: string)
    requires IsRun(providers, ts, es) && n <= |es| && c !in ts[n].members
    ensures HasNothing(ts[n], c)
  {
    hide After, Enabled, HasNothing;
    if n == 0 {
      NothingAtFirst(c);
    } else {
      if c !in ts[n - 1].members {
        NonMembersHaveNothing(providers, ts, es, n - 1, c);
      }
      NonMembersStayEmpty(ts[n - 1], providers, es[n - 1], c);
    }
  }

  lemma NothingAtFirst(c: string)
    ensures HasNothing(NOTHING, c)
  {
  }
}
