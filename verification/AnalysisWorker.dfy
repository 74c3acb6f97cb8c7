/** One claimed analysis job: what the worker makes of its inputs and of the
    providers' answers, and what it leaves in the store. */
module AnalysisWorker {
  import opened Wrappers
  import opened Handoff

  /** A provider is absent or failed, or its answer has no valid section, some,
      or only valid ones. */
  datatype Answer = ProviderFailed | NothingValid | SomeValid | AllValid

  datatype AttemptStatus = CompleteAttempt | PartialAttempt | UnknownAttempt | FailedAttempt

  predicate Usable(a: Answer) {
    a == SomeValid || a == AllValid
  }

  predicate Decided(status: AttemptStatus) {
    status == CompleteAttempt || status == PartialAttempt
  }

  /** The status the first `n` answers lead to. */
  function Verdict(answers: seq<Answer>, n: nat): AttemptStatus
    requires n <= |answers|
  {
    if n == 0 then FailedAttempt
    else if Decided(Verdict(answers, n - 1)) then Verdict(answers, n - 1)
    else match answers[n - 1]
      case ProviderFailed => FailedAttempt
      case NothingValid => UnknownAttempt
      case SomeValid => PartialAttempt
      case AllValid => CompleteAttempt
  }

  lemma {:induction false} VerdictStands(answers: seq<Answer>, m: nat, n: nat)
    requires m <= n <= |answers| && Decided(Verdict(answers, m))
    ensures Verdict(answers, n) == Verdict(answers, m)
  {
    if m < n {
      VerdictStands(answers, m, n - 1);
    }
  }

  /** The first usable answer decides; without one, the last failure does. */
  method AskProviders(answers: seq<Answer>) returns (used: Option<nat>, status: AttemptStatus)
    requires answers != []
    ensures used.Some? ==> used.value < |answers| && Usable(answers[used.value]) && forall i :: 0 <= i < used.value ==>
              !Usable(answers[i])
    ensures used.None? ==> forall i :: 0 <= i < |answers| ==> !Usable(answers[i])
    ensures status == Verdict(answers, |answers|)
    ensures status == CompleteAttempt <==> used.Some? && answers[used.value] == AllValid
    ensures status == PartialAttempt <==> used.Some? && answers[used.value] == SomeValid
    ensures status == UnknownAttempt <==> used.None? && answers[|answers| - 1] == NothingValid
  {
    var schemaFailure := false;
    for i := 0 to |answers|
      invariant forall k :: 0 <= k < i ==> !Usable(answers[k])
      invariant i > 0 ==> (schemaFailure <==> answers[i - 1] == NothingValid)
      invariant Verdict(answers, i) == if schemaFailure then UnknownAttempt else FailedAttempt
    {
      match answers[i] {
        case ProviderFailed => schemaFailure := false;
        case NothingValid => schemaFailure := true;
        case SomeValid =>
          VerdictStands(answers, i + 1, |answers|);
          return Some(i), PartialAttempt;
        case AllValid =>
          VerdictStands(answers, i + 1, |answers|);
          return Some(i), CompleteAttempt;
      }
    }
    return None, if schemaFailure then UnknownAttempt else FailedAttempt;
  }

  /** How a claimed job ended. */
  datatype End = Superseded | Skipped | PutBack | Attempted(status: AttemptStatus)

  /** Runs one claimed job against the current head. It leaves an attempt, and
      with a valid section a result, exactly when the head is still the job's
      own, the last analysis is not already current, and the collection still
      holds the pull request. Then, as for a superseded or skipped job, it is
      completed, so that a newer head is asked for; otherwise it is put back. */
  method RunJob(store: Store, c: string, i: nat, current: bool, buildable: bool, answers: seq<Answer>, at: int,
                later: int)
    returns (end: End)
    requires i < |JobsOf(store.View(), c)| && answers != []
    modifies store
    ensures var t := old(store.View());
            var job := JobsOf(t, c)[i];
            && (end == Superseded <==> t.head != Some(job.head))
            && (end == Skipped <==>
                t.head == Some(job.head) && buildable && Terminal(t, job.head) && current && !job.forced)
            && (end == PutBack <==> end != Superseded && end != Skipped && c !in t.members)
            && (end.Attempted? ==> end.status == if buildable && Terminal(t, job.head) then Verdict(answers, |answers|)
                else FailedAttempt)
            && store.View() ==
                 if end.Attempted?
                     then CompletedAnalysis(Recorded(t, c, job.head, Decided(end.status)), store.providers, c, i, at)
                 else if end.PutBack? then
                   if job.status == Running
                       then SetJob(t, c, i, job.(status := Queued, started := false, scheduledFor := later)) else t
                 else CompletedAnalysis(t, store.providers, c, i, at)
  {
    var job := store.jobs[c][i];
    ghost var t := store.View();
    // The request is built from the current head and its terminal evidence.
    var isCurrent := store.head == Some(job.head);
    var terminal := job.head == "" || job.head in store.evidence;
    var status := FailedAttempt;
    if isCurrent && terminal && buildable {
      if !job.forced && current {
        store.CompleteAnalysisJob(c, i, at);
        return Skipped;
      }
      var used;
      used, status := AskProviders(answers);
    }
    // A build failure and an answer are both recorded behind the same guard.
    var recorded := store.RecordAttempt(c, job.head, Decided(status));
    assert JobsOf(store.View(), c) == JobsOf(t, c);
    if recorded.Err? {
      store.RequeueAnalysisJob(c, i, later);
      return PutBack;
    }
    store.CompleteAnalysisJob(c, i, at);
    end := if recorded.value then Attempted(status) else Superseded;
  }
}
