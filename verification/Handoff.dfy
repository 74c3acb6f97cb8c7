/** The hand-off from diff collection to analysis of one pull request.

    No statement of either queue relates two pull requests, except that a claim
    takes the earliest due job. The tables are therefore restricted to one pull
    request: diff jobs by head, analysis jobs by collection, each in the order
    of their ids. A row removed by a cascade stays as `Deleted`, because a
    worker may still hold its id. Attempts and results are kept as the heads
    they were made for. */
module Handoff {
  import opened Wrappers

  datatype Completeness = Complete | Partial | Unavailable

  datatype Status = Queued | Running | Completed | Deleted

  /** `started` is whether `started_at` is set. */
  datatype Job = Job(head: string, status: Status, forced: bool, started: bool, scheduledFor: int)

  datatype Tables = Tables(
    head: Option<string>, members: set<string>, evidence: map<string, Completeness>,
    diffs: map<string, seq<Status>>, jobs: map<string, seq<Job>>,
    attempts: map<string, string>, results: map<string, string>)

  const NOTHING := Tables(None, {}, map[], map[], map[], map[], map[])

  predicate ActiveStatus(status: Status) {
    status == Queued || status == Running
  }

  function JobsOf(t: Tables, c: string): seq<Job> {
    if c in t.jobs then t.jobs[c] else []
  }

  function DiffsOf(t: Tables, head: string): seq<Status> {
    if head in t.diffs then t.diffs[head] else []
  }

  predicate HasActive(js: seq<Job>) {
    exists i :: 0 <= i < |js| && ActiveStatus(js[i].status)
  }

  predicate HasActiveDiff(statuses: seq<Status>) {
    exists i :: 0 <= i < |statuses| && ActiveStatus(statuses[i])
  }

  // ----- Analysis queue -----

  function Refreshed(j: Job, head: string, forced: bool, at: int): Job {
    if j.status != Queued then j
    else j.(head := head, forced := j.forced || forced, scheduledFor := if at < j.scheduledFor then at
            else j.scheduledFor)
  }

  /** Inserts a job unless one is active, then moves a queued one to the
      current head. A running one is left as it is. */
  function Enqueued(js: seq<Job>, head: string, forced: bool, at: int): (after: seq<Job>)
    ensures |after| == |js| + (if HasActive(js) then 0 else 1)
    ensures forall i :: 0 <= i < |js| ==> after[i] == Refreshed(js[i], head, forced, at)
    ensures !HasActive(js) ==> after[|js|] == Job(head, Queued, forced, false, at)
  {
    var inserted := if HasActive(js) then js else js + [Job(head, Queued, forced, false, at)];
    seq(|inserted|, i requires 0 <= i < |inserted| => Refreshed(inserted[i], head, forced, at))
  }

  function EnqueueFor(t: Tables, providers: set<string>, collections: set<string>, forced: bool, at: int): Tables {
    if t.head.None? then t
    else t.(jobs := map c | c in t.jobs.Keys + collections ::
      if c in collections && c in providers then Enqueued(JobsOf(t, c), t.head.value, forced, at) else JobsOf(t, c))
  }

  predicate Terminal(t: Tables, head: string) {
    head == "" || head in t.evidence
  }

  /** Cached evidence that releases analysis without another collection. */
  predicate Reusable(t: Tables, head: string) {
    head == "" || (head in t.evidence && t.evidence[head] != Unavailable)
  }

  function Cancelled(js: seq<Job>, head: string): seq<Job> {
    seq(|js|, i requires 0 <= i < |js| => if js[i].status == Queued && js[i].head != head
        then js[i].(status := Completed) else js[i])
  }

  function InsertDiff(statuses: seq<Status>): seq<Status> {
    if HasActiveDiff(statuses) then statuses else statuses + [Queued]
  }

  /** What finalization asks for: cancel queued analysis of other heads, then
      release analysis from cached evidence, or collect the diff again. */
  function EnqueueDiff(t: Tables, providers: set<string>, at: int): Tables {
    if t.head.None? then t
    else
      var head := t.head.value;
      var u := t.(jobs := map c | c in t.jobs :: Cancelled(t.jobs[c], head));
      if Reusable(u, head) then EnqueueFor(u, providers, u.members, false, at)
      else u.(diffs := u.diffs[head := InsertDiff(DiffsOf(u, head))])
  }

  function Gone(js: seq<Job>): seq<Job> {
    seq(|js|, i requires 0 <= i < |js| => js[i].(status := Deleted))
  }

  function Erase(statuses: seq<Status>): seq<Status> {
    seq(|statuses|, i requires 0 <= i < |statuses| => Deleted)
  }

  function WithMembers(t: Tables, members: set<string>): Tables {
    t.(members := members, jobs := map c | c in t.jobs :: if c in members then t.jobs[c] else Gone(t.jobs[c]),
       attempts := map c | c in t.attempts && c in members :: t.attempts[c],
       results := map c | c in t.results && c in members :: t.results[c])
  }

  /** A reload inserts jobs for the members whose diff is known, and leaves
      every active job as it is. */
  function Inserted(js: seq<Job>, head: string, at: int): seq<Job> {
    if HasActive(js) then js else js + [Job(head, Queued, false, false, at)]
  }

  function ReloadFor(t: Tables, providers: set<string>, collections: set<string>, at: int): Tables {
    if t.head.None? || !Reusable(t, t.head.value) then t
    else t.(jobs := map c | c in t.jobs.Keys + collections ::
      if c in collections && c in providers && c in t.members then Inserted(JobsOf(t, c), t.head.value, at)
          else JobsOf(t, c))
  }

  // ----- Events -----

  datatype Event =
    | PublishBatch(head: string, collections: set<string>)
    | Finalize(head: string, members: set<string>, at: int)
    | Remove
    | Unlink(collection: string)
    | Reload(collections: set<string>, at: int)
    | Request(collection: string, forced: bool, at: int)
    | ClaimDiff(head: string, index: nat)
    | SupersedeDiff(head: string, index: nat)
    | CompleteDiff(head: string, index: nat, completeness: Completeness, at: int)
    | RecoverDiffs
    | ClaimAnalysis(collection: string, index: nat, now: int)
    | Record(collection: string, index: nat, valid: bool)
    | CompleteAnalysis(collection: string, index: nat, at: int)
    | Requeue(collection: string, index: nat, at: int)
    | RecoverAnalysis

  /** A worker's job is running, unless its row has gone. */
  predicate Claimed(status: Status) {
    status == Running || status == Deleted
  }

  predicate HoldsJob(t: Tables, c: string, i: nat) {
    i < |JobsOf(t, c)| && Claimed(JobsOf(t, c)[i].status)
  }

  predicate HoldsDiff(t: Tables, head: string, i: nat) {
    i < |DiffsOf(t, head)| && Claimed(DiffsOf(t, head)[i])
  }

  predicate Claimable(t: Tables, providers: set<string>, c: string, i: nat, now: int) {
    && i < |JobsOf(t, c)| && c in providers && t.head.Some?
    && var j := JobsOf(t, c)[i];
       j.status == Queued && j.scheduledFor <= now && j.head == t.head.value && Terminal(t, t.head.value)
  }

  predicate Enabled(t: Tables, providers: set<string>, e: Event) {
    match e
    case PublishBatch(_, _) => true
    case Finalize(_, members, _) => members != {}
    case Remove => true
    case Unlink(_) => true
    case Reload(_, _) => true
    case Request(c, _, _) => c in t.members && c in providers && t.head.Some?
    case ClaimDiff(head, i) => i < |DiffsOf(t, head)| && DiffsOf(t, head)[i] == Queued
    case SupersedeDiff(head, i) => HoldsDiff(t, head, i)
    case CompleteDiff(head, i, _, _) => HoldsDiff(t, head, i)
    case RecoverDiffs => true
    case ClaimAnalysis(c, i, now) => Claimable(t, providers, c, i, now)
    case Record(c, i, _) => HoldsJob(t, c, i) && t.head == Some(JobsOf(t, c)[i].head) && c in t.members
    case CompleteAnalysis(c, i, _) => HoldsJob(t, c, i)
    case Requeue(c, i, _) => HoldsJob(t, c, i)
    case RecoverAnalysis => true
  }

  function SetDiff(t: Tables, head: string, i: nat, status: Status): Tables
    requires i < |DiffsOf(t, head)|
  {
    if DiffsOf(t, head)[i] == Deleted then t else t.(diffs := t.diffs[head := DiffsOf(t, head)[i := status]])
  }

  function SetJob(t: Tables, c: string, i: nat, j: Job): Tables
    requires i < |JobsOf(t, c)|
  {
    if JobsOf(t, c)[i].status == Deleted then t else t.(jobs := t.jobs[c := JobsOf(t, c)[i := j]])
  }

  /** A diff result is cached, and releases analysis if its head is current. */
  function CompletedDiff(t: Tables, providers: set<string>, head: string, i: nat, completeness: Completeness,
                         at: int): Tables
    requires i < |DiffsOf(t, head)|
  {
    if t.head.None? then t
    else
      var u := SetDiff(t.(evidence := t.evidence[head := completeness]), head, i, Completed);
      if u.head.value == head then EnqueueFor(u, providers, u.members, false, at) else u
  }

  /** A completed job that ran for an older head asks for the current one. */
  function CompletedAnalysis(t: Tables, providers: set<string>, c: string, i: nat, at: int): Tables
    requires i < |JobsOf(t, c)|
  {
    var j := JobsOf(t, c)[i];
    if j.status == Deleted then t
    else
      var u := SetJob(t, c, i, j.(status := Completed));
      if u.head.Some? && u.head.value != j.head && Terminal(u, u.head.value)
          then EnqueueFor(u, providers, {c}, false, at) else u
  }

  /** An attempt is remembered, and with a valid section also its result. */
  function Recorded(t: Tables, c: string, head: string, valid: bool): Tables {
    t.(attempts := t.attempts[c := head], results := if valid then t.results[c := head] else t.results)
  }

  function Recovered(js: seq<Job>): seq<Job> {
    seq(|js|, i requires 0 <= i < |js| => if js[i].status == Running then js[i].(status := Queued, started := false)
        else js[i])
  }

  function RecoveredDiffs(statuses: seq<Status>): seq<Status> {
    seq(|statuses|, i requires 0 <= i < |statuses| => if statuses[i] == Running then Queued else statuses[i])
  }

  function After(t: Tables, providers: set<string>, e: Event): Tables
    requires Enabled(t, providers, e)
  {
    match e
    case PublishBatch(head, collections) => t.(head := Some(head), members := t.members + collections)
    case Finalize(head, members, at) => EnqueueDiff(WithMembers(t.(head := Some(head)), members), providers, at)
    case Remove => WithMembers(t, {}).(head := None, evidence := map[], diffs := map h | h in t.diffs ::
                                       Erase(t.diffs[h]))
    case Unlink(c) => WithMembers(t, t.members - {c})
    case Reload(collections, at) => ReloadFor(t, providers, collections, at)
    case Request(c, forced, at) => EnqueueFor(t, providers, {c}, forced, at)
    case ClaimDiff(head, i) => SetDiff(t, head, i, Running)
    case SupersedeDiff(head, i) => SetDiff(t, head, i, Completed)
    case CompleteDiff(head, i, completeness, at) => CompletedDiff(t, providers, head, i, completeness, at)
    case RecoverDiffs => t.(diffs := map h | h in t.diffs :: RecoveredDiffs(t.diffs[h]))
    case ClaimAnalysis(c, i, _) => SetJob(t, c, i, JobsOf(t, c)[i].(status := Running, started := true))
    case Record(c, i, valid) => Recorded(t, c, JobsOf(t, c)[i].head, valid)
    case CompleteAnalysis(c, i, at) => CompletedAnalysis(t, providers, c, i, at)
    case Requeue(c, i, at) => SetJob(t, c, i, JobsOf(t, c)[i].(status := Queued, started := false, scheduledFor := at))
    case RecoverAnalysis => t.(jobs := map c | c in t.jobs :: Recovered(t.jobs[c]))
  }

  predicate IsRun(providers: set<string>, ts: seq<Tables>, es: seq<Event>) {
    && |ts| == |es| + 1 && ts[0] == NOTHING
    && forall i :: 0 <= i < |es| ==> Enabled(ts[i], providers, es[i]) && ts[i + 1] == After(ts[i], providers, es[i])
  }

  // ----- What is known about one collection -----

  /** `released`: a diff job completed for the current head, or finalization
      reused its evidence, and neither the head nor the membership has changed
      nor the diff been asked for again since. `stranded`: a job that ran for
      an older head has since been put back into the queue. */
  datatype Mark = Mark(released: bool, stranded: bool)

  predicate RunsStale(t: Tables, js: seq<Job>) {
    exists i :: 0 <= i < |js| && js[i].status == Running && t.head != Some(js[i].head)
  }

  predicate StaleAt(t: Tables, c: string, i: nat) {
    i < |JobsOf(t, c)| && JobsOf(t, c)[i].status == Running && t.head != Some(JobsOf(t, c)[i].head)
  }

  function Note(m: Mark, t: Tables, e: Event, u: Tables, c: string): Mark {
    if t.head != u.head || c !in t.members || c !in u.members then
      Mark(e.Finalize? && c in u.members && u.head.Some? && Reusable(u, u.head.value), false)
    else match e
      case Finalize(head, _, _) => Mark(Reusable(u, head), false)
      case CompleteDiff(head, _, _, _) => if t.head == Some(head) then Mark(true, false) else m
      case Request(d, _, _) => if d == c then m.(stranded := false) else m
      case Requeue(d, i, _) => if d == c && StaleAt(t, c, i) then m.(stranded := true) else m
      case RecoverAnalysis => if RunsStale(t, JobsOf(t, c)) then m.(stranded := true) else m
      case _ => m
  }

  function Past(ts: seq<Tables>, es: seq<Event>, n: nat, c: string): Mark
    requires n <= |es| < |ts|
  {
    if n == 0 then Mark(false, false) else Note(Past(ts, es, n - 1, c), ts[n - 1], es[n - 1], ts[n], c)
  }

  predicate OneActive(js: seq<Job>) {
    forall i, k :: 0 <= i < k < |js| ==> !(ActiveStatus(js[i].status) && ActiveStatus(js[k].status))
  }

  predicate QueuedAt(js: seq<Job>, head: string) {
    exists i :: 0 <= i < |js| && js[i].status == Queued && js[i].head == head
  }

  predicate IsRunning(js: seq<Job>) {
    exists i :: 0 <= i < |js| && js[i].status == Running
  }

  /** A job that was claimed for this head has completed. */
  predicate DoneAt(js: seq<Job>, head: string) {
    exists i :: 0 <= i < |js| && js[i].status == Completed && js[i].started && js[i].head == head
  }

  /** A running job has been started, and a queued or cancelled one has not. */
  predicate StartedOk(js: seq<Job>) {
    forall i :: 0 <= i < |js| ==>
        (js[i].status == Running ==> js[i].started) && (js[i].status == Queued ==> !js[i].started)
  }

  predicate Awake(t: Tables, c: string, m: Mark) {
    && OneActive(JobsOf(t, c)) && StartedOk(JobsOf(t, c))
    && (m.released ==>
          && t.head.Some? && c in t.members && Terminal(t, t.head.value)
          && (HasActive(JobsOf(t, c)) || DoneAt(JobsOf(t, c), t.head.value))
          && (m.stranded || QueuedAt(JobsOf(t, c), t.head.value) || IsRunning(JobsOf(t, c))
              || DoneAt(JobsOf(t, c), t.head.value)))
  }

  /** Enqueueing keeps one active job, and leaves a running one or one queued
      for the head it was asked for. */
  lemma EnqueuedIsUsable(js: seq<Job>, head: string, forced: bool, at: int)
    requires OneActive(js) && StartedOk(js)
    ensures var after := Enqueued(js, head, forced, at);
            && OneActive(after) && StartedOk(after) && HasActive(after)
            && (QueuedAt(after, head) || IsRunning(after))
            && (forall h :: DoneAt(js, h) ==> DoneAt(after, h))
  {
    hide Enqueued;
    var after := Enqueued(js, head, forced, at);
    if HasActive(js) {
      var i :| 0 <= i < |js| && ActiveStatus(js[i].status);
      assert ActiveStatus(after[i].status);
    } else {
      assert after[|js|].status == Queued && after[|js|].head == head;
    }
    forall h | DoneAt(js, h) ensures DoneAt(after, h) {
      var i :| 0 <= i < |js| && js[i].status == Completed && js[i].started && js[i].head == h;
      assert after[i] == js[i];
    }
  }

  /** Enqueueing works on each collection alone. */
  lemma EnqueueForAt(t: Tables, providers: set<string>, collections: set<string>, forced: bool, at: int, c: string)
    ensures var u := EnqueueFor(t, providers, collections, forced, at);
            && u == t.(jobs := u.jobs)
            && JobsOf(u, c) == if t.head.Some? && c in collections && c in providers
                 then Enqueued(JobsOf(t, c), t.head.value, forced, at) else JobsOf(t, c)
  {
  }

  /** So does a reload, which moves no queued job to another head. */
  lemma ReloadedIsUsable(js: seq<Job>, head: string, at: int)
    requires OneActive(js) && StartedOk(js)
    ensures var after := Inserted(js, head, at);
            && OneActive(after) && StartedOk(after) && HasActive(after)
            && (forall h :: DoneAt(js, h) ==> DoneAt(after, h)) && (forall h :: QueuedAt(js, h) ==> QueuedAt(after, h))
            && (IsRunning(js) ==> IsRunning(after)) && (!HasActive(js) ==> QueuedAt(after, head))
  {
    var after := Inserted(js, head, at);
    if !HasActive(js) {
      assert after[|js|].status == Queued && after[|js|].head == head;
      assert ActiveStatus(after[|js|].status);
      forall h | DoneAt(js, h) ensures DoneAt(after, h) {
        var i :| 0 <= i < |js| && js[i].status == Completed && js[i].started && js[i].head == h;
        assert after[i] == js[i];
      }
    }
  }

  lemma ReloadForAt(t: Tables, providers: set<string>, collections: set<string>, at: int, c: string)
    ensures var u := ReloadFor(t, providers, collections, at);
            && u == t.(jobs := u.jobs)
            && JobsOf(u, c) == if t.head.Some? && Reusable(t, t.head.value) && c in collections && c in providers
            && c in t.members
                 then Inserted(JobsOf(t, c), t.head.value, at) else JobsOf(t, c)
  {
  }

  lemma CancelledKeeps(js: seq<Job>, head: string)
    requires OneActive(js) && StartedOk(js)
    ensures var after := Cancelled(js, head);
            && OneActive(after) && StartedOk(after) && (forall h :: DoneAt(js, h) ==> DoneAt(after, h))
  {
    var after := Cancelled(js, head);
    forall h | DoneAt(js, h) ensures DoneAt(after, h) {
      var i :| 0 <= i < |js| && js[i].status == Completed && js[i].started && js[i].head == h;
      assert after[i] == js[i];
    }
  }

  /** What an asked-for collection of the diff means for one collection. */
  lemma EnqueueDiffAt(t: Tables, providers: set<string>, at: int, c: string)
    requires t.head.Some? && OneActive(JobsOf(t, c)) && StartedOk(JobsOf(t, c))
    ensures var u, head := EnqueueDiff(t, providers, at), t.head.value;
            && u.head == t.head && u.members == t.members && u.evidence == t.evidence
            && OneActive(JobsOf(u, c)) && StartedOk(JobsOf(u, c))
            && (Reusable(t, head) && c in t.members && c in providers ==>
                  HasActive(JobsOf(u, c)) && (QueuedAt(JobsOf(u, c), head) || IsRunning(JobsOf(u, c))))
  {
    hide Enqueued, EnqueueFor, Cancelled, OneActive, StartedOk;
    var head := t.head.value;
    var u := t.(jobs := map c | c in t.jobs :: Cancelled(t.jobs[c], head));
    assert JobsOf(u, c) == Cancelled(JobsOf(t, c), head) by { NothingToCancel(head); }
    CancelledKeeps(JobsOf(t, c), head);
    EnqueueForAt(u, providers, u.members, false, at, c);
    EnqueuedIsUsable(JobsOf(u, c), head, false, at);
  }

  lemma NothingToCancel(head: string)
    ensures Cancelled([], head) == []
  {
  }

  /** A changed job list in which nobody became active beside another. */
  ghost predicate Moved(js: seq<Job>, i: nat, j: Job) {
    && i < |js|
    && (ActiveStatus(j.status) ==> ActiveStatus(js[i].status))
    && (j.status == Running ==> j.started) && (j.status == Queued ==> !j.started)
  }

  lemma MovedKeeps(js: seq<Job>, i: nat, j: Job, head: string)
    requires OneActive(js) && StartedOk(js) && Moved(js, i, j) && js[i].status != Completed
    ensures OneActive(js[i := j]) && StartedOk(js[i := j])
    ensures DoneAt(js, head) ==> DoneAt(js[i := j], head)
    ensures ActiveStatus(j.status) && HasActive(js) ==> HasActive(js[i := j])
    ensures ActiveStatus(js[i].status) ==> forall k :: 0 <= k < |js| && k != i ==> !ActiveStatus(js[k].status)
  {
    var after := js[i := j];
    if DoneAt(js, head) {
      var k :| 0 <= k < |js| && js[k].status == Completed && js[k].started && js[k].head == head;
      assert after[k] == js[k];
    }
    if ActiveStatus(j.status) {
      assert ActiveStatus(after[i].status);
    }
  }

  lemma SetJobAt(t: Tables, c: string, i: nat, j: Job, d: string)
    requires i < |JobsOf(t, c)|
    ensures var u := SetJob(t, c, i, j);
            && u == t.(jobs := u.jobs)
            && JobsOf(u, d) == if d == c && JobsOf(t, c)[i].status != Deleted then JobsOf(t, c)[i := j]
                else JobsOf(t, d)
  {
  }

  ghost predicate Live(t: Tables, c: string) {
    OneActive(JobsOf(t, c)) && StartedOk(JobsOf(t, c))
  }

  /** Everything a mark promises while it says `released`. */
  ghost predicate Served(t: Tables, c: string, stranded: bool)
    requires t.head.Some?
  {
    && (HasActive(JobsOf(t, c)) || DoneAt(JobsOf(t, c), t.head.value))
    && (stranded || QueuedAt(JobsOf(t, c), t.head.value) || IsRunning(JobsOf(t, c))
        || DoneAt(JobsOf(t, c), t.head.value))
  }

  lemma ClaimStaysServed(t: Tables, providers: set<string>, c: string, i: nat, now: int, d: string, stranded: bool)
    requires Claimable(t, providers, c, i, now) && Live(t, d)
    ensures var u := After(t, providers, ClaimAnalysis(c, i, now));
            && u == t.(jobs := u.jobs) && Live(u, d)
            && (Served(t, d, stranded) ==> Served(u, d, stranded))
  {
    hide SetJob, OneActive, StartedOk;
    var j := JobsOf(t, c)[i].(status := Running, started := true);
    SetJobAt(t, c, i, j, d);
    if d == c {
      MovedKeeps(JobsOf(t, c), i, j, t.head.value);
      assert JobsOf(t, c)[i := j][i].status == Running;
    }
  }

  lemma CompletionStaysServed(t: Tables, providers: set<string>, c: string, i: nat, at: int, d: string, stranded: bool)
    requires HoldsJob(t, c, i) && Live(t, d) && d in providers
    ensures var u := CompletedAnalysis(t, providers, c, i, at);
            && u == t.(jobs := u.jobs) && Live(u, d)
            && (t.head.Some? && Terminal(t, t.head.value) && Served(t, d, stranded) ==> Served(u, d, stranded))
  {
    hide SetJob, OneActive, StartedOk, EnqueueFor, Enqueued, Terminal;
    var js := JobsOf(t, c);
    if js[i].status != Deleted {
      var j := js[i].(status := Completed);
      var u := SetJob(t, c, i, j);
      SetJobAt(t, c, i, j, d);
      EnqueueForAt(u, providers, {c}, false, at, d);
      assert u.evidence == t.evidence;
      assert forall h :: Terminal(u, h) == Terminal(t, h) by { TerminalReadsEvidence(t, u); }
      if d == c {
        MovedKeeps(js, i, j, js[i].head);
        StartedWhenRunning(js, i);
        assert DoneAt(js[i := j], js[i].head) by { assert js[i := j][i] == j; }
        if t.head.Some? {
          EnqueuedIsUsable(js[i := j], t.head.value, false, at);
        }
      }
    }
  }

  lemma TerminalReadsEvidence(t: Tables, u: Tables)
    requires t.evidence == u.evidence
    ensures forall h :: Terminal(u, h) == Terminal(t, h)
  {
  }

  lemma StartedWhenRunning(js: seq<Job>, i: nat)
    requires StartedOk(js) && i < |js| && js[i].status == Running
    ensures js[i].started
  {
  }

  lemma RequeueStaysServed(t: Tables, c: string, i: nat, at: int, d: string, stranded: bool)
    requires HoldsJob(t, c, i) && Live(t, d)
    ensures var u := SetJob(t, c, i, JobsOf(t, c)[i].(status := Queued, started := false, scheduledFor := at));
            && u == t.(jobs := u.jobs) && Live(u, d)
            && (t.head.Some? && Served(t, d, stranded) ==> Served(u, d, stranded || (d == c && StaleAt(t, c, i))))
  {
    hide SetJob, OneActive, StartedOk;
    var js := JobsOf(t, c);
    var j := js[i].(status := Queued, started := false, scheduledFor := at);
    SetJobAt(t, c, i, j, d);
    if d == c && js[i].status != Deleted && t.head.Some? {
      MovedKeeps(js, i, j, t.head.value);
      assert js[i := j][i] == j;
    }
    if d == c && js[i].status != Deleted && t.head.None? {
      MovedKeeps(js, i, j, "");
    }
  }

  lemma RecoveredStays(js: seq<Job>, head: string, stranded: bool, stale: bool)
    requires OneActive(js) && StartedOk(js)
    requires stale <==> exists i :: 0 <= i < |js| && js[i].status == Running && js[i].head != head
    ensures var after := Recovered(js);
            && OneActive(after) && StartedOk(after) && (HasActive(js) ==> HasActive(after))
                && (DoneAt(js, head) ==> DoneAt(after, head))
            && (QueuedAt(js, head) || IsRunning(js) ==> stale || QueuedAt(after, head))
  {
    var after := Recovered(js);
    if HasActive(js) {
      var i :| 0 <= i < |js| && ActiveStatus(js[i].status);
      assert ActiveStatus(after[i].status);
    }
    if DoneAt(js, head) {
      var i :| 0 <= i < |js| && js[i].status == Completed && js[i].started && js[i].head == head;
      assert after[i] == js[i];
    }
    if QueuedAt(js, head) {
      var i :| 0 <= i < |js| && js[i].status == Queued && js[i].head == head;
      assert after[i] == js[i];
    } else if IsRunning(js) && !stale {
      var i :| 0 <= i < |js| && js[i].status == Running;
      assert after[i].status == Queued && after[i].head == head;
    }
  }

  lemma GoneKeeps(js: seq<Job>)
    ensures OneActive(Gone(js)) && StartedOk(Gone(js))
  {
  }

  lemma WithMembersAt(t: Tables, members: set<string>, c: string)
    requires Live(t, c)
    ensures var u := WithMembers(t, members);
            && u == t.(members := members, jobs := u.jobs, attempts := u.attempts, results := u.results) && Live(u, c)
            && (c in members ==> JobsOf(u, c) == JobsOf(t, c))
  {
    GoneKeeps(JobsOf(t, c));
  }

  lemma MembershipStaysAwake(t: Tables, providers: set<string>, e: Event, c: string, m: Mark)
    requires e.PublishBatch? || e.Finalize? || e.Remove? || e.Unlink?
    requires c in providers && Enabled(t, providers, e) && Awake(t, c, m)
    ensures Awake(After(t, providers, e), c, Note(m, t, e, After(t, providers, e), c))
  {
    hide OneActive, StartedOk, EnqueueDiff, WithMembers;
    match e {
      case PublishBatch(_, _) =>
      case Finalize(head, members, at) =>
        var s := t.(head := Some(head));
        assert JobsOf(s, c) == JobsOf(t, c);
        WithMembersAt(s, members, c);
        EnqueueDiffAt(WithMembers(s, members), providers, at, c);
      case Remove => WithMembersAt(t, {}, c);
      case Unlink(d) => WithMembersAt(t, t.members - {d}, c);
    }
  }

  lemma {:induction false} StillAwake(t: Tables, providers: set<string>, e: Event, c: string, m: Mark)
    requires c in providers && Enabled(t, providers, e) && Awake(t, c, m)
    ensures Awake(After(t, providers, e), c, Note(m, t, e, After(t, providers, e), c))
  {
    hide OneActive, StartedOk, EnqueueDiff, WithMembers, EnqueueFor, Enqueued, SetJob, CompletedAnalysis, Recovered,
      Erase, ReloadFor, Inserted, Reusable;
    match e {
      case Request(d, forced, at) =>
        EnqueueForAt(t, providers, {d}, forced, at, c);
        EnqueuedIsUsable(JobsOf(t, c), t.head.value, forced, at);
      case Reload(collections, at) => ReloadStaysAwake(t, providers, collections, at, c, m);
      case CompleteDiff(head, i, completeness, at) => DiffStaysAwake(t, providers, head, i, completeness, at, c, m);
      case ClaimAnalysis(d, i, now) => ClaimStaysServed(t, providers, d, i, now, c, m.stranded);
      case CompleteAnalysis(d, i, at) => CompletionStaysServed(t, providers, d, i, at, c, m.stranded);
      case Requeue(d, i, at) => RequeueStaysServed(t, d, i, at, c, m.stranded);
      case RecoverAnalysis =>
        NothingToRecover();
        if t.head.Some? {
          RecoveredStays(JobsOf(t, c), t.head.value, m.stranded, RunsStale(t, JobsOf(t, c)));
        } else {
          RecoveredStays(JobsOf(t, c), "", m.stranded,
                         exists i ::
                             0 <= i < |JobsOf(t, c)| && JobsOf(t, c)[i].status == Running
                                 && JobsOf(t, c)[i].head != "");
        }
      case ClaimDiff(_, _) =>
      case SupersedeDiff(_, _) =>
      case RecoverDiffs =>
      case Record(_, _, _) =>
      case _ => MembershipStaysAwake(t, providers, e, c, m);
    }
  }

  lemma NothingToRecover()
    ensures Recovered([]) == []
  {
  }

  lemma ReloadStaysAwake(t: Tables, providers: set<string>, collections: set<string>, at: int, c: string, m: Mark)
    requires Awake(t, c, m)
    ensures var e := Reload(collections, at);
            Awake(After(t, providers, e), c, Note(m, t, e, After(t, providers, e), c))
  {
    hide OneActive, StartedOk, ReloadFor, Inserted, Reusable;
    ReloadForAt(t, providers, collections, at, c);
    if t.head.Some? {
      ReloadedIsUsable(JobsOf(t, c), t.head.value, at);
    }
  }

  lemma SetDiffKeeps(t: Tables, head: string, i: nat, status: Status)
    requires i < |DiffsOf(t, head)|
    ensures SetDiff(t, head, i, status) == t.(diffs := SetDiff(t, head, i, status).diffs)
  {
  }

  lemma DiffStaysAwake(t: Tables, providers: set<string>, head: string, i: nat, completeness: Completeness, at: int,
                       c: string, m: Mark)
    requires c in providers && HoldsDiff(t, head, i) && Awake(t, c, m)
    ensures var e := CompleteDiff(head, i, completeness, at);
            Awake(After(t, providers, e), c, Note(m, t, e, After(t, providers, e), c))
  {
    hide OneActive, StartedOk, EnqueueFor, Enqueued, SetDiff;
    if t.head.Some? {
      var u := SetDiff(t.(evidence := t.evidence[head := completeness]), head, i, Completed);
      SetDiffKeeps(t.(evidence := t.evidence[head := completeness]), head, i, Completed);
      assert JobsOf(u, c) == JobsOf(t, c);
      EnqueueForAt(u, providers, u.members, false, at, c);
      EnqueuedIsUsable(JobsOf(t, c), t.head.value, false, at);
    }
  }

  // ----- Wake-ups over whole runs -----

  /** With fixed providers, once a diff job has completed for the current head
      every provider-enabled collection that holds the pull request has an
      active job, or has completed one that was claimed for that head. Unless a
      stale job was put back, the active one is running, or waits for that head. */
  lemma {:induction false} NoLostWakeUp(providers: set<string>, ts: seq<Tables>, es: seq<Event>, n: nat, c: string)
    requires IsRun(providers, ts, es) && n <= |es| && c in providers
    ensures Awake(ts[n], c, Past(ts, es, n, c))
  {
    hide Awake, After, Enabled, Note;
    if n == 0 {
      NothingIsOwed(c);
    } else {
      NoLostWakeUp(providers, ts, es, n - 1, c);
      assert Enabled(ts[n - 1], providers, es[n - 1]) && ts[n] == After(ts[n - 1], providers, es[n - 1]);
      StillAwake(ts[n - 1], providers, es[n - 1], c, Past(ts, es, n - 1, c));
    }
  }

  lemma NothingIsOwed(c: string)
    ensures Awake(NOTHING, c, Mark(false, false))
  {
  }

  /** A job that waits for a released head can be claimed as soon as it is due. */
  lemma WaitingIsClaimable(t: Tables, providers: set<string>, c: string, m: Mark, i: nat, now: int)
    requires Awake(t, c, m) && m.released && c in providers
    requires i < |JobsOf(t, c)| && JobsOf(t, c)[i].status == Queued && JobsOf(t, c)[i].head == t.head.value
    requires JobsOf(t, c)[i].scheduledFor <= now
    ensures Claimable(t, providers, c, i, now)
  {
  }

  /** Putting a running job back leaves something to do exactly when the job
      still has the current head. Otherwise nothing is running, and the one
      queued job waits for a head that is gone. */
  lemma RequeueStrandsIff(t: Tables, providers: set<string>, c: string, i: nat, at: int)
    requires Live(t, c) && i < |JobsOf(t, c)| && JobsOf(t, c)[i].status == Running && t.head.Some?
    ensures var js := JobsOf(After(t, providers, Requeue(c, i, at)), c);
            && (QueuedAt(js, t.head.value) || IsRunning(js) <==> JobsOf(t, c)[i].head == t.head.value)
            && (JobsOf(t, c)[i].head != t.head.value ==> forall k: nat, now ::
                  !Claimable(After(t, providers, Requeue(c, i, at)), providers, c, k, now))
  {
    var js := JobsOf(t, c);
    var after := js[i := js[i].(status := Queued, started := false, scheduledFor := at)];
    assert JobsOf(After(t, providers, Requeue(c, i, at)), c) == after;
    assert after[i].status == Queued;
    forall k | 0 <= k < |js| && k != i ensures after[k] == js[k] && !ActiveStatus(js[k].status) {
    }
  }

  /** The next finalization repairs that: every provider-enabled collection then
      has a job that runs or waits for the new head, or its diff is collected. */
  lemma FinalizationRepairs(t: Tables, providers: set<string>, head: string, members: set<string>, at: int, c: string)
    requires Live(t, c) && c in providers && c in members
    ensures var u := After(t, providers, Finalize(head, members, at));
            || QueuedAt(JobsOf(u, c), head) || IsRunning(JobsOf(u, c)) || HasActiveDiff(DiffsOf(u, head))
  {
    hide OneActive, StartedOk, WithMembers, EnqueueFor;
    var s := t.(head := Some(head));
    assert JobsOf(s, c) == JobsOf(t, c);
    WithMembersAt(s, members, c);
    var v := WithMembers(s, members);
    EnqueueDiffAt(v, providers, at, c);
    if !Reusable(v, head) {
      InsertedDiffIsActive(DiffsOf(v, head));
    }
  }

  lemma InsertedDiffIsActive(statuses: seq<Status>)
    ensures HasActiveDiff(InsertDiff(statuses))
  {
    if !HasActiveDiff(statuses) {
      assert ActiveStatus(InsertDiff(statuses)[|statuses|]);
    }
  }

  predicate AsksForced(js: seq<Job>) {
    exists i :: 0 <= i < |js| && ActiveStatus(js[i].status) && js[i].forced
  }

  /** A forced request is lost exactly when it lands on a running job that is
      not forced itself. */
  lemma ForcedRequestIsLostIff(js: seq<Job>, head: string, at: int)
    requires OneActive(js)
    ensures AsksForced(Enqueued(js, head, true, at)) <==> !IsRunning(js) || AsksForced(js)
  {
    hide Enqueued;
    var after := Enqueued(js, head, true, at);
    if HasActive(js) {
      var i :| 0 <= i < |js| && ActiveStatus(js[i].status);
      assert ActiveStatus(after[i].status);
      assert forall k :: 0 <= k < |js| && k != i ==> !ActiveStatus(js[k].status) && !ActiveStatus(after[k].status);
      assert AsksForced(after) <==> after[i].forced;
    } else {
      assert ActiveStatus(after[|js|].status) && after[|js|].forced;
    }
  }

  // ----- Results and heads -----

  /** A running job was claimed with evidence for its head, which stays until
      the pull request itself goes. */
  predicate RunsOnEvidence(t: Tables, js: seq<Job>) {
    forall i :: 0 <= i < |js| && js[i].status == Running ==> Terminal(t, js[i].head)
  }

  lemma SetJobRuns(t: Tables, c: string, i: nat, j: Job, d: string)
    requires i < |JobsOf(t, c)| && RunsOnEvidence(t, JobsOf(t, d))
    requires j.status == Running ==> Terminal(t, j.head)
    ensures RunsOnEvidence(t, JobsOf(SetJob(t, c, i, j), d)) && SetJob(t, c, i, j).evidence == t.evidence
  {
  }

  lemma EnqueueRuns(t: Tables, providers: set<string>, collections: set<string>, forced: bool, at: int, d: string)
    requires RunsOnEvidence(t, JobsOf(t, d))
    ensures RunsOnEvidence(t, JobsOf(EnqueueFor(t, providers, collections, forced, at), d))
    ensures EnqueueFor(t, providers, collections, forced, at).evidence == t.evidence
  {
    hide Enqueued, EnqueueFor;
    EnqueueForAt(t, providers, collections, forced, at, d);
  }

  lemma EvidenceOnlyGrows(t: Tables, u: Tables, js: seq<Job>)
    requires RunsOnEvidence(t, js) && t.evidence.Keys <= u.evidence.Keys
    ensures RunsOnEvidence(u, js)
  {
  }

  lemma StillOnEvidence(t: Tables, providers: set<string>, e: Event, d: string)
    requires Enabled(t, providers, e) && RunsOnEvidence(t, JobsOf(t, d))
    ensures RunsOnEvidence(After(t, providers, e), JobsOf(After(t, providers, e), d))
  {
    hide RunsOnEvidence, Enqueued, EnqueueFor, SetJob, WithMembers, EnqueueDiff, CompletedAnalysis, Recovered,
      ReloadFor, Inserted;
    var u := After(t, providers, e);
    match e {
      case PublishBatch(_, _) => EvidenceOnlyGrows(t, u, JobsOf(t, d));
      case Finalize(head, members, at) =>
        var s := t.(head := Some(head));
        EvidenceOnlyGrows(t, s, JobsOf(t, d));
        MembersRun(s, members, d);
        DiffRuns(WithMembers(s, members), providers, at, d);
      case Remove => RemovedRun(t, u, d);
      case Unlink(c) => MembersRun(t, t.members - {c}, d);
      case Reload(collections, at) => ReloadRuns(t, providers, collections, at, d);
      case Request(c, forced, at) =>
        EnqueueRuns(t, providers, {c}, forced, at, d);
        EvidenceOnlyGrows(t, u, JobsOf(u, d));
      case ClaimDiff(_, _) => EvidenceOnlyGrows(t, u, JobsOf(t, d));
      case SupersedeDiff(_, _) => EvidenceOnlyGrows(t, u, JobsOf(t, d));
      case CompleteDiff(head, i, completeness, at) =>
        if t.head.Some? {
          var s := SetDiff(t.(evidence := t.evidence[head := completeness]), head, i, Completed);
          EvidenceOnlyGrows(t, s, JobsOf(t, d));
          EnqueueRuns(s, providers, s.members, false, at, d);
          EvidenceOnlyGrows(s, u, JobsOf(u, d));
        }
      case RecoverDiffs => EvidenceOnlyGrows(t, u, JobsOf(t, d));
      case ClaimAnalysis(c, i, _) =>
        SetJobRuns(t, c, i, JobsOf(t, c)[i].(status := Running, started := true), d);
        EvidenceOnlyGrows(t, u, JobsOf(u, d));
      case Record(_, _, _) => EvidenceOnlyGrows(t, u, JobsOf(t, d));
      case CompleteAnalysis(c, i, at) => CompletionRuns(t, providers, c, i, at, d);
      case Requeue(c, i, at) =>
        SetJobRuns(t, c, i, JobsOf(t, c)[i].(status := Queued, started := false, scheduledFor := at), d);
        EvidenceOnlyGrows(t, u, JobsOf(u, d));
      case RecoverAnalysis => RecoveredRun(t, u, d);
    }
  }

  lemma ReloadRuns(t: Tables, providers: set<string>, collections: set<string>, at: int, d: string)
    requires RunsOnEvidence(t, JobsOf(t, d))
    ensures var u := ReloadFor(t, providers, collections, at); RunsOnEvidence(u, JobsOf(u, d))
  {
    hide ReloadFor;
    ReloadForAt(t, providers, collections, at, d);
  }

  lemma RecoveredRun(t: Tables, u: Tables, d: string)
    requires u.jobs == map c | c in t.jobs :: Recovered(t.jobs[c])
    ensures RunsOnEvidence(u, JobsOf(u, d))
  {
  }

  lemma RemovedRun(t: Tables, u: Tables, d: string)
    requires u.jobs == WithMembers(t, {}).jobs
    ensures RunsOnEvidence(u, JobsOf(u, d))
  {
  }

  lemma MembersRun(t: Tables, members: set<string>, d: string)
    requires RunsOnEvidence(t, JobsOf(t, d))
    ensures var u := WithMembers(t, members); RunsOnEvidence(u, JobsOf(u, d)) && u.head == t.head
  {
  }

  lemma CancelledRun(t: Tables, js: seq<Job>, head: string)
    requires RunsOnEvidence(t, js)
    ensures RunsOnEvidence(t, Cancelled(js, head))
  {
  }

  lemma DiffRuns(t: Tables, providers: set<string>, at: int, d: string)
    requires RunsOnEvidence(t, JobsOf(t, d)) && t.head.Some?
    ensures var u := EnqueueDiff(t, providers, at); RunsOnEvidence(u, JobsOf(u, d))
  {
    hide RunsOnEvidence, Cancelled, EnqueueFor;
    var head := t.head.value;
    var u := t.(jobs := map c | c in t.jobs :: Cancelled(t.jobs[c], head));
    assert JobsOf(u, d) == Cancelled(JobsOf(t, d), head) by { NothingToCancel(head); }
    CancelledRun(t, JobsOf(t, d), head);
    EvidenceOnlyGrows(t, u, JobsOf(u, d));
    EnqueueRuns(u, providers, u.members, false, at, d);
    var v := EnqueueDiff(t, providers, at);
    EvidenceOnlyGrows(u, v, JobsOf(v, d));
  }

  lemma CompletionRuns(t: Tables, providers: set<string>, c: string, i: nat, at: int, d: string)
    requires HoldsJob(t, c, i) && RunsOnEvidence(t, JobsOf(t, d))
    ensures var u := CompletedAnalysis(t, providers, c, i, at); RunsOnEvidence(u, JobsOf(u, d))
  {
    hide RunsOnEvidence, EnqueueFor, SetJob;
    if JobsOf(t, c)[i].status == Deleted {
      return;
    }
    var j := JobsOf(t, c)[i].(status := Completed);
    SetJobRuns(t, c, i, j, d);
    var s := SetJob(t, c, i, j);
    EvidenceOnlyGrows(t, s, JobsOf(s, d));
    EnqueueRuns(s, providers, {c}, false, at, d);
    var u := CompletedAnalysis(t, providers, c, i, at);
    EvidenceOnlyGrows(s, u, JobsOf(u, d));
  }

  lemma {:induction false} RunningJobsHaveEvidence(providers: set<string>, ts: seq<Tables>, es: seq<Event>, n: nat,
                                                   d: string)
    requires IsRun(providers, ts, es) && n <= |es|
    ensures RunsOnEvidence(ts[n], JobsOf(ts[n], d))
  {
    hide After, Enabled;
    if n > 0 {
      hide RunsOnEvidence;
      RunningJobsHaveEvidence(providers, ts, es, n - 1, d);
      StillOnEvidence(ts[n - 1], providers, es[n - 1], d);
    }
  }

  /** No attempt and no result commits for a head that is not current then, nor
      without a terminal diff for it, unless the row of its job has gone. An
      attempt without a valid section keeps the last result. */
  lemma {:induction false} AttemptsAreCurrent(providers: set<string>, ts: seq<Tables>, es: seq<Event>, n: nat,
                                              c: string, i: nat, valid: bool)
    requires IsRun(providers, ts, es) && n < |es| && es[n] == Record(c, i, valid)
    ensures i < |JobsOf(ts[n], c)| && ts[n].head == Some(JobsOf(ts[n], c)[i].head)
    ensures c in ts[n + 1].attempts && Some(ts[n + 1].attempts[c]) == ts[n].head
    ensures valid ==> c in ts[n + 1].results && Some(ts[n + 1].results[c]) == ts[n].head
    ensures !valid ==> ts[n + 1].results == ts[n].results
    ensures JobsOf(ts[n], c)[i].status != Deleted ==> Terminal(ts[n], ts[n + 1].attempts[c])
  {
    hide EnqueueDiff, WithMembers, CompletedAnalysis, CompletedDiff, EnqueueFor, ReloadFor;
    assert Enabled(ts[n], providers, es[n]) && ts[n + 1] == After(ts[n], providers, es[n]);
    RunningJobsHaveEvidence(providers, ts, es, n, c);
  }

  lemma EnqueueKeepsResults(t: Tables, providers: set<string>, at: int)
    ensures EnqueueDiff(t, providers, at).results == t.results && EnqueueDiff(t, providers, at).members == t.members
  {
  }

  /** A collection that keeps the pull request keeps its last valid result until
      a valid one for the head of that moment replaces it. */
  lemma ResultsStand(t: Tables, providers: set<string>, e: Event, c: string)
    requires Enabled(t, providers, e) && c in t.members && c in After(t, providers, e).members
    ensures var u := After(t, providers, e);
            || ((c in u.results <==> c in t.results) && (c in t.results ==> u.results[c] == t.results[c]))
            || (e.Record? && e.collection == c && e.valid && c in u.results && t.head == Some(u.results[c]))
  {
    hide EnqueueDiff, Enqueued, Cancelled;
    if e.Finalize? {
      EnqueueKeepsResults(WithMembers(t.(head := Some(e.head)), e.members), providers, e.at);
    }
  }

  lemma EnqueueForNone(t: Tables, providers: set<string>, at: int)
    ensures EnqueueFor(t, providers, {}, false, at) == t
  {
    assert t.head.Some? ==> EnqueueFor(t, providers, {}, false, at).jobs == t.jobs;
  }

  lemma EnqueueForOneMore(t: Tables, providers: set<string>, collections: set<string>, at: int, c: string)
    requires t.head.Some? && c !in collections
    ensures var u := EnqueueFor(t, providers, collections, false, at);
            EnqueueFor(t, providers, collections + {c}, false, at)
            == u.(jobs := u.jobs[c := if c in providers then Enqueued(JobsOf(u, c), t.head.value, false, at)
                                 else JobsOf(u, c)])
  {
    hide Enqueued;
    var u, v := EnqueueFor(t, providers, collections, false, at),
        EnqueueFor(t, providers, collections + {c}, false, at);
    assert JobsOf(u, c) == JobsOf(t, c);
    assert v.jobs
             == u.jobs[c := if c in providers then Enqueued(JobsOf(u, c), t.head.value, false, at) else JobsOf(u, c)];
  }

  lemma ReloadOne(t: Tables, providers: set<string>, c: string, at: int)
    ensures ReloadFor(t, providers, {c}, at)
         == if t.head.None? || !Reusable(t, t.head.value) then t
            else t.(jobs := t.jobs[c := if c in providers && c in t.members
                                   then Inserted(JobsOf(t, c), t.head.value, at) else JobsOf(t, c)])
  {
    hide Inserted, Reusable;
    if t.head.Some? && Reusable(t, t.head.value) {
      assert ReloadFor(t, providers, {c}, at).jobs
          == t.jobs[c := if c in providers && c in t.members then Inserted(JobsOf(t, c), t.head.value, at)
                    else JobsOf(t, c)];
    }
  }

  // ----- What the statements leave, job by job -----

  predicate SomeActive(js: seq<Job>) {
    exists i :: 0 <= i < |js| && (js[i].status == Queued || js[i].status == Running)
  }

  /** A request moves a queued job to the head, adds its force flag and never
      defers it; it leaves every other job, and adds one if none is active. */
  ghost predicate Asks(js: seq<Job>, after: seq<Job>, head: string, forced: bool, at: int) {
    && |after| == |js| + (if SomeActive(js) then 0 else 1)
    && (forall i :: 0 <= i < |js| ==>
          after[i] == if js[i].status == Queued
                      then Job(head, Queued, js[i].forced || forced, js[i].started,
                               if at < js[i].scheduledFor then at else js[i].scheduledFor)
                      else js[i])
    && (!SomeActive(js) ==> after[|js|] == Job(head, Queued, forced, false, at))
  }

  /** A finalization completes the jobs queued for another head. */
  ghost predicate Cancels(js: seq<Job>, after: seq<Job>, head: string) {
    && |after| == |js|
    && forall i :: 0 <= i < |js| ==>
         after[i] == if js[i].status == Queued && js[i].head != head then js[i].(status := Completed) else js[i]
  }

  /** It completes them, and then asks again if analysis is released. */
  ghost predicate Settles(js: seq<Job>, after: seq<Job>, head: string, asks: bool, at: int) {
    exists mid :: Cancels(js, mid, head) && if asks then Asks(mid, after, head, false, at) else after == mid
  }

  lemma EnqueuedAsks(js: seq<Job>, head: string, forced: bool, at: int)
    ensures Asks(js, Enqueued(js, head, forced, at), head, forced, at)
  {
  }

  lemma EnqueueForAsks(t: Tables, providers: set<string>, collections: set<string>, forced: bool, at: int)
    requires t.head.Some?
    ensures var u := EnqueueFor(t, providers, collections, forced, at);
            && u == t.(jobs := u.jobs)
            && forall c :: if c in collections && c in providers
                           then Asks(JobsOf(t, c), JobsOf(u, c), t.head.value, forced, at)
                           else JobsOf(u, c) == JobsOf(t, c)
  {
    hide EnqueueFor, Enqueued, Asks, JobsOf;
    var u := EnqueueFor(t, providers, collections, forced, at);
    EnqueueForAt(t, providers, collections, forced, at, "");
    forall c
      ensures if c in collections && c in providers
              then Asks(JobsOf(t, c), JobsOf(u, c), t.head.value, forced, at)
              else JobsOf(u, c) == JobsOf(t, c)
    {
      EnqueueForAt(t, providers, collections, forced, at, c);
      EnqueuedAsks(JobsOf(t, c), t.head.value, forced, at);
    }
  }

  /** A completed diff job is `Completed` with its evidence stored, and the
      collections that hold the pull request are asked for its head if that is
      the current one. No other diff job and no other collection moves. */
  lemma CompletedDiffIsExact(t: Tables, providers: set<string>, head: string, i: nat, completeness: Completeness,
                             at: int)
    requires i < |DiffsOf(t, head)|
    ensures var u := CompletedDiff(t, providers, head, i, completeness, at);
            && u == t.(evidence := u.evidence, diffs := u.diffs, jobs := u.jobs)
            && (t.head.None? ==> u == t)
            && (t.head.Some? ==>
                  && u.evidence == t.evidence[head := completeness]
                  && u.diffs == (if t.diffs[head][i] == Deleted then t.diffs
                                 else t.diffs[head := t.diffs[head][i := Completed]])
                  && forall c :: if t.head.value == head && c in t.members && c in providers
                                 then Asks(JobsOf(t, c), JobsOf(u, c), head, false, at)
                                 else JobsOf(u, c) == JobsOf(t, c))
  {
    hide EnqueueFor, Asks;
    if t.head.Some? {
      var s := SetDiff(t.(evidence := t.evidence[head := completeness]), head, i, Completed);
      assert forall c :: JobsOf(s, c) == JobsOf(t, c);
      EnqueueForAsks(s, providers, s.members, false, at);
    }
  }

  /** A finalized pull request has its diff collected again, or its analysis
      released, and no queued job waits for another head. */
  ghost predicate DiffAsked(t: Tables, u: Tables, providers: set<string>, at: int)
    requires t.head.Some?
  {
    var head := t.head.value;
    var released := head == "" || (head in t.evidence && t.evidence[head] in {Complete, Partial});
    && u == t.(diffs := u.diffs, jobs := u.jobs)
    && u.diffs == (if released then t.diffs
                   else t.diffs[head := if exists i :: 0 <= i < |DiffsOf(t, head)|
                                                       && DiffsOf(t, head)[i] in {Queued, Running}
                                        then DiffsOf(t, head) else DiffsOf(t, head) + [Queued]])
    && forall c :: Settles(JobsOf(t, c), JobsOf(u, c), head, released && c in t.members && c in providers, at)
  }

  lemma SettledAt(t: Tables, providers: set<string>, at: int, c: string)
    requires t.head.Some?
    ensures var u, head := EnqueueDiff(t, providers, at), t.head.value;
            Settles(JobsOf(t, c), JobsOf(u, c), head, Reusable(t, head) && c in t.members && c in providers, at)
  {
    hide EnqueueFor, Asks, Cancels, Cancelled;
    var u, head := EnqueueDiff(t, providers, at), t.head.value;
    var s := t.(jobs := map c | c in t.jobs :: Cancelled(t.jobs[c], head));
    EnqueueForAsks(s, providers, s.members, false, at);
    NothingToCancel(head);
    CancelledCancels(JobsOf(t, c), head);
    assert Cancels(JobsOf(t, c), JobsOf(s, c), head);
  }

  lemma EnqueuedDiffIsExact(t: Tables, providers: set<string>, at: int)
    requires t.head.Some?
    ensures DiffAsked(t, EnqueueDiff(t, providers, at), providers, at)
  {
    hide EnqueueFor, Settles, JobsOf, Cancelled;
    var u, head := EnqueueDiff(t, providers, at), t.head.value;
    var s := t.(jobs := map c | c in t.jobs :: Cancelled(t.jobs[c], head));
    EnqueueForAsks(s, providers, s.members, false, at);
    forall c
      ensures Settles(JobsOf(t, c), JobsOf(u, c), head, Reusable(t, head) && c in t.members && c in providers, at)
    {
      SettledAt(t, providers, at, c);
    }
    assert HasActiveDiff(DiffsOf(t, head)) <==>
             exists i :: 0 <= i < |DiffsOf(t, head)| && DiffsOf(t, head)[i] in {Queued, Running};
  }

  lemma CancelledCancels(js: seq<Job>, head: string)
    ensures Cancels(js, Cancelled(js, head), head)
  {
  }

  /** A completed analysis job is `Completed`, and its collection is asked for the
      current head exactly if the job ran for another and that head's diff is
      known. */
  lemma CompletedAnalysisIsExact(t: Tables, providers: set<string>, c: string, i: nat, at: int)
    requires i < |JobsOf(t, c)|
    ensures var u, job := CompletedAnalysis(t, providers, c, i, at), JobsOf(t, c)[i];
            var again := t.head.Some? && t.head.value != job.head && c in providers
                         && (t.head.value == "" || t.head.value in t.evidence);
            && u == t.(jobs := u.jobs)
            && (forall d :: d != c ==> JobsOf(u, d) == JobsOf(t, d))
            && (job.status == Deleted ==> u == t)
            && (job.status != Deleted ==>
                  var js := JobsOf(t, c)[i := job.(status := Completed)];
                  if again then Asks(js, JobsOf(u, c), t.head.value, false, at) else JobsOf(u, c) == js)
  {
    hide EnqueueFor, Asks;
    var job := JobsOf(t, c)[i];
    if job.status != Deleted && t.head.Some? {
      EnqueueForAsks(SetJob(t, c, i, job.(status := Completed)), providers, {c}, false, at);
    }
  }

  /** The same tables, changed statement by statement. */
  class Store {
    const providers: set<string>
    var head: Option<string>
    var members: set<string>
    var evidence: map<string, Completeness>
    var diffs: map<string, seq<Status>>
    var jobs: map<string, seq<Job>>
    var attempts: map<string, string>
    var results: map<string, string>

    constructor (modelled: set<string>)
      ensures providers == modelled && View() == NOTHING
    {
      providers := modelled;
      head, members, evidence, diffs, jobs, attempts, results := None, {}, map[], map[], map[], map[], map[];
    }

    function View(): Tables
      reads this
    {
      Tables(head, members, evidence, diffs, jobs, attempts, results)
    }

    /** Requests analysis of the current head for one collection. Without a
        provider there is nothing to do; without the pull request it fails. */
    method EnqueueAnalysis(c: string, forced: bool, at: int) returns (ok: bool)
      modifies `jobs
      ensures ok <==> c !in providers || head.Some?
      ensures !ok ==> jobs == old(jobs)
      ensures ok ==>
                jobs == old(jobs)[c := if c in providers then Enqueued(JobsOf(old(View()), c), head.value, forced, at)
                                            else JobsOf(old(View()), c)]
      ensures ok && c in providers ==>
                Asks(JobsOf(old(View()), c), JobsOf(View(), c), head.value, forced, at)
    {
      ok := true;
      var js := if c in jobs then jobs[c] else [];
      if c in providers {
        if head.None? {
          return false;
        }
        var active := false;
        for i := 0 to |js|
          invariant active <==> exists k :: 0 <= k < i && ActiveStatus(js[k].status)
        {
          active := active || ActiveStatus(js[i].status);
        }
        if !active {
          js := js + [Job(head.value, Queued, forced, false, at)];
        }
        ghost var inserted := js;
        for i := 0 to |js|
          invariant |js| == |inserted|
          invariant forall k :: 0 <= k < |js| ==> js[k] == if k < i then Refreshed(inserted[k], head.value, forced, at)
                      else inserted[k]
        {
          if js[i].status == Queued {
            js := js[i := js[i].(head := head.value, forced := js[i].forced || forced,
                                 scheduledFor := if at < js[i].scheduledFor then at else js[i].scheduledFor)];
          }
        }
        assert js == Enqueued(JobsOf(old(View()), c), head.value, forced, at);
        EnqueuedAsks(JobsOf(old(View()), c), head.value, forced, at);
      }
      jobs := jobs[c := js];
    }

    method EnqueueAll(collections: set<string>, at: int)
      requires head.Some?
      modifies `jobs
      ensures View() == EnqueueFor(old(View()), providers, collections, false, at)
      ensures forall c :: if c in collections && c in providers
                          then Asks(JobsOf(old(View()), c), JobsOf(View(), c), head.value, false, at)
                          else JobsOf(View(), c) == JobsOf(old(View()), c)
    {
      hide EnqueueFor, Enqueued, JobsOf, Asks;
      EnqueueForAsks(View(), providers, collections, false, at);
      var left := collections;
      ghost var t := View();
      EnqueueForNone(t, providers, at);
      assert collections - left == {};
      while left != {}
        invariant left <= collections && View() == EnqueueFor(t, providers, collections - left, false, at)
        invariant head == t.head
        decreases left
      {
        var c :| c in left;
        EnqueueForOneMore(t, providers, collections - left, at, c);
        assert collections - (left - {c}) == collections - left + {c};
        var ok := EnqueueAnalysis(c, false, at);
        left := left - {c};
      }
      assert collections - left == collections;
    }

    /** What finalization does for one published pull request. */
    method EnqueuePullRequestDiff(at: int)
      requires head.Some?
      modifies `jobs, `diffs
      ensures View() == EnqueueDiff(old(View()), providers, at)
      ensures DiffAsked(old(View()), View(), providers, at)
    {
      hide EnqueueFor, DiffAsked;
      EnqueuedDiffIsExact(View(), providers, at);
      jobs := map c | c in jobs :: Cancelled(jobs[c], head.value);
      if head.value == "" {
        EnqueueAll(members, at);
        return;
      }
      if head.value in evidence && evidence[head.value] != Unavailable {
        EnqueueAll(members, at);
        return;
      }
      var statuses := if head.value in diffs then diffs[head.value] else [];
      var active := false;
      for i := 0 to |statuses|
        invariant active <==> exists k :: 0 <= k < i && ActiveStatus(statuses[k])
      {
        active := active || ActiveStatus(statuses[i]);
      }
      if !active {
        statuses := statuses + [Queued];
      }
      diffs := diffs[head.value := statuses];
    }

    /** Caches a collected diff and releases current-head analysis. */
    method CompletePullRequestDiff(jobHead: string, i: nat, completeness: Completeness, at: int)
      requires i < |DiffsOf(View(), jobHead)|
      modifies `evidence, `diffs, `jobs
      ensures View() == CompletedDiff(old(View()), providers, jobHead, i, completeness, at)
      ensures old(head).None? ==> View() == old(View())
      ensures head.Some? ==> evidence == old(evidence)[jobHead := completeness]
      ensures head.Some? && old(diffs)[jobHead][i] != Deleted ==>
                diffs == old(diffs)[jobHead := old(diffs)[jobHead][i := Completed]]
      ensures head.Some? && old(diffs)[jobHead][i] == Deleted ==> diffs == old(diffs)
      ensures head == Some(jobHead) ==>
                forall c :: if c in members && c in providers
                            then Asks(JobsOf(old(View()), c), JobsOf(View(), c), jobHead, false, at)
                            else JobsOf(View(), c) == JobsOf(old(View()), c)
      ensures head != Some(jobHead) ==> jobs == old(jobs)
    {
      hide EnqueueFor, Asks;
      CompletedDiffIsExact(View(), providers, jobHead, i, completeness, at);
      if head.None? {
        return;
      }
      evidence := evidence[jobHead := completeness];
      if diffs[jobHead][i] != Deleted {
        diffs := diffs[jobHead := diffs[jobHead][i := Completed]];
      }
      if head.value == jobHead {
        EnqueueAll(members, at);
      }
    }

    /** Completes a job, and asks for the current head if it ran for another. */
    method CompleteAnalysisJob(c: string, i: nat, at: int)
      requires i < |JobsOf(View(), c)|
      modifies `jobs
      ensures View() == CompletedAnalysis(old(View()), providers, c, i, at)
      ensures forall d :: d != c ==> JobsOf(View(), d) == JobsOf(old(View()), d)
      ensures var job := old(jobs)[c][i];
              var js := old(jobs)[c][i := job.(status := Completed)];
              if job.status == Deleted then jobs == old(jobs)
              else if head.Some? && head.value != job.head && c in providers
                      && (head.value == "" || head.value in evidence)
              then Asks(js, JobsOf(View(), c), head.value, false, at) else JobsOf(View(), c) == js
    {
      hide EnqueueFor, Asks;
      CompletedAnalysisIsExact(View(), providers, c, i, at);
      var job := jobs[c][i];
      if job.status == Deleted {
        return;
      }
      jobs := jobs[c := jobs[c][i := job.(status := Completed)]];
      if head.Some? && head.value != job.head {
        if head.value == "" || head.value in evidence {
          EnqueueAll({c}, at);
        }
      }
    }

    /** Inserts a job for one configured collection, as a reload does. */
    method ReloadCollection(c: string, at: int)
      modifies `jobs
      ensures View() == ReloadFor(old(View()), providers, {c}, at)
      ensures forall d :: d != c ==> JobsOf(View(), d) == JobsOf(old(View()), d)
      ensures var js := JobsOf(old(View()), c);
              var known := head.Some? && (head.value == ""
                                          || (head.value in evidence && evidence[head.value] in {Complete, Partial}));
              JobsOf(View(), c) == if known && c in providers && c in members && !SomeActive(js)
                                   then js + [Job(head.value, Queued, false, false, at)] else js
    {
      hide ReloadFor;
      ReloadOne(View(), providers, c, at);
      var js := if c in jobs then jobs[c] else [];
      if head.None? || (head.value != "" && (head.value !in evidence || evidence[head.value] == Unavailable)) {
        return;
      }
      if c in providers && c in members {
        var active := false;
        for i := 0 to |js|
          invariant active <==> exists k :: 0 <= k < i && ActiveStatus(js[k].status)
        {
          active := active || ActiveStatus(js[i].status);
        }
        if !active {
          js := js + [Job(head.value, Queued, false, false, at)];
        }
      }
      jobs := jobs[c := js];
    }

    /** Puts a running job back into the queue. */
    method RequeueAnalysisJob(c: string, i: nat, at: int)
      requires i < |JobsOf(View(), c)|
      modifies `jobs
      ensures var job := old(jobs)[c][i];
              jobs == if job.status == Running
                      then old(jobs)[c := old(jobs)[c][i := Job(job.head, Queued, job.forced, false, at)]]
                      else old(jobs)
      ensures var job := old(JobsOf(View(), c)[i]);
              View() == if job.status == Running
                  then SetJob(old(View()), c, i, job.(status := Queued, started := false, scheduledFor := at))
                        else old(View())
    {
      var job := jobs[c][i];
      if job.status == Running {
        jobs := jobs[c := jobs[c][i := job.(status := Queued, started := false, scheduledFor := at)]];
      }
    }

    /** Commits an attempt, and a result if a section is valid, only while the
        head they were made for is current. Both refer to the membership, and
        fail without it. */
    method RecordAttempt(c: string, jobHead: string, valid: bool) returns (result: Result<bool>)
      modifies `attempts, `results
      ensures result.Err? <==> head == Some(jobHead) && c !in members
      ensures result.Ok? ==> result.value == (head == Some(jobHead))
      ensures View() == if result == Ok(true) then Recorded(old(View()), c, jobHead, valid) else old(View())
      ensures attempts == if result == Ok(true) then old(attempts)[c := jobHead] else old(attempts)
      ensures results == if result == Ok(true) && valid then old(results)[c := jobHead] else old(results)
    {
      if head.None? {
        return Ok(false);
      }
      if head.value != jobHead {
        return Ok(false);
      }
      if c !in members {
        return Err("no such membership");
      }
      if valid {
        results := results[c := jobHead];
      }
      attempts := attempts[c := jobHead];
      result := Ok(true);
    }
  }
}
