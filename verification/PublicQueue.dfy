/** The paced queue of public author requests: one running job, and a durable
    earliest time for the next one. Every instant is stored and compared as
    text. */
module PublicQueue {
  import opened Wrappers
  import opened Timestamps

  /** The interval between two public requests, in seconds. */
  const INTERVAL: nat := 65
  const HOUR: nat := 3600

  datatype Status = Queued | Running | Completed

  datatype Job = Job(author: int, status: Status, scheduledFor: Text)

  /** `next` is the single row of the queue table. */
  datatype Queue = Queue(jobs: seq<Job>, next: Option<Text>)

  predicate Due(job: Job, now: Instant) {
    job.status == Queued && !Less(Format(now), job.scheduledFor)
  }

  predicate IsRunning(jobs: seq<Job>) {
    exists i :: 0 <= i < |jobs| && jobs[i].status == Running
  }

  predicate Blocked(q: Queue, now: Instant) {
    (q.next.Some? && Less(Format(now), q.next.value)) || IsRunning(q.jobs)
  }

  predicate Before(jobs: seq<Job>, i: nat, k: nat)
    requires i < |jobs| && k < |jobs|
  {
    !Less(jobs[k].scheduledFor, jobs[i].scheduledFor) && (!Less(jobs[i].scheduledFor, jobs[k].scheduledFor) ==> i <= k)
  }

  predicate IsNextDue(jobs: seq<Job>, now: Instant, i: nat) {
    i < |jobs| && Due(jobs[i], now) && forall k :: 0 <= k < |jobs| && Due(jobs[k], now) ==> Before(jobs, i, k)
  }

  predicate HasActive(jobs: seq<Job>, author: int) {
    exists i :: 0 <= i < |jobs| && jobs[i].status != Completed && jobs[i].author == author
  }

  datatype Event =
    | Enqueue(author: int, at: Instant)
    | Claim(index: nat, now: Instant)
    | Complete(index: nat)
    | Defer(index: nat, retryAt: Instant)
    | Recover

  predicate Enabled(q: Queue, e: Event) {
    match e
    case Enqueue(_, _) => true
    case Claim(i, now) => Representable(Add(now, INTERVAL)) && !Blocked(q, now) && IsNextDue(q.jobs, now, i)
    case Complete(i) => i < |q.jobs|
    case Defer(i, retryAt) => i < |q.jobs| && Representable(retryAt)
    case Recover => true
  }

  function Inserted(jobs: seq<Job>, author: int, at: Text): seq<Job> {
    if HasActive(jobs, author) then jobs else jobs + [Job(author, Queued, at)]
  }

  function Claimed(q: Queue, i: nat, now: Instant): Queue
    requires i < |q.jobs|
  {
    Queue(q.jobs[i := q.jobs[i].(status := Running)], Some(Format(Add(now, INTERVAL))))
  }

  /** A deferral pauses the whole queue, and never shortens an earlier pause. */
  function Deferred(q: Queue, i: nat, retryAt: Text): Queue
    requires i < |q.jobs|
  {
    Queue(if q.jobs[i].status == Running then q.jobs[i := q.jobs[i].(status := Queued, scheduledFor := retryAt)]
          else q.jobs,
          Some(if q.next.Some? then Later(q.next.value, retryAt) else retryAt))
  }

  function Recovered(jobs: seq<Job>): seq<Job> {
    seq(|jobs|, i requires 0 <= i < |jobs| => if jobs[i].status == Running then jobs[i].(status := Queued) else jobs[i])
  }

  function After(q: Queue, e: Event): Queue
    requires Enabled(q, e)
  {
    match e
    case Enqueue(author, at) => q.(jobs := Inserted(q.jobs, author, Format(at)))
    case Claim(i, now) => Claimed(q, i, now)
    case Complete(i) => q.(jobs := q.jobs[i := q.jobs[i].(status := Completed)])
    case Defer(i, retryAt) => Deferred(q, i, Format(retryAt))
    case Recover => q.(jobs := Recovered(q.jobs))
  }

  /** The clock is free to jump in either direction between events. */
  predicate IsRun(qs: seq<Queue>, es: seq<Event>) {
    && |qs| == |es| + 1 && qs[0] == Queue([], None)
    && forall i :: 0 <= i < |es| ==> Enabled(qs[i], es[i]) && qs[i + 1] == After(qs[i], es[i])
  }

  /** The instants of the claims among the first `n` events. */
  function Claims(es: seq<Event>, n: nat): seq<Instant>
    requires n <= |es|
  {
    if n == 0 then []
    else if es[n - 1].Claim? then Claims(es, n - 1) + [es[n - 1].now]
    else Claims(es, n - 1)
  }

  predicate AtMostOneRunning(jobs: seq<Job>) {
    forall i, k :: 0 <= i < k < |jobs| ==> jobs[i].status != Running || jobs[k].status != Running
  }

  predicate Spaced(claims: seq<Instant>) {
    forall i :: 0 <= i < |claims| - 1 ==>
      && claims[i].seconds + INTERVAL <= claims[i + 1].seconds
      && !Less(Format(claims[i + 1]), Format(Add(claims[i], INTERVAL)))
  }

  /** The stored pause covers the interval after the last claim. */
  predicate Paced(q: Queue, claims: seq<Instant>) {
    && Spaced(claims) && AtMostOneRunning(q.jobs)
    && (forall i :: 0 <= i < |claims| ==> Representable(Add(claims[i], INTERVAL)))
    && (claims != [] ==> q.next.Some? && !Less(q.next.value, Format(Add(claims[|claims| - 1], INTERVAL))))
  }

  lemma SmallerIsRepresentable(at: Instant)
    requires Representable(Add(at, INTERVAL))
    ensures Representable(at)
  {
  }

  /** A claim that is not blocked comes at least sixty-five whole seconds later,
      and its text is not less than that of the pause. */
  lemma ClaimWaits(q: Queue, claims: seq<Instant>, now: Instant)
    requires Paced(q, claims) && claims != [] && Representable(Add(now, INTERVAL)) && !Blocked(q, now)
    ensures claims[|claims| - 1].seconds + INTERVAL <= now.seconds
    ensures !Less(Format(now), Format(Add(claims[|claims| - 1], INTERVAL)))
  {
    var earliest := Add(claims[|claims| - 1], INTERVAL);
    SmallerIsRepresentable(now);
    NotLessTrans(Format(now), q.next.value, Format(earliest), 0);
    if now.seconds < earliest.seconds {
      SecondsOrderTexts(now, earliest);
    }
  }

  lemma PauseGrows(before: Text, retryAt: Text, floor: Text)
    requires !Less(before, floor)
    ensures !Less(Later(before, retryAt), floor)
  {
    if Less(before, retryAt) {
      Asymmetric(before, retryAt, 0);
      NotLessTrans(retryAt, before, floor, 0);
    }
  }

  lemma {:induction false} Asymmetric(a: Text, b: Text, i: nat)
    requires i <= |a| && i <= |b| && LessFrom(a, b, i)
    ensures !LessFrom(b, a, i)
    decreases |a| - i
  {
    if i < |a| && i < |b| && a[i] == b[i] {
      Asymmetric(a, b, i + 1);
    }
  }

  lemma StaysPaced(q: Queue, e: Event, claims: seq<Instant>)
    requires Enabled(q, e) && Paced(q, claims)
    ensures Paced(After(q, e), if e.Claim? then claims + [e.now] else claims)
  {
    hide Format, LessFrom, Representable;
    match e {
      case Claim(i, now) =>
        if claims != [] {
          ClaimWaits(q, claims, now);
        }
        SameTextFrom(Format(Add(now, INTERVAL)), 0);
        var longer := claims + [now];
        assert forall k :: 0 <= k < |claims| ==> longer[k] == claims[k];
      case Defer(i, retryAt) =>
        if claims != [] {
          PauseGrows(q.next.value, Format(retryAt), Format(Add(claims[|claims| - 1], INTERVAL)));
        }
      case _ =>
    }
  }

  /** Across claims, deferrals, re-enqueues and crash recovery at most one job
      runs, and successive claims are sixty-five whole seconds apart. */
  lemma {:induction false} ClaimsArePaced(qs: seq<Queue>, es: seq<Event>, n: nat)
    requires IsRun(qs, es) && n <= |es|
    ensures Paced(qs[n], Claims(es, n))
  {
    hide After, Enabled, Paced;
    if n == 0 {
      NothingClaimed();
    } else {
      ClaimsArePaced(qs, es, n - 1);
      StaysPaced(qs[n - 1], es[n - 1], Claims(es, n - 1));
    }
  }

  lemma NothingClaimed()
    ensures Paced(Queue([], None), [])
  {
  }

  lemma {:induction false} ClaimsSpread(claims: seq<Instant>, i: nat, k: nat)
    requires Spaced(claims) && i <= k < |claims|
    ensures claims[i].seconds + INTERVAL * (k - i) <= claims[k].seconds
  {
    if i < k {
      ClaimsSpread(claims, i, k - 1);
    }
  }

  predicate WithinHour(from: Instant, at: Instant) {
    !Earlier(at, from) && Earlier(at, Add(from, HOUR))
  }

  /** Any window of one hour holds at most fifty-six claims. */
  lemma HourlyBound(qs: seq<Queue>, es: seq<Event>, i: nat, k: nat, from: Instant)
    requires IsRun(qs, es) && i <= k < |Claims(es, |es|)|
    requires WithinHour(from, Claims(es, |es|)[i]) && WithinHour(from, Claims(es, |es|)[k])
    ensures k - i + 1 <= 56
  {
    ClaimsArePaced(qs, es, |es|);
    ClaimsSpread(Claims(es, |es|), i, k);
  }

  /** The exact gap can be shorter than the interval, by less than one second. */
  lemma GapBound(qs: seq<Queue>, es: seq<Event>, i: nat)
    requires IsRun(qs, es) && i + 1 < |Claims(es, |es|)|
    ensures var a, b := Claims(es, |es|)[i], Claims(es, |es|)[i + 1];
            Earlier(Add(a, INTERVAL - 1), b)
  {
    ClaimsArePaced(qs, es, |es|);
    var a := Claims(es, |es|)[i];
    assert Representable(Add(a, INTERVAL));
  }

  /** Of two claims that are short of the interval, the later one falls into the
      second in which the pause ends, and its written fraction is a proper
      prefix of the pause's. */
  predicate IsShort(a: Instant, b: Instant) {
    b.seconds == a.seconds + INTERVAL && b.nanos < a.nanos && ProperPrefix(Fraction(b.nanos), Fraction(a.nanos))
  }

  /** Successive claims of any run are closer than sixty-five seconds exactly
      when they are short in this sense. */
  lemma {:induction false} ShortGapIff(qs: seq<Queue>, es: seq<Event>, i: nat)
    requires IsRun(qs, es) && i + 1 < |Claims(es, |es|)|
    ensures var a, b := Claims(es, |es|)[i], Claims(es, |es|)[i + 1];
            Earlier(b, Add(a, INTERVAL)) <==> IsShort(a, b)
  {
    hide Format, LessFrom, Pow10, Fraction, ProperPrefix;
    ClaimsArePaced(qs, es, |es|);
    var a, b := Claims(es, |es|)[i], Claims(es, |es|)[i + 1];
    if Earlier(b, Add(a, INTERVAL)) {
      assert Representable(Add(a, INTERVAL)) && Representable(Add(b, INTERVAL));
      SmallerIsRepresentable(b);
      InvertedIff(b, Add(a, INTERVAL));
    }
  }

  /** And every such pair of instants occurs: whole seconds and shorter fractions
      sort after the stored pause that ends inside them. */
  lemma ShortGapExists(first: Instant, second: Instant) returns (qs: seq<Queue>, es: seq<Event>)
    requires IsShort(first, second) && Representable(Add(second, INTERVAL)) && Representable(first)
    ensures IsRun(qs, es) && Claims(es, |es|) == [first, second]
    ensures Earlier(second, Add(first, INTERVAL))
  {
    hide Format, LessFrom, Pow10, Fraction, ProperPrefix;
    var at := Format(first);
    assert Representable(second) && Representable(Add(first, INTERVAL)) by { SmallerIsRepresentable(second); }
    InvertedIff(second, Add(first, INTERVAL));
    Asymmetric(Format(Add(first, INTERVAL)), Format(second), 0);
    SecondsOrderTexts(first, second);
    SameTextFrom(at, 0);
    es := [Enqueue(1, first), Claim(0, first), Complete(0), Enqueue(2, first), Claim(1, second)];
    var q0 := Queue([], None);
    var q1 := Queue([Job(1, Queued, at)], None);
    var q2 := Queue([Job(1, Running, at)], Some(Format(Add(first, INTERVAL))));
    var q3 := q2.(jobs := [Job(1, Completed, at)]);
    var q4 := q2.(jobs := [Job(1, Completed, at), Job(2, Queued, at)]);
    var q5 := Queue([Job(1, Completed, at), Job(2, Running, at)], Some(Format(Add(second, INTERVAL))));
    qs := [q0, q1, q2, q3, q4, q5];
    assert Enabled(q0, es[0]) && After(q0, es[0]) == q1;
    assert Enabled(q1, es[1]) && After(q1, es[1]) == q2;
    assert Enabled(q2, es[2]) && After(q2, es[2]) == q3;
    assert Enabled(q3, es[3]) && After(q3, es[3]) == q4;
    assert !Blocked(q4, second);
    assert IsNextDue(q4.jobs, second, 1);
    assert Enabled(q4, es[4]) && After(q4, es[4]) == q5;
    assert Claims(es, 2) == [first] by { assert Claims(es, 1) == []; }
    assert Claims(es, 4) == [first] by { assert Claims(es, 3) == [first]; }
  }

  // ----- Work is kept until it is completed -----

  predicate OneJobEach(jobs: seq<Job>) {
    forall i, k :: 0 <= i < k < |jobs| && jobs[i].status != Completed && jobs[k].status != Completed ==>
      jobs[i].author != jobs[k].author
  }

  lemma {:induction false} AuthorsStayUnique(qs: seq<Queue>, es: seq<Event>, n: nat)
    requires IsRun(qs, es) && n <= |es|
    ensures OneJobEach(qs[n].jobs)
  {
    hide Format, LessFrom;
    if n > 0 {
      AuthorsStayUnique(qs, es, n - 1);
    }
  }

  /** The event completes the queued or running job of an author. */
  predicate Ends(q: Queue, e: Event, author: int) {
    && e.Complete? && e.index < |q.jobs|
    && q.jobs[e.index].author == author && q.jobs[e.index].status in {Queued, Running}
  }

  predicate Asks(e: Event, author: int) {
    e.Enqueue? && e.author == author
  }

  lemma ActivityMoves(q: Queue, e: Event, author: int)
    requires Enabled(q, e) && OneJobEach(q.jobs)
    ensures HasActive(After(q, e).jobs, author) <==>
              Asks(e, author) || (HasActive(q.jobs, author) && !Ends(q, e, author))
  {
    hide Format, LessFrom;
    var after := After(q, e).jobs;
    if HasActive(q.jobs, author) {
      var i :| 0 <= i < |q.jobs| && q.jobs[i].status != Completed && q.jobs[i].author == author;
      if !Ends(q, e, author) {
        assert after[i].status != Completed && after[i].author == author;
      }
    } else if Asks(e, author) {
      assert after[|q.jobs|].status != Completed && after[|q.jobs|].author == author;
    }
  }

  /** The author was enqueued at `k`, and has not been completed since. */
  predicate OwedSince(qs: seq<Queue>, es: seq<Event>, k: nat, n: nat, author: int)
    requires n <= |es| < |qs|
  {
    k < n && Asks(es[k], author) && forall m :: k < m < n ==> !Ends(qs[m], es[m], author)
  }

  ghost predicate Owed(qs: seq<Queue>, es: seq<Event>, n: nat, author: int)
    requires n <= |es| < |qs|
  {
    exists k :: OwedSince(qs, es, k, n, author)
  }

  /** In every run, an author has a queued or running job exactly if it was
      enqueued and that job has not been completed since: neither a claim, a
      deferral nor recovery ever drops it. */
  lemma {:induction false} KeptUntilCompleted(qs: seq<Queue>, es: seq<Event>, n: nat, author: int)
    requires IsRun(qs, es) && n <= |es|
    ensures HasActive(qs[n].jobs, author) <==> Owed(qs, es, n, author)
  {
    hide After, Enabled, HasActive, Ends, Asks, Owed;
    if n == 0 {
      NothingIsOwed(qs, es, author);
    } else {
      KeptUntilCompleted(qs, es, n - 1, author);
      AuthorsStayUnique(qs, es, n - 1);
      ActivityMoves(qs[n - 1], es[n - 1], author);
      OwedMoves(qs, es, n, author);
    }
  }

  lemma OwedMoves(qs: seq<Queue>, es: seq<Event>, n: nat, author: int)
    requires 0 < n <= |es| < |qs|
    ensures Owed(qs, es, n, author) <==>
              Asks(es[n - 1], author) || (Owed(qs, es, n - 1, author) && !Ends(qs[n - 1], es[n - 1], author))
  {
    hide Asks, Ends;
    if Asks(es[n - 1], author) {
      assert OwedSince(qs, es, n - 1, n, author);
    } else {
      if Owed(qs, es, n, author) {
        var k: nat :| OwedSince(qs, es, k, n, author);
        assert OwedSince(qs, es, k, n - 1, author);
      }
      if Owed(qs, es, n - 1, author) && !Ends(qs[n - 1], es[n - 1], author) {
        var k: nat :| OwedSince(qs, es, k, n - 1, author);
        assert OwedSince(qs, es, k, n, author);
      }
    }
  }

  lemma NothingIsOwed(qs: seq<Queue>, es: seq<Event>, author: int)
    requires |es| < |qs|
    ensures !HasActive([], author) && !Owed(qs, es, 0, author)
  {
  }

  /** When a rate-limited job may be tried again: the latest of the interval, the
      reported reset and the requested delay, the last two with five seconds
      to spare. */
  method RetryAt(at: Instant, resetUnix: nat, retryAfter: nat) returns (retryAt: Instant)
    ensures !Earlier(retryAt, Add(at, INTERVAL)) && !Earlier(retryAt, Instant(resetUnix + 5, 0))
            && !Earlier(retryAt, Add(at, retryAfter + 5))
    ensures retryAt in {Add(at, INTERVAL), Instant(resetUnix + 5, 0), Add(at, retryAfter + 5)}
  {
    retryAt := Add(at, INTERVAL);
    var reset := Instant(resetUnix + 5, 0);
    if Earlier(retryAt, reset) {
      retryAt := reset;
    }
    var after := Add(at, retryAfter + 5);
    if Earlier(retryAt, after) {
      retryAt := after;
    }
  }

  /** The queue's rows, changed in place. */
  class Store {
    var jobs: seq<Job>
    var next: Option<Text>

    constructor ()
      ensures View() == Queue([], None)
    {
      jobs, next := [], None;
    }

    function View(): Queue
      reads this
    {
      Queue(jobs, next)
    }

    method ClaimAncillary(now: Instant) returns (claimed: Option<nat>)
      modifies this
      ensures claimed.None? ==>
                View() == old(View()) && (Blocked(View(), now) || forall k :: 0 <= k < |jobs| ==> !Due(jobs[k], now))
      ensures claimed.Some? ==>
                !Blocked(old(View()), now) && IsNextDue(old(jobs), now, claimed.value)
                    && View() == Claimed(old(View()), claimed.value, now)
      ensures claimed.Some? ==>
                var job := old(jobs)[claimed.value];
                && job.status == Queued && !Less(Format(now), job.scheduledFor)
                && (forall k :: 0 <= k < |old(jobs)| && old(jobs)[k].status == Queued
                                && !Less(Format(now), old(jobs)[k].scheduledFor) ==>
                      && !Less(old(jobs)[k].scheduledFor, job.scheduledFor)
                      && (k < claimed.value ==> Less(job.scheduledFor, old(jobs)[k].scheduledFor)))
                && jobs == old(jobs)[claimed.value := Job(job.author, Running, job.scheduledFor)]
                && next == Some(Format(Instant(now.seconds + 65, now.nanos)))
    {
      claimed := None;
      if next.Some? && Less(Format(now), next.value) {
        return;
      }
      for k := 0 to |jobs|
        invariant View() == old(View())
        invariant forall i :: 0 <= i < k ==> jobs[i].status != Running
      {
        if jobs[k].status == Running {
          return;
        }
      }
      for k := 0 to |jobs|
        invariant View() == old(View()) && !Blocked(View(), now)
        invariant claimed.None? ==> forall i :: 0 <= i < k ==> !Due(jobs[i], now)
        invariant claimed.Some? ==> claimed.value < k && Due(jobs[claimed.value], now)
        invariant claimed.Some? ==> forall i :: 0 <= i < k && Due(jobs[i], now) ==> Before(jobs, claimed.value, i)
      {
        hide Format, LessFrom;
        if Due(jobs[k], now) {
          SameTextFrom(jobs[k].scheduledFor, 0);
          if claimed.None? {
            claimed := Some(k);
          } else if Less(jobs[k].scheduledFor, jobs[claimed.value].scheduledFor) {
            ghost var was := claimed.value;
            Asymmetric(jobs[k].scheduledFor, jobs[was].scheduledFor, 0);
            forall i | 0 <= i < k && Due(jobs[i], now)
              ensures Before(jobs, k, i)
            {
              NotLessChain(jobs, was, k, i);
            }
            claimed := Some(k);
          }
        }
      }
      if claimed.Some? {
        jobs := jobs[claimed.value := jobs[claimed.value].(status := Running)];
        next := Some(Format(Add(now, INTERVAL)));
      }
    }

    method RequeueAncillary(i: nat, retryAt: Instant)
      requires i < |jobs|
      modifies this
      ensures View() == Deferred(old(View()), i, Format(retryAt))
      ensures jobs == if old(jobs)[i].status == Running
                      then old(jobs)[i := Job(old(jobs)[i].author, Queued, Format(retryAt))] else old(jobs)
      ensures next.Some? && !Less(next.value, Format(retryAt)) && next in {old(next), Some(Format(retryAt))}
      ensures old(next).Some? ==> !Less(next.value, old(next).value)
    {
      var at := Format(retryAt);
      LaterIsLast(next, at);
      if jobs[i].status == Running {
        jobs := jobs[i := jobs[i].(status := Queued, scheduledFor := at)];
      }
      if next.None? || Less(next.value, at) {
        next := Some(at);
      }
    }

    method RecoverAncillary()
      modifies `jobs
      ensures jobs == Recovered(old(jobs)) && |jobs| == |old(jobs)|
      ensures forall k :: 0 <= k < |jobs| ==>
                jobs[k] == if old(jobs)[k].status == Running
                           then Job(old(jobs)[k].author, Queued, old(jobs)[k].scheduledFor) else old(jobs)[k]
    {
      for k := 0 to |jobs|
        invariant |jobs| == |old(jobs)|
        invariant forall i :: 0 <= i < |jobs| ==> jobs[i] == if i < k then Recovered(old(jobs))[i] else old(jobs)[i]
      {
        if jobs[k].status == Running {
          jobs := jobs[k := jobs[k].(status := Queued)];
        }
      }
    }
  }

  lemma LaterIsLast(next: Option<Text>, at: Text)
    ensures !Less(at, at)
    ensures next.Some? ==> !Less(next.value, next.value) && (Less(next.value, at) ==> !Less(at, next.value))
  {
    SameTextFrom(at, 0);
    if next.Some? {
      SameTextFrom(next.value, 0);
      if Less(next.value, at) {
        Asymmetric(next.value, at, 0);
      }
    }
  }

  /** A strictly earlier job comes before everything the other came before. */
  lemma NotLessChain(jobs: seq<Job>, was: nat, k: nat, i: nat)
    requires was < |jobs| && k < |jobs| && i < |jobs|
    requires Less(jobs[k].scheduledFor, jobs[was].scheduledFor) && Before(jobs, was, i)
    ensures Before(jobs, k, i)
  {
    hide Format;
    var a, b, c := jobs[k].scheduledFor, jobs[was].scheduledFor, jobs[i].scheduledFor;
    Asymmetric(a, b, 0);
    NotLessTrans(c, b, a, 0);
    if !Less(a, c) {
      NotLessTrans(a, c, b, 0);
    }
  }

  // ----- Rotation over the three queues -----

  /** Serves the first queue that has work, from the one after the last served. */
  method ClaimFair(available: seq<bool>, next: nat) returns (served: Option<nat>, after: nat)
    requires |available| == 3 && next < 3
    ensures served.None? <==> forall k :: 0 <= k < 3 ==> !available[k]
    ensures served.None? ==> after == next
    ensures served.Some? ==> IsFair(next, available, served.value) && after == (served.value + 1) % 3
  {
    served, after := None, next;
    for offset := 0 to 3
      invariant served.None? && after == next
      invariant forall k :: 0 <= k < 3 && Turn(next, k) < offset ==> !available[k]
    {
      var index := (next + offset) % 3;
      assert index == if next + offset < 3 then next + offset else next + offset - 3;
      if available[index] {
        return Some(index), (index + 1) % 3;
      }
      assert Turn(next, index) == offset;
    }
    assert forall k :: 0 <= k < 3 ==> Turn(next, k) < 3;
  }

  /** How many queues are asked before queue `k`. */
  function Turn(next: nat, k: nat): nat
    requires next < 3 && k < 3
  {
    if k >= next then k - next else k + 3 - next
  }

  /** A queue that has work moves up with every claim of another one. */
  lemma TurnComesUp(next: nat, served: nat, k: nat)
    requires next < 3 && served < 3 && k < 3 && served != k && Turn(next, served) <= Turn(next, k)
    ensures Turn((served + 1) % 3, k) < Turn(next, k)
  {
  }

  /** One claim of the rotation: the first queue with work, from `next` on. */
  predicate IsFair(next: nat, available: seq<bool>, served: nat)
    requires next < 3
  {
    && |available| == 3 && served < 3 && available[served]
    && forall k :: 0 <= k < 3 && available[k] ==> Turn(next, served) <= Turn(next, k)
  }

  /** Where the rotation stands after the first `i` claims. */
  function NextAfter(start: nat, served: seq<nat>, i: nat): (next: nat)
    requires start < 3 && i <= |served|
    ensures next < 3
  {
    if i == 0 then start else (served[i - 1] + 1) % 3
  }

  ghost predicate AreFair(start: nat, available: seq<seq<bool>>, served: seq<nat>)
    requires start < 3 && |available| == |served|
  {
    forall i :: 0 <= i < |served| ==> IsFair(NextAfter(start, served, i), available[i], served[i])
  }

  /** Over any sequence of claims, and whatever work the other queues have, a
      queue that keeps having work is served within three of them. */
  lemma {:induction false} ServedWithinThree(start: nat, available: seq<seq<bool>>, served: seq<nat>, a: nat, k: nat)
    requires start < 3 && k < 3 && |available| == |served| && a + 3 <= |served| && AreFair(start, available, served)
    requires forall i :: a <= i < a + 3 ==> |available[i]| == 3 && available[i][k]
    ensures exists i :: a <= i < a + 3 && served[i] == k
  {
    hide Turn;
    if served[a] != k && served[a + 1] != k && served[a + 2] != k {
      FairClaimMovesUp(start, available, served, a, k);
      FairClaimMovesUp(start, available, served, a + 1, k);
      FairClaimMovesUp(start, available, served, a + 2, k);
      TurnIsShort(NextAfter(start, served, a), k);
      assert false;
    }
  }

  lemma FairClaimMovesUp(start: nat, available: seq<seq<bool>>, served: seq<nat>, i: nat, k: nat)
    requires start < 3 && k < 3 && |available| == |served| && i < |served| && AreFair(start, available, served)
    requires |available[i]| == 3 && available[i][k] && served[i] != k
    ensures 0 <= Turn(NextAfter(start, served, i + 1), k) < Turn(NextAfter(start, served, i), k)
  {
    assert IsFair(NextAfter(start, served, i), available[i], served[i]);
    TurnComesUp(NextAfter(start, served, i), served[i], k);
  }

  lemma TurnIsShort(next: nat, k: nat)
    requires next < 3 && k < 3
    ensures Turn(next, k) < 3
  {
  }
}
