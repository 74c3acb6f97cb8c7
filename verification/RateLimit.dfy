/** Waiting for GitHub's rate limits: one request, one collection call, and the
    repetition of a call with a fresh credential. Times are nanoseconds. */
module RateLimit {
  import opened Wrappers

  const SECOND: int := 1_000_000_000
  const MINUTE: int := 60 * SECOND

  datatype RetryAfter = Absent | Seconds(seconds: nat) | Date(at: int)

  /** What the client reads of one answer. `elapsed` is the time the exchange
      took, and `overslept` what the following sleep took beyond its length. */
  datatype Reply = Reply(
    status: nat, remaining: Option<int>, reset: Option<int>, retryAfter: RetryAfter, secondaryText: bool,
    elapsed: nat, overslept: nat)

  /** Go's 64-bit durations wrap around. */
  function Wrap64(n: int): (wrapped: int)
    ensures -0x8000_0000_0000_0000 <= wrapped < 0x8000_0000_0000_0000
    ensures -0x8000_0000_0000_0000 <= n < 0x8000_0000_0000_0000 ==> wrapped == n
  {
    (n + 0x8000_0000_0000_0000) % 0x1_0000_0000_0000_0000 - 0x8000_0000_0000_0000
  }

  function Positive(n: int): nat {
    if n > 0 then n else 0
  }

  function Doubled(retry: nat): int {
    if retry == 0 then 1 else if retry == 1 then 2 else if retry == 2 then 4
    else if retry == 3 then 8 else if retry == 4 then 16 else 32
  }

  /** How long to wait before asking again, if the answer says so. */
  function RateLimitWait(r: Reply, retry: nat, now: int): Option<int> {
    if r.status != 403 && r.status != 429 then None
    else if r.remaining == Some(0) && r.reset.Some? then Some(Positive(r.reset.value * SECOND - now))
    else match r.retryAfter
      case Seconds(seconds) => Some(Wrap64(seconds * SECOND))
      case Date(at) => Some(Positive(at - now))
      case Absent => if r.status == 429 || r.secondaryText then Some(Doubled(retry) * MINUTE) else None
  }

  predicate Limited(r: Reply) {
    r.status == 403 || r.status == 429
  }

  predicate Exhausted(r: Reply) {
    r.remaining == Some(0) && r.reset.Some?
  }

  /** An answer asks for a wait exactly if it is a refusal that reports an
      exhausted limit, a delay, or a secondary limit. The wait ends at the
      reported instant, or lasts the reported seconds, or else one minute
      doubled with each repetition up to the fifth. */
  lemma WaitIsExact(r: Reply, retry: nat, now: int)
    ensures var wait := RateLimitWait(r, retry, now);
            && (wait.Some? <==>
                  Limited(r) && (Exhausted(r) || r.retryAfter != Absent || r.status == 429 || r.secondaryText))
            && (wait.Some? && Exhausted(r) ==>
                  var reset := 1_000_000_000 * r.reset.value;
                  now + wait.value == if reset > now then reset else now)
            && (wait.Some? && !Exhausted(r) ==>
                  match r.retryAfter
                  case Seconds(seconds) =>
                    1_000_000_000 * seconds < 0x8000_0000_0000_0000 ==> wait.value == 1_000_000_000 * seconds
                  case Date(at) => now + wait.value == if at > now then at else now
                  case Absent => wait.value == 60_000_000_000 * (if retry <= 5 then Power(retry) else 32))
  {
    assert Power(1) == 2 && Power(2) == 4 && Power(3) == 8 && Power(4) == 16 && Power(5) == 32;
  }

  datatype Outcome = Answered(status: nat) | RetriesExhausted | BudgetExceeded

  /** `slept` adds up the requested waits; `sends` counts the exchanges. */
  datatype Exchange = Exchange(outcome: Outcome, sends: nat, slept: nat, now: int)

  /** The request from its `retry`-th repetition on. */
  function RequestFrom(reply: nat -> Reply, retry: nat, maxRetries: nat, deadline: int, now: int): Exchange
    requires retry <= maxRetries
    decreases maxRetries - retry
  {
    var r := reply(retry);
    var answered := now + r.elapsed;
    var wait := RateLimitWait(r, retry, answered);
    if wait.None? then Exchange(Answered(r.status), 1, 0, answered)
    else if retry == maxRetries then Exchange(RetriesExhausted, 1, 0, answered)
    else if answered + wait.value > deadline then Exchange(BudgetExceeded, 1, 0, answered)
    else
      var rest := RequestFrom(reply, retry + 1, maxRetries, deadline, answered + Positive(wait.value) + r.overslept);
      Exchange(rest.outcome, rest.sends + 1, rest.slept + Positive(wait.value), rest.now)
  }

  method DoRequest(reply: nat -> Reply, maxRetries: nat, deadline: int, start: int) returns (e: Exchange)
    ensures e == RequestFrom(reply, 0, maxRetries, deadline, start)
  {
    hide Positive, RateLimitWait;
    var retry: nat, now: int, slept: nat := 0, start, 0;
    ghost var whole := RequestFrom(reply, 0, maxRetries, deadline, start);
    while true
      invariant retry <= maxRetries
      invariant var rest := RequestFrom(reply, retry, maxRetries, deadline, now);
                whole == Exchange(rest.outcome, rest.sends + retry, rest.slept + slept, rest.now)
      decreases maxRetries - retry
    {
      var r := reply(retry);
      now := now + r.elapsed;
      var wait := RateLimitWait(r, retry, now);
      if wait.None? {
        return Exchange(Answered(r.status), retry + 1, slept, now);
      }
      if retry >= maxRetries {
        return Exchange(RetriesExhausted, retry + 1, slept, now);
      }
      if now + wait.value > deadline {
        return Exchange(BudgetExceeded, retry + 1, slept, now);
      }
      slept := slept + Positive(wait.value);
      now := now + Positive(wait.value) + r.overslept;
      retry := retry + 1;
    }
  }

  /** A request is sent at most once more than it may be retried, and sleeps
      only inside what is left before the deadline. */
  lemma {:induction false} RequestBounds(reply: nat -> Reply, retry: nat, maxRetries: nat, deadline: int, now: int)
    requires retry <= maxRetries
    ensures var e := RequestFrom(reply, retry, maxRetries, deadline, now);
            && 1 <= e.sends <= maxRetries - retry + 1
            && now + e.slept <= e.now
            && (e.slept > 0 ==> now + e.slept <= deadline)
    decreases maxRetries - retry
  {
    var r := reply(retry);
    var wait := RateLimitWait(r, retry, now + r.elapsed);
    if wait.Some? && retry < maxRetries && now + r.elapsed + wait.value <= deadline {
      RequestBounds(reply, retry + 1, maxRetries, deadline, now + r.elapsed + Positive(wait.value) + r.overslept);
    }
  }

  /** When the exchange with index `k` is answered, if the request gets there. */
  function AnsweredAt(reply: nat -> Reply, start: int, k: nat): int
    decreases k, 0
  {
    if k == 0 then start + reply(0).elapsed
    else AnsweredAt(reply, start, k - 1) + SleepAfter(reply, start, k - 1) + reply(k - 1).overslept + reply(k).elapsed
  }

  function WaitAfter(reply: nat -> Reply, start: int, k: nat): Option<int>
    decreases k, 1
  {
    RateLimitWait(reply(k), k, AnsweredAt(reply, start, k))
  }

  function SleepAfter(reply: nat -> Reply, start: int, k: nat): nat
    decreases k, 2
  {
    if WaitAfter(reply, start, k).Some? then Positive(WaitAfter(reply, start, k).value) else 0
  }

  /** The requested sleeps after the first `k` exchanges. */
  function SleptBefore(reply: nat -> Reply, start: int, k: nat): nat {
    if k == 0 then 0 else SleptBefore(reply, start, k - 1) + SleepAfter(reply, start, k - 1)
  }

  predicate Repeats(reply: nat -> Reply, start: int, maxRetries: nat, deadline: int, k: nat) {
    && WaitAfter(reply, start, k).Some? && k < maxRetries
    && AnsweredAt(reply, start, k) + WaitAfter(reply, start, k).value <= deadline
  }

  lemma {:induction false} RequestFromIsExact(reply: nat -> Reply, start: int, retry: nat, maxRetries: nat,
                                              deadline: int, now: int)
    requires retry <= maxRetries && now + reply(retry).elapsed == AnsweredAt(reply, start, retry)
    ensures var e := RequestFrom(reply, retry, maxRetries, deadline, now);
            && e.sends > 0
            && var last := retry + e.sends - 1;
               && (forall k :: retry <= k < last ==> Repeats(reply, start, maxRetries, deadline, k))
               && !Repeats(reply, start, maxRetries, deadline, last)
               && e.now == AnsweredAt(reply, start, last)
               && SleptBefore(reply, start, retry) + e.slept == SleptBefore(reply, start, last)
               && e.outcome == if WaitAfter(reply, start, last).None? then Answered(reply(last).status)
                               else if last == maxRetries then RetriesExhausted else BudgetExceeded
    decreases maxRetries - retry
  {
    hide RateLimitWait, Positive;
    if Repeats(reply, start, maxRetries, deadline, retry) {
      RequestFromIsExact(reply, start, retry + 1, maxRetries, deadline,
                         now + reply(retry).elapsed + SleepAfter(reply, start, retry) + reply(retry).overslept);
    }
  }

  /** A request is repeated exactly as long as the answer asks for a wait, a
      repetition is left and the wait ends before the deadline. It sleeps the
      waits of the repeated exchanges and ends with the last answer. */
  lemma RequestIsExact(reply: nat -> Reply, maxRetries: nat, deadline: int, start: int)
    ensures var e := RequestFrom(reply, 0, maxRetries, deadline, start);
            && e.sends > 0
            && var last := e.sends - 1;
               && (forall k :: 0 <= k < last ==> Repeats(reply, start, maxRetries, deadline, k))
               && !Repeats(reply, start, maxRetries, deadline, last)
               && e.now == AnsweredAt(reply, start, last) && e.slept == SleptBefore(reply, start, last)
               && e.outcome == if WaitAfter(reply, start, last).None? then Answered(reply(last).status)
                               else if last == maxRetries then RetriesExhausted else BudgetExceeded
  {
    RequestFromIsExact(reply, start, 0, maxRetries, deadline, start);
  }

  // ----- One collection call -----

  /** One request of a call. A refusal of a request to `/app`, such as the one
      for an installation token, cannot be mended by a fresh token. */
  datatype Request = Request(reply: nat -> Reply, toApp: bool)

  /** A call sends its requests in order under one deadline, and stops at the
      first that is not answered with success. `refreshable` says that its
      installation token was refused. */
  datatype Call = Call(refreshable: bool, failed: bool, sends: nat, slept: nat, now: int)

  predicate Succeeded(o: Outcome) {
    o.Answered? && 200 <= o.status < 300
  }

  /** The installation token was refused. */
  predicate Refuses(r: Request, o: Outcome) {
    o == Answered(401) && !r.toApp
  }

  function CallFirst(requests: seq<Request>, n: nat, maxRetries: nat, deadline: int, start: int): Call
    requires n <= |requests|
  {
    if n == 0 then Call(false, false, 0, 0, start)
    else
      var before := CallFirst(requests, n - 1, maxRetries, deadline, start);
      if before.failed then before
      else
        var e := RequestFrom(requests[n - 1].reply, 0, maxRetries, deadline, before.now);
        Call(Refuses(requests[n - 1], e.outcome), !Succeeded(e.outcome), before.sends + e.sends, before.slept + e.slept,
             e.now)
  }

  function CallOnce(requests: seq<Request>, maxRetries: nat, budget: nat, start: int): Call {
    CallFirst(requests, |requests|, maxRetries, start + budget, start)
  }

  /** How the request with index `i` ends, if the call gets there. */
  function OutcomeAt(requests: seq<Request>, i: nat, maxRetries: nat, deadline: int, start: int): Outcome
    requires i < |requests|
  {
    RequestFrom(requests[i].reply, 0, maxRetries, deadline, CallFirst(requests, i, maxRetries, deadline, start).now)
        .outcome
  }

  /** The request with index `i` is the first that is not answered with success. */
  predicate FailsFirst(requests: seq<Request>, i: nat, maxRetries: nat, deadline: int, start: int)
    requires i < |requests|
  {
    && !Succeeded(OutcomeAt(requests, i, maxRetries, deadline, start))
    && forall k :: 0 <= k < i ==> Succeeded(OutcomeAt(requests, k, maxRetries, deadline, start))
  }

  lemma {:induction false} SucceedsIff(requests: seq<Request>, n: nat, maxRetries: nat, deadline: int, start: int)
    requires n <= |requests|
    ensures !CallFirst(requests, n, maxRetries, deadline, start).failed <==>
              forall i :: 0 <= i < n ==> Succeeded(OutcomeAt(requests, i, maxRetries, deadline, start))
    ensures CallFirst(requests, n, maxRetries, deadline, start).failed ==>
              exists i :: 0 <= i < n && FailsFirst(requests, i, maxRetries, deadline, start)
    ensures CallFirst(requests, n, maxRetries, deadline, start).refreshable ==>
              CallFirst(requests, n, maxRetries, deadline, start).failed
  {
    hide RequestFrom;
    if n > 0 {
      SucceedsIff(requests, n - 1, maxRetries, deadline, start);
      if CallFirst(requests, n - 1, maxRetries, deadline, start).failed {
        var i :| 0 <= i < n - 1 && FailsFirst(requests, i, maxRetries, deadline, start);
        assert !Succeeded(OutcomeAt(requests, i, maxRetries, deadline, start));
      } else if CallFirst(requests, n, maxRetries, deadline, start).failed {
        assert FailsFirst(requests, n - 1, maxRetries, deadline, start);
      }
    }
  }

  /** A call fails exactly if one of its requests does. It then sends no other,
      and its token was refused exactly if that request was answered with 401
      and did not go to `/app`. */
  lemma CallIsExact(requests: seq<Request>, maxRetries: nat, deadline: int, start: int, i: nat)
    requires i < |requests| && FailsFirst(requests, i, maxRetries, deadline, start)
    ensures var call := CallFirst(requests, |requests|, maxRetries, deadline, start);
            && call.failed && call == CallFirst(requests, i + 1, maxRetries, deadline, start)
            && (call.refreshable <==>
                  OutcomeAt(requests, i, maxRetries, deadline, start) == Answered(401) && !requests[i].toApp)
  {
    hide RequestFrom;
    SucceedsIff(requests, i, maxRetries, deadline, start);
    FailureEndsCall(requests, i + 1, |requests|, maxRetries, deadline, start);
  }

  method CollectOnce(requests: seq<Request>, maxRetries: nat, budget: nat, start: int) returns (call: Call)
    ensures call == CallOnce(requests, maxRetries, budget, start)
  {
    hide RequestFrom, Succeeded, Refuses;
    var deadline := start + budget;
    call := Call(false, false, 0, 0, start);
    for i := 0 to |requests|
      invariant call == CallFirst(requests, i, maxRetries, deadline, start) && !call.failed
    {
      var e := DoRequest(requests[i].reply, maxRetries, deadline, call.now);
      call := Call(Refuses(requests[i], e.outcome), !Succeeded(e.outcome), call.sends + e.sends, call.slept + e.slept,
                   e.now);
      if call.failed {
        FailureEndsCall(requests, i + 1, |requests|, maxRetries, deadline, start);
        return;
      }
    }
  }

  lemma {:induction false} FailureEndsCall(requests: seq<Request>, m: nat, n: nat, maxRetries: nat, deadline: int,
                                           start: int)
    requires m <= n <= |requests| && CallFirst(requests, m, maxRetries, deadline, start).failed
    ensures CallFirst(requests, n, maxRetries, deadline, start) == CallFirst(requests, m, maxRetries, deadline, start)
  {
    hide RequestFrom;
    if m < n {
      FailureEndsCall(requests, m, n - 1, maxRetries, deadline, start);
    }
  }

  lemma {:induction false} CallBounds(requests: seq<Request>, n: nat, maxRetries: nat, deadline: int, start: int)
    requires n <= |requests| && start <= deadline
    ensures var call := CallFirst(requests, n, maxRetries, deadline, start);
            && start + call.slept <= call.now && call.slept <= deadline - start && call.sends <= n * (maxRetries + 1)
  {
    hide RequestFrom;
    if n > 0 {
      CallBounds(requests, n - 1, maxRetries, deadline, start);
      var before := CallFirst(requests, n - 1, maxRetries, deadline, start);
      assert n * (maxRetries + 1) == (n - 1) * (maxRetries + 1) + maxRetries + 1;
      if !before.failed {
        RequestBounds(requests[n - 1].reply, 0, maxRetries, deadline, before.now);
      }
    }
  }

  /** The requested sleeps of one call, over all its requests, add up to at most
      the budget. */
  lemma SleepsFitBudget(requests: seq<Request>, maxRetries: nat, budget: nat, start: int)
    ensures CallOnce(requests, maxRetries, budget, start).slept <= budget
    ensures CallOnce(requests, maxRetries, budget, start).sends <= |requests| * (maxRetries + 1)
  {
    CallBounds(requests, |requests|, maxRetries, start + budget, start);
  }

  // ----- A call with a fresh credential -----

  datatype Operation = Operation(calls: nat, slept: nat, now: int)

  /** An app's call whose token is refused is repeated once, with a new token and
      a new deadline. */
  function Collect(app: bool, first: seq<Request>, second: seq<Request>, maxRetries: nat, budget: nat,
                   start: int): Operation {
    var once := CallOnce(first, maxRetries, budget, start);
    if app && once.refreshable then
      var again := CallOnce(second, maxRetries, budget, once.now);
      Operation(2, once.slept + again.slept, again.now)
    else Operation(1, once.slept, once.now)
  }

  lemma RefusedIff(requests: seq<Request>, maxRetries: nat, budget: nat, start: int)
    ensures CallOnce(requests, maxRetries, budget, start).refreshable <==>
              exists i :: 0 <= i < |requests| && FailsFirst(requests, i, maxRetries, start + budget, start)
                          && OutcomeAt(requests, i, maxRetries, start + budget, start) == Answered(401)
                          && !requests[i].toApp
  {
    hide CallFirst, RequestFrom;
    SucceedsIff(requests, |requests|, maxRetries, start + budget, start);
    forall i | 0 <= i < |requests| && FailsFirst(requests, i, maxRetries, start + budget, start)
      ensures CallOnce(requests, maxRetries, budget, start).refreshable <==>
                OutcomeAt(requests, i, maxRetries, start + budget, start) == Answered(401) && !requests[i].toApp
    {
      CallIsExact(requests, maxRetries, start + budget, start, i);
    }
    if CallOnce(requests, maxRetries, budget, start).refreshable {
      var i :| 0 <= i < |requests| && FailsFirst(requests, i, maxRetries, start + budget, start);
      assert OutcomeAt(requests, i, maxRetries, start + budget, start) == Answered(401);
    }
  }

  /** The whole operation stays within one budget for each call it makes, and
      makes a second one exactly when the token of an app's first was refused. */
  lemma OperationBound(app: bool, first: seq<Request>, second: seq<Request>, maxRetries: nat, budget: nat,
                       start: int)
    ensures var op := Collect(app, first, second, maxRetries, budget, start);
            && op.slept <= op.calls * budget
            && 1 <= op.calls <= 2
            && (op.calls == 2 <==>
                  app && exists i :: 0 <= i < |first| && FailsFirst(first, i, maxRetries, start + budget, start)
                                     && OutcomeAt(first, i, maxRetries, start + budget, start) == Answered(401)
                                     && !first[i].toApp)
  {
    RefusedIff(first, maxRetries, budget, start);
    hide CallOnce;
    SleepsFitBudget(first, maxRetries, budget, start);
    SleepsFitBudget(second, maxRetries, budget, CallOnce(first, maxRetries, budget, start).now);
  }

  /** So an operation can sleep twice its budget. */
  lemma TwiceTheBudget(budget: nat) returns (first: seq<Request>, second: seq<Request>)
    requires budget % SECOND == 0 && 0 < budget < 0x4000_0000_0000_0000
    ensures Collect(true, first, second, 1, budget, 0).slept == 2 * budget
  {
    var limited := Reply(429, None, None, Seconds(budget / SECOND), false, 0, 0);
    var refused := Reply(401, None, None, Absent, false, 0, 0);
    var fine := Reply(200, None, None, Absent, false, 0, 0);
    first := [Request(n => if n == 0 then limited else refused, false)];
    second := [Request(n => if n == 0 then limited else fine, false)];
    assert Wrap64(budget / SECOND * SECOND) == budget;
    OneWait(first[0].reply, 401, budget, 0);
    OneWait(second[0].reply, 200, budget, budget);
    assert CallFirst(first, 0, 1, budget, 0) == Call(false, false, 0, 0, 0);
    assert CallFirst(second, 0, 1, budget + budget, budget) == Call(false, false, 0, 0, budget);
  }

  lemma OneWait(reply: nat -> Reply, status: nat, budget: nat, start: nat)
    requires status != 403 && status != 429 && budget > 0
    requires reply(0).elapsed == reply(0).overslept == reply(1).elapsed == 0
    requires RateLimitWait(reply(0), 0, start) == Some(budget) && reply(1).status == status
    ensures RequestFrom(reply, 0, 1, start + budget, start) == Exchange(Answered(status), 2, budget, start + budget)
  {
    assert RequestFrom(reply, 1, 1, start + budget, start + budget) == Exchange(Answered(status), 1, 0, start + budget);
  }
}
