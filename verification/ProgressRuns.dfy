/** Progress collections one after another: which replays change nothing, and
    which transitions the stored events count. */
module ProgressRuns {
  import opened Wrappers
  import opened Progress

  // ----- Replaying a collection -----

  /** The rows of one repository are the same. */
  ghost predicate SameRows(t: Tables, u: Tables, repository: string) {
    && (forall e: EventKey :: e.link.repository == repository ==>
          (e in t.events <==> e in u.events) && (e in t.events ==> t.events[e] == u.events[e]))
    && (forall k: ThreadKey :: k.link.repository == repository ==>
          (k in t.threads <==> k in u.threads) && (k in t.threads ==> t.threads[k] == u.threads[k]))
  }

  /** Every collection a snapshot names still contains the repository. */
  predicate Covered(links: set<Link>, repository: string, s: Snapshot) {
    forall i, c :: 0 <= i < |s.events| && c in s.events[i].collections ==> Link(c, repository) in links
  }

  /** The time of a reported event is determined by its identity. */
  ghost predicate Immutable(when: EventKey -> int, t: Tables, repository: string, s: Snapshot) {
    && (forall e :: e in t.events && e.link.repository == repository && e.id.Reported? ==> t.events[e] == when(e))
    && (forall i, c :: 0 <= i < |s.events| ==> s.events[i].occurredAt == when(EventOf(repository, s.events[i], c)))
  }

  /** The snapshot lists the thread first as resolved and last as unresolved, and
      the tables have no event of its resolution at this time. */
  ghost predicate Breaks(once: Tables, links: set<Link>, repository: string, s: Snapshot, key: ThreadKey) {
    && ObservedFirst(links, repository, s.threads, |s.threads|, key) == Some(true)
    && Observes(links, repository, s, key) == Some(false)
    && ResolutionOf(key, s.collectedAt) !in once.events
  }

  ghost predicate Replayable(once: Tables, links: set<Link>, repository: string, s: Snapshot) {
    forall key: ThreadKey :: !Breaks(once, links, repository, s, key)
  }

  lemma {:induction false} ObservedIsOwn(links: set<Link>, repository: string, threads: seq<Thread>, n: nat,
                                         key: ThreadKey)
    requires n <= |threads| && Observed(links, repository, threads, n, key).Some?
    ensures key.link.repository == repository
  {
    if !Touches(links, repository, threads[n - 1], key) {
      ObservedIsOwn(links, repository, threads, n - 1, key);
    }
  }

  ghost predicate Mentioned(links: set<Link>, repository: string, s: Snapshot, e: EventKey) {
    MentionedWithin(links, repository, s.events, |s.events|, e)
  }

  /** What a collection leaves of the reported events. */
  lemma {:induction false} ApplyReported(when: EventKey -> int, t: Tables, links: set<Link>, repository: string,
                                         s: Snapshot)
    requires Immutable(when, t, repository, s)
    ensures var u := Apply(t, links, repository, s);
            forall e: EventKey :: e.link.repository == repository && e.id.Reported? ==>
              && (e in u.events <==> (e in t.events || Mentioned(links, repository, s, e)) && when(e) >= s.horizon)
              && (e in u.events ==> u.events[e] == when(e))
  {
    hide RecordEvents, RecordThreads, MentionedWithin;
    var events := RecordEvents(t, links, repository, s.events, |s.events|);
    RecordEventsEffect(t, links, repository, s.events, |s.events|);
    RecordThreadsAddTransitions(events, links, repository, s.threads, |s.threads|, s.collectedAt);
    forall e: EventKey | e.link.repository == repository && e in events.events && e.id.Reported?
      ensures events.events[e] == when(e)
    {
    }
  }

  function KeyOfEvent(e: EventKey): (key: ThreadKey)
    requires e.id.ThreadResolved?
    ensures Concerns(e, key)
  {
    ThreadKey(e.link, e.number, e.id.thread)
  }

  /** What the replay does to the events of one thread. */
  lemma ReplayTurnsIff(t: Tables, u: Tables, once: Tables, links: set<Link>, repository: string, s: Snapshot,
                       key: ThreadKey)
    requires s.horizon <= s.collectedAt && Dated(t) && Dated(u) && key.link.repository == repository
    requires once == Apply(t, links, repository, s) && SameRows(u, once, repository)
    ensures StateOf(u, key) == StateOf(once, key)
    ensures TurnsIn(StateOf(u, key), links, repository, s, key) && ResolutionOf(key, s.collectedAt) !in once.events
       <==> Breaks(once, links, repository, s, key)
  {
    hide Apply, Observed, ObservedFirst, Turns;
    ApplyMovesKey(t, links, repository, s, key);
    TurnsIff(StateOf(t, key), links, repository, s.threads, |s.threads|, key);
    TurnsIff(StateOf(u, key), links, repository, s.threads, |s.threads|, key);
  }

  lemma ReplayedKey(t: Tables, u: Tables, once: Tables, links: set<Link>, repository: string, s: Snapshot,
                    key: ThreadKey)
    requires s.horizon <= s.collectedAt && Dated(t) && Dated(u) && key.link.repository == repository
    requires once == Apply(t, links, repository, s) && SameRows(u, once, repository)
    ensures var again := Apply(u, links, repository, s);
            && (key in again.threads <==> key in once.threads)
            && (key in once.threads ==> again.threads[key] == once.threads[key])
            && (forall e :: Concerns(e, key) ==>
                  (e in again.events <==>
                   e in once.events
                       || (Breaks(once, links, repository, s, key) && e == ResolutionOf(key, s.collectedAt))))
  {
    hide Apply, Observed, ObservedFirst, Turns, Breaks, Dated;
    var again := Apply(u, links, repository, s);
    ApplyMovesKey(t, links, repository, s, key);
    ApplyMovesKey(u, links, repository, s, key);
    ReplayTurnsIff(t, u, once, links, repository, s, key);
    forall e | Concerns(e, key)
      ensures e in again.events <==>
                e in once.events || (Breaks(once, links, repository, s, key) && e == ResolutionOf(key, s.collectedAt))
    {
      assert e.link.repository == repository;
    }
  }

  lemma ReplayedReports(when: EventKey -> int, t: Tables, u: Tables, once: Tables, links: set<Link>, repository: string,
                        s: Snapshot)
    requires Immutable(when, t, repository, s) && Immutable(when, u, repository, s)
    requires once == Apply(t, links, repository, s) && SameRows(u, once, repository)
    ensures var again := Apply(u, links, repository, s);
            forall e: EventKey :: e.link.repository == repository && e.id.Reported? ==>
              (e in again.events <==> e in once.events) && (e in once.events ==> again.events[e] == once.events[e])
  {
    hide Apply, MentionedWithin, Immutable;
    ApplyReported(when, t, links, repository, s);
    ApplyReported(when, u, links, repository, s);
  }

  lemma OnceIsImmutable(when: EventKey -> int, t: Tables, u: Tables, once: Tables, links: set<Link>, repository: string,
                        s: Snapshot)
    requires Immutable(when, t, repository, s) && once == Apply(t, links, repository, s)
             && SameRows(u, once, repository)
    ensures Immutable(when, u, repository, s)
  {
    hide Apply, MentionedWithin;
    ApplyReported(when, t, links, repository, s);
  }

  lemma SameDates(once: Tables, again: Tables, e: EventKey)
    requires Dated(once) && Dated(again) && e.id.ThreadResolved?
    ensures e in once.events && e in again.events ==> once.events[e] == again.events[e]
  {
  }

  lemma BreakIsNew(once: Tables, links: set<Link>, repository: string, s: Snapshot, key: ThreadKey)
    requires Breaks(once, links, repository, s, key)
    ensures ResolutionOf(key, s.collectedAt) !in once.events && key.link.repository == repository
    ensures Concerns(ResolutionOf(key, s.collectedAt), key)
  {
    ObservedIsOwn(links, repository, s.threads, |s.threads|, key);
  }

  /** Recording a collection again, on tables that still hold what it left of
      the repository, leaves them so exactly when no thread breaks the replay. */
  lemma {:induction false} ReplayKeepsRowsIff(when: EventKey -> int, t: Tables, u: Tables, links: set<Link>,
                                              repository: string, s: Snapshot)
    requires s.horizon <= s.collectedAt && Dated(t) && Dated(u) && Immutable(when, t, repository, s)
    requires SameRows(u, Apply(t, links, repository, s), repository)
    ensures var once := Apply(t, links, repository, s);
            SameRows(Apply(u, links, repository, s), once, repository) <==> Replayable(once, links, repository, s)
  {
    hide Apply, Immutable, Breaks, Dated;
    var once, again := Apply(t, links, repository, s), Apply(u, links, repository, s);
    OnceIsImmutable(when, t, u, once, links, repository, s);
    ReplayedReports(when, t, u, once, links, repository, s);
    ApplyStaysDated(t, links, repository, s);
    ApplyStaysDated(u, links, repository, s);
    forall key: ThreadKey | key.link.repository == repository
      ensures (key in again.threads <==> key in once.threads)
              && (key in once.threads ==> again.threads[key] == once.threads[key])
    {
      ReplayedKey(t, u, once, links, repository, s, key);
    }
    forall key | Breaks(once, links, repository, s, key)
      ensures ResolutionOf(key, s.collectedAt).link.repository == repository
      ensures ResolutionOf(key, s.collectedAt) in again.events && ResolutionOf(key, s.collectedAt) !in once.events
    {
      BreakIsNew(once, links, repository, s, key);
      ReplayedKey(t, u, once, links, repository, s, key);
    }
    forall e: EventKey | e.link.repository == repository && e.id.ThreadResolved?
      ensures e in again.events <==>
                e in once.events
                    || (Breaks(once, links, repository, s, KeyOfEvent(e))
                        && e == ResolutionOf(KeyOfEvent(e), s.collectedAt))
      ensures e in once.events && e in again.events ==> once.events[e] == again.events[e]
    {
      ReplayedKey(t, u, once, links, repository, s, KeyOfEvent(e));
      SameDates(once, again, e);
    }
  }

  lemma AcceptedAgain(t: Tables, u: Tables, links: set<Link>, repository: string, s: Snapshot)
    requires Accepted(t, links, repository, s) && Covered(links, repository, s)
    ensures Accepted(u, links, repository, s)
  {
    hide ValidEvent, ThreadAccepted;
    forall i | 0 <= i < |s.events|
      ensures EventAccepted(u, links, repository, s.events[i])
    {
      assert EventAccepted(t, links, repository, s.events[i]);
    }
  }

  /** A crash after this transaction repeats it. The repetition changes nothing
      exactly when no thread is listed first as resolved and last as unresolved
      without an event of its resolution at this time. */
  lemma {:induction false} ReplayChangesNothingIff(when: EventKey -> int, t: Tables, links: set<Link>,
                                                   repository: string, s: Snapshot)
    requires Record(t, links, repository, s).Ok?
    requires Covered(links, repository, s) && s.horizon <= s.collectedAt
    requires Dated(t) && Immutable(when, t, repository, s)
    ensures var once := Record(t, links, repository, s).value;
            && Record(once, links, repository, s).Ok?
            && (Record(once, links, repository, s).value == once <==> Replayable(once, links, repository, s))
  {
    hide Apply, Immutable, Breaks, Accepted, Covered, Dated, SameRows;
    var once := Apply(t, links, repository, s);
    AcceptedAgain(t, once, links, repository, s);
    ApplyStaysDated(t, links, repository, s);
    SameAsItself(once, repository);
    ReplayKeepsRowsIff(when, t, once, links, repository, s);
    if SameRows(Apply(once, links, repository, s), once, repository) {
      ApplyElsewhere(t, links, repository, s);
      ApplyElsewhere(once, links, repository, s);
      SameEverywhere(Apply(once, links, repository, s), once, repository);
    }
  }

  lemma SameAsItself(t: Tables, repository: string)
    ensures SameRows(t, t, repository)
  {
  }

  lemma SameEverywhere(again: Tables, once: Tables, repository: string)
    requires SameRows(again, once, repository)
    requires forall e: EventKey :: e.link.repository != repository ==> (e in again.events <==> e in once.events)
    requires forall e :: e in again.events && e.link.repository != repository ==> again.events[e] == once.events[e]
    requires forall k: ThreadKey :: k.link.repository != repository ==> (k in again.threads <==> k in once.threads)
    requires forall k :: k in again.threads && k.link.repository != repository ==> again.threads[k] == once.threads[k]
    ensures again == once
  {
    assert again.events == once.events;
    assert again.threads == once.threads;
  }

  /** A thread listed first as resolved and then as unresolved: the repetition
      derives an event that the first recording did not. */
  lemma {:induction false} RepeatedThreadBreaksReplay() returns (t: Tables, links: set<Link>, s: Snapshot)
    ensures Record(t, links, "o/r", s).Ok?
    ensures var once := Record(t, links, "o/r", s).value;
            Record(once, links, "o/r", s).Ok? && Record(once, links, "o/r", s).value != once
  {
    hide Apply;
    var link, display := Link("c", "o/r"), Display("t", "p", "a");
    var key := ThreadKey(link, 1, "t");
    var resolved := Thread("t", "o/r", 1, true, 7, display, {"c"});
    var unresolved := resolved.(resolved := false);
    links, s := {link}, Snapshot([], [resolved, unresolved], 10, 0);
    t := Tables(map[], map[key := Seen(true, 5)]);
    assert "c" in LinkedTo(links, "o/r");
    assert key == KeyOf("o/r", resolved, "c") == KeyOf("o/r", unresolved, "c");
    assert Touches(links, "o/r", s.threads[0], key) && Touches(links, "o/r", s.threads[1], key);
    assert Observed(links, "o/r", s.threads, 1, key) == ObservedFirst(links, "o/r", s.threads, 1, key) == Some(true);
    assert !Turns(StateOf(t, key), links, "o/r", s.threads, 1, key);
    ApplyMovesKey(t, links, "o/r", s, key);
    assert Concerns(ResolutionOf(key, 10), key);
    assert Breaks(Apply(t, links, "o/r", s), links, "o/r", s, key);
    ReplayChangesNothingIff(e => 0, t, links, "o/r", s);
  }

  predicate DistinctThreads(threads: seq<Thread>) {
    forall i, j :: 0 <= i < j < |threads| ==> threads[i].id != threads[j].id || threads[i].number != threads[j].number
  }

  lemma {:induction false} NotObservedBefore(links: set<Link>, repository: string, threads: seq<Thread>, m: nat, n: nat,
                                             key: ThreadKey)
    requires m <= n < |threads| && DistinctThreads(threads) && Touches(links, repository, threads[n], key)
    ensures Observed(links, repository, threads, m, key) == None
  {
    if m > 0 {
      NotObservedBefore(links, repository, threads, m - 1, n, key);
      assert threads[m - 1].id != threads[n].id || threads[m - 1].number != threads[n].number;
    }
  }

  lemma {:induction false} ListedOnce(links: set<Link>, repository: string, threads: seq<Thread>, n: nat,
                                      key: ThreadKey)
    requires n <= |threads| && DistinctThreads(threads)
    ensures ObservedFirst(links, repository, threads, n, key) == Observed(links, repository, threads, n, key)
    ensures !Turns(None, links, repository, threads, n, key)
  {
    hide DistinctThreads, Touches;
    if n > 0 {
      ListedOnce(links, repository, threads, n - 1, key);
      if Touches(links, repository, threads[n - 1], key) {
        NotObservedBefore(links, repository, threads, n - 1, n - 1, key);
      }
    }
  }

  /** A snapshot that lists no thread twice can always be replayed. */
  lemma {:induction false} DistinctThreadsReplay(once: Tables, links: set<Link>, repository: string, s: Snapshot)
    requires DistinctThreads(s.threads)
    ensures Replayable(once, links, repository, s)
  {
    forall key: ThreadKey ensures !Breaks(once, links, repository, s, key) {
      ListedOnce(links, repository, s.threads, |s.threads|, key);
    }
  }

  // ----- Only the repository's own links matter -----

  ghost predicate SameLinks(links: set<Link>, others: set<Link>, repository: string) {
    forall c :: Link(c, repository) in links <==> Link(c, repository) in others
  }

  lemma SameAudience(links: set<Link>, others: set<Link>, repository: string, collections: set<string>)
    requires SameLinks(links, others, repository)
    ensures LinkedTo(links, repository) == LinkedTo(others, repository)
    ensures Audience(links, repository, collections) == Audience(others, repository, collections)
  {
    forall c ensures c in LinkedTo(links, repository) <==> c in LinkedTo(others, repository) {
      LinkedIff(links, repository, c);
      LinkedIff(others, repository, c);
    }
  }

  lemma LinkedIff(links: set<Link>, repository: string, c: string)
    ensures c in LinkedTo(links, repository) <==> Link(c, repository) in links
  {
    if Link(c, repository) in links {
      assert Link(c, repository).collection == c;
    }
  }

  lemma SameOfOneEvent(t: Tables, links: set<Link>, others: set<Link>, repository: string, event: Event)
    requires SameLinks(links, others, repository)
    ensures RecordEvent(t, links, repository, event) == RecordEvent(t, others, repository, event)
    ensures EventAccepted(t, links, repository, event) == EventAccepted(t, others, repository, event)
  {
    SameAudience(links, others, repository, event.collections);
    assert EventKeys(links, repository, event) == EventKeys(others, repository, event);
  }

  lemma SameOfOneThread(t: Tables, links: set<Link>, others: set<Link>, repository: string, thread: Thread, at: int)
    requires SameLinks(links, others, repository)
    ensures RecordThread(t, links, repository, thread, at) == RecordThread(t, others, repository, thread, at)
    ensures ThreadAccepted(links, repository, thread) == ThreadAccepted(others, repository, thread)
  {
    hide RecordThreadFor, ValidThread;
    SameAudience(links, others, repository, thread.collections);
  }

  lemma {:induction false} SameOfEvents(t: Tables, links: set<Link>, others: set<Link>, repository: string,
                                        events: seq<Event>, n: nat)
    requires n <= |events| && SameLinks(links, others, repository)
    ensures RecordEvents(t, links, repository, events, n) == RecordEvents(t, others, repository, events, n)
  {
    hide RecordEvent, SameLinks;
    if n > 0 {
      SameOfEvents(t, links, others, repository, events, n - 1);
      SameOfOneEvent(RecordEvents(t, links, repository, events, n - 1), links, others, repository, events[n - 1]);
    }
  }

  lemma {:induction false} SameOfThreads(t: Tables, links: set<Link>, others: set<Link>, repository: string,
                                         threads: seq<Thread>, n: nat, at: int)
    requires n <= |threads| && SameLinks(links, others, repository)
    ensures RecordThreads(t, links, repository, threads, n, at) == RecordThreads(t, others, repository, threads, n, at)
  {
    hide RecordThread, SameLinks;
    if n > 0 {
      SameOfThreads(t, links, others, repository, threads, n - 1, at);
      SameOfOneThread(RecordThreads(t, links, repository, threads, n - 1, at), links, others, repository,
                      threads[n - 1], at);
    }
  }

  /** A collection reads no links but those of its own repository. */
  lemma {:induction false} OnlyOwnLinksMatter(t: Tables, links: set<Link>, others: set<Link>, repository: string,
                                              s: Snapshot)
    requires SameLinks(links, others, repository)
    ensures Apply(t, links, repository, s) == Apply(t, others, repository, s)
    ensures Accepted(t, links, repository, s) == Accepted(t, others, repository, s)
    ensures (LinkedTo(links, repository) == {}) == (LinkedTo(others, repository) == {})
  {
    hide RecordEvents, RecordThreads, EventAccepted, ThreadAccepted, SameLinks;
    SameAudience(links, others, repository, {});
    SameOfEvents(t, links, others, repository, s.events, |s.events|);
    SameOfThreads(RecordEvents(t, links, repository, s.events, |s.events|), links, others, repository, s.threads,
                  |s.threads|, s.collectedAt);
    forall i | 0 <= i < |s.events|
      ensures EventAccepted(t, links, repository, s.events[i]) == EventAccepted(t, others, repository, s.events[i])
    {
      SameOfOneEvent(t, links, others, repository, s.events[i]);
    }
    forall i | 0 <= i < |s.threads|
      ensures ThreadAccepted(links, repository, s.threads[i]) == ThreadAccepted(others, repository, s.threads[i])
    {
      SameOfOneThread(t, links, others, repository, s.threads[i], s.collectedAt);
    }
  }

  // ----- Counting transitions over any run of collections -----

  /** One collection, under the links of its time. */
  datatype Collection = Collection(links: set<Link>, repository: string, snapshot: Snapshot)

  function Collect(t: Tables, c: Collection): Tables {
    match Record(t, c.links, c.repository, c.snapshot)
    case Ok(u) => u
    case Err(_) => t
  }

  function After(t: Tables, run: seq<Collection>, n: nat): Tables
    requires n <= |run|
  {
    if n == 0 then t else Collect(After(t, run, n - 1), run[n - 1])
  }

  predicate Commits(t: Tables, run: seq<Collection>, i: nat)
    requires i < |run|
  {
    Record(After(t, run, i), run[i].links, run[i].repository, run[i].snapshot).Ok?
  }

  /** Over any collections, a stored row is that of a named event or thread of a
      numbered pull request. */
  lemma {:induction false} RowsStayComplete(t: Tables, run: seq<Collection>, n: nat)
    requires n <= |run| && Complete(t)
    ensures Complete(After(t, run, n))
  {
    hide Complete, Accepted, Apply;
    if n > 0 {
      var before, c := After(t, run, n - 1), run[n - 1];
      RowsStayComplete(t, run, n - 1);
      if Accepted(before, c.links, c.repository, c.snapshot) {
        ApplyStaysComplete(before, c.links, c.repository, c.snapshot);
      }
    }
  }

  /** The last observation of a thread before or in the first `n` collections. */
  function Known(t: Tables, run: seq<Collection>, n: nat, key: ThreadKey): Option<bool>
    requires n <= |run|
  {
    if n == 0 then StateOf(t, key)
    else
      var c, before := run[n - 1], Known(t, run, n - 1, key);
      if Commits(t, run, n - 1) then Latest(before, Observes(c.links, c.repository, c.snapshot, key)) else before
  }

  /** Collection `i` sees the thread go from unresolved to resolved. */
  predicate Resolving(t: Tables, run: seq<Collection>, i: nat, key: ThreadKey)
    requires i < |run|
  {
    Commits(t, run, i) && TurnsIn(Known(t, run, i, key), run[i].links, run[i].repository, run[i].snapshot, key)
  }

  function Transitions(t: Tables, run: seq<Collection>, n: nat, key: ThreadKey): nat
    requires n <= |run|
  {
    if n == 0 then 0 else Transitions(t, run, n - 1, key) + (if Resolving(t, run, n - 1, key) then 1 else 0)
  }

  /** The events the transitions of the first `n` collections stand for. */
  function Derived(t: Tables, run: seq<Collection>, n: nat, key: ThreadKey): set<EventKey>
    requires n <= |run|
  {
    if n == 0 then {}
    else Derived(t, run, n - 1, key)
         + (if Resolving(t, run, n - 1, key) then {ResolutionOf(key, run[n - 1].snapshot.collectedAt)} else {})
  }

  /** Nothing about the thread is old enough for a collection to prune it. */
  predicate Unpruned(t: Tables, run: seq<Collection>, key: ThreadKey, floor: int) {
    && (forall i :: 0 <= i < |run| ==> run[i].snapshot.horizon <= floor <= run[i].snapshot.collectedAt)
    && (key in t.threads ==> floor <= t.threads[key].observedAt)
    && (forall e :: e in Resolutions(t, key) ==> floor <= e.id.at)
  }

  ghost predicate Tracks(t: Tables, u: Tables, key: ThreadKey, known: Option<bool>, derived: set<EventKey>,
                         floor: int) {
    && Dated(u) && StateOf(u, key) == known
    && (key in u.threads ==> floor <= u.threads[key].observedAt)
    && Resolutions(u, key) == Resolutions(t, key) + derived
    && (forall e :: e in Resolutions(u, key) ==> floor <= e.id.at)
  }

  lemma CollectionTracks(t: Tables, u: Tables, key: ThreadKey, known: Option<bool>, derived: set<EventKey>, floor: int,
                         links: set<Link>, repository: string, s: Snapshot)
    requires Tracks(t, u, key, known, derived, floor) && s.horizon <= floor <= s.collectedAt
    ensures Tracks(t, Apply(u, links, repository, s), key, Latest(known, Observes(links, repository, s, key)),
                   derived + (if TurnsIn(known, links, repository, s, key) then {ResolutionOf(key, s.collectedAt)}
                              else {}), floor)
  {
    hide Apply, Observed, Turns, Dated;
    ApplyStaysDated(u, links, repository, s);
    ApplyMovesKey(u, links, repository, s, key);
    var w := Apply(u, links, repository, s);
    var added := if TurnsIn(known, links, repository, s, key) then {ResolutionOf(key, s.collectedAt)} else {};
    forall e
      ensures e in Resolutions(w, key) <==> e in Resolutions(u, key) || e in added
    {
      if Concerns(e, key) {
        assert e in u.events ==> e in Resolutions(u, key);
      }
    }
  }

  /** Whatever collections of whatever repositories come in whatever order,
      under changing links and with any replays: the stored resolution events
      of a thread are those it had and those of its observed transitions. A
      first observation derives none, and a rejected collection changes nothing. */
  lemma {:induction false} ResolvedEventsAreTransitions(t: Tables, run: seq<Collection>, n: nat, key: ThreadKey,
                                                        floor: int)
    requires n <= |run| && Dated(t) && Unpruned(t, run, key, floor)
    ensures Tracks(t, After(t, run, n), key, Known(t, run, n, key), Derived(t, run, n, key), floor)
  {
    hide Apply, Observes, TurnsIn, Tracks, Accepted, Dated;
    if n == 0 {
      NothingTracked(t, key, floor);
    } else {
      ResolvedEventsAreTransitions(t, run, n - 1, key, floor);
      if Commits(t, run, n - 1) {
        var c := run[n - 1];
        CollectionTracks(t, After(t, run, n - 1), key, Known(t, run, n - 1, key), Derived(t, run, n - 1, key), floor,
                         c.links, c.repository, c.snapshot);
      } else {
        assert Derived(t, run, n, key) == Derived(t, run, n - 1, key);
      }
    }
  }

  lemma NothingTracked(t: Tables, key: ThreadKey, floor: int)
    requires Dated(t) && Unpruned(t, [], key, floor)
    ensures Tracks(t, t, key, StateOf(t, key), {}, floor)
  {
  }

  /** No event of this transition was stored before: not by an earlier
      transition at the same time, and not to begin with. */
  predicate Novel(t: Tables, run: seq<Collection>, i: nat, key: ThreadKey)
    requires i < |run|
  {
    && ResolutionOf(key, run[i].snapshot.collectedAt) !in Resolutions(t, key)
    && forall k :: 0 <= k < i && Resolving(t, run, k, key) ==>
        run[k].snapshot.collectedAt != run[i].snapshot.collectedAt
  }

  predicate AllNovel(t: Tables, run: seq<Collection>, n: nat, key: ThreadKey)
    requires n <= |run|
  {
    forall i :: 0 <= i < n && Resolving(t, run, i, key) ==> Novel(t, run, i, key)
  }

  lemma {:induction false} DerivedIff(t: Tables, run: seq<Collection>, n: nat, key: ThreadKey, e: EventKey)
    requires n <= |run|
    ensures e in Derived(t, run, n, key) <==>
              exists k :: 0 <= k < n && Resolving(t, run, k, key) && e == ResolutionOf(key, run[k].snapshot.collectedAt)
  {
    hide Resolving;
    if n > 0 {
      DerivedIff(t, run, n - 1, key, e);
    }
  }

  lemma NovelIff(t: Tables, run: seq<Collection>, i: nat, key: ThreadKey)
    requires i < |run|
    ensures Novel(t, run, i, key) <==>
              ResolutionOf(key, run[i].snapshot.collectedAt) !in Resolutions(t, key) + Derived(t, run, i, key)
  {
    hide Resolving, Resolutions;
    DerivedIff(t, run, i, key, ResolutionOf(key, run[i].snapshot.collectedAt));
  }

  lemma {:induction false} CountDerived(t: Tables, run: seq<Collection>, n: nat, key: ThreadKey)
    requires n <= |run|
    ensures var stored := |Resolutions(t, key) + Derived(t, run, n, key)|;
            && stored <= |Resolutions(t, key)| + Transitions(t, run, n, key)
            && (stored == |Resolutions(t, key)| + Transitions(t, run, n, key) <==> AllNovel(t, run, n, key))
  {
    hide Resolving, Resolutions, Novel, ResolutionOf, AllNovel, Derived, Transitions;
    EachNovel(t, run, n, key);
    DerivedSoFar(t, run, n, key);
    if n > 0 {
      CountDerived(t, run, n - 1, key);
      NovelIff(t, run, n - 1, key);
      CountOneMore(Resolutions(t, key), Derived(t, run, n - 1, key), Derived(t, run, n, key),
                   Transitions(t, run, n - 1, key),
                   Resolving(t, run, n - 1, key), ResolutionOf(key, run[n - 1].snapshot.collectedAt));
    }
  }

  lemma DerivedSoFar(t: Tables, run: seq<Collection>, n: nat, key: ThreadKey)
    requires n <= |run|
    ensures n == 0 ==>
              |Resolutions(t, key) + Derived(t, run, n, key)| == |Resolutions(t, key)|
                  && Transitions(t, run, n, key) == 0
    ensures n > 0 ==>
              var resolving := Resolving(t, run, n - 1, key);
              && Derived(t, run, n, key) == Derived(t, run, n - 1, key)
                   + (if resolving then {ResolutionOf(key, run[n - 1].snapshot.collectedAt)} else {})
              && Transitions(t, run, n, key) == Transitions(t, run, n - 1, key) + (if resolving then 1 else 0)
  {
    hide Resolving, Resolutions, ResolutionOf;
    if n == 0 {
      assert Resolutions(t, key) + {} == Resolutions(t, key);
    }
  }

  lemma CountOneMore(before: set<EventKey>, derived: set<EventKey>, next: set<EventKey>, transitions: nat,
                     resolving: bool, e: EventKey)
    requires next == derived + (if resolving then {e} else {}) && |before + derived| <= |before| + transitions
    ensures var more := if resolving then transitions + 1 else transitions;
            && |before + next| <= |before| + more
            && (|before + next| == |before| + more <==>
                  |before + derived| == |before| + transitions && (resolving ==> e !in before + derived))
  {
    assert before + next == (before + derived) + (if resolving then {e} else {});
  }

  lemma EachNovel(t: Tables, run: seq<Collection>, n: nat, key: ThreadKey)
    requires n <= |run|
    ensures AllNovel(t, run, n, key) <==>
              n == 0 || (AllNovel(t, run, n - 1, key) && (Resolving(t, run, n - 1, key) ==> Novel(t, run, n - 1, key)))
  {
    hide Resolving, Novel;
  }

  /** A run adds as many events as it sees transitions exactly when each
      transition has a collection time of its own. A replay of an earlier
      collection that sees its transition again breaks the count, and it is
      always short, never over. */
  lemma {:induction false} EventCountIsTransitionCountIff(t: Tables, run: seq<Collection>, key: ThreadKey, floor: int)
    requires Dated(t) && Unpruned(t, run, key, floor)
    ensures var before, stored, transitions := |Resolutions(t, key)|, |Resolutions(After(t, run, |run|), key)|,
                                               Transitions(t, run, |run|, key);
            && stored <= before + transitions
            && (stored == before + transitions <==> AllNovel(t, run, |run|, key))
  {
    hide Resolving, Resolutions, AllNovel, Dated, Unpruned;
    ResolvedEventsAreTransitions(t, run, |run|, key, floor);
    CountDerived(t, run, |run|, key);
  }

  /** Distinct collection times, in any order, are enough. */
  lemma {:induction false} DistinctTimesCount(t: Tables, run: seq<Collection>, key: ThreadKey, floor: int)
    requires Dated(t) && Unpruned(t, run, key, floor)
    requires forall i, k :: 0 <= i < k < |run| ==> run[i].snapshot.collectedAt != run[k].snapshot.collectedAt
    requires forall i :: 0 <= i < |run| ==> ResolutionOf(key, run[i].snapshot.collectedAt) !in t.events
    ensures |Resolutions(After(t, run, |run|), key)| == |Resolutions(t, key)| + Transitions(t, run, |run|, key)
  {
    hide Resolving, Dated, Unpruned;
    EventCountIsTransitionCountIff(t, run, key, floor);
  }

  /** The immediate replay of a collection that lists no thread twice sees no
      transition, so it never breaks the count. */
  lemma {:induction false} ImmediateReplayIsSilent(t: Tables, run: seq<Collection>, n: nat, key: ThreadKey)
    requires 0 < n < |run| && run[n] == run[n - 1] && Commits(t, run, n - 1) && DistinctThreads(run[n].snapshot.threads)
    ensures !Resolving(t, run, n, key)
  {
    hide Commits, Observed, ObservedFirst, Turns, DistinctThreads;
    var c := run[n];
    ListedOnce(c.links, c.repository, c.snapshot.threads, |c.snapshot.threads|, key);
    var known := Known(t, run, n, key);
    assert known == Latest(Known(t, run, n - 1, key), Observes(c.links, c.repository, c.snapshot, key));
    TurnsIff(known, c.links, c.repository, c.snapshot.threads, |c.snapshot.threads|, key);
  }
}
