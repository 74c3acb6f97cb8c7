/** Progress events and review-thread observations of one repository collection.

    Primary keys are the map keys, so INSERT OR IGNORE keeps an existing entry
    and an upsert replaces it. */
module Progress {
  import opened Wrappers

  datatype Link = Link(collection: string, repository: string)

  datatype ThreadKey = ThreadKey(link: Link, number: int, thread: string)

  datatype Seen = Seen(resolved: bool, observedAt: int)

  /** The id of an event GitHub reported, or of a transition this system
      derived: the thread id joined with the collection time. */
  datatype EventID = Reported(id: string, activity: string) | ThreadResolved(thread: string, at: int)

  datatype EventKey = EventKey(link: Link, number: int, id: EventID)

  /** What a page shows of an event or a thread; none of it may be missing. */
  datatype Display = Display(title: string, pullRequestURL: string, activityURL: string)

  datatype Event = Event(
    id: string, activity: string, repository: string, number: int, actor: int, display: Display, occurredAt: int,
    collections: set<string>)

  datatype Thread = Thread(
    id: string, repository: string, number: int, resolved: bool, resolvedBy: int, display: Display,
        collections: set<string>)

  /** The first instant of the year 1, Go's zero time. */
  const ZERO_TIME: int := -62_135_596_800

  /** One successful progress collection. `horizon` is the instant three
      calendar months before `collectedAt`. */
  datatype Snapshot = Snapshot(events: seq<Event>, threads: seq<Thread>, collectedAt: int, horizon: int)

  datatype Tables = Tables(events: map<EventKey, int>, threads: map<ThreadKey, Seen>)

  function LinkedTo(links: set<Link>, repository: string): set<string> {
    set l | l in links && l.repository == repository :: l.collection
  }

  function Audience(links: set<Link>, repository: string, collections: set<string>): set<string> {
    if collections == {} then LinkedTo(links, repository) else collections
  }

  predicate Shown(display: Display) {
    display.title != "" && display.pullRequestURL != "" && display.activityURL != ""
  }

  predicate ValidEvent(repository: string, event: Event) {
    && event.id != "" && event.actor > 0 && event.repository == repository && event.number > 0
    && Shown(event.display) && event.occurredAt != ZERO_TIME
    && event.activity in {"review", "comment", "thread_resolved", "merge", "close"}
  }

  predicate ValidThread(repository: string, thread: Thread) {
    && thread.id != "" && thread.repository == repository && thread.number > 0 && Shown(thread.display)
    && (thread.resolved ==> thread.resolvedBy > 0)
  }

  function KeyOf(repository: string, thread: Thread, collection: string): ThreadKey {
    ThreadKey(Link(collection, repository), thread.number, thread.id)
  }

  function EventOf(repository: string, event: Event, collection: string): EventKey {
    EventKey(Link(collection, repository), event.number, Reported(event.id, event.activity))
  }

  function ResolutionOf(key: ThreadKey, at: int): EventKey {
    EventKey(key.link, key.number, ThreadResolved(key.thread, at))
  }

  /** A thread observation counts only when it turns a known unresolved thread
      into a resolved one. */
  predicate Resolves(t: Tables, key: ThreadKey, resolved: bool) {
    key in t.threads && !t.threads[key].resolved && resolved
  }

  predicate EventAccepted(t: Tables, links: set<Link>, repository: string, event: Event) {
    && ValidEvent(repository, event)
    && forall c :: c in Audience(links, repository, event.collections) ==>
         Link(c, repository) in links || EventOf(repository, event, c) in t.events
  }

  function EventKeys(links: set<Link>, repository: string, event: Event): (keys: set<EventKey>)
    ensures forall k :: k in keys <==>
              && k == EventOf(repository, event, k.link.collection)
              && k.link.collection in Audience(links, repository, event.collections) && k.link in links
  {
    set c | c in Audience(links, repository, event.collections) && Link(c, repository) in links
      :: EventOf(repository, event, c)
  }

  function ThreadKeys(repository: string, thread: Thread, audience: set<string>): (keys: set<ThreadKey>)
    ensures forall k :: k in keys <==>
              k == KeyOf(repository, thread, k.link.collection) && k.link.collection in audience
  {
    set c | c in audience :: KeyOf(repository, thread, c)
  }

  function ResolutionKeys(t: Tables, repository: string, thread: Thread, audience: set<string>,
                          at: int): (keys: set<EventKey>)
    ensures forall k :: k in keys <==>
              && k == ResolutionOf(KeyOf(repository, thread, k.link.collection), at)
              && k.link.collection in audience
              && Resolves(t, KeyOf(repository, thread, k.link.collection), thread.resolved)
  {
    set c | c in audience && Resolves(t, KeyOf(repository, thread, c), thread.resolved)
      :: ResolutionOf(KeyOf(repository, thread, c), at)
  }

  function RecordEvent(t: Tables, links: set<Link>, repository: string, event: Event): Tables {
    t.(events := (map k | k in EventKeys(links, repository, event) :: event.occurredAt) + t.events)
  }

  predicate ThreadAccepted(links: set<Link>, repository: string, thread: Thread) {
    && ValidThread(repository, thread)
    && forall c :: c in Audience(links, repository, thread.collections) ==> Link(c, repository) in links
  }

  /** Reads the stored row of one thread, derives a transition event from it,
      and overwrites it. */
  function ObserveKey(t: Tables, key: ThreadKey, resolved: bool, at: int): Tables {
    Tables(if Resolves(t, key, resolved) && ResolutionOf(key, at) !in t.events
             then t.events[ResolutionOf(key, at) := at] else t.events,
           t.threads[key := Seen(resolved, at)])
  }

  function RecordThreadFor(t: Tables, repository: string, thread: Thread, audience: set<string>, at: int): Tables {
    Tables((map k | k in ResolutionKeys(t, repository, thread, audience, at) :: at) + t.events,
           t.threads + map k | k in ThreadKeys(repository, thread, audience) :: Seen(thread.resolved, at))
  }

  function RecordThread(t: Tables, links: set<Link>, repository: string, thread: Thread, at: int): Tables {
    RecordThreadFor(t, repository, thread, Audience(links, repository, thread.collections), at)
  }

  /** The first `n` events, then the first `n` threads, in order. */
  function RecordEvents(t: Tables, links: set<Link>, repository: string, events: seq<Event>, n: nat): Tables
    requires n <= |events|
  {
    if n == 0 then t
    else RecordEvent(RecordEvents(t, links, repository, events, n - 1), links, repository, events[n - 1])
  }

  function RecordThreads(t: Tables, links: set<Link>, repository: string, threads: seq<Thread>, n: nat, at: int): Tables
    requires n <= |threads|
  {
    if n == 0 then t
    else RecordThread(RecordThreads(t, links, repository, threads, n - 1, at), links, repository, threads[n - 1], at)
  }

  predicate Accepted(t: Tables, links: set<Link>, repository: string, s: Snapshot) {
    && LinkedTo(links, repository) != {}
    && (forall i :: 0 <= i < |s.events| ==> EventAccepted(t, links, repository, s.events[i]))
    && (forall i :: 0 <= i < |s.threads| ==> ThreadAccepted(links, repository, s.threads[i]))
  }

  function Prune(t: Tables, horizon: int): Tables {
    Tables(map k | k in t.events && t.events[k] >= horizon :: t.events[k],
           map k | k in t.threads && t.threads[k].observedAt >= horizon :: t.threads[k])
  }

  function Apply(t: Tables, links: set<Link>, repository: string, s: Snapshot): Tables {
    Prune(RecordThreads(RecordEvents(t, links, repository, s.events, |s.events|),
                        links, repository, s.threads, |s.threads|, s.collectedAt), s.horizon)
  }

  /** One whole transaction. */
  function Record(t: Tables, links: set<Link>, repository: string, s: Snapshot): Result<Tables> {
    if Accepted(t, links, repository, s) then Ok(Apply(t, links, repository, s)) else Err("rejected")
  }

  // ----- What one collection changes, row by row -----

  /** The event is about this row: it names its collection, or none, and the
      collection holds the repository. */
  predicate Mentions(links: set<Link>, repository: string, event: Event, k: EventKey) {
    && k.link.repository == repository && k.number == event.number && k.id == Reported(event.id, event.activity)
    && k.link in links && (event.collections == {} || k.link.collection in event.collections)
  }

  predicate MentionedWithin(links: set<Link>, repository: string, events: seq<Event>, n: nat, k: EventKey)
    requires n <= |events|
  {
    exists i :: 0 <= i < n && Mentions(links, repository, events[i], k)
  }

  lemma RecordEventEffect(t: Tables, links: set<Link>, repository: string, event: Event)
    ensures var after := RecordEvent(t, links, repository, event);
            && after.threads == t.threads
            && (forall k :: k in after.events <==> k in t.events || Mentions(links, repository, event, k))
            && (forall k :: k in t.events ==> after.events[k] == t.events[k])
            && (forall k :: k in after.events && k !in t.events ==>
                  k == EventOf(repository, event, k.link.collection) && after.events[k] == event.occurredAt)
  {
  }

  /** What recording the first `n` events has added to the tables. */
  ghost predicate EventsEffect(t: Tables, after: Tables, links: set<Link>, repository: string, events: seq<Event>,
                               n: nat)
    requires n <= |events|
  {
    && after.threads == t.threads
    && (forall k :: k in after.events <==> k in t.events || MentionedWithin(links, repository, events, n, k))
    && (forall k :: k in t.events ==> after.events[k] == t.events[k])
    && (forall k :: k in after.events && k !in t.events ==>
          exists i ::
              0 <= i < n && k == EventOf(repository, events[i], k.link.collection)
                  && after.events[k] == events[i].occurredAt)
  }

  lemma NextEventEffect(t: Tables, before: Tables, links: set<Link>, repository: string, events: seq<Event>, n: nat)
    requires 0 < n <= |events| && EventsEffect(t, before, links, repository, events, n - 1)
    ensures EventsEffect(t, RecordEvent(before, links, repository, events[n - 1]), links, repository, events, n)
  {
    hide RecordEvent, Mentions, EventOf;
    RecordEventEffect(before, links, repository, events[n - 1]);
    forall k
      ensures MentionedWithin(links, repository, events, n, k) <==>
        Mentions(links, repository, events[n - 1], k) || MentionedWithin(links, repository, events, n - 1, k)
    {
    }
  }

  lemma {:induction false} RecordEventsEffect(t: Tables, links: set<Link>, repository: string, events: seq<Event>,
                                              n: nat)
    requires n <= |events|
    ensures EventsEffect(t, RecordEvents(t, links, repository, events, n), links, repository, events, n)
  {
    hide RecordEvent;
    if n > 0 {
      hide EventsEffect;
      RecordEventsEffect(t, links, repository, events, n - 1);
      NextEventEffect(t, RecordEvents(t, links, repository, events, n - 1), links, repository, events, n);
    }
  }

  /** The thread is about this row: it names its collection, or it names none and
      the collection holds the repository. */
  predicate Touches(links: set<Link>, repository: string, thread: Thread, k: ThreadKey) {
    && k.link.repository == repository && k.number == thread.number && k.thread == thread.id
    && if thread.collections == {} then k.link in links else k.link.collection in thread.collections
  }

  lemma RecordThreadEffect(t: Tables, links: set<Link>, repository: string, thread: Thread, at: int)
    ensures var after := RecordThread(t, links, repository, thread, at);
            && (forall k :: k in after.threads <==> k in t.threads || Touches(links, repository, thread, k))
            && (forall k :: k in after.threads ==>
                  after.threads[k] == if Touches(links, repository, thread, k) then Seen(thread.resolved, at)
                      else t.threads[k])
            && (forall e :: e in t.events ==> e in after.events && after.events[e] == t.events[e])
            && (forall e :: e in after.events && e !in t.events ==>
                e.id == ThreadResolved(thread.id, at) && e.number == thread.number)
            && (forall k :: Touches(links, repository, thread, k) ==>
                  (ResolutionOf(k, at) in after.events <==>
                   ResolutionOf(k, at) in t.events || Resolves(t, k, thread.resolved)))
  {
    var audience := Audience(links, repository, thread.collections);
    var after := RecordThread(t, links, repository, thread, at);
    forall k | Touches(links, repository, thread, k)
      ensures ResolutionOf(k, at) in after.events <==>
                ResolutionOf(k, at) in t.events || Resolves(t, k, thread.resolved)
    {
      if Resolves(t, k, thread.resolved) {
        assert ResolutionOf(k, at) in ResolutionKeys(t, repository, thread, audience, at);
      }
    }
  }

  // ----- What a list of threads says about one stored row -----

  /** The last of the first `n` threads that is about the row. */
  function Observed(links: set<Link>, repository: string, threads: seq<Thread>, n: nat, key: ThreadKey): Option<bool>
    requires n <= |threads|
  {
    if n == 0 then None
    else if Touches(links, repository, threads[n - 1], key) then Some(threads[n - 1].resolved)
    else Observed(links, repository, threads, n - 1, key)
  }

  /** The first of them. */
  function ObservedFirst(links: set<Link>, repository: string, threads: seq<Thread>, n: nat,
                         key: ThreadKey): Option<bool>
    requires n <= |threads|
  {
    if n == 0 then None
    else
      var first := ObservedFirst(links, repository, threads, n - 1, key);
      if first.None? && Touches(links, repository, threads[n - 1], key) then Some(threads[n - 1].resolved) else first
  }

  function Latest(before: Option<bool>, observed: Option<bool>): Option<bool> {
    if observed.Some? then observed else before
  }

  /** The list shows the thread resolved where it was last unresolved. */
  predicate Turns(before: Option<bool>, links: set<Link>, repository: string, threads: seq<Thread>, n: nat,
                  key: ThreadKey)
    requires n <= |threads|
  {
    n > 0
    && (Turns(before, links, repository, threads, n - 1, key)
        || (Touches(links, repository, threads[n - 1], key) && threads[n - 1].resolved
            && Latest(before, Observed(links, repository, threads, n - 1, key)) == Some(false)))
  }

  function Observes(links: set<Link>, repository: string, s: Snapshot, key: ThreadKey): Option<bool> {
    Observed(links, repository, s.threads, |s.threads|, key)
  }

  predicate TurnsIn(before: Option<bool>, links: set<Link>, repository: string, s: Snapshot, key: ThreadKey) {
    Turns(before, links, repository, s.threads, |s.threads|, key)
  }

  function StateOf(t: Tables, key: ThreadKey): Option<bool> {
    if key in t.threads then Some(t.threads[key].resolved) else None
  }

  /** What was known before matters only to the first listing. */
  lemma {:induction false} TurnsIff(before: Option<bool>, links: set<Link>, repository: string, threads: seq<Thread>,
                                    n: nat, key: ThreadKey)
    requires n <= |threads|
    ensures Turns(before, links, repository, threads, n, key) <==>
              || Turns(None, links, repository, threads, n, key)
              || (before == Some(false) && ObservedFirst(links, repository, threads, n, key) == Some(true))
    ensures ObservedFirst(links, repository, threads, n, key).Some? <==>
              Observed(links, repository, threads, n, key).Some?
    ensures Observed(links, repository, threads, n, key).None? ==> !Turns(before, links, repository, threads, n, key)
  {
    if n > 0 {
      TurnsIff(before, links, repository, threads, n - 1, key);
    }
  }

  predicate Concerns(e: EventKey, key: ThreadKey) {
    e.link == key.link && e.number == key.number && e.id.ThreadResolved? && e.id.thread == key.thread
  }

  function Resolutions(t: Tables, key: ThreadKey): set<EventKey> {
    set e | e in t.events && Concerns(e, key)
  }

  /** One thread row and its transition events, before and after threads are recorded. */
  ghost predicate KeyMoved(t: Tables, u: Tables, key: ThreadKey, observed: Option<bool>, turned: bool, at: int) {
    && (key in u.threads <==> key in t.threads || observed.Some?)
    && (key in u.threads ==> u.threads[key] == if observed.Some? then Seen(observed.value, at) else t.threads[key])
    && Resolutions(u, key) == Resolutions(t, key) + (if turned then {ResolutionOf(key, at)} else {})
    && (forall e :: e in Resolutions(u, key) ==> u.events[e] == if e in t.events then t.events[e] else at)
  }

  /** A transition event a thread adds is that of a touched, resolving key. */
  lemma NewResolution(t: Tables, links: set<Link>, repository: string, thread: Thread, key: ThreadKey, at: int,
                      e: EventKey)
    requires e in Resolutions(RecordThread(t, links, repository, thread, at), key) && e !in Resolutions(t, key)
    ensures Touches(links, repository, thread, key) && thread.resolved && Resolves(t, key, true)
    ensures e == ResolutionOf(key, at) && RecordThread(t, links, repository, thread, at).events[e] == at
  {
    assert e in ResolutionKeys(t, repository, thread, Audience(links, repository, thread.collections), at);
    assert key == KeyOf(repository, thread, key.link.collection);
  }

  /** Recording a thread derives an event exactly if the row is known to be
      unresolved and the thread is resolved. */
  lemma RecordThreadMovesKey(t: Tables, links: set<Link>, repository: string, thread: Thread, key: ThreadKey, at: int)
    ensures var touched := Touches(links, repository, thread, key);
            KeyMoved(t, RecordThread(t, links, repository, thread, at), key, if touched then Some(thread.resolved)
                     else None,
                     touched && thread.resolved && StateOf(t, key) == Some(false), at)
  {
    hide RecordThread, Touches;
    var u := RecordThread(t, links, repository, thread, at);
    RecordThreadEffect(t, links, repository, thread, at);
    forall e | e in Resolutions(u, key) && e !in Resolutions(t, key)
      ensures Touches(links, repository, thread, key) && thread.resolved && Resolves(t, key, true)
      ensures e == ResolutionOf(key, at) && u.events[e] == at
    {
      NewResolution(t, links, repository, thread, key, at, e);
    }
    ResolutionsMove(t, u, key, Touches(links, repository, thread, key) && thread.resolved && Resolves(t, key, true),
                    at);
  }

  lemma ResolutionsMove(t: Tables, u: Tables, key: ThreadKey, derived: bool, at: int)
    requires forall e :: e in t.events ==> e in u.events
    requires derived ==> ResolutionOf(key, at) in Resolutions(u, key)
    requires forall e :: e in Resolutions(u, key) && e !in Resolutions(t, key) ==> derived && e == ResolutionOf(key, at)
    ensures Resolutions(u, key) == Resolutions(t, key) + (if derived then {ResolutionOf(key, at)} else {})
  {
  }

  lemma KeyMovesCompose(t: Tables, u: Tables, w: Tables, key: ThreadKey, first: Option<bool>, second: Option<bool>,
                        turnedFirst: bool, turnedSecond: bool, at: int)
    requires KeyMoved(t, u, key, first, turnedFirst, at) && KeyMoved(u, w, key, second, turnedSecond, at)
    ensures KeyMoved(t, w, key, Latest(first, second), turnedFirst || turnedSecond, at)
    ensures StateOf(u, key) == Latest(StateOf(t, key), first)
  {
  }

  lemma {:induction false} RecordThreadsMoveKey(t: Tables, links: set<Link>, repository: string, threads: seq<Thread>,
                                                n: nat,
                                                key: ThreadKey, at: int)
    requires n <= |threads|
    ensures KeyMoved(t, RecordThreads(t, links, repository, threads, n, at), key,
                     Observed(links, repository, threads, n, key),
                     Turns(StateOf(t, key), links, repository, threads, n, key), at)
  {
    hide RecordThread, KeyMoved, Touches, StateOf;
    if n == 0 {
      KeyStays(t, key, at);
    } else {
      var before, thread := RecordThreads(t, links, repository, threads, n - 1, at), threads[n - 1];
      var touched := Touches(links, repository, thread, key);
      RecordThreadsMoveKey(t, links, repository, threads, n - 1, key, at);
      RecordThreadMovesKey(before, links, repository, thread, key, at);
      KeyMovesCompose(t, before, RecordThread(before, links, repository, thread, at), key,
                      Observed(links, repository, threads, n - 1, key), if touched then Some(thread.resolved) else None,
                      Turns(StateOf(t, key), links, repository, threads, n - 1, key),
                      touched && thread.resolved && StateOf(before, key) == Some(false), at);
    }
  }

  lemma KeyStays(t: Tables, key: ThreadKey, at: int)
    ensures KeyMoved(t, t, key, None, false, at)
  {
  }

  // ----- One whole collection, seen from one row -----

  /** A derived event carries the time of its collection. */
  ghost predicate Dated(t: Tables) {
    forall e :: e in t.events && e.id.ThreadResolved? ==> t.events[e] == e.id.at
  }

  /** Recording threads only adds transition events, dated by the collection. */
  ghost predicate AddsTransitions(t: Tables, u: Tables, repository: string, at: int) {
    && (forall e :: e in t.events ==> e in u.events && u.events[e] == t.events[e])
    && (forall e :: e in u.events && e !in t.events ==>
          e.link.repository == repository && e.id.ThreadResolved? && e.id.at == at && u.events[e] == at)
    && (forall k :: k in u.threads && k.link.repository != repository ==>
        k in t.threads && u.threads[k] == t.threads[k])
    && (forall k :: k in t.threads ==> k in u.threads)
  }

  lemma RecordThreadAddsTransitions(t: Tables, u: Tables, links: set<Link>, repository: string, thread: Thread, at: int)
    requires AddsTransitions(t, u, repository, at)
    ensures AddsTransitions(t, RecordThread(u, links, repository, thread, at), repository, at)
  {
  }

  lemma {:induction false} RecordThreadsAddTransitions(t: Tables, links: set<Link>, repository: string,
                                                       threads: seq<Thread>, n: nat, at: int)
    requires n <= |threads|
    ensures AddsTransitions(t, RecordThreads(t, links, repository, threads, n, at), repository, at)
  {
    hide RecordThread;
    if n > 0 {
      hide AddsTransitions;
      RecordThreadsAddTransitions(t, links, repository, threads, n - 1, at);
      RecordThreadAddsTransitions(t, RecordThreads(t, links, repository, threads, n - 1, at), links, repository,
                                  threads[n - 1], at);
    } else {
      NoTransitions(t, repository, at);
    }
  }

  lemma NoTransitions(t: Tables, repository: string, at: int)
    ensures AddsTransitions(t, t, repository, at)
  {
  }

  /** A collection leaves of other repositories what is recent enough. */
  lemma {:induction false} ApplyElsewhere(t: Tables, links: set<Link>, repository: string, s: Snapshot)
    ensures var u := Apply(t, links, repository, s);
            && (forall e: EventKey :: e.link.repository != repository ==>
                (e in u.events <==> e in t.events && t.events[e] >= s.horizon))
            && (forall e :: e in u.events && e.link.repository != repository ==> u.events[e] == t.events[e])
            && (forall k: ThreadKey :: k.link.repository != repository ==>
                  (k in u.threads <==> k in t.threads && t.threads[k].observedAt >= s.horizon))
            && (forall k :: k in u.threads && k.link.repository != repository ==> u.threads[k] == t.threads[k])
            && (forall e :: e in u.events ==> u.events[e] >= s.horizon)
            && (forall k :: k in u.threads ==> u.threads[k].observedAt >= s.horizon)
  {
    hide RecordEvents, RecordThreads, Mentions;
    var events := RecordEvents(t, links, repository, s.events, |s.events|);
    RecordEventsEffect(t, links, repository, s.events, |s.events|);
    forall e | e in events.events && e !in t.events
      ensures e.link.repository == repository
    {
    }
    RecordThreadsAddTransitions(events, links, repository, s.threads, |s.threads|, s.collectedAt);
  }

  /** The time the first listing of a reported event gives it. */
  function FirstMention(links: set<Link>, repository: string, events: seq<Event>, n: nat, k: EventKey): Option<int>
    requires n <= |events|
  {
    if n == 0 then None
    else
      var first := FirstMention(links, repository, events, n - 1, k);
      if first.None? && Mentions(links, repository, events[n - 1], k) then Some(events[n - 1].occurredAt) else first
  }

  /** What a table holds of one event: its time, if it is there. */
  function TimeOf(t: Tables, k: EventKey): Option<int> {
    if k in t.events then Some(t.events[k]) else None
  }

  lemma {:induction false} RecordEventsMoveKey(t: Tables, links: set<Link>, repository: string, events: seq<Event>,
                                               n: nat, k: EventKey)
    requires n <= |events|
    ensures TimeOf(RecordEvents(t, links, repository, events, n), k)
         == if k in t.events then Some(t.events[k]) else FirstMention(links, repository, events, n, k)
  {
    hide RecordEvent, Mentions;
    if n > 0 {
      RecordEventsMoveKey(t, links, repository, events, n - 1, k);
      RecordEventMovesKey(RecordEvents(t, links, repository, events, n - 1), links, repository, events[n - 1], k);
    }
  }

  lemma RecordEventMovesKey(t: Tables, links: set<Link>, repository: string, event: Event, k: EventKey)
    ensures TimeOf(RecordEvent(t, links, repository, event), k)
         == if k in t.events then Some(t.events[k])
            else if Mentions(links, repository, event, k) then Some(event.occurredAt) else None
  {
    RecordEventEffect(t, links, repository, event);
  }

  /** A whole collection leaves of the reported events those it had and those it
      lists, each with its first time, unless that time is too long ago. */
  lemma {:induction false} ApplyReportsKey(t: Tables, links: set<Link>, repository: string, s: Snapshot, k: EventKey)
    requires k.id.Reported?
    ensures var time := if k in t.events then Some(t.events[k])
                        else FirstMention(links, repository, s.events, |s.events|, k);
            TimeOf(Apply(t, links, repository, s), k)
              == if time.Some? && time.value >= s.horizon then time else None
  {
    hide RecordEvents, RecordThreads, Mentions, FirstMention;
    RecordEventsMoveKey(t, links, repository, s.events, |s.events|, k);
    RecordThreadsAddTransitions(RecordEvents(t, links, repository, s.events, |s.events|), links, repository, s.threads,
                                |s.threads|, s.collectedAt);
  }

  /** Stored rows are those of named events and threads of numbered pull
      requests. */
  ghost predicate Complete(t: Tables) {
    && (forall e :: e in t.events ==>
          && e.number > 0
          && match e.id
             case Reported(id, activity) =>
               id != "" && activity in {"review", "comment", "thread_resolved", "merge", "close"}
             case ThreadResolved(thread, _) => thread != "")
    && (forall k :: k in t.threads ==> k.number > 0 && k.thread != "")
  }

  lemma RecordEventStaysComplete(t: Tables, links: set<Link>, repository: string, event: Event)
    requires Complete(t) && ValidEvent(repository, event)
    ensures Complete(RecordEvent(t, links, repository, event))
  {
    RecordEventEffect(t, links, repository, event);
  }

  lemma RecordThreadStaysComplete(t: Tables, links: set<Link>, repository: string, thread: Thread, at: int)
    requires Complete(t) && ValidThread(repository, thread)
    ensures Complete(RecordThread(t, links, repository, thread, at))
  {
    RecordThreadEffect(t, links, repository, thread, at);
  }

  lemma {:induction false} EventsStayComplete(t: Tables, links: set<Link>, repository: string, events: seq<Event>,
                                              n: nat)
    requires n <= |events| && Complete(t) && forall i :: 0 <= i < |events| ==> ValidEvent(repository, events[i])
    ensures Complete(RecordEvents(t, links, repository, events, n))
  {
    hide Complete, RecordEvent, ValidEvent;
    if n > 0 {
      EventsStayComplete(t, links, repository, events, n - 1);
      RecordEventStaysComplete(RecordEvents(t, links, repository, events, n - 1), links, repository, events[n - 1]);
    }
  }

  lemma {:induction false} ThreadsStayComplete(t: Tables, links: set<Link>, repository: string, threads: seq<Thread>,
                                               n: nat, at: int)
    requires n <= |threads| && Complete(t) && forall i :: 0 <= i < |threads| ==> ValidThread(repository, threads[i])
    ensures Complete(RecordThreads(t, links, repository, threads, n, at))
  {
    hide Complete, RecordThread, ValidThread;
    if n > 0 {
      ThreadsStayComplete(t, links, repository, threads, n - 1, at);
      RecordThreadStaysComplete(RecordThreads(t, links, repository, threads, n - 1, at), links, repository,
                                threads[n - 1], at);
    }
  }

  lemma PruningStaysComplete(t: Tables, horizon: int)
    requires Complete(t)
    ensures Complete(Prune(t, horizon))
  {
  }

  /** An accepted collection keeps every stored row complete. */
  lemma {:induction false} ApplyStaysComplete(t: Tables, links: set<Link>, repository: string, s: Snapshot)
    requires Accepted(t, links, repository, s) && Complete(t)
    ensures Complete(Apply(t, links, repository, s))
  {
    hide RecordEvents, RecordThreads, Complete, ValidEvent, ValidThread, Prune;
    forall i | 0 <= i < |s.events| ensures ValidEvent(repository, s.events[i]) {
      assert EventAccepted(t, links, repository, s.events[i]);
    }
    forall i | 0 <= i < |s.threads| ensures ValidThread(repository, s.threads[i]) {
      assert ThreadAccepted(links, repository, s.threads[i]);
    }
    var events := RecordEvents(t, links, repository, s.events, |s.events|);
    EventsStayComplete(t, links, repository, s.events, |s.events|);
    ThreadsStayComplete(events, links, repository, s.threads, |s.threads|, s.collectedAt);
    PruningStaysComplete(RecordThreads(events, links, repository, s.threads, |s.threads|, s.collectedAt), s.horizon);
  }

  /** The transition events and the row of one thread, after a collection. */
  ghost predicate KeyApplied(t: Tables, u: Tables, key: ThreadKey, observed: Option<bool>, turned: bool, s: Snapshot) {
    && (key in u.threads <==> observed.Some? || (key in t.threads && t.threads[key].observedAt >= s.horizon))
    && (key in u.threads ==> u.threads[key] == if observed.Some? then Seen(observed.value, s.collectedAt)
        else t.threads[key])
    && (forall e :: Concerns(e, key) ==>
          (e in u.events <==>
           (e in t.events && e.id.at >= s.horizon) || (turned && e == ResolutionOf(key, s.collectedAt))))
  }

  lemma PruneAppliesKey(t: Tables, u: Tables, key: ThreadKey, observed: Option<bool>, turned: bool, s: Snapshot)
    requires KeyMoved(t, u, key, observed, turned, s.collectedAt) && s.horizon <= s.collectedAt && Dated(t)
    ensures KeyApplied(t, Prune(u, s.horizon), key, observed, turned, s)
  {
    forall e | Concerns(e, key)
      ensures e in Prune(u, s.horizon).events <==>
                (e in t.events && e.id.at >= s.horizon) || (turned && e == ResolutionOf(key, s.collectedAt))
    {
      assert e in u.events <==> e in Resolutions(u, key);
      assert e in t.events <==> e in Resolutions(t, key);
    }
  }

  lemma SameKeyBefore(t: Tables, events: Tables, u: Tables, key: ThreadKey, observed: Option<bool>, turned: bool,
                      s: Snapshot)
    requires KeyApplied(events, u, key, observed, turned, s) && events.threads == t.threads
    requires forall e: EventKey :: e.id.ThreadResolved? ==> (e in events.events <==> e in t.events)
    ensures KeyApplied(t, u, key, observed, turned, s) && StateOf(t, key) == StateOf(events, key)
  {
  }

  lemma {:induction false} ApplyMovesKey(t: Tables, links: set<Link>, repository: string, s: Snapshot, key: ThreadKey)
    requires s.horizon <= s.collectedAt && Dated(t)
    ensures KeyApplied(t, Apply(t, links, repository, s), key, Observes(links, repository, s, key),
                       TurnsIn(StateOf(t, key), links, repository, s, key), s)
  {
    hide RecordEvents, RecordThreads, Observed, Turns, Prune, KeyMoved, KeyApplied;
    var events := RecordEvents(t, links, repository, s.events, |s.events|);
    EventsStayDated(t, links, repository, s);
    RecordThreadsMoveKey(events, links, repository, s.threads, |s.threads|, key, s.collectedAt);
    var u := RecordThreads(events, links, repository, s.threads, |s.threads|, s.collectedAt);
    PruneAppliesKey(events, u, key, Observes(links, repository, s, key),
                    TurnsIn(StateOf(events, key), links, repository, s, key), s);
    SameKeyBefore(t, events, Prune(u, s.horizon), key, Observes(links, repository, s, key),
                  TurnsIn(StateOf(events, key), links, repository, s, key), s);
  }

  lemma EventsStayDated(t: Tables, links: set<Link>, repository: string, s: Snapshot)
    ensures var events := RecordEvents(t, links, repository, s.events, |s.events|);
            && events.threads == t.threads
            && (forall e: EventKey :: e.id.ThreadResolved? ==> (e in events.events <==> e in t.events))
            && (Dated(t) ==> Dated(events))
  {
    hide RecordEvents, Mentions;
    RecordEventsEffect(t, links, repository, s.events, |s.events|);
  }

  /** Collections keep derived events dated. */
  lemma {:induction false} ApplyStaysDated(t: Tables, links: set<Link>, repository: string, s: Snapshot)
    requires Dated(t)
    ensures Dated(Apply(t, links, repository, s))
  {
    hide RecordEvents, RecordThreads;
    EventsStayDated(t, links, repository, s);
    var events := RecordEvents(t, links, repository, s.events, |s.events|);
    RecordThreadsAddTransitions(events, links, repository, s.threads, |s.threads|, s.collectedAt);
  }

  method InsertEvent(before: map<EventKey, int>, links: set<Link>, repository: string, event: Event)
    returns (ok: bool, after: map<EventKey, int>)
    ensures var t := Tables(before, map[]);
            && (ok <==> EventAccepted(t, links, repository, event))
            && (ok ==> after == RecordEvent(t, links, repository, event).events)
    ensures ok <==>
              && event.id != "" && event.actor > 0 && event.repository == repository && event.number > 0
              && event.display.title != "" && event.display.pullRequestURL != "" && event.display.activityURL != ""
              && event.occurredAt != -62_135_596_800
              && event.activity in {"review", "comment", "thread_resolved", "merge", "close"}
              && forall c :: c in event.collections ==>
                   || Link(c, repository) in links
                   || EventKey(Link(c, repository), event.number, Reported(event.id, event.activity)) in before
    ensures ok ==> forall k :: k in after <==> k in before || Mentions(links, repository, event, k)
    ensures ok ==> forall k :: k in after ==> after[k] == if k in before then before[k] else event.occurredAt
  {
    RecordEventEffect(Tables(before, map[]), links, repository, event);
    ok, after := ValidEvent(repository, event), before;
    if !ok { return; }
    var audience := Audience(links, repository, event.collections);
    var left := audience;
    while left != {}
      invariant left <= audience
      invariant forall c :: c in audience - left ==>
                  Link(c, repository) in links || EventOf(repository, event, c) in before
      invariant forall k :: k in after <==>
                  k in before || (k in EventKeys(links, repository, event) && k.link.collection !in left)
      invariant forall k :: k in after ==> after[k] == if k in before then before[k] else event.occurredAt
      decreases left
    {
      var c :| c in left;
      var key := EventOf(repository, event, c);
      if Link(c, repository) in links {
        if key !in after {
          after := after[key := event.occurredAt];
        }
      } else if key !in after {
        ok := false;
        return;
      }
      left := left - {c};
    }
  }

  method ObserveThread(before: Tables, links: set<Link>, repository: string, thread: Thread, at: int)
    returns (ok: bool, after: Tables)
    ensures ok <==> ThreadAccepted(links, repository, thread)
    ensures ok ==> after == RecordThread(before, links, repository, thread, at)
    ensures ok <==>
              && thread.id != "" && thread.repository == repository && thread.number > 0
              && thread.display.title != "" && thread.display.pullRequestURL != "" && thread.display.activityURL != ""
              && (thread.resolved ==> thread.resolvedBy > 0)
              && forall c :: c in thread.collections ==> Link(c, repository) in links
    ensures ok ==> forall k :: k in after.threads <==> k in before.threads || Touches(links, repository, thread, k)
    ensures ok ==> forall k :: k in after.threads ==>
              after.threads[k] == if Touches(links, repository, thread, k) then Seen(thread.resolved, at)
                                  else before.threads[k]
  {
    RecordThreadEffect(before, links, repository, thread, at);
    ok, after := ValidThread(repository, thread), before;
    if !ok { return; }
    var audience := Audience(links, repository, thread.collections);
    var left := audience;
    assert audience - left == {};
    RecordThreadForNobody(before, repository, thread, at);
    hide ObserveKey, RecordThreadFor, RecordThread;
    while left != {}
      invariant left <= audience
      invariant forall c :: c in audience - left ==> Link(c, repository) in links
      invariant after == RecordThreadFor(before, repository, thread, audience - left, at)
      decreases left
    {
      var c :| c in left;
      RecordThreadForOneMore(before, repository, thread, audience - left, c, at);
      var key := KeyOf(repository, thread, c);
      if Link(c, repository) !in links {
        ok := false;
        return;
      }
      after := ObserveKey(after, key, thread.resolved, at);
      assert audience - (left - {c}) == audience - left + {c};
      left := left - {c};
    }
    assert audience - left == audience;
    ThreadIsItsAudience(before, links, repository, thread, at);
  }

  /** Records one collection event by event and thread by thread; the first
      rejected one rolls everything back. */
  method RecordSnapshot(t: Tables, links: set<Link>, repository: string, s: Snapshot) returns (result: Result<Tables>)
    ensures result.Ok? <==> Accepted(t, links, repository, s)
    ensures result.Ok? ==> result.value == Apply(t, links, repository, s)
  {
    hide RecordEvent, RecordThread, ThreadAccepted;
    if LinkedTo(links, repository) == {} {
      return Err("not configured");
    }
    var tx := t;
    for i := 0 to |s.events|
      invariant tx == RecordEvents(t, links, repository, s.events, i)
      invariant forall k :: 0 <= k < i ==> EventAccepted(t, links, repository, s.events[k])
    {
      var accepted, after := InsertEvent(tx.events, links, repository, s.events[i]);
      RecordEventIgnoresThreads(tx, links, repository, s.events[i]);
      AcceptanceStands(t, links, repository, s.events, i, s.events[i]);
      if !accepted {
        return Err("invalid event");
      }
      tx := tx.(events := after);
    }
    for i := 0 to |s.threads|
      invariant tx
                  == RecordThreads(RecordEvents(t, links, repository, s.events, |s.events|), links, repository,
                                   s.threads, i, s.collectedAt)
      invariant forall k :: 0 <= k < i ==> ThreadAccepted(links, repository, s.threads[k])
    {
      var accepted, after := ObserveThread(tx, links, repository, s.threads[i], s.collectedAt);
      if !accepted {
        return Err("invalid thread");
      }
      tx := after;
    }
    result := Ok(Prune(tx, s.horizon));
  }

  lemma ThreadIsItsAudience(t: Tables, links: set<Link>, repository: string, thread: Thread, at: int)
    ensures RecordThread(t, links, repository, thread, at)
         == RecordThreadFor(t, repository, thread, Audience(links, repository, thread.collections), at)
  {
  }

  lemma RecordThreadForNobody(t: Tables, repository: string, thread: Thread, at: int)
    ensures RecordThreadFor(t, repository, thread, {}, at) == t
  {
    assert ThreadKeys(repository, thread, {}) == {};
    assert ResolutionKeys(t, repository, thread, {}, at) == {};
  }

  lemma OtherCollectionUndisturbed(t: Tables, repository: string, thread: Thread, done: set<string>, c: string, at: int)
    requires c !in done
    ensures Resolves(RecordThreadFor(t, repository, thread, done, at), KeyOf(repository, thread, c), thread.resolved)
        <==> Resolves(t, KeyOf(repository, thread, c), thread.resolved)
  {
    assert KeyOf(repository, thread, c) !in ThreadKeys(repository, thread, done);
  }

  lemma KeysOfOneMore(t: Tables, repository: string, thread: Thread, done: set<string>, c: string, at: int)
    ensures ThreadKeys(repository, thread, done + {c}) == ThreadKeys(repository, thread, done)
              + {KeyOf(repository, thread, c)}
    ensures ResolutionKeys(t, repository, thread, done + {c}, at)
         == ResolutionKeys(t, repository, thread, done, at)
            + (if Resolves(t, KeyOf(repository, thread, c), thread.resolved)
               then {ResolutionOf(KeyOf(repository, thread, c), at)} else {})
  {
  }

  lemma RecordThreadForOneMore(t: Tables, repository: string, thread: Thread, done: set<string>, c: string, at: int)
    requires c !in done
    ensures RecordThreadFor(t, repository, thread, done + {c}, at)
         == ObserveKey(RecordThreadFor(t, repository, thread, done, at), KeyOf(repository, thread, c), thread.resolved,
                       at)
  {
    hide ThreadKeys, ResolutionKeys, KeyOf, ResolutionOf, Resolves;
    var key := KeyOf(repository, thread, c);
    KeysOfOneMore(t, repository, thread, done, c, at);
    OtherCollectionUndisturbed(t, repository, thread, done, c, at);
    OneMoreKey(t.threads, ThreadKeys(repository, thread, done), key, Seen(thread.resolved, at));
    OneMoreRow(t.events, ResolutionKeys(t, repository, thread, done, at), ResolutionOf(key, at), at);
  }

  lemma OneMoreRow(m: map<EventKey, int>, keys: set<EventKey>, key: EventKey, at: int)
    ensures var before := (map k | k in keys :: at) + m;
            (map k | k in keys + {key} :: at) + m == if key in before then before else before[key := at]
  {
  }

  lemma OneMoreKey<K, V>(m: map<K, V>, keys: set<K>, key: K, v: V)
    ensures m + (map k | k in keys + {key} :: v) == (m + map k | k in keys :: v)[key := v]
  {
  }

  lemma RecordEventIgnoresThreads(t: Tables, links: set<Link>, repository: string, event: Event)
    ensures RecordEvent(t, links, repository, event)
         == t.(events := RecordEvent(Tables(t.events, map[]), links, repository, event).events)
    ensures EventAccepted(Tables(t.events, map[]), links, repository, event)
              == EventAccepted(t, links, repository, event)
  {
  }

  /** An event is accepted midway through a transaction exactly when it was at
      its start, because recording events only adds rows of linked collections. */
  lemma {:induction false} AcceptanceStands(t: Tables, links: set<Link>, repository: string, events: seq<Event>, n: nat,
                                            event: Event)
    requires n <= |events|
    ensures EventAccepted(RecordEvents(t, links, repository, events, n), links, repository, event)
        == EventAccepted(t, links, repository, event)
  {
    hide RecordEvent, EventAccepted;
    if n > 0 {
      AcceptanceStands(t, links, repository, events, n - 1, event);
      OneEventKeepsAcceptance(RecordEvents(t, links, repository, events, n - 1), links, repository, events[n - 1],
                              event);
    }
  }

  lemma OneEventKeepsAcceptance(t: Tables, links: set<Link>, repository: string, recorded: Event, event: Event)
    ensures EventAccepted(RecordEvent(t, links, repository, recorded), links, repository, event)
        == EventAccepted(t, links, repository, event)
  {
    RecordEventEffect(t, links, repository, recorded);
  }
}
