/** What a run has done to one job so far, and what that says about the job. */
module RefreshHistory {
  import opened Wrappers
  import opened HydrationCache
  import opened RefreshTables
  import opened RefreshRuns
  import opened RefreshSafety
  import Progress

  /** What was asked of a job, and when: `claimedForced` is its force flag at
      its last claim, and `forced` says it was forced after that claim. `late`
      says a scheduled rediscovery was asked for after its worker last read the
      generation, and `asked` that one was asked for after its last discovery. */
  datatype Requests = Requests(claimedForced: bool, forced: bool, late: bool, asked: bool)

  /** A summary of the past of one job.

      `disturbed`: a failure, a force upgrade, a scheduled rediscovery or a
      reload without its repository happened. `discovery` is its last
      discovery. `hydrations` counts commits of one chosen pull request since
      the generation started or last dropped it. */
  datatype History = History(
    claims: nat, losses: nat, disturbed: bool, dropped: bool, discovery: Option<Discovery>, hydrations: nat,
        requests: Requests)

  const NOTHING := History(0, 0, false, false, None, 0, Requests(false, false, false, false))

  function Note(h: History, s: Slot, e: Event, j: nat, number: Number): History {
    match e
    case Act(k, a) => if k == j then NoteAction(h, s, a, number) else h
    case Force(repository) =>
      if repository == s.entry.job.repository && Active(s.entry.job) then
        h.(disturbed := true, requests := h.requests.(forced := true))
      else h
    case EnqueueAll(_, _) =>
      if Active(s.entry.job) then h.(disturbed := true, requests := h.requests.(late := true, asked := true)) else h
    case Reconfigure(collections) =>
      if s.entry.job.repository in AllRepositories(collections) then h else h.(disturbed := true, dropped := true)
    case Crash => if s.worker.Some? then h.(losses := h.losses + 1) else h
    case _ => h
  }

  function NoteAction(h: History, s: Slot, a: Action, number: Number): History {
    var r := h.requests;
    match a
    case Claim(_) => h.(claims := h.claims + 1, requests := r.(claimedForced := s.entry.job.forced, forced := false))
    case Load => h.(requests := r.(late := false))
    case Start(d) => h.(discovery := Some(d), hydrations := 0, requests := r.(asked := false))
    case Rediscover(d) =>
      h.(discovery := Some(d), hydrations := if number in d.members then h.hydrations
         else 0, requests := r.(asked := false))
    case Hydrate(_) =>
      if s.worker.Some? && s.worker.value.stage.Batched? && number in s.worker.value.stage.batch
          then h.(hydrations := h.hydrations + 1) else h
    case Fail(_) => h.(disturbed := true)
    case Lose => h.(losses := h.losses + 1)
    case _ => h
  }

  /** The past of job `j` in the first `n` events of a run. */
  function Past(ws: seq<World>, es: seq<Event>, n: nat, j: nat, number: Number): History
    requires n <= |es| < |ws|
  {
    if n == 0 then NOTHING
    else
      var h := Past(ws, es, n - 1, j, number);
      if j < |ws[n - 1].slots| then Note(h, ws[n - 1].slots[j], es[n - 1], j, number) else h
  }

  // ----- One event, seen from one job -----

  predicate Mine(e: Event, j: nat) {
    e.Act? && e.job == j
  }

  predicate Possible(s: Slot, e: Event, j: nat, t: Tables, now: int) {
    if Mine(e, j) then
      if e.action.Claim? then Due(s.entry.job, e.action.read) && e.action.read <= now
      else s.worker.Some? && EnabledIn(s.entry, s.worker.value, e.action, t, now)
    else e.Recover? ==> s.worker.None?
  }

  function SlotAfter(s: Slot, e: Event, j: nat, t: Tables, now: int): Slot
    requires Possible(s, e, j, t, now)
  {
    if Mine(e, j) then
      if e.action.Claim? then Taken(s) else Moved(s.entry, s.worker.value, e.action, t, now)
    else if e.Act? then s
    else Shaken(s, e)
  }

  predicate Fresh(s: Slot) {
    s.entry.job.status == Queued && s.entry.generation.None? && s.worker.None?
  }

  /** An event moves every existing job as `SlotAfter` says, and adds only
      fresh ones. */
  lemma EventMovesSlots(w: World, e: Event, v: World, j: nat)
    requires Next(w, e) == Some(v)
    ensures |w.slots| <= |v.slots| && w.now <= v.now
    ensures j < |w.slots| ==>
              Possible(w.slots[j], e, j, w.tables, w.now) && v.slots[j] == SlotAfter(w.slots[j], e, j, w.tables, w.now)
    ensures |w.slots| <= j < |v.slots| ==> Fresh(v.slots[j])
    ensures Mine(e, j) ==> j < |w.slots|
  {
    hide EnabledIn, Moved, Affected, Shaken, Synced, InsertJobs;
    match e {
      case Act(_, _) =>
      case EnqueueAll(repositories, at) => InsertsAddFresh(ShakenSlots(w.slots, e), repositories, |repositories|, at);
      case _ =>
    }
  }

  lemma {:induction false} InsertsAddFresh(slots: seq<Slot>, repositories: seq<string>, n: nat, at: int)
    requires n <= |repositories|
    ensures var after := InsertJobs(slots, repositories, n, at);
            && |slots| <= |after|
            && (forall j :: 0 <= j < |slots| ==> after[j] == slots[j])
            && (forall j :: |slots| <= j < |after| ==> Fresh(after[j]))
  {
    if n > 0 {
      InsertsAddFresh(slots, repositories, n - 1, at);
    }
  }

  // ----- The last discovery -----

  predicate Shows(g: Generation, discovery: Option<Discovery>) {
    && discovery.Some?
    && g.items.Keys == discovery.value.members.Keys
    && (forall n :: n in g.items ==> g.items[n].collections == discovery.value.members[n])
    && g.discoveredAt == discovery.value.discoveredAt
  }

  function Held(s: Slot): Option<Generation> {
    if s.worker.None? then None
    else match s.worker.value.stage
      case Loaded(g) => Some(g)
      case Batched(g, _, _) => Some(g)
      case Ready(g, _) => Some(g)
      case _ => None
  }

  predicate ShowsDiscovery(s: Slot, h: History) {
    && (s.entry.generation.Some? ==> Shows(s.entry.generation.value, h.discovery))
    && (Held(s).Some? ==> Shows(Held(s).value, h.discovery))
  }

  lemma WorkShowsDiscovery(g: Generation, discovery: Option<Discovery>, job: Job, d: Discovery,
                           staged: map<Number, Hydrated>)
    ensures Shows(NewGeneration(job, d), Some(d)) && Shows(Reconciled(g, d), Some(d))
    ensures Shows(g, discovery) ==> Shows(WithBatch(g, staged), discovery)
  {
  }

  lemma ShowsReadsItems(g: Generation, h: Generation, discovery: Option<Discovery>)
    requires g.items == h.items && g.discoveredAt == h.discoveredAt
    ensures Shows(g, discovery) == Shows(h, discovery)
  {
  }

  lemma ShowsThroughAction(s: Slot, a: Action, t: Tables, now: int, h: History, number: Number)
    requires s.worker.Some? && EnabledIn(s.entry, s.worker.value, a, t, now) && ShowsDiscovery(s, h)
    ensures ShowsDiscovery(Moved(s.entry, s.worker.value, a, t, now), NoteAction(h, s, a, number))
  {
    hide IsNextBatch, BatchOf, HydratedBatch, CachedRows, StagedItems, Complete, Payloads, Relabelled, SnapshotAccepted,
      Shows, Reconciled, WithBatch, NewGeneration;
    match a {
      case Start(d) => WorkShowsDiscovery(NewGeneration(s.entry.job, d), None, s.entry.job, d, map[]);
      case Rediscover(d) => WorkShowsDiscovery(s.entry.generation.value, h.discovery, s.entry.job, d, map[]);
      case Hydrate(observe) =>
        var stage := s.worker.value.stage;
        WorkShowsDiscovery(s.entry.generation.value, h.discovery, s.entry.job, Discovery(map[], [], 0),
                           HydratedBatch(stage.batch, observe, stage.cached, s.worker.value.forced));
      case EndHydration => ShowsReadsItems(s.entry.generation.value,
                                           Advanced(s.entry.generation.value, CollectingProgress, None), h.discovery);
      case Collect(snapshot) => ShowsReadsItems(s.entry.generation.value,
                                                Advanced(s.entry.generation.value, Publishing, Some(snapshot)),
                                                    h.discovery);
      case Fail(_) =>
        if s.entry.generation.Some? {
          var g := s.entry.generation.value;
          ShowsReadsItems(g, g.(retries := g.retries + 1), h.discovery);
        }
      case _ =>
    }
  }

  lemma ShowsDiscoveryStays(s: Slot, e: Event, j: nat, t: Tables, now: int, h: History, number: Number)
    requires Possible(s, e, j, t, now) && ShowsDiscovery(s, h)
    ensures ShowsDiscovery(SlotAfter(s, e, j, t, now), Note(h, s, e, j, number))
  {
    hide EnabledIn, Moved, Shows;
    if s.entry.generation.Some? {
      var g := s.entry.generation.value;
      ShowsReadsItems(g, g.(rediscovery := true), h.discovery);
    }
    if Mine(e, j) && !e.action.Claim? {
      ShowsThroughAction(s, e.action, t, now, h, number);
    }
  }

  // ----- The chosen pull request is hydrated once -----

  predicate HydratedOnce(s: Slot, h: History, number: Number) {
    && h.hydrations <= 1
    && (s.entry.generation.Some? ==> (number in Done(s.entry.generation.value) <==> h.hydrations == 1))
  }

  lemma BatchCompletes(g: Generation, staged: map<Number, Hydrated>)
    requires BatchAccepted(Some(g), staged)
    ensures Done(WithBatch(g, staged)) == Done(g) + staged.Keys && Done(g) !! staged.Keys
  {
  }

  lemma HydratedOnceThroughAction(s: Slot, a: Action, t: Tables, now: int, h: History, number: Number)
    requires s.worker.Some? && EnabledIn(s.entry, s.worker.value, a, t, now) && HydratedOnce(s, h, number)
    ensures HydratedOnce(Moved(s.entry, s.worker.value, a, t, now), NoteAction(h, s, a, number), number)
  {
    hide IsNextBatch, BatchOf, CachedRows, StagedItems, Complete, Payloads, Relabelled, SnapshotAccepted, Reconciled,
      WithBatch, Done;
    match a {
      case Rediscover(d) => RediscoveryKeepsCompletedWork(s.entry.generation.value, d);
      case Hydrate(observe) =>
        var stage := s.worker.value.stage;
        BatchCompletes(s.entry.generation.value,
                       HydratedBatch(stage.batch, observe, stage.cached, s.worker.value.forced));
      case _ =>
    }
  }

  lemma HydratedOnceStays(s: Slot, e: Event, j: nat, t: Tables, now: int, h: History, number: Number)
    requires Possible(s, e, j, t, now) && HydratedOnce(s, h, number)
    ensures HydratedOnce(SlotAfter(s, e, j, t, now), Note(h, s, e, j, number), number)
  {
    hide EnabledIn, Moved;
    if Mine(e, j) && !e.action.Claim? {
      HydratedOnceThroughAction(s, e.action, t, now, h, number);
    }
  }

  // ----- Flags -----

  /** The stages that have read a generation and not replaced it. */
  predicate Reads(stage: Stage) {
    stage.Loaded? || stage.Batched? || stage.Ready? || stage.Recording? || stage.Finishing?
  }

  /** The stored flags remember what has been asked for and not yet served. */
  predicate RequestsOk(s: Slot, h: History) {
    && (h.claims > 0 ==> (s.entry.job.forced <==> h.requests.claimedForced || h.requests.forced))
    && (s.entry.generation.Some? ==> (s.entry.generation.value.rediscovery <==> h.requests.asked))
    && (s.worker.Some? ==> h.claims > 0)
  }

  predicate FlagsOk(s: Slot, h: History) {
    s.worker.Some? ==>
      && s.worker.value.forced == h.requests.claimedForced
      && (Reads(s.worker.value.stage) && s.entry.generation.Some? ==>
            (s.entry.generation.value.rediscovery <==> h.requests.late || (Held(s).Some? && Held(s).value.rediscovery)))
      && (Held(s).Some? && !h.dropped ==> s.entry.generation.Some?)
  }

  lemma RequestsOkThroughAction(s: Slot, a: Action, t: Tables, now: int, h: History, number: Number)
    requires s.worker.Some? && EnabledIn(s.entry, s.worker.value, a, t, now) && RequestsOk(s, h)
    ensures RequestsOk(Moved(s.entry, s.worker.value, a, t, now), NoteAction(h, s, a, number))
  {
    hide IsNextBatch, BatchOf, HydratedBatch, CachedRows, StagedItems, Complete, Payloads, Relabelled, SnapshotAccepted,
      WithBatch, Reconciled, NewGeneration, Advanced, BatchAccepted;
    match a {
      case Start(d) => WorkKeepsFlags(NewGeneration(s.entry.job, d), s.entry.job, d, map[], Publishing, None);
      case Rediscover(d) => WorkKeepsFlags(s.entry.generation.value, s.entry.job, d, map[], Publishing, None);
      case Hydrate(observe) =>
        var stage := s.worker.value.stage;
        var staged := HydratedBatch(stage.batch, observe, stage.cached, s.worker.value.forced);
        AcceptedHasGeneration(s.entry.generation, staged);
        WorkKeepsFlags(s.entry.generation.value, s.entry.job, Discovery(map[], [], 0), staged, Publishing, None);
      case EndHydration =>
        WorkKeepsFlags(s.entry.generation.value, s.entry.job, Discovery(map[], [], 0), map[], CollectingProgress, None);
      case Collect(snapshot) =>
        WorkKeepsFlags(s.entry.generation.value, s.entry.job, Discovery(map[], [], 0), map[], Publishing,
                       Some(snapshot));
      case _ =>
    }
  }

  lemma FlagsOkThroughAction(s: Slot, a: Action, t: Tables, now: int, h: History, number: Number)
    requires s.worker.Some? && EnabledIn(s.entry, s.worker.value, a, t, now) && FlagsOk(s, h) && SlotOk(s)
    ensures FlagsOk(Moved(s.entry, s.worker.value, a, t, now), NoteAction(h, s, a, number))
  {
    hide IsNextBatch, BatchOf, HydratedBatch, CachedRows, StagedItems, Complete, Payloads, Relabelled, SnapshotAccepted,
      WellFormed, BatchAccepted, BatchOk;
  }

  /** Only a discovery answers a request for one. */
  lemma WorkKeepsFlags(g: Generation, job: Job, d: Discovery, staged: map<Number, Hydrated>, to: Phase,
                       payload: Option<Progress.Snapshot>)
    ensures !NewGeneration(job, d).rediscovery && !Reconciled(g, d).rediscovery
    ensures WithBatch(g, staged).rediscovery == g.rediscovery && Advanced(g, to, payload).rediscovery == g.rediscovery
  {
  }

  lemma RequestsOkStay(s: Slot, e: Event, j: nat, t: Tables, now: int, h: History, number: Number)
    requires Possible(s, e, j, t, now) && RequestsOk(s, h)
    ensures RequestsOk(SlotAfter(s, e, j, t, now), Note(h, s, e, j, number))
  {
    hide EnabledIn, Moved;
    if Mine(e, j) && !e.action.Claim? {
      RequestsOkThroughAction(s, e.action, t, now, h, number);
    }
  }

  lemma FlagsOkStays(s: Slot, e: Event, j: nat, t: Tables, now: int, h: History, number: Number)
    requires Possible(s, e, j, t, now) && FlagsOk(s, h) && SlotOk(s)
    ensures FlagsOk(SlotAfter(s, e, j, t, now), Note(h, s, e, j, number))
  {
    hide EnabledIn, Moved, WellFormed, BatchOk;
    if Mine(e, j) && !e.action.Claim? {
      FlagsOkThroughAction(s, e.action, t, now, h, number);
    }
  }

  // ----- Claims -----

  /** How many batches of twenty hold `n` pull requests. */
  function Batches(n: nat): nat {
    (n + BATCH_SIZE - 1) / BATCH_SIZE
  }

  /** The units of work a stored generation has behind it. */
  function Units(g: Option<Generation>): int {
    if g.None? then 0
    else match g.value.phase
      case Hydrating => 1 + Batches(|g.value.items|) - Batches(|Pending(g.value)|)
      case CollectingProgress => 2 + Batches(|g.value.items|)
      case Publishing => 3 + Batches(|g.value.items|)
  }

  /** Between none and all of the losses of a job cost it one claim each. */
  predicate Between(claims: int, units: int, losses: nat) {
    units <= claims <= units + losses
  }

  predicate Costs(s: Slot, h: History) {
    && (s.entry.generation.Some? ==>
          s.entry.generation.value.forced == s.entry.job.forced && !s.entry.generation.value.rediscovery)
    && (h.discovery.Some? ==> s.entry.generation.Some?)
    && match s.worker
       case None =>
         if s.entry.job.status == Completed then
           h.discovery.Some? && Between(h.claims, 4 + Batches(|h.discovery.value.members|), h.losses)
         else
           && Between(h.claims, Units(s.entry.generation), h.losses)
           && (s.entry.job.status == Running ==> h.losses > 0)
       case Some(worker) =>
         && worker.forced == s.entry.job.forced
         && Between(if worker.stage.Releasing? then h.claims else h.claims - 1, Units(s.entry.generation), h.losses)
         && (worker.stage.Recording? || worker.stage.Finishing? ==>
               s.entry.generation.Some? && s.entry.generation.value.phase == Publishing)
         && !worker.stage.Stale? && !worker.stage.Failed?
  }

  lemma StartedUnits(job: Job, d: Discovery)
    ensures Units(Some(NewGeneration(job, d))) == 1
  {
    var g := NewGeneration(job, d);
    assert Pending(g) == g.items.Keys;
  }

  lemma OneBatchLess(p: nat)
    requires p > 0
    ensures Batches(p - Least(BATCH_SIZE, p)) == Batches(p) - 1
  {
  }

  lemma HydratedUnits(g: Generation, held: Generation, batch: map<Number, Discovered>, staged: map<Number, Hydrated>)
    requires g.items == held.items && g.phase == Hydrating
    requires BatchOk(held, batch) && batch != map[] && staged.Keys == batch.Keys && BatchAccepted(Some(g), staged)
    ensures Units(Some(WithBatch(g, staged))) == Units(Some(g)) + 1
  {
    var next := WithBatch(g, staged);
    assert Pending(g) == Pending(held);
    assert Pending(next) == Pending(g) - staged.Keys;
    assert next.items.Keys == g.items.Keys;
    assert |staged.Keys| == |batch|;
    var n :| n in batch;
    assert n in Pending(g);
    OneBatchLess(|Pending(g)|);
  }

  lemma BatchUnits(s: Slot, observe: map<Number, Observation>, t: Tables, now: int)
    requires SlotOk(s) && s.worker.Some? && EnabledIn(s.entry, s.worker.value, Hydrate(observe), t, now)
    ensures s.entry.generation.Some?
    ensures var next := Moved(s.entry, s.worker.value, Hydrate(observe), t, now).entry.generation;
            && next.Some? && Units(next) == Units(s.entry.generation) + 1
            && next.value.forced == s.entry.generation.value.forced
            && next.value.rediscovery == s.entry.generation.value.rediscovery
  {
    hide WellFormed, BatchOk, Units;
    var stage := s.worker.value.stage;
    HydratedUnits(s.entry.generation.value, stage.generation, stage.batch,
                  HydratedBatch(stage.batch, observe, stage.cached, s.worker.value.forced));
  }

  lemma EndedUnits(s: Slot)
    requires SlotOk(s) && s.worker.Some? && s.worker.value.stage.Batched? && s.worker.value.stage.batch == map[]
    requires s.entry.generation.Some? && s.entry.generation.value.phase == Hydrating
    ensures Units(Some(Advanced(s.entry.generation.value, CollectingProgress, None))) == Units(s.entry.generation) + 1
  {
    assert Pending(s.entry.generation.value) == Pending(s.worker.value.stage.generation);
    assert |Pending(s.entry.generation.value)| == 0;
  }

  lemma CollectedUnits(g: Generation, payload: Option<Progress.Snapshot>)
    requires g.phase == CollectingProgress
    ensures Units(Some(Advanced(g, Publishing, payload))) == Units(Some(g)) + 1
  {
  }

  lemma PublishingUnits(g: Generation)
    ensures g.phase == Publishing ==> Units(Some(g)) == 3 + Batches(|g.items|)
    ensures Units(None) == 0
  {
  }

  lemma ShownSize(g: Generation, discovery: Option<Discovery>)
    requires Shows(g, discovery)
    ensures discovery.Some? && |g.items| == |discovery.value.members|
  {
    assert |g.items.Keys| == |discovery.value.members.Keys|;
  }

  lemma CostsThroughAction(s: Slot, a: Action, t: Tables, now: int, h: History, number: Number)
    requires s.worker.Some? && EnabledIn(s.entry, s.worker.value, a, t, now)
    requires Costs(s, h) && SlotOk(s) && ShowsDiscovery(s, h) && FlagsOk(s, h)
    requires !NoteAction(h, s, a, number).disturbed && !h.disturbed && !h.dropped
    ensures Costs(Moved(s.entry, s.worker.value, a, t, now), NoteAction(h, s, a, number))
  {
    hide IsNextBatch, BatchOf, HydratedBatch, CachedRows, StagedItems, Complete, Payloads, Relabelled, SnapshotAccepted,
      WellFormed, Batches, Shows, BatchOk, BatchAccepted, Reconciled, WithBatch, Units;
    match a {
      case Start(d) =>
        StartedUnits(s.entry.job, d);
        PublishingUnits(NewGeneration(s.entry.job, d));
      case Hydrate(observe) => BatchUnits(s, observe, t, now);
      case EndHydration => EndedUnits(s);
      case Collect(snapshot) => CollectedUnits(s.entry.generation.value, Some(snapshot));
      case Finish =>
        ShownSize(s.entry.generation.value, h.discovery);
        PublishingUnits(s.entry.generation.value);
      case _ =>
    }
  }

  lemma CostsStay(s: Slot, e: Event, j: nat, t: Tables, now: int, h: History, number: Number)
    requires Possible(s, e, j, t, now) && Costs(s, h) && SlotOk(s) && ShowsDiscovery(s, h) && FlagsOk(s, h)
    requires !Note(h, s, e, j, number).disturbed && !h.disturbed && !h.dropped
    ensures Costs(SlotAfter(s, e, j, t, now), Note(h, s, e, j, number))
  {
    hide EnabledIn, Moved, StageOk, WellFormed, ShowsDiscovery, Batches, Units;
    if Mine(e, j) && !e.action.Claim? {
      CostsThroughAction(s, e.action, t, now, h, number);
    }
  }

  // ----- Retries -----

  /** The time a generation has been made to wait by its first `n` retries. */
  function Waited(n: nat): int {
    if n == 0 then 0 else Waited(n - 1) + Delay(n)
  }

  function Minus(a: nat, b: nat): nat {
    if a < b then 0 else a - b
  }

  /** A retry that a loss did not cut short has been waited for. */
  predicate Waits(s: Slot, h: History, now: int) {
    s.entry.generation.Some? ==>
      var g := s.entry.generation.value;
      var due := g.discoveredAt + Waited(Minus(g.retries, h.losses));
      && g.discoveredAt <= now
      && g.retries <= 94 + h.losses
      && match s.worker
         case None => due <= now || (s.entry.job.status == Queued && due <= s.entry.job.scheduledFor)
         case Some(worker) =>
           match worker.stage
           case Releasing(since, delay) =>
             && since <= now && delay >= 0
             && due <= since + delay && g.discoveredAt + Waited(Minus(Minus(g.retries, h.losses), 1)) <= since
           case _ => due <= now
  }

  lemma {:induction false} WaitedGrows(m: nat, n: nat)
    requires m <= n
    ensures 0 <= Waited(m) <= Waited(n)
  {
    if m < n {
      WaitedGrows(m, n - 1);
    } else if n > 0 {
      WaitedGrows(n - 1, n - 1);
    }
  }

  lemma {:induction false} WaitedFor(n: nat)
    requires n >= 4
    ensures Waited(n) == MINUTE * (15 + 16 * (n - 4))
  {
    if n == 4 {
      assert Waited(3) == MINUTE * 7 by { assert Waited(1) == MINUTE; assert Waited(2) == MINUTE * 3; }
    } else {
      WaitedFor(n - 1);
    }
  }

  /** The ninety-fourth retry is the last that can still be due in time. */
  lemma WindowHolds(n: nat)
    ensures Waited(n) < RETRY_WINDOW <==> n <= 93
  {
    WaitedFor(93);
    WaitedFor(94);
    if n <= 93 { WaitedGrows(n, 93); } else { WaitedGrows(94, n); }
  }

  lemma RetryWaits(s: Slot, h: History, now: int)
    requires Waits(s, h, now) && s.entry.generation.Some? && s.worker.Some? && !s.worker.value.stage.Releasing?
    requires now - s.entry.generation.value.discoveredAt < RETRY_WINDOW
    ensures var g := s.entry.generation.value;
            Waits(Slot(s.entry.(generation := Some(g.(retries := g.retries + 1))),
                       Some(s.worker.value.(stage := Releasing(now, Delay(g.retries + 1))))), h, now)
  {
    var g := s.entry.generation.value;
    var k := Minus(g.retries, h.losses);
    WindowHolds(k);
    assert Delay(k + 1) <= Delay(g.retries + 1);
    if g.retries >= h.losses {
      assert Waited(k + 1) == Waited(k) + Delay(k + 1);
    }
  }

  lemma LossWaits(s: Slot, h: History, now: int)
    requires Waits(s, h, now) && s.worker.Some?
    ensures Waits(s.(worker := None), h.(losses := h.losses + 1), now)
  {
    if s.entry.generation.Some? {
      var k := Minus(s.entry.generation.value.retries, h.losses);
      assert Minus(s.entry.generation.value.retries, h.losses + 1) == Minus(k, 1);
      WaitedGrows(Minus(k, 1), k);
    }
  }

  lemma WaitsThroughAction(s: Slot, a: Action, t: Tables, now: int, h: History)
    requires SlotOk(s) && s.worker.Some? && EnabledIn(s.entry, s.worker.value, a, t, now) && Waits(s, h, now)
             && !a.Lose?
    ensures Waits(Moved(s.entry, s.worker.value, a, t, now), h, now)
  {
    hide IsNextBatch, BatchOf, HydratedBatch, CachedRows, StagedItems, Complete, Payloads, Relabelled, SnapshotAccepted,
      WellFormed, BatchOk, Waited, Delay;
    NoWait();
    if a.Fail? && s.entry.generation.Some? && Retries(s.worker.value.stage, a.retryable, now) {
      if Attempted(s.worker.value.stage).Some? {
        RetryWaits(s, h, now);
      }
    }
  }

  lemma WaitsStay(s: Slot, e: Event, j: nat, t: Tables, now: int, later: int, h: History, number: Number)
    requires Possible(s, e, j, t, now) && Waits(s, h, now) && SlotOk(s) && now <= later
    ensures Waits(SlotAfter(s, e, j, t, now), Note(h, s, e, j, number), later)
  {
    hide EnabledIn, Moved, StageOk, WellFormed, Waited, Note;
    NotedLosses(s, e, j, h, number);
    if Mine(e, j) && !e.action.Claim? && !e.action.Lose? {
      WaitsThroughAction(s, e.action, t, now, h);
      WaitsLonger(SlotAfter(s, e, j, t, now), h, Note(h, s, e, j, number), now, later);
    } else if Mine(e, j) && e.action.Lose? {
      assert e.action == Lose;
      LossWaits(s, h, now);
      LostSlot(s, t, now);
      WaitsLonger(s.(worker := None), h.(losses := h.losses + 1), Note(h, s, e, j, number), now, later);
    } else if e.Crash? && s.worker.Some? {
      LossWaits(s, h, now);
      WaitsLonger(s.(worker := None), h.(losses := h.losses + 1), Note(h, s, e, j, number), now, later);
    } else {
      WaitsLonger(s, h, Note(h, s, e, j, number), now, later);
    }
  }

  lemma NotedLosses(s: Slot, e: Event, j: nat, h: History, number: Number)
    ensures Note(h, s, e, j, number).losses
         == h.losses + (if (Mine(e, j) && e.action.Lose?) || (e.Crash? && s.worker.Some?) then 1 else 0)
  {
  }

  lemma WaitsLonger(s: Slot, h: History, g: History, now: int, later: int)
    requires Waits(s, h, now) && now <= later && g.losses == h.losses
    ensures Waits(s, g, later)
  {
  }

  lemma LostSlot(s: Slot, t: Tables, now: int)
    requires s.worker.Some?
    ensures EnabledIn(s.entry, s.worker.value, Lose, t, now)
            && Moved(s.entry, s.worker.value, Lose, t, now) == s.(worker := None)
  {
  }

  lemma NoWait()
    ensures Waited(0) == 0
  {
  }

  // ----- Whole runs -----

  ghost predicate Remembers(s: Slot, h: History, number: Number, now: int) {
    && SlotOk(s) && ShowsDiscovery(s, h) && HydratedOnce(s, h, number) && RequestsOk(s, h) && FlagsOk(s, h)
    && Waits(s, h, now)
    && (h.dropped ==> h.disturbed) && (!h.disturbed ==> Costs(s, h))
  }

  lemma RemembersStays(s: Slot, e: Event, j: nat, t: Tables, now: int, later: int, h: History, number: Number)
    requires Possible(s, e, j, t, now) && Remembers(s, h, number, now) && now <= later
    requires SlotOk(SlotAfter(s, e, j, t, now))
    ensures Remembers(SlotAfter(s, e, j, t, now), Note(h, s, e, j, number), number, later)
  {
    hide Possible, SlotAfter, SlotOk, ShowsDiscovery, HydratedOnce, RequestsOk, FlagsOk, Waits, Costs;
    ShowsDiscoveryStays(s, e, j, t, now, h, number);
    HydratedOnceStays(s, e, j, t, now, h, number);
    RequestsOkStay(s, e, j, t, now, h, number);
    FlagsOkStays(s, e, j, t, now, h, number);
    WaitsStay(s, e, j, t, now, later, h, number);
    if !Note(h, s, e, j, number).disturbed {
      CostsStay(s, e, j, t, now, h, number);
    }
  }

  lemma FreshRemembers(s: Slot, number: Number, now: int)
    requires Fresh(s)
    ensures Remembers(s, NOTHING, number, now)
  {
  }

  lemma {:induction false} NoPastBeforeCreation(ws: seq<World>, es: seq<Event>, n: nat, j: nat, number: Number)
    requires IsRun(ws, es) && n <= |es| && |ws[n].slots| <= j
    ensures Past(ws, es, n, j, number) == NOTHING
  {
    hide Next;
    if n > 0 {
      EventMovesSlots(ws[n - 1], es[n - 1], ws[n], j);
      NoPastBeforeCreation(ws, es, n - 1, j, number);
    }
  }

  /** In every run, every job is as its past says. */
  lemma {:induction false} RunsRemember(ws: seq<World>, es: seq<Event>, n: nat, j: nat, number: Number)
    requires IsRun(ws, es) && n <= |es| && j < |ws[n].slots|
    ensures Remembers(ws[n].slots[j], Past(ws, es, n, j, number), number, ws[n].now)
  {
    hide Next, SlotAfter, Possible, Remembers, Note, Inv;
    if n > 0 {
      EventMovesSlots(ws[n - 1], es[n - 1], ws[n], j);
      if j < |ws[n - 1].slots| {
        RunsRemember(ws, es, n - 1, j, number);
        RunsAreSafe(ws, es, n);
        SafeSlot(ws[n], j);
        RemembersStays(ws[n - 1].slots[j], es[n - 1], j, ws[n - 1].tables, ws[n - 1].now, ws[n].now,
                       Past(ws, es, n - 1, j, number), number);
      } else {
        NoPastBeforeCreation(ws, es, n - 1, j, number);
        FreshRemembers(ws[n].slots[j], number, ws[n].now);
      }
    }
  }
}
