/** Every run of the refresh protocol: workers, schedulers, configuration
    reloads and crashes interleave between store transactions. */
module RefreshRuns {
  import opened Wrappers
  import opened HydrationCache
  import opened RefreshTables
  import Progress

  const MINUTE: int := 60
  const RETRY_WINDOW: int := 24 * 60 * MINUTE

  /** Where the worker of a claimed job stands. `Releasing` and `Finishing`
      have committed the unit of work but not yet given the job back. */
  datatype Stage =
    | Claimed
    | Stale
    | Discovering
    | Loaded(generation: Generation)
    | Batched(generation: Generation, batch: map<Number, Discovered>, cached: map<Number, Cached>)
    | Ready(generation: Generation, staged: map<Number, Item>)
    | Recording(snapshot: Progress.Snapshot)
    | Releasing(since: int, delay: int)
    | Failed
    | Finishing

  /** The claim carries the force flag the job had when it was claimed. */
  datatype Worker = Worker(forced: bool, stage: Stage)

  datatype Slot = Slot(entry: Entry, worker: Option<Worker>)

  datatype World = World(slots: seq<Slot>, tables: Tables, now: int)

  /** One step of one worker. */
  datatype Action =
    | Claim(read: int)
    | Load
    | DropStale
    | Start(discovery: Discovery)
    | Rediscover(discovery: Discovery)
    | LoadBatch(numbers: seq<Number>)
    | Hydrate(observe: map<Number, Observation>)
    | EndHydration
    | Collect(snapshot: Progress.Snapshot)
    | LoadStaged
    | Publish
    | Record
    | Release(read: int)
    | Fail(retryable: bool)
    | DropFailed
    | Finish
    | Lose

  /** `Lose` and `Crash` stand for any error, cancellation or kill; `Recover`
      runs only in a fresh process. */
  datatype Event =
    | Act(job: nat, action: Action)
    | Enqueue(repository: string, at: int, forced: bool)
    | Force(repository: string)
    | EnqueueAll(repositories: seq<string>, at: int)
    | Reconfigure(collections: map<string, set<string>>)
    | Tick(now: int)
    | Crash
    | Recover

  // ----- Steps of one worker -----

  function Jobs(slots: seq<Slot>): seq<Job> {
    seq(|slots|, k requires 0 <= k < |slots| => slots[k].entry.job)
  }

  function BatchOf(g: Option<Generation>, numbers: seq<Number>): map<Number, Discovered>
    requires IsNextBatch(g, numbers)
  {
    map n | n in numbers :: Discovered(n, g.value.items[n].collections, g.value.limits)
  }

  predicate Answered(batch: map<Number, Discovered>, observe: map<Number, Observation>) {
    forall n :: n in batch ==> n in observe
  }

  function HydratedBatch(batch: map<Number, Discovered>, observe: map<Number, Observation>, cached: map<Number, Cached>,
                         forced: bool): map<Number, Hydrated>
    requires Answered(batch, observe)
  {
    map n | n in batch :: HydrateOne(observe[n], batch[n], CacheEntry(cached, n), forced)
  }

  predicate Complete(g: Generation, staged: map<Number, Item>) {
    |staged| == |Done(g)| && Pending(g) == {}
  }

  predicate Payloads(staged: map<Number, Item>) {
    forall n :: n in staged ==> staged[n].staged.Some?
  }

  /** The delay doubles from one minute to sixteen. */
  function Delay(retries: nat): int {
    MINUTE * (if retries <= 1 then 1 else if retries == 2 then 2 else if retries == 3 then 4 else if retries == 4 then 8
              else 16)
  }

  /** In seconds: one minute doubled with each consecutive retry up to the fifth,
      and sixteen minutes from then on. */
  lemma DelayDoubles(retries: nat)
    requires retries > 0
    ensures Delay(retries) == 60 * (if retries <= 5 then Power(retries - 1) else 16)
  {
    assert Power(1) == 2 && Power(2) == 4 && Power(3) == 8 && Power(4) == 16;
  }

  predicate Collecting(stage: Stage) {
    match stage
    case Discovering => true
    case Loaded(g) => g.rediscovery || g.phase == CollectingProgress
    case Batched(_, batch, _) => batch != map[]
    case _ => false
  }

  /** The generation a failing unit of work belongs to. */
  function Attempted(stage: Stage): Option<Generation> {
    match stage
    case Loaded(g) => Some(g)
    case Batched(g, _, _) => Some(g)
    case _ => None
  }

  predicate Retries(stage: Stage, retryable: bool, now: int) {
    retryable && (Attempted(stage).None? || now - Attempted(stage).value.discoveredAt < RETRY_WINDOW)
  }

  predicate At(s: Slot, stage: Stage) {
    s.worker.Some? && s.worker.value.stage == stage
  }

  predicate Enabled(w: World, j: nat, a: Action) {
    && j < |w.slots|
    && var s := w.slots[j];
       if a.Claim? then IsNextDue(Jobs(w.slots), a.read, j) && a.read <= w.now
       else s.worker.Some? && EnabledIn(s.entry, s.worker.value, a, w.tables, w.now)
  }

  /** A step is enabled when its transaction would succeed. */
  predicate EnabledIn(entry: Entry, worker: Worker, a: Action, t: Tables, now: int) {
    var stage := worker.stage;
    match a
    case Claim(_) => false
    case Load => stage.Claimed?
    case DropStale => stage.Stale?
    case Start(d) => stage.Discovering? && entry.job.status == Running && ValidDiscovery(d) && d.discoveredAt <= now
    case Rediscover(d) => stage.Loaded? && stage.generation.rediscovery && entry.generation.Some? && ValidDiscovery(d)
        && d.discoveredAt <= now
    case LoadBatch(numbers) => stage.Loaded? && !stage.generation.rediscovery && stage.generation.phase == Hydrating
                               && IsNextBatch(entry.generation, numbers)
    case Hydrate(observe) => stage.Batched? && stage.batch != map[] && Answered(stage.batch, observe)
                             && BatchAccepted(entry.generation,
                                              HydratedBatch(stage.batch, observe, stage.cached, worker.forced))
    case EndHydration => stage.Batched? && stage.batch == map[] && entry.generation.Some?
        && entry.generation.value.phase == Hydrating
    case Collect(_) => stage.Loaded? && !stage.generation.rediscovery && stage.generation.phase == CollectingProgress
                       && entry.generation.Some? && entry.generation.value.phase == CollectingProgress
    case LoadStaged => stage.Loaded? && !stage.generation.rediscovery && stage.generation.phase == Publishing
                       && Complete(stage.generation, StagedItems(entry.generation))
    case Publish => stage.Ready? && Payloads(stage.staged) && stage.generation.progress.Some?
                    && (Configured(t, entry.job.repository) ==>
                        SnapshotAccepted(t, entry.job.repository, Relabelled(stage.staged)))
    case Record => stage.Recording?
                   && (Progress.LinkedTo(t.links, entry.job.repository) != {} ==>
                         && entry.job.repository in t.refreshes
                         && Progress.Accepted(t.progress, t.links, entry.job.repository, stage.snapshot))
    case Release(read) => stage.Releasing? && entry.job.status == Running && stage.since <= read <= now
    case Fail(retryable) => Collecting(stage)
                            && (Retries(stage, retryable, now) && Attempted(stage).Some? ==> entry.generation.Some?)
    case DropFailed => stage.Failed?
    case Finish => stage.Finishing?
    case Lose => true
  }

  /** The job, the generation and the worker after the step. */
  function Moved(entry: Entry, worker: Worker, a: Action, t: Tables, now: int): Slot
    requires EnabledIn(entry, worker, a, t, now)
  {
    var stage := worker.stage;
    match a
    case Load =>
      Goes(entry, worker,
           if entry.generation.None? then Discovering
           else if entry.generation.value.forced != worker.forced then Stale
           else Loaded(entry.generation.value))
    case DropStale => Goes(entry.(generation := None), worker, Discovering)
    case Start(d) => Goes(entry.(generation := Some(NewGeneration(entry.job, d))), worker, Releasing(now, 0))
    case Rediscover(d) => Goes(entry.(generation := Some(Reconciled(entry.generation.value, d))), worker,
                               Releasing(now, 0))
    case LoadBatch(numbers) =>
      Goes(entry, worker, Batched(stage.generation, BatchOf(entry.generation, numbers),
             if worker.forced then map[] else CachedRows(t, entry.job.repository)))
    case Hydrate(observe) =>
      var staged := HydratedBatch(stage.batch, observe, stage.cached, worker.forced);
      Goes(entry.(generation := Some(WithBatch(entry.generation.value, staged))), worker, Releasing(now, 0))
    case EndHydration => Goes(entry.(generation := Some(Advanced(entry.generation.value, CollectingProgress, None))),
                              worker, Releasing(now, 0))
    case Collect(snapshot) => Goes(entry.(generation := Some(Advanced(entry.generation.value, Publishing,
                                                                      Some(snapshot)))), worker, Releasing(now, 0))
    case LoadStaged => Goes(entry, worker, Ready(stage.generation, StagedItems(entry.generation)))
    case Publish => Goes(entry, worker, if Configured(t, entry.job.repository)
                         then Recording(stage.generation.progress.value) else Finishing)
    case Record => Goes(entry, worker, Finishing)
    case Release(read) => Slot(entry.(job := entry.job.(status := Queued, scheduledFor := read + stage.delay)), None)
    case Fail(retryable) =>
      if !Retries(stage, retryable, now) then Goes(entry, worker, Failed)
      else if Attempted(stage).None? then Goes(entry, worker, Releasing(now, MINUTE))
      else
        var g := entry.generation.value;
        Goes(entry.(generation := Some(g.(retries := g.retries + 1))), worker, Releasing(now, Delay(g.retries + 1)))
    case DropFailed => Goes(entry.(generation := None), worker, Finishing)
    case Finish => Slot(entry.(job := entry.job.(status := Completed)), None)
    case Lose => Slot(entry, None)
  }

  function Goes(entry: Entry, worker: Worker, stage: Stage): Slot {
    Slot(entry, Some(worker.(stage := stage)))
  }

  function Publication(entry: Entry, worker: Worker): Refresh
    requires worker.stage.Ready?
  {
    Encode(CountsOf(worker.stage.generation), worker.forced)
  }

  /** The shared tables after the step. */
  function Affected(entry: Entry, worker: Worker, a: Action, t: Tables, now: int): Tables
    requires EnabledIn(entry, worker, a, t, now)
  {
    var stage, repository := worker.stage, entry.job.repository;
    match a
    case Hydrate(observe) => PublishBatch(t, entry.generation.value.repository,
                                          HydratedBatch(stage.batch, observe, stage.cached, worker.forced))
    case Publish =>
      if Configured(t, repository)
          then ReplaceSnapshot(t, repository, Relabelled(stage.staged), Publication(entry, worker)) else t
    case Record =>
      if Progress.LinkedTo(t.links, repository) != {}
          then t.(progress := Progress.Apply(t.progress, t.links, repository, stage.snapshot)) else t
    case _ => t
  }

  function Taken(s: Slot): Slot {
    Slot(s.entry.(job := s.entry.job.(status := Running)), Some(Worker(s.entry.job.forced, Claimed)))
  }

  // ----- Everything else -----

  predicate HasActive(slots: seq<Slot>, repository: string) {
    exists k :: 0 <= k < |slots| && Active(slots[k].entry.job) && slots[k].entry.job.repository == repository
  }

  /** INSERT OR IGNORE under the index of one active job per repository. */
  function InsertJob(slots: seq<Slot>, repository: string, at: int, forced: bool): seq<Slot> {
    if HasActive(slots, repository) then slots
    else slots + [Slot(Entry(Job(repository, Queued, at, forced), None), None)]
  }

  function InsertJobs(slots: seq<Slot>, repositories: seq<string>, n: nat, at: int): seq<Slot>
    requires n <= |repositories|
  {
    if n == 0 then slots else InsertJob(InsertJobs(slots, repositories, n - 1, at), repositories[n - 1], at, false)
  }

  function AllRepositories(collections: map<string, set<string>>): set<string> {
    set c, r | c in collections && r in collections[c] :: r
  }

  /** The configured collections become the active ones with exactly their
      repositories; memberships of a dropped link go with it. */
  function Synced(t: Tables, collections: map<string, set<string>>): Tables {
    var links := (set l | l in t.links && l.collection !in collections)
                 + (set c, r | c in collections && r in collections[c] :: Progress.Link(c, r));
    var repositories := AllRepositories(collections);
    Tables(links, collections.Keys,
           map r | r in repositories :: if r in t.refreshes then t.refreshes[r] else Refresh(0, 0, false),
           t.rows, (set m | m in t.members && m.link in links), t.progress)
  }

  predicate Outside(e: Event, w: World) {
    match e
    case Act(_, _) => false
    case Enqueue(_, _, _) => true
    case Force(_) => true
    case EnqueueAll(repositories, _) => (set r | r in repositories) == w.tables.refreshes.Keys
    case Reconfigure(_) => true
    case Tick(now) => now >= w.now
    case Crash => true
    case Recover => forall k :: 0 <= k < |w.slots| ==> w.slots[k].worker.None?
  }

  /** What an event outside the workers does to an existing job. */
  function Shaken(s: Slot, e: Event): Slot {
    var job := s.entry.job;
    match e
    case Force(repository) =>
      if job.repository == repository && Active(job) then s.(entry := s.entry.(job := job.(forced := true))) else s
    case EnqueueAll(_, _) =>
      if Active(job) && s.entry.generation.Some?
          then s.(entry := s.entry.(generation := Some(s.entry.generation.value.(rediscovery := true)))) else s
    case Reconfigure(collections) =>
      if job.repository in AllRepositories(collections) then s
      else s.(entry := Entry(if job.status == Queued then job.(status := Completed) else job, None))
    case Crash => s.(worker := None)
    case Recover => if job.status == Running then s.(entry := s.entry.(job := job.(status := Queued))) else s
    case _ => s
  }

  function ShakenSlots(slots: seq<Slot>, e: Event): seq<Slot> {
    seq(|slots|, i requires 0 <= i < |slots| => Shaken(slots[i], e))
  }

  function SlotsAfter(w: World, e: Event): seq<Slot>
    requires Outside(e, w)
  {
    var slots := ShakenSlots(w.slots, e);
    match e
    case Enqueue(repository, at, forced) => InsertJob(slots, repository, at, forced)
    case EnqueueAll(repositories, at) => InsertJobs(slots, repositories, |repositories|, at)
    case _ => slots
  }

  function Next(w: World, e: Event): Option<World> {
    match e
    case Act(j, a) =>
      if !Enabled(w, j, a) then None
      else
        var s := w.slots[j];
        if a.Claim? then Some(w.(slots := w.slots[j := Taken(s)]))
        else Some(w.(slots := w.slots[j := Moved(s.entry, s.worker.value, a, w.tables, w.now)],
                     tables := Affected(s.entry, s.worker.value, a, w.tables, w.now)))
    case _ =>
      if !Outside(e, w) then None
      else Some(World(SlotsAfter(w, e),
                      if e.Reconfigure? then Synced(w.tables, e.collections) else w.tables,
                      if e.Tick? then e.now else w.now))
  }

  function Initially(): World {
    World([], Tables({}, {}, map[], map[], {}, Progress.Tables(map[], map[])), 0)
  }

  /** A run from the empty database. */
  predicate IsRun(ws: seq<World>, es: seq<Event>) {
    && |ws| == |es| + 1 && ws[0] == Initially()
    && forall i :: 0 <= i < |es| ==> Next(ws[i], es[i]) == Some(ws[i + 1])
  }
}
