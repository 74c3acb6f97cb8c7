/** What the scheduler makes its worker do at each stage, given GitHub's
    answers, and what one uninterrupted unit of work comes to. */
module RefreshPolicy {
  import opened Wrappers
  import opened HydrationCache
  import opened RefreshTables
  import opened RefreshRuns
  import opened RefreshSafety
  import Progress

  /** What GitHub answers to one unit: an absent observation is a failed one. */
  datatype Answers = Answers(
    discovery: Option<Discovery>, observe: map<Number, Observation>, progress: Option<Progress.Snapshot>,
        retryable: bool)

  datatype Point = Point(slot: Slot, tables: Tables)

  // ----- The next batch, as a value -----

  ghost function LeastIn(numbers: set<Number>): (least: Number)
    requires numbers != {}
    ensures least in numbers && forall n :: n in numbers ==> least <= n
    decreases numbers
  {
    var n :| n in numbers;
    var others := numbers - {n};
    assert forall k :: k in numbers ==> k == n || k in others;
    if others == {} then n
    else
      var m := LeastIn(others);
      if n < m then n else m
  }

  ghost function FirstNumbers(numbers: set<Number>, k: nat): (first: seq<Number>)
    ensures |first| == Least(k, |numbers|)
    ensures forall i :: 0 <= i < |first| ==> first[i] in numbers
    ensures forall i, j :: 0 <= i < j < |first| ==> first[i] < first[j]
    ensures forall n, i :: n in numbers && n !in first && 0 <= i < |first| ==> first[i] < n
  {
    if k == 0 || numbers == {} then []
    else
      var n := LeastIn(numbers);
      [n] + FirstNumbers(numbers - {n}, k - 1)
  }

  ghost function NextNumbers(g: Option<Generation>): (numbers: seq<Number>)
    ensures IsNextBatch(g, numbers)
  {
    if g.None? || g.value.phase != Hydrating then [] else FirstNumbers(Pending(g.value), BATCH_SIZE)
  }

  lemma SubsetOfSameSize(a: set<Number>, b: set<Number>)
    requires a <= b && |a| == |b|
    ensures a == b
  {
    assert b == a + (b - a);
  }

  /** Of two sets of one size, neither has all but one of the other's members. */
  lemma Exchange(mine: set<Number>, theirs: set<Number>, n: Number) returns (m: Number)
    requires |mine| == |theirs| && n in mine && n !in theirs
    ensures m in theirs && m !in mine
  {
    if theirs <= mine {
      SubsetOfSameSize(theirs, mine);
    }
    m :| m in theirs && m !in mine;
  }

  /** `first` lists the least members of `pending` in order. */
  ghost predicate Leads(pending: set<Number>, first: seq<Number>) {
    && (forall i :: 0 <= i < |first| ==> first[i] in pending)
    && (forall i, j :: 0 <= i < j < |first| ==> first[i] < first[j])
    && (forall n, i :: n in pending && n !in first && 0 <= i < |first| ==> first[i] < n)
  }

  lemma LeadersComeFirst(pending: set<Number>, first: seq<Number>, n: Number, m: Number)
    requires Leads(pending, first) && n in first && m in pending && m !in first
    ensures n < m
  {
  }

  lemma LeadersAgree(pending: set<Number>, numbers: seq<Number>, others: seq<Number>, n: Number)
    requires |numbers| == |others| && Leads(pending, numbers) && Leads(pending, others) && n in numbers
    ensures n in others
  {
    AsManyAsPlaces(numbers, |numbers|);
    AsManyAsPlaces(others, |others|);
    FirstOfHolds(numbers, |numbers|);
    FirstOfHolds(others, |others|);
    hide FirstOf;
    if n !in others {
      var m := Exchange(FirstOf(numbers, |numbers|), FirstOf(others, |others|), n);
      LeadersComeFirst(pending, numbers, n, m);
      LeadersComeFirst(pending, others, m, n);
    }
  }

  /** A generation has one next batch. */
  lemma BatchIsUnique(g: Option<Generation>, numbers: seq<Number>, others: seq<Number>)
    requires IsNextBatch(g, numbers) && IsNextBatch(g, others)
    ensures BatchOf(g, numbers) == BatchOf(g, others)
  {
    if g.Some? && g.value.phase == Hydrating {
      var pending := Pending(g.value);
      forall n
        ensures n in numbers <==> n in others
      {
        if n in numbers { LeadersAgree(pending, numbers, others, n); }
        if n in others { LeadersAgree(pending, others, numbers, n); }
      }
    }
  }

  // ----- Choices -----

  /** What the scheduler asks of the store next. */
  ghost function Wanted(entry: Entry, worker: Worker, github: Answers, now: int): Action {
    match worker.stage
    case Claimed => Load
    case Stale => DropStale
    case Discovering => if github.discovery.Some? then Start(github.discovery.value) else Fail(github.retryable)
    case Loaded(g) =>
      if g.rediscovery then if github.discovery.Some? then Rediscover(github.discovery.value)
          else Fail(github.retryable)
      else (
        match g.phase
        case Hydrating => LoadBatch(NextNumbers(entry.generation))
        case CollectingProgress => if github.progress.Some? then Collect(github.progress.value)
            else Fail(github.retryable)
        case Publishing => LoadStaged
      )
    case Batched(_, batch, _) =>
      if batch == map[] then EndHydration
      else if Answered(batch, github.observe) then Hydrate(github.observe)
      else Fail(github.retryable)
    case Ready(_, _) => Publish
    case Recording(_) => Record
    case Releasing(_, _) => Release(now)
    case Failed => DropFailed
    case Finishing => Finish
  }

  /** A transaction that fails ends the unit, and leaves the job running. */
  ghost function Choice(p: Point, github: Answers, now: int): (a: Action)
    requires p.slot.worker.Some?
    ensures EnabledIn(p.slot.entry, p.slot.worker.value, a, p.tables, now)
  {
    var a := Wanted(p.slot.entry, p.slot.worker.value, github, now);
    if EnabledIn(p.slot.entry, p.slot.worker.value, a, p.tables, now) then a else Lose
  }

  function Step(p: Point, a: Action, now: int): Point
    requires p.slot.worker.Some? && EnabledIn(p.slot.entry, p.slot.worker.value, a, p.tables, now)
  {
    Point(Moved(p.slot.entry, p.slot.worker.value, a, p.tables, now),
          Affected(p.slot.entry, p.slot.worker.value, a, p.tables, now))
  }

  function Rank(worker: Option<Worker>): nat {
    match worker
    case None => 0
    case Some(w) =>
      match w.stage
      case Claimed => 7
      case Stale => 6
      case Discovering => 5
      case Loaded(_) => 5
      case Batched(_, _, _) => 4
      case Ready(_, _) => 3
      case Recording(_) => 2
      case Failed => 2
      case Releasing(_, _) => 1
      case Finishing => 1
  }

  /** Every step of a worker brings its unit closer to the end. */
  lemma StepsDescend(p: Point, a: Action, now: int)
    requires p.slot.worker.Some? && EnabledIn(p.slot.entry, p.slot.worker.value, a, p.tables, now)
    ensures Rank(Step(p, a, now).slot.worker) < Rank(p.slot.worker)
  {
    hide BatchOf, Reconciled, WithBatch, HydratedBatch, NewGeneration, CachedRows, StagedItems, IsNextBatch,
      BatchAccepted, Complete, Affected, Configured;
  }

  /** One claimed unit of work, without interruption. */
  ghost function Serve(p: Point, github: Answers, now: int): (q: Point)
    ensures q.slot.worker.None?
    decreases Rank(p.slot.worker)
  {
    if p.slot.worker.None? then p
    else
      var a := Choice(p, github, now);
      StepsDescend(p, a, now);
      Serve(Step(p, a, now), github, now)
  }

  ghost function Trail(p: Point, github: Answers, now: int): seq<Action>
    decreases Rank(p.slot.worker)
  {
    if p.slot.worker.None? then []
    else
      var a := Choice(p, github, now);
      StepsDescend(p, a, now);
      [a] + Trail(Step(p, a, now), github, now)
  }

  function Follow(w: World, j: nat, actions: seq<Action>): Option<World>
    decreases |actions|
  {
    if actions == [] then Some(w)
    else
      match Next(w, Act(j, actions[0]))
      case None => None
      case Some(v) => Follow(v, j, actions[1..])
  }

  /** The steps of a unit are events of the interleaved runs. */
  lemma {:induction false} ServedStepsAreEvents(w: World, j: nat, github: Answers)
    requires j < |w.slots|
    ensures var p := Point(w.slots[j], w.tables);
            var q := Serve(p, github, w.now);
            Follow(w, j, Trail(p, github, w.now)) == Some(w.(slots := w.slots[j := q.slot], tables := q.tables))
    decreases Rank(w.slots[j].worker)
  {
    hide EnabledIn, Moved, Affected, Choice;
    var p := Point(w.slots[j], w.tables);
    if p.slot.worker.None? {
      assert w.slots[j := w.slots[j]] == w.slots;
    } else {
      var a := Choice(p, github, w.now);
      StepsDescend(p, a, w.now);
      NoClaim(p.slot.entry, p.slot.worker.value, a, p.tables, w.now);
      var next := Step(p, a, w.now);
      var v := w.(slots := w.slots[j := next.slot], tables := next.tables);
      assert v.slots[j] == next.slot;
      ServedStepsAreEvents(v, j, github);
      var q := Serve(p, github, w.now);
      assert v.slots[j := q.slot] == w.slots[j := q.slot];
      assert Trail(p, github, w.now)[1..] == Trail(next, github, w.now);
    }
  }

  lemma NoClaim(entry: Entry, worker: Worker, a: Action, t: Tables, now: int)
    requires EnabledIn(entry, worker, a, t, now)
    ensures !a.Claim?
  {
  }

  // ----- When a unit is given up -----

  /** The worker reports an error and leaves its job running: its generation is
      gone, an answer is not acceptable, or a collection is not configured. */
  ghost predicate Obstructed(entry: Entry, worker: Worker, github: Answers, t: Tables, now: int) {
    var gone, repository := entry.generation.None?, entry.job.repository;
    match worker.stage
    case Discovering => github.discovery.Some? && !ValidDiscovery(github.discovery.value)
    case Loaded(g) =>
      if g.rediscovery then
        if github.discovery.Some? then gone || !ValidDiscovery(github.discovery.value)
        else gone && Retries(worker.stage, github.retryable, now)
      else (
        match g.phase
        case Hydrating => false
        case CollectingProgress => gone && (github.progress.Some? || Retries(worker.stage, github.retryable, now))
        case Publishing => gone && g.items != map[]
      )
    case Batched(g, batch, cached) =>
      if batch == map[] then gone
      else if Answered(batch, github.observe) then
        gone || exists n ::
            n in batch && Misdirected(github.observe[n], batch[n], CacheEntry(cached, n), worker.forced, repository)
      else gone && Retries(worker.stage, github.retryable, now)
    case Ready(g, _) =>
      && Configured(t, repository)
      && exists n, c :: n in g.items && c in g.items[n].collections && !Configures(t, c, repository)
    case Recording(s) =>
      && Progress.LinkedTo(t.links, repository) != {}
      && !(repository in t.refreshes && Progress.Accepted(t.progress, t.links, repository, s))
    case _ => false
  }

  /** Hydration produced another pull request than the one that was asked for. */
  predicate Misdirected(observation: Observation, item: Discovered, cached: Option<Cached>, forced: bool,
                        repository: string) {
    var pr := HydrateOne(observation, item, cached, forced).pr;
    pr.number != item.number || pr.repository != repository
  }

  lemma BatchIsPending(entry: Entry, worker: Worker, g: Generation, n: Number)
    requires SlotOk(Slot(entry, Some(worker))) && worker.stage.Batched? && entry.generation == Some(g)
    requires n in worker.stage.batch
    ensures n in Pending(g) && n > 0 && worker.stage.batch[n].number == n
  {
    assert Pending(g) == Pending(worker.stage.generation);
  }

  lemma AcceptedUnlessMisdirected(entry: Entry, worker: Worker, g: Generation, observe: map<Number, Observation>)
    requires SlotOk(Slot(entry, Some(worker))) && worker.stage.Batched? && entry.generation == Some(g)
    requires Answered(worker.stage.batch, observe)
    ensures var batch, cached := worker.stage.batch, worker.stage.cached;
            BatchAccepted(entry.generation, HydratedBatch(batch, observe, cached, worker.forced)) <==>
              !exists n ::
                  n in batch
                      && Misdirected(observe[n], batch[n], CacheEntry(cached, n), worker.forced, entry.job.repository)
  {
    hide HydrateOne, WellFormed, BatchOk, CopiesOwn, Pending;
    var batch, cached := worker.stage.batch, worker.stage.cached;
    var staged := HydratedBatch(batch, observe, cached, worker.forced);
    forall n | n in batch
      ensures n in Pending(g) && n > 0 && batch[n].number == n
      ensures staged[n] == HydrateOne(observe[n], batch[n], CacheEntry(cached, n), worker.forced)
    {
      BatchIsPending(entry, worker, g, n);
    }
  }

  lemma ReadyUnlessUnconfigured(entry: Entry, worker: Worker, t: Tables, now: int)
    requires SlotOk(Slot(entry, Some(worker))) && worker.stage.Ready?
    ensures var g, repository := worker.stage.generation, entry.job.repository;
            EnabledIn(entry, worker, Publish, t, now) <==>
              !(Configured(t, repository)
                && exists n, c :: n in g.items && c in g.items[n].collections && !Configures(t, c, repository))
  {
    var g := worker.stage.generation;
    assert forall n :: n in g.items ==> n in Done(g);
    assert Payloads(g.items);
    assert forall n :: n in g.items ==> Relabelled(g.items)[n].pr.collections == g.items[n].collections;
  }

  lemma StagedPayloads(g: Option<Generation>)
    ensures Payloads(StagedItems(g))
  {
  }

  lemma StagedUnlessGone(entry: Entry, worker: Worker)
    requires SlotOk(Slot(entry, Some(worker))) && worker.stage.Loaded? && worker.stage.generation.phase == Publishing
    ensures Complete(worker.stage.generation, StagedItems(entry.generation))
       <==> entry.generation.Some? || worker.stage.generation.items == map[]
  {
    var g := worker.stage.generation;
    assert Done(g) == g.items.Keys;
    if entry.generation.Some? {
      assert Done(entry.generation.value) == g.items.Keys;
      assert StagedItems(entry.generation).Keys == g.items.Keys;
    }
  }

  lemma EmptyBatchIsLast(entry: Entry, worker: Worker)
    requires SlotOk(Slot(entry, Some(worker))) && worker.stage.Batched? && entry.generation.Some?
    ensures entry.generation.value.phase == Hydrating
  {
  }

  lemma NothingAccepted(worker: Worker, observe: map<Number, Observation>)
    requires worker.stage.Batched? && Answered(worker.stage.batch, observe)
    ensures !BatchAccepted(None, HydratedBatch(worker.stage.batch, observe, worker.stage.cached, worker.forced))
  {
  }

  /** A worker gives its unit up exactly when it is obstructed. */
  lemma {:induction false} LosesIffObstructed(p: Point, github: Answers, now: int)
    requires p.slot.worker.Some? && SlotOk(p.slot) && InTime(p.slot, now)
    requires github.discovery.Some? ==> github.discovery.value.discoveredAt <= now
    ensures Choice(p, github, now) == Lose <==> Obstructed(p.slot.entry, p.slot.worker.value, github, p.tables, now)
  {
    hide WellFormed, BatchOk, IsNextBatch, BatchAccepted, HydratedBatch, Complete, StagedItems, SnapshotAccepted,
      Relabelled, Payloads, CopiesOwn, Configured, ValidDiscovery, Misdirected;
    var entry, worker := p.slot.entry, p.slot.worker.value;
    match worker.stage {
      case Loaded(g) => if g.phase == Publishing { StagedUnlessGone(entry, worker); }
      case Batched(_, batch, _) =>
        if entry.generation.Some? {
          EmptyBatchIsLast(entry, worker);
          if batch != map[] && Answered(batch, github.observe) {
            AcceptedUnlessMisdirected(entry, worker, entry.generation.value, github.observe);
          }
        } else if Answered(batch, github.observe) {
          NothingAccepted(worker, github.observe);
        }
      case Ready(_, _) => ReadyUnlessUnconfigured(entry, worker, p.tables, now);
      case _ =>
    }
  }

  // ----- What a unit comes to -----

  lemma Takes(p: Point, github: Answers, now: int, a: Action)
    requires p.slot.worker.Some? && Wanted(p.slot.entry, p.slot.worker.value, github, now) == a
    requires EnabledIn(p.slot.entry, p.slot.worker.value, a, p.tables, now)
    ensures Serve(p, github, now) == Serve(Step(p, a, now), github, now)
  {
  }

  lemma GivesUp(p: Point, github: Answers, now: int)
    requires p.slot.worker.Some?
    requires !EnabledIn(p.slot.entry, p.slot.worker.value, Wanted(p.slot.entry, p.slot.worker.value, github, now),
                        p.tables, now)
    ensures Serve(p, github, now) == p.(slot := p.slot.(worker := None))
  {
    hide Wanted;
    assert Serve(p, github, now) == Serve(Step(p, Lose, now), github, now);
  }

  function Requeued(entry: Entry, at: int): Slot {
    Slot(entry.(job := entry.job.(status := Queued, scheduledFor := at)), None)
  }

  function Ended(entry: Entry): Slot {
    Slot(entry.(job := entry.job.(status := Completed)), None)
  }

  lemma GivesBack(p: Point, github: Answers, now: int, delay: int)
    requires p.slot.worker.Some? && p.slot.worker.value.stage.Releasing? && p.slot.entry.job.status == Running
    requires p.slot.worker.value.stage.since <= now && p.slot.worker.value.stage.delay == delay
    ensures Serve(p, github, now) == Point(Requeued(p.slot.entry, now + delay), p.tables)
  {
    Takes(p, github, now, Release(now));
  }

  lemma Ends(p: Point, github: Answers, now: int)
    requires p.slot.worker.Some? && p.slot.worker.value.stage.Finishing?
    ensures Serve(p, github, now) == Point(Ended(p.slot.entry), p.tables)
  {
    Takes(p, github, now, Finish);
  }

  /** A failed collection is retried after its delay, or drops the generation
      and completes the job; it is given up if a reload took the generation. */
  lemma FailureServed(p: Point, github: Answers, now: int)
    requires p.slot.worker.Some? && p.slot.entry.job.status == Running
    requires Collecting(p.slot.worker.value.stage)
    requires Wanted(p.slot.entry, p.slot.worker.value, github, now) == Fail(github.retryable)
    ensures var entry, stage := p.slot.entry, p.slot.worker.value.stage;
            Serve(p, github, now) ==
              var held := Attempted(stage);
              Point(if !github.retryable || (held.Some? && now - held.value.discoveredAt >= 86_400)
                    then Ended(entry.(generation := None))
                    else if held.None? then Requeued(entry, now + 60)
                    else if entry.generation.None? then Slot(entry, None)
                    else
                      var r := entry.generation.value.retries + 1;
                      Requeued(entry.(generation := Some(entry.generation.value.(retries := r))),
                               now + 60 * (if r <= 5 then Power(r - 1) else 16)),
                    p.tables)
  {
    hide Serve, Collecting, Delay, Power, Wanted;
    var entry, worker := p.slot.entry, p.slot.worker.value;
    if !Retries(worker.stage, github.retryable, now) {
      Takes(p, github, now, Fail(github.retryable));
      AbandonmentServed(Point(Goes(entry, worker, Failed), p.tables), github, now);
    } else if Attempted(worker.stage).Some? && entry.generation.None? {
      GivesUp(p, github, now);
    } else {
      Takes(p, github, now, Fail(github.retryable));
      if Attempted(worker.stage).None? {
        GivesBack(Point(Goes(entry, worker, Releasing(now, MINUTE)), p.tables), github, now, MINUTE);
      } else {
        var g := entry.generation.value;
        DelayDoubles(g.retries + 1);
        var next := entry.(generation := Some(g.(retries := g.retries + 1)));
        GivesBack(Point(Goes(next, worker, Releasing(now, Delay(g.retries + 1))), p.tables), github, now,
                  Delay(g.retries + 1));
      }
    }
  }

  lemma AbandonmentServed(p: Point, github: Answers, now: int)
    requires p.slot.worker.Some? && p.slot.worker.value.stage.Failed?
    ensures Serve(p, github, now) == Point(Ended(p.slot.entry.(generation := None)), p.tables)
  {
    hide Serve;
    Takes(p, github, now, DropFailed);
    Ends(Point(Goes(p.slot.entry.(generation := None), p.slot.worker.value, Finishing), p.tables), github, now);
  }

  lemma DiscoveryServed(p: Point, github: Answers, now: int)
    requires p.slot.worker.Some? && p.slot.worker.value.stage.Discovering? && p.slot.entry.job.status == Running
    requires github.discovery.Some? && github.discovery.value.discoveredAt <= now
    ensures Serve(p, github, now)
         == if ValidDiscovery(github.discovery.value) then
              Point(Requeued(p.slot.entry.(generation := Some(NewGeneration(p.slot.entry.job, github.discovery.value))),
                             now), p.tables)
            else p.(slot := p.slot.(worker := None))
  {
    hide Serve, NewGeneration, ValidDiscovery;
    var entry, worker, d := p.slot.entry, p.slot.worker.value, github.discovery.value;
    if ValidDiscovery(d) {
      Takes(p, github, now, Start(d));
      GivesBack(Point(Goes(entry.(generation := Some(NewGeneration(entry.job, d))), worker, Releasing(now, 0)),
                      p.tables), github, now, 0);
    } else {
      GivesUp(p, github, now);
    }
  }

  lemma RediscoveryServed(p: Point, github: Answers, now: int)
    requires p.slot.worker.Some? && p.slot.worker.value.stage.Loaded? && p.slot.entry.job.status == Running
    requires p.slot.worker.value.stage.generation.rediscovery
    requires github.discovery.Some? && github.discovery.value.discoveredAt <= now
    ensures Serve(p, github, now)
         == if p.slot.entry.generation.Some? && ValidDiscovery(github.discovery.value) then
              Point(Requeued(p.slot.entry.(generation := Some(Reconciled(p.slot.entry.generation.value,
                                                                         github.discovery.value))), now),
                    p.tables)
            else p.(slot := p.slot.(worker := None))
  {
    hide Serve, Reconciled, ValidDiscovery;
    var entry, worker, d := p.slot.entry, p.slot.worker.value, github.discovery.value;
    if entry.generation.Some? && ValidDiscovery(d) {
      Takes(p, github, now, Rediscover(d));
      GivesBack(Point(Goes(entry.(generation := Some(Reconciled(entry.generation.value, d))), worker,
                           Releasing(now, 0)), p.tables),
                github, now, 0);
    } else {
      GivesUp(p, github, now);
    }
  }

  lemma CollectionServed(p: Point, github: Answers, now: int)
    requires p.slot.worker.Some? && p.slot.worker.value.stage.Loaded? && p.slot.entry.job.status == Running
    requires !p.slot.worker.value.stage.generation.rediscovery
             && p.slot.worker.value.stage.generation.phase == CollectingProgress
    requires github.progress.Some?
    ensures Serve(p, github, now)
         == if p.slot.entry.generation.Some? && p.slot.entry.generation.value.phase == CollectingProgress then
              Point(Requeued(p.slot.entry.(generation := Some(Advanced(p.slot.entry.generation.value, Publishing,
                                                                       github.progress))), now),
                    p.tables)
            else p.(slot := p.slot.(worker := None))
  {
    hide Serve;
    var entry, worker := p.slot.entry, p.slot.worker.value;
    if entry.generation.Some? && entry.generation.value.phase == CollectingProgress {
      Takes(p, github, now, Collect(github.progress.value));
      GivesBack(Point(Goes(entry.(generation := Some(Advanced(entry.generation.value, Publishing, github.progress))),
                           worker,
                           Releasing(now, 0)), p.tables), github, now, 0);
    } else {
      GivesUp(p, github, now);
    }
  }

  lemma EndOfHydrationServed(p: Point, github: Answers, now: int)
    requires p.slot.worker.Some? && p.slot.worker.value.stage.Batched? && p.slot.entry.job.status == Running
    requires p.slot.worker.value.stage.batch == map[]
    ensures Serve(p, github, now)
         == if p.slot.entry.generation.Some? && p.slot.entry.generation.value.phase == Hydrating then
              Point(Requeued(p.slot.entry.(generation := Some(Advanced(p.slot.entry.generation.value,
                                                                       CollectingProgress, None))), now),
                    p.tables)
            else p.(slot := p.slot.(worker := None))
  {
    hide Serve;
    var entry, worker := p.slot.entry, p.slot.worker.value;
    if entry.generation.Some? && entry.generation.value.phase == Hydrating {
      Takes(p, github, now, EndHydration);
      GivesBack(Point(Goes(entry.(generation := Some(Advanced(entry.generation.value, CollectingProgress, None))),
                           worker,
                           Releasing(now, 0)), p.tables), github, now, 0);
    } else {
      GivesUp(p, github, now);
    }
  }

  lemma HydrationServed(p: Point, github: Answers, now: int)
    requires p.slot.worker.Some? && p.slot.worker.value.stage.Batched? && p.slot.entry.job.status == Running
    requires p.slot.worker.value.stage.batch != map[] && Answered(p.slot.worker.value.stage.batch, github.observe)
    ensures var worker := p.slot.worker.value;
            var staged := HydratedBatch(worker.stage.batch, github.observe, worker.stage.cached, worker.forced);
            Serve(p, github, now)
            == if BatchAccepted(p.slot.entry.generation, staged) then
                 var g := p.slot.entry.generation.value;
                 Point(Requeued(p.slot.entry.(generation := Some(WithBatch(g, staged))), now),
                       PublishBatch(p.tables, g.repository, staged))
               else p.(slot := p.slot.(worker := None))
  {
    hide Serve, HydratedBatch, WithBatch, PublishBatch, BatchAccepted;
    var entry, worker := p.slot.entry, p.slot.worker.value;
    var staged := HydratedBatch(worker.stage.batch, github.observe, worker.stage.cached, worker.forced);
    if BatchAccepted(entry.generation, staged) {
      AcceptedHasGeneration(entry.generation, staged);
      Takes(p, github, now, Hydrate(github.observe));
      GivesBack(Point(Goes(entry.(generation := Some(WithBatch(entry.generation.value, staged))), worker,
                           Releasing(now, 0)),
                      PublishBatch(p.tables, entry.generation.value.repository, staged)), github, now, 0);
    } else {
      GivesUp(p, github, now);
    }
  }

  lemma BatchLoadServed(p: Point, github: Answers, now: int, numbers: seq<Number>)
    requires p.slot.worker.Some? && p.slot.worker.value.stage.Loaded?
    requires !p.slot.worker.value.stage.generation.rediscovery
             && p.slot.worker.value.stage.generation.phase == Hydrating
    requires IsNextBatch(p.slot.entry.generation, numbers)
    ensures var entry, worker := p.slot.entry, p.slot.worker.value;
            Serve(p, github, now)
            == Serve(Point(Goes(entry, worker, Batched(worker.stage.generation, BatchOf(entry.generation, numbers),
                                                       if worker.forced then map[]
                                                           else CachedRows(p.tables, entry.job.repository))),
                           p.tables), github, now)
  {
    hide Serve, BatchOf, CachedRows, IsNextBatch;
    var next := NextNumbers(p.slot.entry.generation);
    BatchIsUnique(p.slot.entry.generation, numbers, next);
    Takes(p, github, now, LoadBatch(next));
  }

  /** What publishing a snapshot and recording its progress leaves, and whether
      the job may then be completed. */
  function PublishedAndRecorded(t: Tables, repository: string, published: map<Number, Cached>, refresh: Refresh,
                                s: Progress.Snapshot)
    : (Tables, bool)
  {
    if !Configured(t, repository) then (t, true)
    else if !SnapshotAccepted(t, repository, published) then (t, false)
    else
      var u := ReplaceSnapshot(t, repository, published, refresh);
      if Progress.LinkedTo(u.links, repository) == {} then (u, true)
      else if Progress.Accepted(u.progress, u.links, repository, s) then
        (u.(progress := Progress.Apply(u.progress, u.links, repository, s)), true)
      else (u, false)
  }

  lemma PublishStep(p: Point, now: int)
    requires p.slot.worker.Some? && p.slot.worker.value.stage.Ready?
    requires Payloads(p.slot.worker.value.stage.staged) && p.slot.worker.value.stage.generation.progress.Some?
    ensures var entry, worker, t, repository := p.slot.entry, p.slot.worker.value, p.tables,
              p.slot.entry.job.repository;
            && (EnabledIn(entry, worker, Publish, t, now) <==>
                  (Configured(t, repository) ==> SnapshotAccepted(t, repository, Relabelled(worker.stage.staged))))
            && (EnabledIn(entry, worker, Publish, t, now) ==>
                  Step(p, Publish, now) ==
                    if Configured(t, repository) then
                      Point(Goes(entry, worker, Recording(worker.stage.generation.progress.value)),
                            ReplaceSnapshot(t, repository, Relabelled(worker.stage.staged), Publication(entry, worker)))
                    else Point(Goes(entry, worker, Finishing), t))
  {
    hide Relabelled, SnapshotAccepted, ReplaceSnapshot, Configured, Publication;
  }

  lemma SnapshotKeepsProgress(t: Tables, repository: string, published: map<Number, Cached>, refresh: Refresh)
    ensures var u := ReplaceSnapshot(t, repository, published, refresh);
            u.links == t.links && u.progress == t.progress && repository in u.refreshes
  {
  }

  lemma PublicationServed(p: Point, github: Answers, now: int)
    requires p.slot.worker.Some? && p.slot.worker.value.stage.Ready?
    requires Payloads(p.slot.worker.value.stage.staged) && p.slot.worker.value.stage.generation.progress.Some?
    ensures var entry, worker := p.slot.entry, p.slot.worker.value;
            var (t, ok) := PublishedAndRecorded(p.tables, entry.job.repository, Relabelled(worker.stage.staged),
                                                Publication(entry, worker),
                                                worker.stage.generation.progress.value);
            Serve(p, github, now) == Point(if ok then Ended(entry) else Slot(entry, None), t)
  {
    hide Serve, EnabledIn, Moved, Affected, Step, Relabelled, SnapshotAccepted, ReplaceSnapshot, Configured,
      Publication, Progress.Accepted, Progress.Apply, Progress.LinkedTo;
    var entry, worker, repository := p.slot.entry, p.slot.worker.value, p.slot.entry.job.repository;
    PublishStep(p, now);
    if !EnabledIn(entry, worker, Publish, p.tables, now) {
      GivesUp(p, github, now);
    } else {
      Takes(p, github, now, Publish);
      if Configured(p.tables, repository) {
        SnapshotKeepsProgress(p.tables, repository, Relabelled(worker.stage.staged), Publication(entry, worker));
        RecordServed(Step(p, Publish, now), github, now);
      } else {
        Ends(Step(p, Publish, now), github, now);
      }
    }
  }

  lemma RecordServed(p: Point, github: Answers, now: int)
    requires p.slot.worker.Some? && p.slot.worker.value.stage.Recording?
    ensures var t, repository, s := p.tables, p.slot.entry.job.repository, p.slot.worker.value.stage.snapshot;
            Serve(p, github, now)
            == if Progress.LinkedTo(t.links, repository) == {} then Point(Ended(p.slot.entry), t)
               else if repository in t.refreshes && Progress.Accepted(t.progress, t.links, repository, s) then
                 Point(Ended(p.slot.entry), t.(progress := Progress.Apply(t.progress, t.links, repository, s)))
               else p.(slot := p.slot.(worker := None))
  {
    hide Serve, Progress.Apply, Progress.Accepted, Progress.LinkedTo;
    if EnabledIn(p.slot.entry, p.slot.worker.value, Record, p.tables, now) {
      Takes(p, github, now, Record);
      Ends(Step(p, Record, now), github, now);
    } else {
      GivesUp(p, github, now);
    }
  }

  lemma StagedServed(p: Point, github: Answers, now: int)
    requires p.slot.worker.Some? && p.slot.worker.value.stage.Loaded?
    requires !p.slot.worker.value.stage.generation.rediscovery
             && p.slot.worker.value.stage.generation.phase == Publishing
    ensures var entry, worker, g := p.slot.entry, p.slot.worker.value, p.slot.worker.value.stage.generation;
            var staged := StagedItems(entry.generation);
            Serve(p, github, now)
            == if Complete(g, staged) then Serve(Point(Goes(entry, worker, Ready(g, staged)), p.tables), github, now)
               else p.(slot := p.slot.(worker := None))
  {
    hide Serve, StagedItems, Complete;
    if Complete(p.slot.worker.value.stage.generation, StagedItems(p.slot.entry.generation)) {
      Takes(p, github, now, LoadStaged);
    } else {
      GivesUp(p, github, now);
    }
  }

  lemma LoadServed(p: Point, github: Answers, now: int)
    requires p.slot.worker.Some? && p.slot.worker.value.stage.Claimed?
    ensures var entry, worker := p.slot.entry, p.slot.worker.value;
            Serve(p, github, now)
            == Serve(Point(if entry.generation.Some? && entry.generation.value.forced == worker.forced then
                             Goes(entry, worker, Loaded(entry.generation.value))
                           else Goes(entry.(generation := None), worker, Discovering),
                           p.tables), github, now)
  {
    hide Serve;
    var entry, worker := p.slot.entry, p.slot.worker.value;
    Takes(p, github, now, Load);
    if entry.generation.Some? && entry.generation.value.forced != worker.forced {
      Takes(Point(Goes(entry, worker, Stale), p.tables), github, now, DropStale);
    }
  }
}
