/** The scheduler's unit of work: what one claim of a job makes of the store,
    call by call. Each method has the effect that `RefreshPolicy` describes. */
module RefreshScheduler {
  import opened Wrappers
  import opened HydrationCache
  import opened RefreshTables
  import opened RefreshRuns
  import opened RefreshSafety
  import opened RefreshPolicy
  import opened RefreshStore
  import Progress

  // ----- Batches as lists and as maps -----

  lemma {:induction false} HydrateAllAt(batch: seq<Discovered>, observe: map<Number, Observation>,
                                        cached: map<Number, Cached>, forced: bool,
                                        n: nat, i: nat)
    requires i < n <= |batch| && forall k :: 0 <= k < n ==> batch[k].number in observe
    ensures HydrateAll(batch, observe, cached, forced, n)[i]
         == HydrateOne(observe[batch[i].number], batch[i], CacheEntry(cached, batch[i].number), forced)
  {
    hide HydrateOne;
    if i < n - 1 {
      HydrateAllAt(batch, observe, cached, forced, n - 1, i);
    }
  }

  predicate Numbered(observe: map<Number, Observation>) {
    forall n :: n in observe ==> observe[n].pr.number == n
  }

  lemma HydratedNumber(observation: Observation, item: Discovered, cached: Option<Cached>, forced: bool, n: Number)
    requires observation.pr.number == n && (cached.Some? ==> cached.value.pr.number == n)
    ensures HydrateOne(observation, item, cached, forced).pr.number == n
  {
  }

  lemma BatchAsMap(g: Option<Generation>, batch: seq<Discovered>)
    requires IsBatch(g, batch)
    ensures var byNumber := BatchOf(g, NumbersOf(batch));
            && (forall n :: n in byNumber <==> exists i :: 0 <= i < |batch| && batch[i].number == n)
            && (forall i :: 0 <= i < |batch| ==> byNumber[batch[i].number] == batch[i])
            && (batch == [] <==> byNumber == map[])
            && (forall i, k :: 0 <= i < k < |batch| ==> batch[i].number != batch[k].number)
  {
    var numbers := NumbersOf(batch);
    forall i | 0 <= i < |batch|
      ensures batch[i].number in numbers
    {
      assert numbers[i] == batch[i].number;
    }
    forall i, k | 0 <= i < k < |batch|
      ensures batch[i].number != batch[k].number
    {
      assert numbers[i] < numbers[k];
    }
    if batch != [] {
      assert batch[0].number in BatchOf(g, numbers);
    }
  }

  /** Place by place, the hydrated list is the hydrated batch. */
  lemma HydratedPlaces(batch: seq<Discovered>, byNumber: map<Number, Discovered>, observe: map<Number, Observation>,
                       cached: map<Number, Cached>, forced: bool)
    requires Numbered(observe) && forall n :: n in cached ==> cached[n].pr.number == n
    requires forall i :: 0 <= i < |batch| ==> batch[i].number in observe
    requires forall n :: n in byNumber ==> exists i :: 0 <= i < |batch| && batch[i].number == n
    requires forall i :: 0 <= i < |batch| ==> batch[i].number in byNumber && byNumber[batch[i].number] == batch[i]
    ensures Answered(byNumber, observe)
    ensures forall i :: 0 <= i < |batch| ==>
              && HydrateAll(batch, observe, cached, forced, |batch|)[i].pr.number == batch[i].number
              && HydrateAll(batch, observe, cached, forced, |batch|)[i]
                  == HydratedBatch(byNumber, observe, cached, forced)[batch[i].number]
  {
    hide HydrateOne, HydrateAll;
    forall i | 0 <= i < |batch|
      ensures HydrateAll(batch, observe, cached, forced, |batch|)[i].pr.number == batch[i].number
      ensures HydrateAll(batch, observe, cached, forced, |batch|)[i]
                == HydratedBatch(byNumber, observe, cached, forced)[batch[i].number]
    {
      HydrateAllAt(batch, observe, cached, forced, |batch|, i);
      HydratedNumber(observe[batch[i].number], batch[i], CacheEntry(cached, batch[i].number), forced, batch[i].number);
    }
  }

  lemma ListAsMap(staged: seq<Hydrated>, all: map<Number, Hydrated>)
    requires Spells(staged, all)
    ensures ByNumber(staged, |staged|) == all
  {
  }

  /** A list without repetition and its map are accepted alike. */
  lemma AcceptedAlike(g: Option<Generation>, staged: seq<Hydrated>, all: map<Number, Hydrated>)
    requires Spells(staged, all) && Distinct(staged) && staged != []
    ensures ListAccepted(g, staged) <==> BatchAccepted(g, all)
  {
    assert all[staged[0].pr.number] == staged[0];
    if ListAccepted(g, staged) {
      forall n | n in all
        ensures n in Pending(g.value) && n > 0 && all[n].pr.number == n && all[n].pr.repository == g.value.repository
      {
        var i :| 0 <= i < |staged| && staged[i].pr.number == n;
        assert Stageable(g.value, staged[i]);
      }
    }
  }

  lemma PlacesSpell(batch: seq<Discovered>, byNumber: map<Number, Discovered>, staged: seq<Hydrated>,
                    all: map<Number, Hydrated>)
    requires |staged| == |batch| && all.Keys == byNumber.Keys
    requires forall n :: n in byNumber ==> exists i :: 0 <= i < |batch| && batch[i].number == n
    requires forall i :: 0 <= i < |batch| ==>
               && batch[i].number in byNumber && staged[i].pr.number == batch[i].number
               && staged[i] == all[batch[i].number]
    ensures Spells(staged, all)
  {
    forall n | n in all ensures exists i :: 0 <= i < |staged| && staged[i].pr.number == n {
      var i :| 0 <= i < |batch| && batch[i].number == n;
      assert staged[i].pr.number == n;
    }
  }

  lemma HydratedAsMap(g: Option<Generation>, batch: seq<Discovered>, observe: map<Number, Observation>,
                      cached: map<Number, Cached>,
                      forced: bool, staged: seq<Hydrated>)
    requires IsBatch(g, batch) && batch != [] && Numbered(observe)
    requires forall n :: n in cached ==> cached[n].pr.number == n
    requires forall i :: 0 <= i < |batch| ==> batch[i].number in observe
    requires staged == HydrateAll(batch, observe, cached, forced, |batch|)
    ensures Answered(BatchOf(g, NumbersOf(batch)), observe)
    ensures ByNumber(staged, |staged|) == HydratedBatch(BatchOf(g, NumbersOf(batch)), observe, cached, forced)
    ensures ListAccepted(g, staged) <==>
              BatchAccepted(g, HydratedBatch(BatchOf(g, NumbersOf(batch)), observe, cached, forced))
  {
    hide HydrateOne, BatchOf, ListAccepted, BatchAccepted, ByNumber, HydrateAll, IsNextOf;
    var byNumber := BatchOf(g, NumbersOf(batch));
    BatchAsMap(g, batch);
    HydratedPlaces(batch, byNumber, observe, cached, forced);
    var all := HydratedBatch(byNumber, observe, cached, forced);
    PlacesSpell(batch, byNumber, staged, all);
    hide Spells;
    ListAsMap(staged, all);
    AcceptedAlike(g, staged, all);
  }

  class Scheduler {
    const store: Store

    constructor (s: Store)
      ensures store == s
    {
      store := s;
    }

    /** The job's slot and the shared tables, as the store holds them now. */
    ghost function Here(j: nat, worker: Option<Worker>): Point
      requires j < |store.jobs|
      reads store
    {
      Point(Slot(store.EntryOf(j), worker), store.Shared())
    }

    /** Only job `j` and its generation may have moved. */
    twostate predicate OthersKeep(j: nat)
      reads store
    {
      && |store.jobs| == |old(store.jobs)| && store.links == old(store.links) && store.active == old(store.active)
      && (forall k :: 0 <= k < |store.jobs| && k != j ==> store.jobs[k] == old(store.jobs[k]))
      && (forall k :: k != j ==> (k in store.generations <==> k in old(store.generations)))
      && (forall k :: k != j && k in store.generations ==> store.generations[k] == old(store.generations[k]))
    }

    /** A failed collection is retried after its delay. Without a retry it drops
        the generation and completes the job. */
    method HandleFailure(j: nat, generation: Option<Generation>, retryable: bool, now: int)
      requires j < |store.jobs| && store.jobs[j].status == Running
      modifies store`jobs, store`generations
      ensures OthersKeep(j) && store.Shared() == old(store.Shared())
      ensures var retried := retryable && (generation.None? || now - generation.value.discoveredAt < 86_400);
              var entry, stored := old(store.EntryOf(j)), old(store.GenerationOf(j));
              store.EntryOf(j) ==
                if !retried then Ended(entry.(generation := None)).entry
                else if generation.None? then Requeued(entry, now + 60).entry
                else if stored.None? then entry
                else
                  var r := stored.value.retries + 1;
                  Requeued(entry.(generation := Some(stored.value.(retries := r))),
                           now + 60 * (if r <= 5 then Power(r - 1) else 16)).entry
    {
      hide Delay, Power;
      if retryable && generation.None? {
        var ok := store.RequeueRefreshJob(j, now + MINUTE);
        return;
      }
      if retryable && now - generation.value.discoveredAt < RETRY_WINDOW {
        var retries := store.RecordRefreshGenerationRetry(j);
        if retries.None? {
          return;
        }
        DelayDoubles(retries.value);
        var ok := store.RequeueRefreshJob(j, now + Delay(retries.value));
        return;
      }
      store.DeleteRefreshGeneration(j);
      store.CompleteRefreshJob(j);
    }

    method Discover(j: nat, github: Answers, now: int, ghost forced: bool)
      requires j < |store.jobs| && store.jobs[j].status == Running
      requires github.discovery.Some? ==> github.discovery.value.discoveredAt <= now
      modifies store`jobs, store`generations
      ensures OthersKeep(j)
      ensures Here(j, None) == Serve(old(Here(j, Some(Worker(forced, Discovering)))), github, now)
    {
      hide Serve, NewGeneration, Power;
      ghost var p := Here(j, Some(Worker(forced, Discovering)));
      if github.discovery.None? {
        FailureServed(p, github, now);
        HandleFailure(j, None, github.retryable, now);
        return;
      }
      DiscoveryServed(p, github, now);
      var ok := store.StartRefreshGeneration(j, store.jobs[j].repository, github.discovery.value);
      if ok {
        ok := store.RequeueRefreshJob(j, now);
      }
    }

    method Rediscovers(j: nat, g: Generation, github: Answers, now: int, ghost forced: bool)
      requires j < |store.jobs| && store.jobs[j].status == Running && g.rediscovery
      requires github.discovery.Some? ==> github.discovery.value.discoveredAt <= now
      modifies store`jobs, store`generations
      ensures OthersKeep(j)
      ensures Here(j, None) == Serve(old(Here(j, Some(Worker(forced, Loaded(g))))), github, now)
    {
      hide Serve, Reconciled, Power;
      ghost var p := Here(j, Some(Worker(forced, Loaded(g))));
      if github.discovery.None? {
        FailureServed(p, github, now);
        HandleFailure(j, Some(g), github.retryable, now);
        return;
      }
      RediscoveryServed(p, github, now);
      var ok := store.ReconcileRefreshGenerationDiscovery(j, github.discovery.value);
      if ok {
        ok := store.RequeueRefreshJob(j, now);
      }
    }

    /** Nothing is pending any more. */
    method EndHydration(j: nat, g: Generation, now: int, ghost forced: bool, ghost cached: map<Number, Cached>,
                        ghost github: Answers)
      requires j < |store.jobs| && store.jobs[j].status == Running
      modifies store`jobs, store`generations
      ensures OthersKeep(j)
      ensures Here(j, None) == Serve(old(Here(j, Some(Worker(forced, Batched(g, map[], cached))))), github, now)
    {
      hide Serve;
      EndOfHydrationServed(Here(j, Some(Worker(forced, Batched(g, map[], cached)))), github, now);
      var ok := store.AdvanceRefreshGeneration(j, Hydrating, CollectingProgress, None);
      if ok {
        ok := store.RequeueRefreshJob(j, now);
      }
    }

    method CommitBatch(j: nat, staged: seq<Hydrated>, now: int)
      requires j < |store.jobs| && store.jobs[j].status == Running && staged != []
      modifies store`jobs, store`generations, store`rows, store`members
      ensures OthersKeep(j)
      ensures var entry, t := old(store.EntryOf(j)), old(store.Shared());
              if ListAccepted(entry.generation, staged) then
                var byNumber := ByNumber(staged, |staged|);
                && entry.generation.Some?
                && store.EntryOf(j)
                    == Requeued(entry.(generation := Some(WithBatch(entry.generation.value, byNumber))), now).entry
                && store.Shared() == PublishBatch(t, entry.generation.value.repository, byNumber)
              else store.EntryOf(j) == entry && store.Shared() == t
    {
      hide WithBatch, PublishBatch, ByNumber, Stageable, Distinct, BatchShown, BatchCompleted;
      var ok := store.PublishRefreshGenerationBatch(j, staged);
      if ok {
        ok := store.RequeueRefreshJob(j, now);
      }
    }

    /** Hydrates and commits the loaded batch. */
    method HydrateLoaded(j: nat, g: Generation, batch: seq<Discovered>, cached: map<Number, Cached>, forced: bool,
                         github: Answers, now: int,
                         ghost byNumber: map<Number, Discovered>)
      requires j < |store.jobs| && store.jobs[j].status == Running
      requires batch != [] && IsBatch(store.GenerationOf(j), batch)
               && byNumber == BatchOf(store.GenerationOf(j), NumbersOf(batch))
      requires Numbered(github.observe) && forall n :: n in cached ==> cached[n].pr.number == n
      modifies store`jobs, store`generations, store`rows, store`members
      ensures OthersKeep(j)
      ensures Here(j, None) == Serve(old(Here(j, Some(Worker(forced, Batched(g, byNumber, cached))))), github, now)
    {
      hide HydratedBatch, BatchOf, WithBatch, PublishBatch, ByNumber, HydrateOne, ListAccepted, BatchAccepted, IsBatch,
        IsNextBatch, CachedRows, CountOutcome, HydrateAll, Serve, Power;
      ghost var p := Here(j, Some(Worker(forced, Batched(g, byNumber, cached))));
      BatchAsMap(store.GenerationOf(j), batch);
      var result, hits, misses, bypasses := HydrateBatch(batch, github.observe, cached, forced);
      if result.Err? {
        FailureServed(p, github, now);
        HandleFailure(j, Some(g), github.retryable, now);
        return;
      }
      HydratedAsMap(store.GenerationOf(j), batch, github.observe, cached, forced, result.value);
      HydrationServed(p, github, now);
      CommitBatch(j, result.value, now);
    }

    method ProcessHydrationBatch(j: nat, g: Generation, forced: bool, github: Answers, now: int)
      requires j < |store.jobs| && store.jobs[j].status == Running
      requires !g.rediscovery && g.phase == Hydrating && Numbered(github.observe) && RowsOwn(store.rows)
      modifies store`jobs, store`generations, store`rows, store`members
      ensures OthersKeep(j)
      ensures Here(j, None) == Serve(old(Here(j, Some(Worker(forced, Loaded(g))))), github, now)
    {
      hide BatchOf, CachedRows, Serve, FirstPending, AllPending;
      ghost var p := Here(j, Some(Worker(forced, Loaded(g))));
      var loaded := store.LoadRefreshGenerationBatch(j, BATCH_SIZE);
      var batch := loaded.value;
      assert IsBatch(store.GenerationOf(j), batch);
      var cached: map<Number, Cached> := map[];
      if !forced {
        cached := store.LoadCachedPullRequests(store.jobs[j].repository);
        CachedRowsAt(store.Shared(), store.jobs[j].repository);
      }
      BatchLoadServed(p, github, now, NumbersOf(batch));
      BatchAsMap(store.GenerationOf(j), batch);
      if batch == [] {
        EndHydration(j, g, now, forced, cached, github);
      } else {
        HydrateLoaded(j, g, batch, cached, forced, github, now, BatchOf(store.GenerationOf(j), NumbersOf(batch)));
      }
    }

    method CollectProgress(j: nat, g: Generation, github: Answers, now: int, ghost forced: bool)
      requires j < |store.jobs| && store.jobs[j].status == Running
      requires !g.rediscovery && g.phase == CollectingProgress
      modifies store`jobs, store`generations
      ensures OthersKeep(j)
      ensures Here(j, None) == Serve(old(Here(j, Some(Worker(forced, Loaded(g))))), github, now)
    {
      hide Serve, Power;
      ghost var p := Here(j, Some(Worker(forced, Loaded(g))));
      if github.progress.None? {
        FailureServed(p, github, now);
        HandleFailure(j, Some(g), github.retryable, now);
        return;
      }
      CollectionServed(p, github, now);
      var ok := store.AdvanceRefreshGeneration(j, CollectingProgress, Publishing, github.progress);
      if ok {
        ok := store.RequeueRefreshJob(j, now);
      }
    }

    /** Publishes a snapshot and records its progress. */
    method PublishSnapshot(repository: string, published: map<Number, Cached>, refresh: Refresh,
                           progress: Progress.Snapshot)
      returns (ok: bool)
      modifies store`rows, store`members, store`refreshes, store`progress, store`collected
      ensures (store.Shared(), ok)
                == PublishedAndRecorded(old(store.Shared()), repository, published, refresh, progress)
    {
      hide SnapshotAccepted, ReplaceMembers, ReplaceRows, Configured, Progress.Apply, Progress.Accepted,
        Progress.LinkedTo;
      var replaced := store.ReplaceRepositorySnapshot(repository, published, refresh);
      if replaced.Err? || !replaced.value {
        return replaced.Ok?;
      }
      var recorded := store.RecordProgress(repository, progress);
      ok := recorded.Ok?;
    }

    /** Publishes a complete generation and completes the job. Any error leaves
        the job running, until the next process start. */
    method PublishGeneration(j: nat, g: Generation, forced: bool, pending: nat, completed: nat, counts: Counts,
                             now: int, ghost github: Answers)
      requires j < |store.jobs| && store.jobs[j].status == Running
      requires !g.rediscovery && g.phase == Publishing && g.progress.Some?
      requires pending == |Pending(g)| && completed == |Done(g)| && counts == CountsOf(g)
      modifies store`jobs, store`rows, store`members, store`refreshes, store`progress, store`collected
      ensures OthersKeep(j)
      ensures Here(j, None) == Serve(old(Here(j, Some(Worker(forced, Loaded(g))))), github, now)
    {
      hide Relabelled, CountsOf, StagedItems, Serve, PublishedAndRecorded;
      var staged := StagedItems(store.GenerationOf(j));
      StagedPayloads(store.GenerationOf(j));
      StagedServed(Here(j, Some(Worker(forced, Loaded(g)))), github, now);
      if |staged| != completed || pending != 0 {
        return;
      }
      PublicationServed(Here(j, Some(Worker(forced, Ready(g, staged)))), github, now);
      var ok := PublishSnapshot(store.jobs[j].repository, Relabelled(staged), Encode(counts, forced), g.progress.value);
      if ok {
        store.CompleteRefreshJob(j);
      }
    }

    /** One claimed unit of work has the effect `Serve` describes, whatever
        GitHub answers. */
    method ProcessPhased(j: nat, forced: bool, github: Answers, now: int)
      requires j < |store.jobs| && store.jobs[j].status == Running
      requires Numbered(github.observe) && RowsOwn(store.rows)
      requires github.discovery.Some? ==> github.discovery.value.discoveredAt <= now
      requires j in store.generations && store.generations[j].phase == Publishing ==>
                 store.generations[j].progress.Some?
      modifies store
      ensures OthersKeep(j)
      ensures Here(j, None) == Serve(old(Here(j, Some(Worker(forced, Claimed)))), github, now)
    {
      hide Serve;
      LoadServed(Here(j, Some(Worker(forced, Claimed))), github, now);
      var generation, pending, completed, counts := store.LoadRefreshGeneration(j);
      if generation.Some? && generation.value.forced != forced {
        store.DeleteRefreshGeneration(j);
        generation := None;
      }
      if generation.None? {
        Discover(j, github, now, forced);
      } else if generation.value.rediscovery {
        Rediscovers(j, generation.value, github, now, forced);
      } else {
        match generation.value.phase
        case Hydrating => ProcessHydrationBatch(j, generation.value, forced, github, now);
        case CollectingProgress => CollectProgress(j, generation.value, github, now, forced);
        case Publishing => PublishGeneration(j, generation.value, forced, pending, completed, counts, now, github);
      }
    }
  }
}
