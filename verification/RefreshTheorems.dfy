/** The promises of the refresh protocol, over every run. */
module RefreshTheorems {
  import opened Wrappers
  import opened HydrationCache
  import opened RefreshTables
  import opened RefreshRuns
  import opened RefreshSafety
  import opened RefreshHistory
  import opened RefreshPolicy
  import Progress

  /** A job that discovers `n` pull requests and is not disturbed completes in
      exactly ceil(n/20) + 4 claims, plus at most one for each crash or loss. */
  lemma {:induction false} CompletedJobClaims(ws: seq<World>, es: seq<Event>, n: nat, j: nat)
    requires IsRun(ws, es) && n <= |es| && j < |ws[n].slots|
    requires ws[n].slots[j].entry.job.status == Completed && !Past(ws, es, n, j, 0).disturbed
    ensures var h := Past(ws, es, n, j, 0);
            && h.discovery.Some?
            && Batches(|h.discovery.value.members|) + 4 <= h.claims <= Batches(|h.discovery.value.members|) + 4
                + h.losses
            && (h.losses == 0 ==> h.claims == Batches(|h.discovery.value.members|) + 4)
  {
    RunsRemember(ws, es, n, j, 0);
  }

  /** An undisturbed job never takes more, whether or not it has completed. */
  lemma {:induction false} ClaimsNeverExceed(ws: seq<World>, es: seq<Event>, n: nat, j: nat)
    requires IsRun(ws, es) && n <= |es| && j < |ws[n].slots| && !Past(ws, es, n, j, 0).disturbed
    ensures var h := Past(ws, es, n, j, 0);
            h.claims <= (if h.discovery.Some? then Batches(|h.discovery.value.members|) + 4 else 1) + h.losses
  {
    RunsRemember(ws, es, n, j, 0);
    var s, h := ws[n].slots[j], Past(ws, es, n, j, 0);
    if s.entry.generation.Some? {
      ShownSize(s.entry.generation.value, h.discovery);
      UnitsAreBounded(s.entry.generation.value);
    }
  }

  lemma UnitsAreBounded(g: Generation)
    ensures Units(Some(g)) <= 3 + Batches(|g.items|)
  {
  }

  lemma BatchesIsCeiling(n: nat)
    ensures 20 * (Batches(n) - 1) < n <= 20 * Batches(n) || n == Batches(n) == 0
  {
  }

  /** No generation records more than ninety-four consecutive retries, plus one
      for each crash or loss that cut a delay short. */
  lemma {:induction false} RetriesAreBounded(ws: seq<World>, es: seq<Event>, n: nat, j: nat)
    requires IsRun(ws, es) && n <= |es| && j < |ws[n].slots| && ws[n].slots[j].entry.generation.Some?
    ensures ws[n].slots[j].entry.generation.value.retries <= 94 + Past(ws, es, n, j, 0).losses
  {
    RunsRemember(ws, es, n, j, 0);
  }

  /** Within one generation, a pull request that every rediscovery contains is
      hydrated at most once. */
  lemma {:induction false} HydratedAtMostOnce(ws: seq<World>, es: seq<Event>, n: nat, j: nat, number: Number)
    requires IsRun(ws, es) && n <= |es| && j < |ws[n].slots|
    ensures Past(ws, es, n, j, number).hydrations <= 1
    ensures ws[n].slots[j].entry.generation.Some? ==>
              (number in Done(ws[n].slots[j].entry.generation.value) <==> Past(ws, es, n, j, number).hydrations == 1)
  {
    RunsRemember(ws, es, n, j, number);
  }

  /** The publishing step reports an incomplete generation exactly when a reload
      deleted that generation, and it was not empty. Without a reload that
      drops the repository the report is unreachable. */
  lemma {:induction false} IncompleteOnlyAfterReload(ws: seq<World>, es: seq<Event>, n: nat, j: nat, worker: Worker,
                                                     g: Generation)
    requires IsRun(ws, es) && n <= |es| && j < |ws[n].slots|
    requires ws[n].slots[j].worker == Some(worker) && worker.stage == Loaded(g) && g.phase == Publishing
    ensures Complete(g, StagedItems(ws[n].slots[j].entry.generation)) <==>
              ws[n].slots[j].entry.generation.Some? || g.items == map[]
    ensures !Past(ws, es, n, j, 0).dropped ==> Complete(g, StagedItems(ws[n].slots[j].entry.generation))
  {
    RunsRemember(ws, es, n, j, 0);
    StagedUnlessGone(ws[n].slots[j].entry, worker);
  }

  /** What a repository shows once its last discovery is published with the
      staged items. */
  ghost predicate ShowsExactly(t: Tables, before: Tables, repository: string, d: Discovery, staged: map<Number, Item>) {
    && (forall m :: m in t.members && m.link.repository == repository <==>
          && m.link.repository == repository && m.number in d.members
          && if d.members[m.number] == {} then Configures(before, m.link.collection, repository)
             else m.link.collection in d.members[m.number])
    && (forall k :: k in t.rows && k.repository == repository <==> k.repository == repository && k.number in d.members)
    && (forall k :: k in t.rows && k.repository == repository ==>
          && k.number in d.members && k.number in staged && staged[k.number].staged.Some?
          && var h := staged[k.number].staged.value;
             t.rows[k] == Cached(h.pr.(collections := d.members[k.number]), h.fingerprint))
    && (forall m: Membership :: m.link.repository != repository ==> (m in t.members <==> m in before.members))
    && (forall k: PullRequestKey :: k.repository != repository ==>
          (k in t.rows <==> k in before.rows) && (k in t.rows ==> t.rows[k] == before.rows[k]))
  }

  /** Whatever batches, retries, rediscoveries and crashes came before, a
      publication shows exactly the last discovered set. */
  lemma {:induction false} PublicationShowsLastDiscovery(ws: seq<World>, es: seq<Event>, n: nat, j: nat)
    requires IsRun(ws, es) && n < |es| && es[n] == Act(j, Publish) && j < |ws[n].slots|
    requires Configured(ws[n].tables, ws[n].slots[j].entry.job.repository)
    ensures var h := Past(ws, es, n, j, 0);
            && h.discovery.Some? && ws[n].slots[j].worker.Some? && ws[n].slots[j].worker.value.stage.Ready?
            && ShowsExactly(ws[n + 1].tables, ws[n].tables, ws[n].slots[j].entry.job.repository, h.discovery.value,
                            ws[n].slots[j].worker.value.stage.staged)
  {
    hide SnapshotAccepted, ReplaceSnapshot, Relabelled, ShowsExactly;
    assert Next(ws[n], es[n]) == Some(ws[n + 1]);
    RunsRemember(ws, es, n, j, 0);
    PublishedExactly(ws[n].slots[j], ws[n].tables, Past(ws, es, n, j, 0));
  }

  lemma PublishedExactly(s: Slot, t: Tables, h: History)
    requires SlotOk(s) && ShowsDiscovery(s, h) && s.worker.Some? && s.worker.value.stage.Ready?
             && Payloads(s.worker.value.stage.staged)
    requires SnapshotAccepted(t, s.entry.job.repository, Relabelled(s.worker.value.stage.staged))
    ensures h.discovery.Some?
    ensures var published := ReplaceSnapshot(t, s.entry.job.repository, Relabelled(s.worker.value.stage.staged),
                                             Publication(s.entry, s.worker.value));
            ShowsExactly(published, t, s.entry.job.repository, h.discovery.value, s.worker.value.stage.staged)
  {
    hide ReplaceSnapshot, SnapshotAccepted, Relabelled, SlotOk, ShowsDiscovery;
    StagedShowsDiscovery(s, h);
    SnapshotIsExact(t, s.entry.job.repository, Relabelled(s.worker.value.stage.staged),
                    Publication(s.entry, s.worker.value));
  }

  /** What is published are the staged payloads of the last discovered numbers. */
  lemma StagedShowsDiscovery(s: Slot, h: History)
    requires SlotOk(s) && ShowsDiscovery(s, h) && s.worker.Some? && s.worker.value.stage.Ready?
             && Payloads(s.worker.value.stage.staged)
    ensures h.discovery.Some?
    ensures var staged, members := s.worker.value.stage.staged, h.discovery.value.members;
            && staged.Keys == members.Keys == Relabelled(staged).Keys
            && forall n :: n in members ==>
                 && staged[n].staged.Some?
                 && Relabelled(staged)[n] == Cached(staged[n].staged.value.pr.(collections := members[n]),
                                                    staged[n].staged.value.fingerprint)
  {
  }

  /** What a committed batch leaves: its payloads, and the earlier memberships with
      those its numbers were discovered in. */
  ghost predicate ShowsBatch(t: Tables, u: Tables, g: Generation, batch: map<Number, Discovered>,
                             staged: map<Number, Hydrated>)
  {
    && (forall m: Membership :: m in u.members <==>
          || m in t.members
          || (m.number in batch && m.number in g.items && m.link.repository == g.repository && m.link in t.links
              && m.link.collection in t.active && m.link.collection in g.items[m.number].collections))
    && (forall n :: n in batch ==>
          && n in staged && PullRequestKey(g.repository, n) in u.rows
          && u.rows[PullRequestKey(g.repository, n)] == Cached(staged[n].pr, staged[n].fingerprint))
    && (forall k: PullRequestKey :: k.repository != g.repository || k.number !in batch ==>
          (k in u.rows <==> k in t.rows) && (k in t.rows ==> u.rows[k] == t.rows[k]))
    && u == t.(rows := u.rows, members := u.members)
  }

  lemma HydratedCollections(observation: Observation, item: Discovered, cached: Option<Cached>, forced: bool)
    ensures HydrateOne(observation, item, cached, forced).pr.collections == item.collections
  {
  }

  lemma BatchShownOnce(t: Tables, g: Generation, batch: map<Number, Discovered>, observe: map<Number, Observation>,
                       cached: map<Number, Cached>, forced: bool)
    requires Answered(batch, observe)
    requires forall n :: n in batch ==> n in g.items && batch[n].collections == g.items[n].collections
    ensures var staged := HydratedBatch(batch, observe, cached, forced);
            ShowsBatch(t, PublishBatch(t, g.repository, staged), g, batch, staged)
  {
    hide HydrateOne, PublishBatch;
    var staged := HydratedBatch(batch, observe, cached, forced);
    BatchIsExact(t, g.repository, staged);
    forall n | n in batch
      ensures staged[n].pr.collections == g.items[n].collections
    {
      HydratedCollections(observe[n], batch[n], CacheEntry(cached, n), forced);
    }
  }

  /** A worker's batch lists each number with the collections it was discovered
      in. */
  lemma BatchListsItems(s: Slot)
    requires SlotOk(s) && s.worker.Some? && s.worker.value.stage.Batched? && s.entry.generation.Some?
    ensures s.entry.generation.value.repository == s.entry.job.repository
    ensures var g, batch := s.entry.generation.value, s.worker.value.stage.batch;
            forall n :: n in batch ==> n in g.items && batch[n].collections == g.items[n].collections
  {
    hide WellFormed;
  }

  /** In any run, a committed batch shows its pull requests at once, in exactly
      the collections they were discovered in and that still hold them. */
  lemma {:induction false} CommittedBatchIsShown(ws: seq<World>, es: seq<Event>, n: nat, j: nat,
                                                 observe: map<Number, Observation>)
    requires IsRun(ws, es) && n < |es| && es[n] == Act(j, Hydrate(observe)) && j < |ws[n].slots|
    ensures var s := ws[n].slots[j];
            && s.worker.Some? && s.worker.value.stage.Batched? && s.entry.generation.Some?
            && s.entry.generation.value.repository == s.entry.job.repository
            && Answered(s.worker.value.stage.batch, observe)
            && var stage := s.worker.value.stage;
               ShowsBatch(ws[n].tables, ws[n + 1].tables, s.entry.generation.value, stage.batch,
                          HydratedBatch(stage.batch, observe, stage.cached, s.worker.value.forced))
  {
    hide Inv, ShowsBatch, BatchAccepted, Moved, HydratedBatch, PublishBatch, SlotOk;
    assert Next(ws[n], es[n]) == Some(ws[n + 1]);
    RunsAreSafe(ws, es, n);
    SafeSlot(ws[n], j);
    var s := ws[n].slots[j];
    AcceptedHasGeneration(s.entry.generation, HydratedBatch(s.worker.value.stage.batch, observe,
                                                            s.worker.value.stage.cached, s.worker.value.forced));
    BatchListsItems(s);
    BatchShownOnce(ws[n].tables, s.entry.generation.value, s.worker.value.stage.batch, observe,
                   s.worker.value.stage.cached, s.worker.value.forced);
  }

  /** A staged generation can be published exactly when its repository is no
      longer configured, or every collection it names still is. */
  lemma {:induction false} PublishableIff(ws: seq<World>, es: seq<Event>, n: nat, j: nat)
    requires IsRun(ws, es) && n <= |es| && j < |ws[n].slots| && ws[n].slots[j].worker.Some?
             && ws[n].slots[j].worker.value.stage.Ready?
    ensures var t, repository, d := ws[n].tables, ws[n].slots[j].entry.job.repository, Past(ws, es, n, j, 0).discovery;
            && d.Some?
            && (Enabled(ws[n], j, Publish) <==>
                  (Configured(t, repository) ==>
                   forall number, c :: number in d.value.members && c in d.value.members[number] ==>
                       Configures(t, c, repository)))
  {
    RunsRemember(ws, es, n, j, 0);
    var s := ws[n].slots[j];
    ReadyIsPublishable(s, Past(ws, es, n, j, 0), ws[n].tables, ws[n].now);
  }

  lemma ReadyIsPublishable(s: Slot, h: History, t: Tables, now: int)
    requires SlotOk(s) && ShowsDiscovery(s, h) && s.worker.Some? && s.worker.value.stage.Ready?
    ensures h.discovery.Some?
    ensures EnabledIn(s.entry, s.worker.value, Publish, t, now) <==>
              (Configured(t, s.entry.job.repository) ==>
                 forall number, c :: number in h.discovery.value.members && c in h.discovery.value.members[number]
                   ==> Configures(t, c, s.entry.job.repository))
  {
    var g := s.worker.value.stage.generation;
    assert forall n :: n in g.items ==> n in Done(g);
    assert Payloads(g.items);
    assert forall n :: n in g.items ==> Relabelled(g.items)[n].pr.collections == h.discovery.value.members[n];
  }

  /** The publication is recorded as forced exactly when its job was when it was
      last claimed, and its counters read back as they were staged and add up
      to the published pull requests. */
  lemma {:induction false} PublicationCounts(ws: seq<World>, es: seq<Event>, n: nat, j: nat)
    requires IsRun(ws, es) && n < |es| && es[n] == Act(j, Publish) && j < |ws[n].slots|
    requires Configured(ws[n].tables, ws[n].slots[j].entry.job.repository)
    ensures ws[n].slots[j].worker.Some? && ws[n].slots[j].worker.value.stage.Ready?
    ensures var h, repository, g := Past(ws, es, n, j, 0), ws[n].slots[j].entry.job.repository,
              ws[n].slots[j].worker.value.stage.generation;
            && repository in ws[n + 1].tables.refreshes
            && var refresh := ws[n + 1].tables.refreshes[repository];
               && refresh.forced == h.requests.claimedForced
               && refresh.reused == |set k | k in g.items && g.items[k].staged.Some?
                                             && g.items[k].staged.value.outcome == Hit|
               && refresh.hydrated == |set k | k in g.items && g.items[k].staged.Some?
                                               && g.items[k].staged.value.outcome != Hit|
               && Decode(refresh) == CountsOf(g)
               && h.discovery.Some? && refresh.reused + refresh.hydrated == |h.discovery.value.members|
  {
    hide SnapshotAccepted, Relabelled, ReplaceMembers, ReplaceRows;
    assert Next(ws[n], es[n]) == Some(ws[n + 1]);
    RunsRemember(ws, es, n, j, 0);
    var s, h := ws[n].slots[j], Past(ws, es, n, j, 0);
    var g := s.worker.value.stage.generation;
    StagedCounts(g, h);
    CountsRoundTrip(CountsOf(g), g.forced);
    ReusedAndHydrated(g);
  }

  lemma ReusedAndHydrated(g: Generation)
    ensures CountsOf(g).hits == |set k | k in g.items && g.items[k].staged.Some?
                                         && g.items[k].staged.value.outcome == Hit|
    ensures CountsOf(g).misses + CountsOf(g).bypasses
              == |set k | k in g.items && g.items[k].staged.Some? && g.items[k].staged.value.outcome != Hit|
  {
    var collected := set k | k in g.items && g.items[k].staged.Some? && g.items[k].staged.value.outcome != Hit;
    assert collected == WithOutcome(g, Miss) + WithOutcome(g, Bypass);
    assert WithOutcome(g, Miss) * WithOutcome(g, Bypass) == {};
    assert (set k | k in g.items && g.items[k].staged.Some? && g.items[k].staged.value.outcome == Hit)
        == WithOutcome(g, Hit);
  }

  lemma StagedCounts(g: Generation, h: History)
    requires WellFormed(g) && Shows(g, h.discovery) && Pending(g) == {}
    ensures CountsOf(g).hits + CountsOf(g).misses + CountsOf(g).bypasses == |h.discovery.value.members|
    ensures if g.forced then CountsOf(g).misses == 0 else CountsOf(g).bypasses == 0
    ensures g.forced ==> CountsOf(g).hits == 0
  {
    ItemsArePartitioned(g);
    ShownSize(g, h.discovery);
    if g.forced {
      assert WithOutcome(g, Miss) == {} && WithOutcome(g, Hit) == {};
    } else {
      assert WithOutcome(g, Bypass) == {};
    }
  }

  // ----- The shared tables -----

  /** Every membership refers to a linked repository and to a stored row, and
      refresh state exists for the configured repositories only, and for all. */
  ghost predicate Referential(t: Tables) {
    && (forall m :: m in t.members ==> m.link in t.links && PullRequestKey(m.link.repository, m.number) in t.rows)
    && (forall r :: r in t.refreshes <==> Configured(t, r))
  }

  lemma BatchIsReferential(t: Tables, repository: string, staged: map<Number, Hydrated>)
    requires Referential(t)
    ensures Referential(PublishBatch(t, repository, staged))
  {
    var u := PublishBatch(t, repository, staged);
    forall r ensures Configured(u, r) == Configured(t, r) {
      assert ConfiguredCollections(u, r) == ConfiguredCollections(t, r);
    }
  }

  lemma SnapshotIsReferential(t: Tables, repository: string, published: map<Number, Cached>, refresh: Refresh)
    requires Referential(t) && Configured(t, repository)
    ensures Referential(ReplaceSnapshot(t, repository, published, refresh))
  {
    var u := ReplaceSnapshot(t, repository, published, refresh);
    forall r ensures Configured(u, r) == Configured(t, r) {
      assert ConfiguredCollections(u, r) == ConfiguredCollections(t, r);
    }
  }

  lemma SyncIsReferential(t: Tables, collections: map<string, set<string>>)
    requires Referential(t)
    ensures Referential(Synced(t, collections))
  {
    var u := Synced(t, collections);
    forall r ensures Configured(u, r) <==> r in AllRepositories(collections) {
      if Configured(u, r) {
        var c :| c in ConfiguredCollections(u, r);
        assert Configures(u, c, r);
      }
      if r in AllRepositories(collections) {
        var c :| c in collections && r in collections[c];
        assert Configures(u, c, r);
      }
    }
  }

  predicate Lists(collections: map<string, set<string>>, repository: string) {
    exists c :: c in collections && repository in collections[c]
  }

  /** A reload makes the configured links exactly the listed ones, beside those
      of collections that are no longer active, and takes with a dropped link
      its memberships. */
  lemma ReloadedTables(w: World, collections: map<string, set<string>>, v: World)
    requires Next(w, Reconfigure(collections)) == Some(v)
    ensures forall l: Progress.Link :: l in v.tables.links <==>
              if l.collection in collections then l.repository in collections[l.collection] else l in w.tables.links
    ensures v.tables.active == collections.Keys
    ensures forall r :: r in v.tables.refreshes <==> Lists(collections, r)
    ensures forall r :: r in v.tables.refreshes && r in w.tables.refreshes ==>
              v.tables.refreshes[r] == w.tables.refreshes[r]
    ensures forall m :: m in v.tables.members <==> m in w.tables.members && m.link in v.tables.links
    ensures v.tables.rows == w.tables.rows && v.tables.progress == w.tables.progress
  {
  }

  /** It takes the generation from the jobs of a repository that is not listed,
      and completes those that are queued; a running one stays. */
  lemma ReloadedJobs(w: World, collections: map<string, set<string>>, v: World)
    requires Next(w, Reconfigure(collections)) == Some(v)
    ensures |v.slots| == |w.slots|
    ensures forall j :: 0 <= j < |w.slots| ==>
              var s, u := w.slots[j], v.slots[j];
              && u.worker == s.worker
              && if Lists(collections, s.entry.job.repository) then u.entry == s.entry
                 else
                   && u.entry.generation.None?
                   && u.entry.job == if s.entry.job.status == Running then s.entry.job
                                     else s.entry.job.(status := Completed)
  {
    forall j | 0 <= j < |w.slots|
      ensures v.slots[j] == Shaken(w.slots[j], Reconfigure(collections))
    {
    }
  }

  /** A job that has not completed does so exactly when its worker finishes it, or
      when a reload finds it queued for a repository that is not listed: neither
      a crash, a recovery nor a failed step ever drops it. */
  lemma JobEndsIff(w: World, e: Event, v: World, j: nat)
    requires Next(w, e) == Some(v) && j < |w.slots| && w.slots[j].entry.job.status in {Queued, Running}
    ensures j < |v.slots|
    ensures var job := w.slots[j].entry.job;
            v.slots[j].entry.job.status == Completed <==>
              || e == Act(j, Finish)
              || (e.Reconfigure? && !Lists(e.collections, job.repository) && job.status == Queued)
    ensures v.slots[j].entry.job.repository == w.slots[j].entry.job.repository
    ensures e.Recover? || (e.Act? && e.job == j && e.action.Release?) ==>
              v.slots[j].entry.job.status == Queued
  {
    hide Next, EnabledIn, Moved;
    EventMovesSlots(w, e, v, j);
    var s := w.slots[j];
    if Mine(e, j) && !e.action.Claim? {
      WorkerMoves(s.entry, s.worker.value, e.action, w.tables, w.now);
    }
  }

  /** A request queues a job exactly if all earlier jobs of the repository have
      completed, and moves no other job. */
  lemma EnqueueQueuesIff(w: World, repository: string, at: int, forced: bool, v: World)
    requires Next(w, Enqueue(repository, at, forced)) == Some(v)
    ensures |v.slots| == |w.slots| + 1 <==>
              forall j :: 0 <= j < |w.slots| && w.slots[j].entry.job.repository == repository ==>
                w.slots[j].entry.job.status == Completed
    ensures |v.slots| == |w.slots| || |v.slots| == |w.slots| + 1
    ensures forall j :: 0 <= j < |w.slots| ==> v.slots[j] == w.slots[j]
    ensures |v.slots| == |w.slots| + 1 ==>
              v.slots[|w.slots|] == Slot(Entry(Job(repository, Queued, at, forced), None), None)
  {
    assert ShakenSlots(w.slots, Enqueue(repository, at, forced)) == w.slots;
  }

  lemma ProgressIsReferential(t: Tables, progress: Progress.Tables)
    requires Referential(t)
    ensures Referential(t.(progress := progress))
  {
    forall r ensures Configured(t.(progress := progress), r) == Configured(t, r) {
      assert ConfiguredCollections(t.(progress := progress), r) == ConfiguredCollections(t, r);
    }
  }

  lemma StepIsReferential(entry: Entry, worker: Worker, a: Action, t: Tables, now: int)
    requires EnabledIn(entry, worker, a, t, now) && Referential(t)
    ensures Referential(Affected(entry, worker, a, t, now))
  {
    hide Referential, HydratedBatch, PublishBatch, ReplaceSnapshot, Relabelled, SnapshotAccepted, BatchAccepted,
      IsNextBatch, Complete, Configured;
    var u := Affected(entry, worker, a, t, now);
    match a {
      case Hydrate(observe) =>
        AcceptedHasGeneration(entry.generation,
                              HydratedBatch(worker.stage.batch, observe, worker.stage.cached, worker.forced));
        BatchIsReferential(t, entry.generation.value.repository,
                           HydratedBatch(worker.stage.batch, observe, worker.stage.cached, worker.forced));
      case Publish =>
        if Configured(t, entry.job.repository) {
          SnapshotIsReferential(t, entry.job.repository, Relabelled(worker.stage.staged), Publication(entry, worker));
        }
      case Record => ProgressIsReferential(t, u.progress);
      case _ =>
    }
  }

  lemma NothingRefers()
    ensures Referential(Initially().tables)
  {
  }

  /** The statements of every transaction keep the references between the tables. */
  lemma {:induction false} TablesStayReferential(ws: seq<World>, es: seq<Event>, n: nat)
    requires IsRun(ws, es) && n <= |es|
    ensures Referential(ws[n].tables)
  {
    hide Referential, EnabledIn, Moved, Affected, Synced;
    if n == 0 {
      NothingRefers();
    } else {
      TablesStayReferential(ws, es, n - 1);
      assert Next(ws[n - 1], es[n - 1]) == Some(ws[n]);
      match es[n - 1] {
        case Act(j, a) =>
          if !a.Claim? {
            var s := ws[n - 1].slots[j];
            StepIsReferential(s.entry, s.worker.value, a, ws[n - 1].tables, ws[n - 1].now);
          }
        case Reconfigure(collections) => SyncIsReferential(ws[n - 1].tables, collections);
        case _ =>
      }
    }
  }
}
