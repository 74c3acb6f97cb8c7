/** Over any run, reusing a stored payload yields what full collection would
    have yielded, except the times at which facts were observed. */
module RefreshCache {
  import opened Wrappers
  import opened HydrationCache
  import opened RefreshTables
  import opened RefreshRuns
  import opened RefreshSafety
  import opened RefreshHistory

  ghost predicate AllFaithful<K>(filesOf: Digest -> seq<File>, payloads: map<K, Cached>) {
    forall k :: k in payloads ==> Faithful(filesOf, payloads[k])
  }

  ghost predicate StagedFaithful(filesOf: Digest -> seq<File>, items: map<Number, Item>) {
    forall n :: n in items && items[n].staged.Some? ==>
      Faithful(filesOf, Cached(items[n].staged.value.pr, items[n].staged.value.fingerprint))
  }

  ghost predicate FaithfulSlot(filesOf: Digest -> seq<File>, s: Slot) {
    && (s.entry.generation.Some? ==> StagedFaithful(filesOf, s.entry.generation.value.items))
    && (s.worker.Some? ==>
          match s.worker.value.stage
          case Batched(_, _, cached) => AllFaithful(filesOf, cached)
          case Ready(_, staged) => StagedFaithful(filesOf, staged)
          case _ => true)
  }

  /** GitHub's file lists are a function of the fingerprinted input. */
  ghost predicate TruthfulBatch(filesOf: Digest -> seq<File>, batch: map<Number, Discovered>,
                                observe: map<Number, Observation>) {
    forall n :: n in batch && n in observe ==> Truthful(filesOf, observe[n], batch[n])
  }

  ghost predicate TruthfulEvent(filesOf: Digest -> seq<File>, s: Slot, a: Action) {
    a.Hydrate? && s.worker.Some? && s.worker.value.stage.Batched? ==>
      TruthfulBatch(filesOf, s.worker.value.stage.batch, a.observe)
  }

  ghost predicate TruthfulRun(filesOf: Digest -> seq<File>, ws: seq<World>, es: seq<Event>)
    requires |ws| == |es| + 1
  {
    forall i :: 0 <= i < |es| && es[i].Act? && es[i].job < |ws[i].slots| ==>
      TruthfulEvent(filesOf, ws[i].slots[es[i].job], es[i].action)
  }

  lemma HydratedBatchIsFaithful(filesOf: Digest -> seq<File>, batch: map<Number, Discovered>,
                                observe: map<Number, Observation>,
                                cached: map<Number, Cached>, forced: bool)
    requires Answered(batch, observe) && TruthfulBatch(filesOf, batch, observe) && AllFaithful(filesOf, cached)
    ensures AllFaithful(filesOf, AsRows(HydratedBatch(batch, observe, cached, forced)))
  {
    hide HydrateOne, Faithful, Truthful;
    forall n | n in batch
      ensures var h := HydrateOne(observe[n], batch[n], CacheEntry(cached, n), forced);
              Faithful(filesOf, Cached(h.pr, h.fingerprint))
    {
      HydrationIsFaithful(filesOf, observe[n], batch[n], CacheEntry(cached, n), forced);
    }
  }

  lemma BatchKeepsFaith(filesOf: Digest -> seq<File>, g: Generation, staged: map<Number, Hydrated>)
    requires StagedFaithful(filesOf, g.items) && AllFaithful(filesOf, AsRows(staged))
    ensures StagedFaithful(filesOf, WithBatch(g, staged).items)
  {
    hide Faithful;
    forall n | n in WithBatch(g, staged).items && WithBatch(g, staged).items[n].staged.Some?
      ensures Faithful(filesOf,
                       Cached(WithBatch(g, staged).items[n].staged.value.pr,
                              WithBatch(g, staged).items[n].staged.value.fingerprint))
    {
      if n in staged {
        assert AsRows(staged)[n] == Cached(staged[n].pr, staged[n].fingerprint);
      }
    }
  }

  lemma RowsKeepFaith(filesOf: Digest -> seq<File>, rows: map<PullRequestKey, Cached>, repository: string,
                      published: map<Number, Cached>)
    requires AllFaithful(filesOf, rows) && AllFaithful(filesOf, published)
    ensures AllFaithful(filesOf, Upserted(rows, repository, published))
            && AllFaithful(filesOf, ReplaceRows(rows, repository, published))
  {
    hide Faithful;
  }

  lemma RelabelledIsFaithful(filesOf: Digest -> seq<File>, staged: map<Number, Item>)
    requires StagedFaithful(filesOf, staged) && Payloads(staged)
    ensures AllFaithful(filesOf, Relabelled(staged))
  {
    hide Faithful;
    forall n | n in staged
      ensures Faithful(filesOf, Relabelled(staged)[n])
    {
      RelabelIsFaithful(filesOf, Cached(staged[n].staged.value.pr, staged[n].staged.value.fingerprint),
                        staged[n].collections);
    }
  }

  lemma ActionKeepsFaith(filesOf: Digest -> seq<File>, s: Slot, a: Action, t: Tables, now: int)
    requires s.worker.Some? && EnabledIn(s.entry, s.worker.value, a, t, now)
    requires FaithfulSlot(filesOf, s) && AllFaithful(filesOf, t.rows) && TruthfulEvent(filesOf, s, a)
    ensures FaithfulSlot(filesOf, Moved(s.entry, s.worker.value, a, t, now))
    ensures AllFaithful(filesOf, Affected(s.entry, s.worker.value, a, t, now).rows)
  {
    hide Faithful, Truthful, HydratedBatch, WithBatch, AsRows, Upserted, ReplaceRows, ReplaceMembers, Relabelled,
      IsNextBatch, BatchOf, BatchAccepted, Complete, SnapshotAccepted, Desired;
    var worker := s.worker.value;
    match a {
      case Hydrate(observe) =>
        var batch, cached := worker.stage.batch, worker.stage.cached;
        var staged := HydratedBatch(batch, observe, cached, worker.forced);
        HydratedBatchIsFaithful(filesOf, batch, observe, cached, worker.forced);
        AcceptedHasGeneration(s.entry.generation, staged);
        BatchKeepsFaith(filesOf, s.entry.generation.value, staged);
        RowsKeepFaith(filesOf, t.rows, s.entry.generation.value.repository, AsRows(staged));
      case Publish =>
        RelabelledIsFaithful(filesOf, worker.stage.staged);
        RowsKeepFaith(filesOf, t.rows, s.entry.job.repository, Relabelled(worker.stage.staged));
      case _ =>
    }
  }

  ghost predicate FaithfulWorld(filesOf: Digest -> seq<File>, w: World) {
    AllFaithful(filesOf, w.tables.rows) && forall j :: 0 <= j < |w.slots| ==> FaithfulSlot(filesOf, w.slots[j])
  }

  lemma EventKeepsFaith(filesOf: Digest -> seq<File>, w: World, e: Event, v: World)
    requires Next(w, e) == Some(v) && FaithfulWorld(filesOf, w)
    requires e.Act? && e.job < |w.slots| ==> TruthfulEvent(filesOf, w.slots[e.job], e.action)
    ensures FaithfulWorld(filesOf, v)
  {
    hide EnabledIn, Moved, Affected, FaithfulSlot, TruthfulEvent, InsertJobs, InsertJob;
    forall j | 0 <= j < |v.slots|
      ensures FaithfulSlot(filesOf, v.slots[j])
    {
      SlotKeepsFaith(filesOf, w, e, v, j);
    }
    if e.Act? && !e.action.Claim? {
      assert FaithfulSlot(filesOf, w.slots[e.job]);
      ActionKeepsFaith(filesOf, w.slots[e.job], e.action, w.tables, w.now);
    }
  }

  lemma SlotKeepsFaith(filesOf: Digest -> seq<File>, w: World, e: Event, v: World, j: nat)
    requires Next(w, e) == Some(v) && FaithfulWorld(filesOf, w) && j < |v.slots|
    requires e.Act? && e.job < |w.slots| ==> TruthfulEvent(filesOf, w.slots[e.job], e.action)
    ensures FaithfulSlot(filesOf, v.slots[j])
  {
    hide Next, EnabledIn, Moved, TruthfulEvent, Faithful;
    EventMovesSlots(w, e, v, j);
    if j < |w.slots| {
      assert FaithfulSlot(filesOf, w.slots[j]);
      if Mine(e, j) && !e.action.Claim? {
        ActionKeepsFaith(filesOf, w.slots[j], e.action, w.tables, w.now);
      }
    }
  }

  /** Every stored payload of every reachable state is the one its fingerprint
      stands for. */
  lemma {:induction false} StoredPayloadsAreFaithful(filesOf: Digest -> seq<File>, ws: seq<World>, es: seq<Event>,
                                                     n: nat)
    requires IsRun(ws, es) && n <= |es| && TruthfulRun(filesOf, ws, es)
    ensures FaithfulWorld(filesOf, ws[n])
  {
    hide Next, TruthfulEvent, AllFaithful, FaithfulSlot;
    if n == 0 {
      NothingIsUnfaithful(filesOf);
    } else {
      StoredPayloadsAreFaithful(filesOf, ws, es, n - 1);
      EventKeepsFaith(filesOf, ws[n - 1], es[n - 1], ws[n]);
    }
  }

  lemma NothingIsUnfaithful(filesOf: Digest -> seq<File>)
    ensures FaithfulWorld(filesOf, Initially())
  {
  }

  /** In any run, each pull request of each committed batch is what hydration
      without a cache would have made of the same observation. */
  lemma {:induction false} CacheIsTransparentInRuns(filesOf: Digest -> seq<File>, ws: seq<World>, es: seq<Event>,
                                                    n: nat, j: nat,
                                 observe: map<Number, Observation>, worker: Worker, number: Number)
    requires IsRun(ws, es) && TruthfulRun(filesOf, ws, es) && n < |es| && es[n] == Act(j, Hydrate(observe))
    requires j < |ws[n].slots| && ws[n].slots[j].worker == Some(worker) && worker.stage.Batched?
             && number in worker.stage.batch
    ensures Answered(worker.stage.batch, observe)
    ensures var stored := HydratedBatch(worker.stage.batch, observe, worker.stage.cached, worker.forced)[number];
            var collected := HydrateOne(observe[number], worker.stage.batch[number], None, worker.forced);
            SameFacts(stored.pr, collected.pr) && stored.fingerprint == collected.fingerprint
  {
    hide HydrateOne, SameFacts, Faithful, Truthful, BatchAccepted;
    assert Next(ws[n], es[n]) == Some(ws[n + 1]);
    StoredPayloadsAreFaithful(filesOf, ws, es, n);
    assert FaithfulSlot(filesOf, ws[n].slots[j]);
    assert TruthfulEvent(filesOf, ws[n].slots[j], es[n].action);
    var item, cached := worker.stage.batch[number], CacheEntry(worker.stage.cached, number);
    CacheIsTransparent(filesOf, observe[number], item, cached, worker.forced);
  }
}
