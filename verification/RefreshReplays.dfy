/** Repeating the publishing unit after any crash: whatever happened in between,
    the repetition leaves what the first publication and recording left. */
module RefreshReplays {
  import opened Wrappers
  import opened HydrationCache
  import opened RefreshTables
  import opened RefreshRuns
  import opened RefreshSafety
  import opened RefreshHistory
  import opened RefreshRequests
  import Progress
  import ProgressRuns

  // ----- The generation of a publishing job -----

  /** The same generation, but for a request for rediscovery and its retries. */
  predicate SameWork(a: Generation, b: Generation) {
    a.(rediscovery := b.rediscovery, retries := b.retries) == b
  }

  /** Whatever copy of its generation the job or its worker holds is `g`. */
  predicate Carries(s: Slot, g: Generation) {
    && (s.entry.generation.Some? ==> SameWork(s.entry.generation.value, g))
    && (Held(s).Some? ==> SameWork(Held(s).value, g))
    && (s.worker.Some? && s.worker.value.stage.Recording? ==> g.progress == Some(s.worker.value.stage.snapshot))
  }

  lemma CarriesThroughAction(s: Slot, a: Action, t: Tables, now: int, g: Generation)
    requires s.worker.Some? && EnabledIn(s.entry, s.worker.value, a, t, now) && SlotOk(s) && Carries(s, g)
             && g.phase == Publishing
    requires !a.Start? && !a.Rediscover?
    ensures Carries(Moved(s.entry, s.worker.value, a, t, now), g)
  {
    hide IsNextBatch, BatchOf, HydratedBatch, CachedRows, StagedItems, Complete, Payloads, Relabelled, SnapshotAccepted,
      WellFormed, BatchOk, CopiesOwn, BatchAccepted;
  }

  lemma CarriesStays(s: Slot, e: Event, j: nat, t: Tables, now: int, g: Generation)
    requires Possible(s, e, j, t, now) && SlotOk(s) && Carries(s, g) && g.phase == Publishing && !Discovers(e, j)
    ensures Carries(SlotAfter(s, e, j, t, now), g)
  {
    hide EnabledIn, Moved, StageOk, WellFormed;
    if Mine(e, j) && !e.action.Claim? {
      CarriesThroughAction(s, e.action, t, now, g);
    }
  }

  lemma {:induction false} CarriesOn(ws: seq<World>, es: seq<Event>, n: nat, m: nat, j: nat, g: Generation)
    requires IsRun(ws, es) && n <= m <= |es| && j < |ws[n].slots| && Carries(ws[n].slots[j], g) && g.phase == Publishing
    requires forall k :: n <= k < m ==> !Discovers(es[k], j)
    ensures j < |ws[m].slots| && Carries(ws[m].slots[j], g)
    ensures ws[m].slots[j].entry.job.repository == ws[n].slots[j].entry.job.repository
  {
    hide Next, Carries, Discovers, SlotAfter, Possible;
    if n < m {
      CarriesOn(ws, es, n, m - 1, j, g);
      RunsAreSafe(ws, es, m - 1);
      SafeSlot(ws[m - 1], j);
      EventMovesSlots(ws[m - 1], es[m - 1], ws[m], j);
      CarriesStays(ws[m - 1].slots[j], es[m - 1], j, ws[m - 1].tables, ws[m - 1].now, g);
      ForcedStays(ws[m - 1].slots[j], es[m - 1], j, ws[m - 1].tables, ws[m - 1].now);
    }
  }

  // ----- Publishing again -----

  /** A repository shows the same pull requests with the same payloads to the
      same collections, under the same counters. */
  ghost predicate SamePublication(t: Tables, u: Tables, repository: string) {
    && OfRepository(t.members, repository) == OfRepository(u.members, repository)
    && (forall k: PullRequestKey :: k.repository == repository ==>
          (k in t.rows <==> k in u.rows) && (k in t.rows ==> t.rows[k] == u.rows[k]))
    && repository in t.refreshes && repository in u.refreshes && t.refreshes[repository] == u.refreshes[repository]
  }

  lemma SnapshotsAlike(t: Tables, u: Tables, repository: string, published: map<Number, Cached>, refresh: Refresh)
    requires ConfiguredCollections(t, repository) == ConfiguredCollections(u, repository)
    ensures SamePublication(ReplaceSnapshot(t, repository, published, refresh),
                            ReplaceSnapshot(u, repository, published, refresh), repository)
  {
    var desired := Desired(ConfiguredCollections(t, repository), repository, CollectionsOf(published), true);
    assert OfRepository(ReplaceMembers(t.members, repository, desired), repository) == desired;
    assert OfRepository(ReplaceMembers(u.members, repository, desired), repository) == desired;
  }

  lemma CountsReadItems(a: Generation, b: Generation)
    requires a.items == b.items
    ensures CountsOf(a) == CountsOf(b)
  {
    forall outcome
      ensures WithOutcome(a, outcome) == WithOutcome(b, outcome)
    {
    }
  }

  lemma PublishedTables(w: World, j: nat, v: World)
    requires Inv(w) && Next(w, Act(j, Publish)) == Some(v) && Configured(w.tables, w.slots[j].entry.job.repository)
    ensures w.slots[j].worker.Some? && w.slots[j].worker.value.stage.Ready? && SlotOk(w.slots[j])
    ensures var worker, g := w.slots[j].worker.value, w.slots[j].worker.value.stage.generation;
            && g.phase == Publishing && Carries(w.slots[j], g) && Payloads(g.items)
            && v.tables
                == ReplaceSnapshot(w.tables, w.slots[j].entry.job.repository, Relabelled(g.items),
                                   Encode(CountsOf(g), g.forced))
  {
    hide ReplaceSnapshot, SnapshotAccepted, Relabelled, CountsOf, RowsOwn, WellFormed;
    assert SlotOk(w.slots[j]);
  }

  lemma HeldIsSame(s: Slot, g: Generation)
    requires Carries(s, g) && s.worker.Some? && s.worker.value.stage.Ready?
    ensures var held := s.worker.value.stage.generation; held.items == g.items && held.forced == g.forced
  {
  }

  lemma PublishedAlike(w: World, v: World, later: World, last: World, j: nat)
    requires Inv(w) && Next(w, Act(j, Publish)) == Some(v) && Inv(later) && Next(later, Act(j, Publish)) == Some(last)
    requires j < |w.slots| && j < |later.slots|
    requires var repository := w.slots[j].entry.job.repository;
             && later.slots[j].entry.job.repository == repository && Configured(w.tables, repository)
             && ConfiguredCollections(later.tables, repository) == ConfiguredCollections(w.tables, repository)
    requires w.slots[j].worker.Some? && w.slots[j].worker.value.stage.Ready?
             && Carries(later.slots[j], w.slots[j].worker.value.stage.generation)
    ensures SamePublication(v.tables, last.tables, w.slots[j].entry.job.repository)
  {
    hide Next, Inv, Carries, ReplaceSnapshot, Relabelled, CountsOf, SlotOk, ConfiguredCollections, SamePublication;
    PublishedTables(w, j, v);
    PublishedTables(later, j, last);
    var g := w.slots[j].worker.value.stage.generation;
    HeldIsSame(later.slots[j], g);
    CountsReadItems(later.slots[j].worker.value.stage.generation, g);
    SnapshotsAlike(w.tables, later.tables, w.slots[j].entry.job.repository, Relabelled(g.items),
                   Encode(CountsOf(g), g.forced));
  }

  lemma RunStep(ws: seq<World>, es: seq<Event>, n: nat)
    requires IsRun(ws, es) && n < |es|
    ensures Next(ws[n], es[n]) == Some(ws[n + 1]) && Inv(ws[n])
  {
    hide Next, Inv;
    RunsAreSafe(ws, es, n);
  }

  /** If a job publishes twice without a discovery in between, both publications
      leave its repository alike, provided it is configured alike: after
      crashes, losses and restarts, and whatever other jobs, requests and
      reloads did meanwhile. */
  lemma {:induction false} PublicationReplays(ws: seq<World>, es: seq<Event>, n: nat, m: nat, j: nat)
    requires IsRun(ws, es) && n < m < |es| && es[n] == es[m] == Act(j, Publish) && j < |ws[n].slots| <= |ws[m].slots|
    requires forall k :: n < k < m ==> !Discovers(es[k], j)
    requires var repository := ws[n].slots[j].entry.job.repository;
             && Configured(ws[n].tables, repository)
             && ConfiguredCollections(ws[m].tables, repository) == ConfiguredCollections(ws[n].tables, repository)
    ensures SamePublication(ws[n + 1].tables, ws[m + 1].tables, ws[n].slots[j].entry.job.repository)
  {
    hide Next, Inv, Carries, ReplaceSnapshot, Relabelled, CountsOf, SlotOk, ConfiguredCollections, SamePublication;
    RunStep(ws, es, n);
    RunStep(ws, es, m);
    PublishedTables(ws[n], j, ws[n + 1]);
    CarriesOn(ws, es, n, m, j, ws[n].slots[j].worker.value.stage.generation);
    PublishedAlike(ws[n], ws[n + 1], ws[m], ws[m + 1], j);
  }

  // ----- Recording again -----

  lemma {:induction false} ProgressIsDated(ws: seq<World>, es: seq<Event>, n: nat)
    requires IsRun(ws, es) && n <= |es|
    ensures Progress.Dated(ws[n].tables.progress)
  {
    hide Progress.Dated, EnabledIn, Moved, Affected;
    if n == 0 {
      assert Progress.Dated(Progress.Tables(map[], map[])) by { NoEvents(); }
    } else {
      ProgressIsDated(ws, es, n - 1);
      assert Next(ws[n - 1], es[n - 1]) == Some(ws[n]);
      if es[n - 1].Act? && !es[n - 1].action.Claim? {
        var s := ws[n - 1].slots[es[n - 1].job];
        ProgressAfter(s.entry, s.worker.value, es[n - 1].action, ws[n - 1].tables, ws[n - 1].now);
        if es[n - 1].action.Record? {
          Progress.ApplyStaysDated(ws[n - 1].tables.progress, ws[n - 1].tables.links, s.entry.job.repository,
                                   s.worker.value.stage.snapshot);
        }
      }
    }
  }

  lemma NoEvents()
    ensures Progress.Dated(Progress.Tables(map[], map[]))
  {
  }

  /** Only recording changes the progress tables. */
  lemma ProgressAfter(entry: Entry, worker: Worker, a: Action, t: Tables, now: int)
    requires EnabledIn(entry, worker, a, t, now)
    ensures a.Record? ==> worker.stage.Recording?
    ensures Affected(entry, worker, a, t, now).progress ==
              if a.Record? && Progress.LinkedTo(t.links, entry.job.repository) != {} then
                Progress.Apply(t.progress, t.links, entry.job.repository, worker.stage.snapshot)
              else t.progress
  {
    hide HydratedBatch, BatchAccepted, SnapshotAccepted, Configured, IsNextBatch, Complete, Progress.Apply,
      Progress.Accepted, Relabelled, ReplaceMembers, ReplaceRows, Desired, Upserted;
  }

  /** The job whose worker records progress with this event. */
  predicate Records(e: Event) {
    e.Act? && e.action.Record?
  }

  lemma ProgressAfterEvent(w: World, e: Event, v: World)
    requires Next(w, e) == Some(v)
    ensures Records(e) ==>
              && e.job < |w.slots| && w.slots[e.job].worker.Some? && w.slots[e.job].worker.value.stage.Recording?
              && var repository, s := w.slots[e.job].entry.job.repository, w.slots[e.job].worker.value.stage.snapshot;
                 v.tables.progress == if Progress.LinkedTo(w.tables.links, repository) == {} then w.tables.progress
                                      else Progress.Apply(w.tables.progress, w.tables.links, repository, s)
    ensures !Records(e) ==> v.tables.progress == w.tables.progress
  {
    hide EnabledIn, Moved, Affected, Progress.Apply, Progress.LinkedTo;
    if e.Act? && !e.action.Claim? {
      ProgressAfter(w.slots[e.job].entry, w.slots[e.job].worker.value, e.action, w.tables, w.now);
    }
  }

  /** No row the repository has left is older than the horizon. */
  ghost predicate Outlasts(t: Progress.Tables, repository: string, horizon: int) {
    && (forall e :: e in t.events && e.link.repository == repository ==> t.events[e] >= horizon)
    && (forall k :: k in t.threads && k.link.repository == repository ==> t.threads[k].observedAt >= horizon)
  }

  lemma OtherRecordingKeepsRows(t: Progress.Tables, once: Progress.Tables, links: set<Progress.Link>,
                                repository: string, other: string,
                                s: Progress.Snapshot)
    requires other != repository && ProgressRuns.SameRows(t, once, repository) && Outlasts(once, repository, s.horizon)
    ensures ProgressRuns.SameRows(Progress.Apply(t, links, other, s), once, repository)
  {
    hide Progress.Apply;
    Progress.ApplyElsewhere(t, links, other, s);
  }

  lemma {:induction false} OwnRecordingKeepsRows(when: Progress.EventKey -> int, t: Progress.Tables, u: Progress.Tables,
                                                 links: set<Progress.Link>, others: set<Progress.Link>,
                                                     repository: string, s: Progress.Snapshot)
    requires s.horizon <= s.collectedAt && Progress.Dated(t) && Progress.Dated(u)
             && ProgressRuns.Immutable(when, t, repository, s)
    requires ProgressRuns.SameLinks(links, others, repository)
    requires var once := Progress.Apply(t, links, repository, s);
             ProgressRuns.SameRows(u, once, repository) && ProgressRuns.Replayable(once, links, repository, s)
    ensures ProgressRuns.SameRows(Progress.Apply(u, others, repository, s), Progress.Apply(t, links, repository, s),
                                  repository)
  {
    hide Progress.Apply, ProgressRuns.Immutable, ProgressRuns.Replayable, Progress.Dated, ProgressRuns.SameRows;
    ProgressRuns.OnlyOwnLinksMatter(u, links, others, repository, s);
    ProgressRuns.ReplayKeepsRowsIff(when, t, u, links, repository, s);
  }

  /** What a run between the two recordings must not do: discover anew, change
      the repository's links, or prune what the first recording left of it. */
  ghost predicate Undisturbed(ws: seq<World>, es: seq<Event>, n: nat, m: nat, j: nat, repository: string)
    requires n < m < |es| < |ws|
  {
    && (forall k :: n < k < m ==> !Discovers(es[k], j))
    && (forall k :: n < k <= m ==> ProgressRuns.SameLinks(ws[n].tables.links, ws[k].tables.links, repository))
    && (forall k :: n < k < m && Records(es[k]) && es[k].job < |ws[k].slots| ==>
          Harmless(ws[k].slots[es[k].job], es[k].job == j, ws[n + 1].tables.progress, repository))
  }

  ghost predicate Harmless(s: Slot, own: bool, once: Progress.Tables, repository: string) {
    own || (s.worker.Some? && s.worker.value.stage.Recording? ==>
            Outlasts(once, repository, s.worker.value.stage.snapshot.horizon))
  }

  lemma OthersServeOthers(w: World, i: nat, j: nat)
    requires Inv(w) && i < |w.slots| && j < |w.slots| && i != j && w.slots[i].worker.Some?
             && Active(w.slots[j].entry.job)
    ensures w.slots[i].entry.job.repository != w.slots[j].entry.job.repository
  {
    hide StageOk, WellFormed, RowsOwn;
    assert SlotOk(w.slots[i]);
  }

  lemma NotYetCompleted(ws: seq<World>, es: seq<Event>, k: nat, m: nat, j: nat)
    requires IsRun(ws, es) && k <= m < |es| && j < |ws[k].slots| && Mine(es[m], j)
    ensures Active(ws[k].slots[j].entry.job)
  {
    hide Next;
    if ws[k].slots[j].entry.job.status == Completed {
      CompletedForGood(ws, es, k, m, j);
    }
  }

  /** What is known of the run when `j` records at `n`. */
  lemma RecordingCarries(s: Slot) returns (g: Generation)
    requires SlotOk(s) && s.worker.Some? && s.worker.value.stage.Recording?
    ensures Carries(s, g) && g.phase == Publishing && g.progress == Some(s.worker.value.stage.snapshot)
  {
    if s.entry.generation.Some? {
      g := s.entry.generation.value;
    } else {
      g := Generation("", Publishing, false, 0, [], map[], Some(s.worker.value.stage.snapshot), false, 0);
    }
  }

  lemma CarriedSnapshot(s: Slot, g: Generation)
    requires Carries(s, g) && s.worker.Some? && s.worker.value.stage.Recording?
    ensures g.progress == Some(s.worker.value.stage.snapshot)
  {
  }

  /** If a job records its progress twice without a discovery in between, the
      progress rows of its repository stay as the first recording left them all
      the while, so in particular after the second: as long as the links of the
      repository stand, no later horizon reaches those rows, and no thread of
      the snapshot breaks the replay. */
  lemma {:induction false} RecordingReplays(when: Progress.EventKey -> int, ws: seq<World>, es: seq<Event>, n: nat,
                                            m: nat, k: nat, j: nat,
                                            repository: string, s: Progress.Snapshot)
    requires IsRun(ws, es) && n < m < |es| && n < k <= m + 1 && es[n] == es[m] == Act(j, Record) && j < |ws[n].slots|
    requires At(ws[n].slots[j], Recording(s)) && ws[n].slots[j].entry.job.repository == repository
    requires Undisturbed(ws, es, n, m, j, repository)
    requires var t := ws[n].tables;
             && Progress.LinkedTo(t.links, repository) != {} && s.horizon <= s.collectedAt
             && ProgressRuns.Immutable(when, t.progress, repository, s)
             && ProgressRuns.Replayable(ws[n + 1].tables.progress, t.links, repository, s)
    ensures ProgressRuns.SameRows(ws[k].tables.progress, ws[n + 1].tables.progress, repository)
  {
    hide Next, Inv, Carries, SlotOk, Discovers, Progress.Apply, Progress.LinkedTo, ProgressRuns.SameRows,
      ProgressRuns.Immutable, ProgressRuns.Replayable, ProgressRuns.SameLinks, Progress.Dated, Outlasts;
    RunStep(ws, es, n);
    ProgressAfterEvent(ws[n], es[n], ws[n + 1]);
    var once := ws[n + 1].tables.progress;
    if k == n + 1 {
      ProgressRuns.SameAsItself(once, repository);
    } else {
      RecordingReplays(when, ws, es, n, m, k - 1, j, repository, s);
      RunStep(ws, es, k - 1);
      ProgressAfterEvent(ws[k - 1], es[k - 1], ws[k]);
      if Records(es[k - 1]) {
        OneRecordingReplays(when, ws, es, n, m, k - 1, j, repository, s);
      }
    }
  }

  lemma OneRecordingReplays(when: Progress.EventKey -> int, ws: seq<World>, es: seq<Event>, n: nat, m: nat, k: nat,
                            j: nat,
                            repository: string, s: Progress.Snapshot)
    requires IsRun(ws, es) && n < k <= m < |es| && es[n] == es[m] == Act(j, Record) && j < |ws[n].slots|
             && Records(es[k])
    requires At(ws[n].slots[j], Recording(s)) && ws[n].slots[j].entry.job.repository == repository
    requires Undisturbed(ws, es, n, m, j, repository)
    requires var t := ws[n].tables;
             && Progress.LinkedTo(t.links, repository) != {} && s.horizon <= s.collectedAt
             && ProgressRuns.Immutable(when, t.progress, repository, s)
             && ProgressRuns.Replayable(ws[n + 1].tables.progress, t.links, repository, s)
    requires ProgressRuns.SameRows(ws[k].tables.progress, ws[n + 1].tables.progress, repository)
    ensures ProgressRuns.SameRows(ws[k + 1].tables.progress, ws[n + 1].tables.progress, repository)
  {
    hide Next, Inv, Carries, SlotOk, Discovers, Progress.Apply, Progress.LinkedTo, ProgressRuns.SameRows,
      ProgressRuns.Immutable, ProgressRuns.Replayable, ProgressRuns.SameLinks, Progress.Dated, Outlasts;
    RunStep(ws, es, n);
    RunStep(ws, es, k);
    ProgressAfterEvent(ws[n], es[n], ws[n + 1]);
    ProgressAfterEvent(ws[k], es[k], ws[k + 1]);
    SafeSlot(ws[n], j);
    var g := RecordingCarries(ws[n].slots[j]);
    RecordingDiscoversNothing(es[n], j);
    CarriesOn(ws, es, n, k, j, g);
    var i, t := es[k].job, ws[k].tables;
    if i == j {
      CarriedSnapshot(ws[k].slots[j], g);
      ProgressIsDated(ws, es, n);
      ProgressIsDated(ws, es, k);
      OwnRecordingKeepsRows(when, ws[n].tables.progress, t.progress, ws[n].tables.links, t.links, repository, s);
    } else {
      NotYetCompleted(ws, es, k, m, j);
      OthersServeOthers(ws[k], i, j);
      OtherRecordingKeepsRows(t.progress, ws[n + 1].tables.progress, t.links, repository,
                              ws[k].slots[i].entry.job.repository,
                              ws[k].slots[i].worker.value.stage.snapshot);
    }
  }

  lemma RecordingDiscoversNothing(e: Event, j: nat)
    requires e == Act(j, Record)
    ensures !Discovers(e, j)
  {
  }
}
