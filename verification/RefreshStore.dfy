/** The store's refresh transactions, statement by statement. A transaction that
    fails changes nothing. */
module RefreshStore {
  import opened Wrappers
  import opened HydrationCache
  import opened RefreshTables
  import Progress

  predicate OneActiveJob(jobs: seq<Job>) {
    forall i, k :: 0 <= i < k < |jobs| && Active(jobs[i]) && Active(jobs[k]) ==>
        jobs[i].repository != jobs[k].repository
  }

  /** No job of the repository is queued or running. */
  predicate AllCompleted(jobs: seq<Job>, repository: string) {
    forall k :: 0 <= k < |jobs| && jobs[k].repository == repository ==> jobs[k].status == Completed
  }

  function Forced(job: Job, repository: string): Job {
    if job.repository == repository && Active(job) then job.(forced := true) else job
  }

  /** The staged pull requests by number; a number must not repeat. */
  function ByNumber(staged: seq<Hydrated>, n: nat): (byNumber: map<Number, Hydrated>)
    requires n <= |staged|
    ensures forall k :: k in byNumber ==> exists i :: 0 <= i < n && staged[i].pr.number == k && byNumber[k] == staged[i]
    ensures forall i :: 0 <= i < n ==> staged[i].pr.number in byNumber
  {
    if n == 0 then map[] else ByNumber(staged, n - 1)[staged[n - 1].pr.number := staged[n - 1]]
  }

  predicate Distinct(staged: seq<Hydrated>) {
    forall i, k :: 0 <= i < k < |staged| ==> staged[i].pr.number != staged[k].pr.number
  }

  predicate Stageable(g: Generation, h: Hydrated) {
    h.pr.number > 0 && h.pr.number in Pending(g) && h.pr.repository == g.repository
  }

  predicate ListAccepted(g: Option<Generation>, staged: seq<Hydrated>) {
    && g.Some? && g.value.phase == Hydrating && Distinct(staged)
    && forall i :: 0 <= i < |staged| ==> Stageable(g.value, staged[i])
  }

  predicate Lists(staged: seq<Hydrated>, n: Number, collection: string) {
    exists i :: 0 <= i < |staged| && staged[i].pr.number == n && collection in staged[i].pr.collections
  }

  /** The rows of the batch are its payloads, and its memberships are the earlier
      ones and those it lists for active collections that hold the repository. */
  ghost predicate BatchShown(t: Tables, u: Tables, repository: string, staged: seq<Hydrated>) {
    && (forall m: Membership :: m in u.members <==>
          || m in t.members
          || (m.link.repository == repository && m.link in t.links && m.link.collection in t.active
              && Lists(staged, m.number, m.link.collection)))
    && (forall i :: 0 <= i < |staged| ==>
          && PullRequestKey(repository, staged[i].pr.number) in u.rows
          && u.rows[PullRequestKey(repository, staged[i].pr.number)] == Cached(staged[i].pr, staged[i].fingerprint))
    && (forall k: PullRequestKey ::
          (k.repository == repository ==> forall i :: 0 <= i < |staged| ==> staged[i].pr.number != k.number) ==>
            (k in u.rows <==> k in t.rows) && (k in t.rows ==> u.rows[k] == t.rows[k]))
    && u == t.(rows := u.rows, members := u.members)
  }

  /** The items of the batch are completed by it, and the others stay. */
  ghost predicate BatchCompleted(g: Generation, h: Generation, staged: seq<Hydrated>) {
    && h.items.Keys == g.items.Keys
    && (forall i :: 0 <= i < |staged| ==>
          && staged[i].pr.number in g.items
          && h.items[staged[i].pr.number] == Item(g.items[staged[i].pr.number].collections, Some(staged[i])))
    && (forall n :: n in g.items && (forall i :: 0 <= i < |staged| ==> staged[i].pr.number != n) ==>
          h.items[n] == g.items[n])
    && h == g.(items := h.items, retries := 0)
  }

  /** The list and the map hold the same payloads. */
  ghost predicate Spells(staged: seq<Hydrated>, all: map<Number, Hydrated>) {
    && (forall i :: 0 <= i < |staged| ==> staged[i].pr.number in all && all[staged[i].pr.number] == staged[i])
    && (forall n :: n in all ==> exists i :: 0 <= i < |staged| && staged[i].pr.number == n)
  }

  lemma DistinctSpells(staged: seq<Hydrated>)
    requires Distinct(staged)
    ensures Spells(staged, ByNumber(staged, |staged|))
  {
    var byNumber := ByNumber(staged, |staged|);
    forall i | 0 <= i < |staged| ensures byNumber[staged[i].pr.number] == staged[i] {
      var k :| 0 <= k < |staged| && staged[k].pr.number == staged[i].pr.number
               && byNumber[staged[i].pr.number] == staged[k];
      assert k == i;
    }
  }

  lemma ListedOnes(staged: seq<Hydrated>, all: map<Number, Hydrated>, n: Number, collection: string)
    requires Spells(staged, all)
    ensures Lists(staged, n, collection) <==> n in all && collection in all[n].pr.collections
  {
  }

  lemma ListedShown(t: Tables, repository: string, staged: seq<Hydrated>, all: map<Number, Hydrated>)
    requires Spells(staged, all)
    ensures BatchShown(t, PublishBatch(t, repository, all), repository, staged)
  {
    hide PublishBatch, Lists;
    BatchIsExact(t, repository, all);
    forall m: Membership
      ensures Lists(staged, m.number, m.link.collection) <==>
                m.number in all && m.link.collection in all[m.number].pr.collections
    {
      ListedOnes(staged, all, m.number, m.link.collection);
    }
  }

  lemma ListedCompleted(g: Generation, staged: seq<Hydrated>, all: map<Number, Hydrated>)
    requires Spells(staged, all) && forall n :: n in all ==> n in g.items
    ensures BatchCompleted(g, WithBatch(g, all), staged)
  {
  }

  datatype BatchTransaction = BatchTransaction(items: map<Number, Item>, rows: map<PullRequestKey, Cached>,
                                               members: set<Membership>)

  /** The statements for one staged pull request: upsert its row, insert the
      memberships that are configured, and complete its item. */
  function StageOne(tx: BatchTransaction, configured: set<string>, repository: string, h: Hydrated): BatchTransaction
    requires h.pr.number in tx.items
  {
    BatchTransaction(
      tx.items[h.pr.number := tx.items[h.pr.number].(staged := Some(h))],
      tx.rows[PullRequestKey(repository, h.pr.number) := Cached(h.pr, h.fingerprint)],
      tx.members + set c | c in h.pr.collections && c in configured ::
          Membership(Progress.Link(c, repository), h.pr.number))
  }

  /** The transaction after the first `n` staged pull requests. */
  function BatchAfter(t: Tables, g: Generation, staged: seq<Hydrated>, n: nat): BatchTransaction
    requires n <= |staged|
  {
    var published := PublishBatch(t, g.repository, ByNumber(staged, n));
    BatchTransaction(WithBatch(g, ByNumber(staged, n)).items, published.rows, published.members)
  }

  function ListedBy(staged: map<Number, Hydrated>): map<Number, set<string>> {
    map n | n in staged :: staged[n].pr.collections
  }

  lemma OneMoreUpsert(rows: map<PullRequestKey, Cached>, repository: string, published: map<Number, Cached>, n: Number,
                      c: Cached)
    ensures Upserted(rows, repository, published[n := c])
              == Upserted(rows, repository, published)[PullRequestKey(repository, n) := c]
  {
  }

  lemma OneMoreRow(rows: map<PullRequestKey, Cached>, repository: string, staged: map<Number, Hydrated>, n: Number,
                   h: Hydrated)
    ensures Upserted(rows, repository, AsRows(staged[n := h]))
         == Upserted(rows, repository, AsRows(staged))[PullRequestKey(repository, n) := Cached(h.pr, h.fingerprint)]
  {
    hide Upserted;
    assert AsRows(staged[n := h]) == AsRows(staged)[n := Cached(h.pr, h.fingerprint)];
    OneMoreUpsert(rows, repository, AsRows(staged), n, Cached(h.pr, h.fingerprint));
  }

  lemma OneMoreAudience(configured: set<string>, repository: string, staged: map<Number, Hydrated>, n: Number,
                        h: Hydrated)
    requires n !in staged
    ensures Desired(configured, repository, ListedBy(staged[n := h]), false)
         == Desired(configured, repository, ListedBy(staged), false)
            + set c | c in h.pr.collections && c in configured :: Membership(Progress.Link(c, repository), n)
  {
  }

  lemma OneMoreItem(g: Generation, staged: map<Number, Hydrated>, n: Number, h: Hydrated)
    requires n in g.items && n !in staged
    ensures n in WithBatch(g, staged).items
    ensures WithBatch(g, staged[n := h]).items
              == WithBatch(g, staged).items[n := WithBatch(g, staged).items[n].(staged := Some(h))]
  {
  }

  lemma OneMoreStaged(t: Tables, g: Generation, staged: seq<Hydrated>, n: nat)
    requires 0 < n <= |staged| && staged[n - 1].pr.number in g.items
    requires forall k :: 0 <= k < n - 1 ==> staged[k].pr.number != staged[n - 1].pr.number
    ensures staged[n - 1].pr.number in BatchAfter(t, g, staged, n - 1).items
    ensures BatchAfter(t, g, staged, n)
         == StageOne(BatchAfter(t, g, staged, n - 1), ConfiguredCollections(t, g.repository), g.repository,
                     staged[n - 1])
  {
    hide Upserted, Desired, AsRows, WithBatch;
    var h, earlier := staged[n - 1], ByNumber(staged, n - 1);
    assert h.pr.number !in earlier;
    OneMoreItem(g, earlier, h.pr.number, h);
    OneMoreRow(t.rows, g.repository, earlier, h.pr.number, h);
    OneMoreAudience(ConfiguredCollections(t, g.repository), g.repository, earlier, h.pr.number, h);
  }

  lemma NothingStaged(t: Tables, g: Generation, staged: seq<Hydrated>)
    ensures BatchAfter(t, g, staged, 0) == BatchTransaction(g.items, t.rows, t.members)
  {
    assert Desired(ConfiguredCollections(t, g.repository), g.repository, ListedBy(map[]), false) == {};
  }

  lemma WholeBatch(t: Tables, g: Generation, staged: seq<Hydrated>)
    requires Distinct(staged) && forall i :: 0 <= i < |staged| ==> Stageable(g, staged[i])
    ensures var tx, byNumber := BatchAfter(t, g, staged, |staged|), ByNumber(staged, |staged|);
            && PublishBatch(t, g.repository, byNumber) == t.(rows := tx.rows, members := tx.members)
            && WithBatch(g, byNumber) == g.(items := tx.items, retries := 0)
            && BatchShown(t, PublishBatch(t, g.repository, byNumber), g.repository, staged)
            && BatchCompleted(g, WithBatch(g, byNumber), staged)
  {
    hide BatchShown, BatchCompleted;
    DistinctSpells(staged);
    ListedShown(t, g.repository, staged, ByNumber(staged, |staged|));
    ListedCompleted(g, staged, ByNumber(staged, |staged|));
  }

  lemma SizeWithOneMore(counted: set<Number>, left: set<Number>, n: Number)
    requires n in left
    ensures |counted - (left - {n})| == |counted - left| + (if n in counted then 1 else 0)
  {
    assert counted - (left - {n}) == counted - left + (if n in counted then {n} else {});
  }

  lemma OutcomeOf(g: Generation, n: Number, outcome: Outcome)
    requires n in g.items
    ensures n in WithOutcome(g, outcome) <==> g.items[n].staged.Some? && g.items[n].staged.value.outcome == outcome
  {
  }

  lemma AllCounted(g: Generation, left: set<Number>)
    ensures left == g.items.Keys ==>
              && Pending(g) - left == {} && Done(g) - left == {}
              && WithOutcome(g, Hit) - left == {} && WithOutcome(g, Miss) - left == {}
              && WithOutcome(g, Bypass) - left == {}
    ensures left == {} ==>
              && Pending(g) - left == Pending(g) && Done(g) - left == Done(g)
              && WithOutcome(g, Hit) - left == WithOutcome(g, Hit)
              && WithOutcome(g, Miss) - left == WithOutcome(g, Miss)
              && WithOutcome(g, Bypass) - left == WithOutcome(g, Bypass)
  {
  }

  /** A number is still pending after the first `i` items exactly when it was
      pending before, and none of them carries it. */
  lemma StillPending(t: Tables, g: Generation, staged: seq<Hydrated>, i: nat)
    requires i < |staged|
    ensures var n, items := staged[i].pr.number, BatchAfter(t, g, staged, i).items;
            (n in items && items[n].staged.None?) <==> n in Pending(g) && forall k :: 0 <= k < i ==>
                staged[k].pr.number != n
  {
  }

  /** The first `n` of the list are pending pull requests of the generation's
      repository, and no number repeats. */
  predicate Passes(g: Generation, staged: seq<Hydrated>, n: nat)
    requires n <= |staged|
  {
    forall i :: 0 <= i < n ==>
      var pr := staged[i].pr;
      && pr.number > 0 && pr.repository == g.repository && pr.number in g.items && g.items[pr.number].staged.None?
      && forall k :: 0 <= k < i ==> staged[k].pr.number != pr.number
  }

  lemma PassOneMore(t: Tables, g: Generation, staged: seq<Hydrated>, i: nat)
    requires i < |staged| && Passes(g, staged, i)
    ensures var pr, items := staged[i].pr, BatchAfter(t, g, staged, i).items;
            pr.number > 0 && pr.repository == g.repository && pr.number in items && items[pr.number].staged.None? <==>
              Passes(g, staged, i + 1)
    ensures Passes(g, staged, i + 1) ==>
              && staged[i].pr.number in BatchAfter(t, g, staged, i).items
              && BatchAfter(t, g, staged, i + 1)
                   == StageOne(BatchAfter(t, g, staged, i), ConfiguredCollections(t, g.repository), g.repository,
                               staged[i])
  {
    hide BatchAfter, StageOne, ConfiguredCollections;
    StillPending(t, g, staged, i);
    if Passes(g, staged, i + 1) {
      OneMoreStaged(t, g, staged, i + 1);
    }
  }

  lemma PassesIff(g: Generation, staged: seq<Hydrated>)
    requires g.phase == Hydrating
    ensures ListAccepted(Some(g), staged) <==> Passes(g, staged, |staged|)
    ensures Passes(g, staged, |staged|) ==>
              Distinct(staged) && forall i :: 0 <= i < |staged| ==> Stageable(g, staged[i])
    ensures Passes(g, staged, 0) && forall i :: 0 <= i <= |staged| && !Passes(g, staged, i) ==>
              !Passes(g, staged, |staged|)
  {
  }

  function NumbersSeen(members: set<Membership>, repository: string): set<Number> {
    set m | m in members && m.link.repository == repository :: m.number
  }

  lemma SeenIsPublished(members: set<Membership>, configured: set<string>, repository: string,
                        published: map<Number, Cached>)
    requires configured != {}
    requires forall n :: n in published ==> published[n].pr.collections <= configured
    ensures NumbersSeen(ReplaceMembers(members, repository,
                                       Desired(configured, repository, CollectionsOf(published), true)), repository)
         == published.Keys
  {
    var desired := Desired(configured, repository, CollectionsOf(published), true);
    forall n | n in published
      ensures n in NumbersSeen(ReplaceMembers(members, repository, desired), repository)
    {
      var c :| c in configured && (c in published[n].pr.collections || published[n].pr.collections == {});
      assert Membership(Progress.Link(c, repository), n) in desired;
    }
  }

  lemma MembershipsMove(members: set<Membership>, repository: string, desired: set<Membership>)
    requires forall m :: m in desired ==> m.link.repository == repository
    ensures (set m | m in members && (m.link.repository != repository || m in desired))
              + desired == ReplaceMembers(members, repository, desired)
  {
  }

  lemma OrphansLeave(rows: map<PullRequestKey, Cached>, repository: string, published: map<Number, Cached>)
    ensures var upserted := Upserted(rows, repository, published);
            (map k | k in upserted && (k.repository != repository || k.number in published.Keys) :: upserted[k])
            == ReplaceRows(rows, repository, published)
  {
  }

  function NumbersOf(batch: seq<Discovered>): (numbers: seq<Number>)
    ensures |numbers| == |batch| && forall i :: 0 <= i < |numbers| ==> numbers[i] == batch[i].number
  {
    seq(|batch|, i requires 0 <= i < |batch| => batch[i].number)
  }

  /** The list that loading at most `limit` items yields. */
  predicate IsLoaded(g: Option<Generation>, batch: seq<Discovered>, limit: nat) {
    && IsNextOf(g, NumbersOf(batch), limit)
    && forall i :: 0 <= i < |batch| ==>
         && g.Some? && batch[i].number in g.value.items
         && batch[i] == Discovered(batch[i].number, g.value.items[batch[i].number].collections, g.value.limits)
  }

  predicate IsBatch(g: Option<Generation>, batch: seq<Discovered>) {
    IsLoaded(g, batch, BATCH_SIZE)
  }

  /** Ascending pending numbers with their collections and the limits of the
      discovery, and every other pending number is higher. */
  ghost predicate FirstPending(g: Generation, batch: seq<Discovered>) {
    && (forall i :: 0 <= i < |batch| ==>
          && batch[i].number in g.items && g.items[batch[i].number].staged.None?
          && batch[i].collections == g.items[batch[i].number].collections && batch[i].limits == g.limits)
    && (forall i, k :: 0 <= i < k < |batch| ==> batch[i].number < batch[k].number)
    && (forall n, i :: n in g.items && g.items[n].staged.None? && 0 <= i < |batch|
                       && (forall k :: 0 <= k < |batch| ==> batch[k].number != n) ==>
          batch[i].number < n)
  }

  ghost predicate AllPending(g: Generation, batch: seq<Discovered>) {
    forall n :: n in g.items && g.items[n].staged.None? ==> exists i :: 0 <= i < |batch| && batch[i].number == n
  }

  lemma TakenIsFirst(g: Generation, batch: seq<Discovered>, left: set<Number>)
    requires Taken(g, batch, left)
    ensures FirstPending(g, batch)
    ensures left == {} ==> AllPending(g, batch)
  {
    forall n | n in NumbersOf(batch) ensures exists i :: 0 <= i < |batch| && batch[i].number == n {
      var i :| 0 <= i < |batch| && NumbersOf(batch)[i] == n;
      assert batch[i].number == n;
    }
  }

  /** The batch holds the least pending numbers, and `left` the others. */
  ghost predicate Taken(g: Generation, batch: seq<Discovered>, left: set<Number>) {
    && left <= Pending(g) && |left| + |batch| == |Pending(g)|
    && (forall i :: 0 <= i < |batch| ==>
          batch[i].number in Pending(g) && batch[i].number !in left
          && batch[i] == Discovered(batch[i].number, g.items[batch[i].number].collections, g.limits))
    && (forall n :: n in Pending(g) && n !in left ==> n in NumbersOf(batch))
    && (forall i, k :: 0 <= i < k < |batch| ==> batch[i].number < batch[k].number)
    && (forall i, n :: 0 <= i < |batch| && n in left ==> batch[i].number < n)
  }

  lemma TakeOneMore(g: Generation, batch: seq<Discovered>, left: set<Number>, n: Number)
    requires Taken(g, batch, left) && n in left && forall k :: k in left ==> n <= k
    ensures n in g.items
    ensures Taken(g, batch + [Discovered(n, g.items[n].collections, g.limits)], left - {n})
  {
    var longer := batch + [Discovered(n, g.items[n].collections, g.limits)];
    assert NumbersOf(longer) == NumbersOf(batch) + [n];
  }

  lemma TakenIsLoaded(g: Generation, batch: seq<Discovered>, left: set<Number>, limit: nat)
    requires Taken(g, batch, left) && g.phase == Hydrating && |batch| <= limit
    requires |batch| == limit || left == {}
    ensures IsLoaded(Some(g), batch, limit)
  {
  }

  method LeastOf(numbers: set<Number>) returns (n: Number)
    requires numbers != {}
    ensures n in numbers && forall k :: k in numbers ==> n <= k
  {
    n :| n in numbers;
    var left := numbers - {n};
    while left != {}
      invariant left <= numbers && n in numbers
      invariant forall k :: k in numbers && k !in left ==> n <= k
      decreases left
    {
      var k :| k in left;
      if k < n {
        n := k;
      }
      left := left - {k};
    }
  }

  class Store {
    var jobs: seq<Job>
    var generations: map<nat, Generation>
    var links: set<Progress.Link>
    var active: set<string>
    var refreshes: map<string, Refresh>
    var rows: map<PullRequestKey, Cached>
    var members: set<Membership>
    var progress: Progress.Tables
    var collected: map<string, int>

    function Shared(): Tables
      reads this
    {
      Tables(links, active, refreshes, rows, members, progress)
    }

    function GenerationOf(j: nat): Option<Generation>
      reads this
    {
      if j in generations then Some(generations[j]) else None
    }

    function EntryOf(j: nat): Entry
      requires j < |jobs|
      reads this
    {
      Entry(jobs[j], GenerationOf(j))
    }

    /** INSERT OR IGNORE under the index of one active job per repository. */
    method InsertJob(repository: string, at: int, forced: bool) returns (inserted: bool)
      modifies `jobs
      ensures inserted <==> !HasActiveJob(old(jobs), repository)
      ensures inserted <==> AllCompleted(old(jobs), repository)
      ensures jobs == if inserted then old(jobs) + [Job(repository, Queued, at, forced)] else old(jobs)
    {
      for k := 0 to |jobs|
        invariant jobs == old(jobs)
        invariant forall i :: 0 <= i < k ==> !(Active(jobs[i]) && jobs[i].repository == repository)
      {
        if Active(jobs[k]) && jobs[k].repository == repository {
          return false;
        }
      }
      jobs := jobs + [Job(repository, Queued, at, forced)];
      inserted := true;
    }

    /** Upgrades the active job of a repository, even while it is running; there
        may be none. */
    method ForceActiveJob(repository: string)
      modifies `jobs
      ensures |jobs| == |old(jobs)|
      ensures forall k :: 0 <= k < |jobs| ==> jobs[k] == Forced(old(jobs)[k], repository)
      ensures forall k :: 0 <= k < |jobs| ==>
                jobs[k] == if old(jobs)[k].repository == repository && old(jobs)[k].status in {Queued, Running}
                           then old(jobs)[k].(forced := true) else old(jobs)[k]
    {
      for k := 0 to |jobs|
        invariant |jobs| == |old(jobs)|
        invariant forall i :: 0 <= i < |jobs| ==> jobs[i] == if i < k then Forced(old(jobs)[i], repository)
                    else old(jobs)[i]
      {
        jobs := jobs[k := Forced(jobs[k], repository)];
      }
    }

    /** Requests refresh work and upgrades a coalesced job, in three statements
        without a transaction. Nobody else writes between them here. */
    method EnqueueRefreshWithForce(repository: string, at: int, forced: bool) returns (result: Result<bool>)
      modifies `jobs
      ensures result.Ok? <==> Configured(Shared(), repository)
      ensures result.Err? ==> jobs == old(jobs)
      ensures result.Ok? ==> result.value == !HasActiveJob(old(jobs), repository) && HasActiveJob(jobs, repository)
      ensures result.Ok? ==> |jobs| == |old(jobs)| + (if result.value then 1 else 0)
      ensures result.Ok? ==> forall k :: 0 <= k < |old(jobs)| ==>
                jobs[k] == if forced then Forced(old(jobs)[k], repository) else old(jobs)[k]
      ensures result.Ok? && result.value ==> jobs[|old(jobs)|] == Job(repository, Queued, at, forced)
    {
      if !Configured(Shared(), repository) {
        return Err("not configured");
      }
      var inserted := InsertJob(repository, at, forced);
      ghost var owner: nat :| owner < |jobs| && Active(jobs[owner]) && jobs[owner].repository == repository;
      if forced {
        ForceActiveJob(repository);
      }
      assert Active(jobs[owner]) && jobs[owner].repository == repository;
      result := Ok(inserted);
    }

    /** The schedule asks every staged generation that can still run for
        rediscovery, and queues the repositories without an active job. */
    method EnqueueAllRefreshes(at: int)
      modifies `jobs, `generations
      ensures |old(jobs)| <= |jobs| && jobs[..|old(jobs)|] == old(jobs)
      ensures forall r :: r in refreshes ==> HasActiveJob(jobs, r)
      ensures forall k :: |old(jobs)| <= k < |jobs| ==>
                jobs[k] == Job(jobs[k].repository, Queued, at, false) && jobs[k].repository in refreshes
                    && !HasActiveJob(old(jobs), jobs[k].repository)
      ensures OneActiveJob(old(jobs)) ==> OneActiveJob(jobs)
      ensures generations.Keys == old(generations).Keys
      ensures forall j :: j in generations ==>
                generations[j] == if j < |old(jobs)| && Active(old(jobs)[j])
                    then old(generations)[j].(rediscovery := true) else old(generations)[j]
    {
      hide AllCompleted;
      generations := map j | j in generations ::
        if j < |jobs| && Active(jobs[j]) then generations[j].(rediscovery := true) else generations[j];
      ghost var before, flagged := jobs, generations;
      var left := refreshes.Keys;
      while left != {}
        invariant left <= refreshes.Keys && generations == flagged
        invariant |before| <= |jobs| && jobs[..|before|] == before
        invariant forall r :: r in refreshes && r !in left ==> HasActiveJob(jobs, r)
        invariant forall k :: |before| <= k < |jobs| ==>
                    jobs[k] == Job(jobs[k].repository, Queued, at, false) && jobs[k].repository in refreshes
                        && jobs[k].repository !in left
                    && !HasActiveJob(before, jobs[k].repository)
        invariant OneActiveJob(before) ==> OneActiveJob(jobs)
        decreases left
      {
        var r :| r in left;
        ghost var was := jobs;
        var inserted := InsertJob(r, at, false);
        if HasActiveJob(before, r) {
          ActivityGrows(before, was, r);
        }
        forall q | HasActiveJob(was, q)
          ensures HasActiveJob(jobs, q)
        {
          ActivityGrows(was, jobs, q);
        }
        assert inserted ==> Active(jobs[|was|]) && jobs[|was|].repository == r;
        left := left - {r};
      }
    }

    /** Claims the earliest due job. */
    method ClaimRefresh(now: int) returns (claimed: Option<nat>)
      modifies `jobs
      ensures claimed.None? ==> jobs == old(jobs) && forall k :: 0 <= k < |jobs| ==> !Due(jobs[k], now)
      ensures claimed.Some? ==> IsNextDue(old(jobs), now, claimed.value)
                                && jobs == old(jobs)[claimed.value := old(jobs)[claimed.value].(status := Running)]
      ensures claimed.Some? ==>
                var job := old(jobs)[claimed.value];
                && job.status == Queued && job.scheduledFor <= now
                && forall k :: 0 <= k < |jobs| && old(jobs)[k].status == Queued ==>
                     && job.scheduledFor <= old(jobs)[k].scheduledFor
                     && (k < claimed.value ==> job.scheduledFor < old(jobs)[k].scheduledFor)
    {
      claimed := None;
      for k := 0 to |jobs|
        invariant jobs == old(jobs)
        invariant claimed.None? ==> forall i :: 0 <= i < k ==> !Due(jobs[i], now)
        invariant claimed.Some? ==> claimed.value < k && Due(jobs[claimed.value], now)
        invariant claimed.Some? ==> forall i :: 0 <= i < k && Due(jobs[i], now) ==> Before(jobs, claimed.value, i)
      {
        if Due(jobs[k], now) && (claimed.None? || jobs[k].scheduledFor < jobs[claimed.value].scheduledFor) {
          claimed := Some(k);
        }
      }
      if claimed.Some? {
        jobs := jobs[claimed.value := jobs[claimed.value].(status := Running)];
      }
    }

    method StartRefreshGeneration(j: nat, repository: string, d: Discovery) returns (ok: bool)
      modifies `generations
      ensures ok <==> j < |jobs| && jobs[j].repository == repository && jobs[j].status == Running && ValidDiscovery(d)
      ensures generations == if ok then old(generations)[j := NewGeneration(jobs[j], d)] else old(generations)
      ensures ok ==>
                var g := generations[j];
                && (forall n :: n in d.members ==> n > 0)
                && g == Generation(repository, Hydrating, jobs[j].forced, d.discoveredAt, d.limits, g.items, None,
                                   false, 0)
                && g.items.Keys == d.members.Keys && forall n :: n in g.items ==> g.items[n] == Item(d.members[n], None)
    {
      if j >= |jobs| || jobs[j].repository != repository || jobs[j].status != Running {
        return false;
      }
      var staged: map<Number, Item> := map[];
      var left := d.members.Keys;
      while left != {}
        invariant left <= d.members.Keys && generations == old(generations)
        invariant staged == map n | n in d.members.Keys - left :: Item(d.members[n], None)
        invariant forall n :: n in d.members && n !in left ==> n > 0
        decreases left
      {
        var n :| n in left;
        if n <= 0 {
          return false;
        }
        staged := staged[n := Item(d.members[n], None)];
        left := left - {n};
      }
      assert staged == NewGeneration(jobs[j], d).items;
      generations := generations[j := Generation(repository, Hydrating, jobs[j].forced, d.discoveredAt, d.limits,
                                                 staged, None, false, 0)];
      ok := true;
    }

    method ReconcileRefreshGenerationDiscovery(j: nat, d: Discovery) returns (ok: bool)
      modifies `generations
      ensures ok <==> j in old(generations) && ValidDiscovery(d)
      ensures generations == if ok then old(generations)[j := Reconciled(old(generations)[j], d)] else old(generations)
      ensures ok ==>
                var before, g := old(generations)[j], generations[j];
                && g == Generation(before.repository, Hydrating, before.forced, d.discoveredAt, d.limits, g.items, None,
                                   false, 0)
                && g.items.Keys == d.members.Keys
                && forall n :: n in g.items ==>
                     g.items[n] == Item(d.members[n], if n in before.items then before.items[n].staged else None)
    {
      if j !in generations {
        return false;
      }
      var rediscovered: map<Number, set<string>> := map[];
      var left := d.members.Keys;
      while left != {}
        invariant left <= d.members.Keys && generations == old(generations)
        invariant rediscovered == map n | n in d.members.Keys - left :: d.members[n]
        invariant forall n :: n in d.members && n !in left ==> n > 0
        decreases left
      {
        var n :| n in left;
        if n <= 0 {
          return false;
        }
        rediscovered := rediscovered[n := d.members[n]];
        left := left - {n};
      }
      assert rediscovered == d.members;
      var g := generations[j];
      // Closed pull requests leave; new ones are pending, and the others only take their new collections.
      var kept := map n | n in g.items && n in rediscovered :: g.items[n].(collections := rediscovered[n]);
      var items := (map n | n in rediscovered :: Item(rediscovered[n], None)) + kept;
      assert items == Reconciled(g, d).items;
      generations := generations[j := g.(phase := Hydrating, discoveredAt := d.discoveredAt, limits := d.limits,
                                         items := items,
                                         progress := None, rediscovery := false, retries := 0)];
      ok := true;
    }

    /** The generation of a job together with the counters of its items. */
    method LoadRefreshGeneration(j: nat)
      returns (generation: Option<Generation>, pending: nat, completed: nat, counts: Counts)
      ensures generation == GenerationOf(j)
      ensures generation.Some? ==>
                pending == |Pending(generation.value)| && completed == |Done(generation.value)|
                    && counts == CountsOf(generation.value)
    {
      generation, pending, completed, counts := None, 0, 0, Counts(0, 0, 0);
      if j !in generations {
        return;
      }
      var g := generations[j];
      generation := Some(g);
      var left := g.items.Keys;
      AllCounted(g, left);
      hide WithOutcome;
      while left != {}
        invariant left <= g.items.Keys
        invariant pending == |Pending(g) - left| && completed == |Done(g) - left|
        invariant counts.hits == |WithOutcome(g, Hit) - left|
        invariant counts.misses == |WithOutcome(g, Miss) - left|
        invariant counts.bypasses == |WithOutcome(g, Bypass) - left|
        decreases left
      {
        var n :| n in left;
        SizeWithOneMore(Pending(g), left, n);
        SizeWithOneMore(Done(g), left, n);
        SizeWithOneMore(WithOutcome(g, Hit), left, n);
        SizeWithOneMore(WithOutcome(g, Miss), left, n);
        SizeWithOneMore(WithOutcome(g, Bypass), left, n);
        OutcomeOf(g, n, Hit);
        OutcomeOf(g, n, Miss);
        OutcomeOf(g, n, Bypass);
        match g.items[n].staged {
          case None => pending := pending + 1;
          case Some(h) =>
            completed := completed + 1;
            counts := match h.outcome
              case Hit => counts.(hits := counts.hits + 1)
              case Miss => counts.(misses := counts.misses + 1)
              case Bypass => counts.(bypasses := counts.bypasses + 1);
        }
        left := left - {n};
      }
      AllCounted(g, left);
    }

    /** The next pending pull requests in number order, at most `limit`. */
    method LoadRefreshGenerationBatch(j: nat, limit: int) returns (result: Result<seq<Discovered>>)
      ensures result.Ok? <==> limit > 0
      ensures result.Ok? ==> IsLoaded(GenerationOf(j), result.value, limit)
      ensures result.Ok? && (j !in generations || generations[j].phase != Hydrating) ==> result.value == []
      ensures result.Ok? && result.value != [] ==> FirstPending(generations[j], result.value)
      ensures result.Ok? && j in generations && generations[j].phase == Hydrating && |result.value| < limit ==>
                AllPending(generations[j], result.value)
    {
      if limit <= 0 {
        return Err("batch size must be positive");
      }
      var batch := [];
      if j !in generations || generations[j].phase != Hydrating {
        return Ok(batch);
      }
      var g := generations[j];
      var left := Pending(g);
      while |batch| < limit && left != {}
        invariant |batch| <= limit && Taken(g, batch, left)
        decreases left
      {
        hide Taken;
        var n := LeastOf(left);
        TakeOneMore(g, batch, left, n);
        batch := batch + [Discovered(n, g.items[n].collections, g.limits)];
        left := left - {n};
      }
      hide Taken, IsLoaded, FirstPending, AllPending;
      TakenIsFirst(g, batch, left);
      TakenIsLoaded(g, batch, left, limit);
      result := Ok(batch);
    }

    /** Stages and publishes one batch. Stale pull requests stay published. */
    method PublishRefreshGenerationBatch(j: nat, staged: seq<Hydrated>) returns (ok: bool)
      modifies `generations, `rows, `members
      ensures ok <==> staged == [] || ListAccepted(old(GenerationOf(j)), staged)
      ensures ok && staged != [] ==>
                && j in old(generations) && old(generations)[j].phase == Hydrating
                && Passes(old(generations)[j], staged, |staged|)
      ensures !ok || staged == [] ==> Shared() == old(Shared())
      ensures !ok ==> generations == old(generations)
      ensures staged == [] ==>
                generations == if j in old(generations) then old(generations)[j := old(generations)[j].(retries := 0)]
                    else old(generations)
      ensures ok && staged != [] ==>
                generations == old(generations)[j := WithBatch(old(generations)[j], ByNumber(staged, |staged|))]
      ensures ok && staged != [] ==>
                Shared() == PublishBatch(old(Shared()), old(generations)[j].repository, ByNumber(staged, |staged|))
      ensures ok && staged != [] ==> BatchShown(old(Shared()), Shared(), old(generations)[j].repository, staged)
      ensures ok && staged != [] ==> BatchCompleted(old(generations)[j], generations[j], staged)
    {
      hide BatchAfter, StageOne, PublishBatch, WithBatch, ByNumber, ConfiguredCollections, BatchShown, BatchCompleted,
        Passes, Stageable, Distinct;
      if staged == [] {
        if j in generations {
          generations := generations[j := generations[j].(retries := 0)];
        }
        return true;
      }
      if j !in generations || generations[j].phase != Hydrating {
        return false;
      }
      var t, g := Shared(), generations[j];
      var tx := BatchTransaction(g.items, rows, members);
      NothingStaged(t, g, staged);
      PassesIff(g, staged);
      hide ListAccepted;
      for i := 0 to |staged|
        invariant generations == old(generations) && Shared() == t
        invariant Passes(g, staged, i) && tx == BatchAfter(t, g, staged, i)
      {
        PassOneMore(t, g, staged, i);
        if staged[i].pr.number <= 0 || staged[i].pr.repository != g.repository {
          return false;
        }
        if staged[i].pr.number !in tx.items || tx.items[staged[i].pr.number].staged.Some? {
          return false;
        }
        tx := StageOne(tx, ConfiguredCollections(t, g.repository), g.repository, staged[i]);
      }
      rows, members := tx.rows, tx.members;
      generations := generations[j := g.(items := tx.items, retries := 0)];
      WholeBatch(t, g, staged);
      ok := true;
    }

    method AdvanceRefreshGeneration(j: nat, from: Phase, to: Phase, payload: Option<Progress.Snapshot>)
      returns (ok: bool)
      modifies `generations
      ensures ok <==> j in old(generations) && old(generations)[j].phase == from
      ensures generations == if ok then old(generations)[j := Advanced(old(generations)[j], to, payload)]
                else old(generations)
      ensures ok ==>
                && generations[j].phase == to && generations[j].retries == 0
                && generations[j].progress == (if payload.Some? then payload else old(generations)[j].progress)
                && generations[j].(phase := from, retries := old(generations)[j].retries,
                                   progress := old(generations)[j].progress) == old(generations)[j]
    {
      if j !in generations || generations[j].phase != from {
        return false;
      }
      var g := generations[j];
      if payload.Some? {
        g := g.(progress := payload);
      }
      generations := generations[j := g.(phase := to, retries := 0)];
      ok := true;
    }

    method RecordRefreshGenerationRetry(j: nat) returns (retries: Option<nat>)
      modifies `generations
      ensures retries.Some? <==> j in old(generations)
      ensures generations == if retries.None? then old(generations)
                             else old(generations)[j := old(generations)[j].(retries := old(generations)[j].retries
                                                                             + 1)]
      ensures retries.Some? ==> retries.value == old(generations)[j].retries + 1
    {
      if j !in generations {
        return None;
      }
      var g := generations[j];
      g := g.(retries := g.retries + 1);
      generations := generations[j := g];
      retries := Some(g.retries);
    }

    method DeleteRefreshGeneration(j: nat)
      modifies `generations
      ensures generations == old(generations) - {j}
    {
      generations := generations - {j};
    }

    method RequeueRefreshJob(j: nat, at: int) returns (ok: bool)
      modifies `jobs
      ensures ok <==> j < |old(jobs)| && old(jobs)[j].status == Running
      ensures jobs == if ok then old(jobs)[j := old(jobs)[j].(status := Queued, scheduledFor := at)] else old(jobs)
    {
      if j >= |jobs| || jobs[j].status != Running {
        return false;
      }
      jobs := jobs[j := jobs[j].(status := Queued, scheduledFor := at)];
      ok := true;
    }

    /** Completes a job whatever its status; there may be no such job. */
    method CompleteRefreshJob(j: nat)
      modifies `jobs
      ensures jobs == if j < |old(jobs)| then old(jobs)[j := old(jobs)[j].(status := Completed)] else old(jobs)
    {
      if j < |jobs| {
        jobs := jobs[j := jobs[j].(status := Completed)];
      }
    }

    method RecoverRefreshJobs()
      modifies `jobs
      ensures |jobs| == |old(jobs)|
      ensures forall k :: 0 <= k < |jobs| ==> jobs[k] == if old(jobs)[k].status == Running
                then old(jobs)[k].(status := Queued) else old(jobs)[k]
    {
      for k := 0 to |jobs|
        invariant |jobs| == |old(jobs)|
        invariant forall i :: 0 <= i < |jobs| ==>
                    jobs[i] == if i < k && old(jobs)[i].status == Running then old(jobs)[i].(status := Queued)
                        else old(jobs)[i]
      {
        if jobs[k].status == Running {
          jobs := jobs[k := jobs[k].(status := Queued)];
        }
      }
    }

    /** The payloads that may be reused for a repository. */
    method LoadCachedPullRequests(repository: string) returns (cached: map<Number, Cached>)
      ensures cached == CachedRows(Shared(), repository)
      ensures forall n :: n in cached <==> PullRequestKey(repository, n) in rows
      ensures forall n :: n in cached ==> cached[n] == rows[PullRequestKey(repository, n)]
    {
      cached := map[];
      var left := rows.Keys;
      while left != {}
        invariant left <= rows.Keys
        invariant forall n :: n in cached <==>
                    PullRequestKey(repository, n) in rows && PullRequestKey(repository, n) !in left
        invariant forall n :: n in cached ==> cached[n] == rows[PullRequestKey(repository, n)]
        decreases left
      {
        var k :| k in left;
        if k.repository == repository {
          cached := cached[k.number := rows[k]];
        }
        left := left - {k};
      }
      CachedRowsAt(Shared(), repository);
    }

    /** Records one progress collection and the time of it. The time refers to
        the repository's refresh row, and without that row everything fails. */
    method RecordProgress(repository: string, snapshot: Progress.Snapshot) returns (result: Result<bool>)
      modifies `progress, `collected
      ensures result.Ok? <==> (Progress.LinkedTo(links, repository) != {} ==>
                                 repository in refreshes
                                     && Progress.Accepted(old(progress), links, repository, snapshot))
      ensures result.Ok? ==> result.value == (Progress.LinkedTo(links, repository) != {})
      ensures progress == if result.Ok? && result.value then Progress.Apply(old(progress), links, repository, snapshot)
                else old(progress)
      ensures collected == if result.Ok? && result.value then old(collected)[repository := snapshot.collectedAt]
                else old(collected)
    {
      if Progress.LinkedTo(links, repository) == {} {
        return Ok(false);
      }
      var recorded := Progress.RecordSnapshot(progress, links, repository, snapshot);
      if recorded.Err? {
        return Err(recorded.reason);
      }
      if repository !in refreshes {
        return Err("no refresh state");
      }
      progress, collected := recorded.value, collected[repository := snapshot.collectedAt];
      result := Ok(true);
    }

    /** Fills the table of desired memberships, and fails at the first collection
        that does not configure the repository. */
    method ListDesired(repository: string, published: map<Number, Cached>) returns (desired: Option<set<Membership>>)
      ensures desired.Some? <==> forall n :: n in published ==>
                published[n].pr.collections <= ConfiguredCollections(Shared(), repository)
      ensures desired.Some? ==>
                desired.value
                    == Desired(ConfiguredCollections(Shared(), repository), repository, CollectionsOf(published), true)
    {
      var configured := ConfiguredCollections(Shared(), repository);
      var wanted: set<Membership> := {};
      var left := published.Keys;
      while left != {}
        invariant left <= published.Keys
        invariant forall n :: n in published && n !in left ==> published[n].pr.collections <= configured
        invariant forall m :: m in wanted <==>
                    m.number !in left && m in Desired(configured, repository, CollectionsOf(published), true)
        decreases left
      {
        var n :| n in left;
        var listed := published[n].pr.collections;
        if !(listed <= configured) {
          return None;
        }
        wanted := wanted + set c | c in (if listed == {} then configured else listed) ::
            Membership(Progress.Link(c, repository), n);
        left := left - {n};
      }
      desired := Some(wanted);
    }

    /** Replaces everything a repository publishes, in the order of the
        statements: upsert rows, work out who shall see them, remove the
        memberships nobody wants, add the wanted ones, remove orphaned rows. */
    method ReplaceRepositorySnapshot(repository: string, published: map<Number, Cached>, refresh: Refresh)
      returns (result: Result<bool>)
      modifies `rows, `members, `refreshes
      ensures result.Ok? <==>
                (Configured(old(Shared()), repository) ==> SnapshotAccepted(old(Shared()), repository, published))
      ensures result.Ok? ==> result.value == Configured(old(Shared()), repository)
      ensures Shared() == if result.Ok? && result.value
                then ReplaceSnapshot(old(Shared()), repository, published, refresh) else old(Shared())
    {
      hide Upserted, ReplaceMembers, ReplaceRows, NumbersSeen, Desired;
      if !Configured(Shared(), repository) {
        return Ok(false);
      }
      var newRows := Upserted(rows, repository, published);
      var desired := ListDesired(repository, published);
      if desired.None? {
        return Err("not configured");
      }
      SeenIsPublished(members, ConfiguredCollections(Shared(), repository), repository, published);
      MembershipsMove(members, repository, desired.value);
      OrphansLeave(rows, repository, published);
      members := set m | m in members && (m.link.repository != repository || m in desired.value);
      members := members + desired.value;
      rows := map k | k in newRows && (k.repository != repository || k.number in NumbersSeen(members, repository)) ::
          newRows[k];
      refreshes := refreshes[repository := refresh];
      result := Ok(true);
    }
  }

  lemma CachedRowsAt(t: Tables, repository: string)
    ensures forall n :: n in CachedRows(t, repository) <==> PullRequestKey(repository, n) in t.rows
    ensures forall n :: n in CachedRows(t, repository) ==>
              CachedRows(t, repository)[n] == t.rows[PullRequestKey(repository, n)]
  {
    forall n | PullRequestKey(repository, n) in t.rows
      ensures n in CachedRows(t, repository)
    {
      assert n == PullRequestKey(repository, n).number;
    }
  }

  lemma ActivityGrows(before: seq<Job>, after: seq<Job>, repository: string)
    requires |before| <= |after| && after[..|before|] == before && HasActiveJob(before, repository)
    ensures HasActiveJob(after, repository)
  {
    var k :| 0 <= k < |before| && Active(before[k]) && before[k].repository == repository;
    assert after[k] == after[..|before|][k];
  }
}
