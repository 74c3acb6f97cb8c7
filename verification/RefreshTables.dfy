/** The tables of the repository refresh protocol, and what each transaction
    does to the rows it touches.

    `refresh_generations.refresh_job_id` is unique, so the generation of a job
    is kept beside the job. A job's id is its position. */
module RefreshTables {
  import opened Wrappers
  import opened HydrationCache
  import Progress

  const BATCH_SIZE: nat := 20

  datatype Status = Queued | Running | Completed

  datatype Job = Job(repository: string, status: Status, scheduledFor: int, forced: bool)

  datatype Phase = Hydrating | CollectingProgress | Publishing

  /** The durable result of open pull request discovery. */
  datatype Discovery = Discovery(members: map<Number, set<string>>, limits: seq<string>, discoveredAt: int)

  /** A discovered pull request; `staged` is present once it is completed. */
  datatype Item = Item(collections: set<string>, staged: Option<Hydrated>)

  datatype Generation = Generation(
    repository: string, phase: Phase, forced: bool, discoveredAt: int, limits: seq<string>,
    items: map<Number, Item>, progress: Option<Progress.Snapshot>, rediscovery: bool, retries: nat)

  datatype Entry = Entry(job: Job, generation: Option<Generation>)

  datatype PullRequestKey = PullRequestKey(repository: string, number: Number)

  datatype Membership = Membership(link: Progress.Link, number: Number)

  /** The counters of the last publication, as they are stored. */
  datatype Refresh = Refresh(reused: nat, hydrated: nat, forced: bool)

  datatype Counts = Counts(hits: nat, misses: nat, bypasses: nat)

  /** The tables shared by all repositories. */
  datatype Tables = Tables(
    links: set<Progress.Link>, active: set<string>, refreshes: map<string, Refresh>,
    rows: map<PullRequestKey, Cached>, members: set<Membership>, progress: Progress.Tables)

  predicate Active(job: Job) {
    job.status != Completed
  }

  predicate HasActiveJob(jobs: seq<Job>, repository: string) {
    exists k :: 0 <= k < |jobs| && Active(jobs[k]) && jobs[k].repository == repository
  }

  predicate Due(job: Job, now: int) {
    job.status == Queued && job.scheduledFor <= now
  }

  predicate Before(jobs: seq<Job>, j: nat, k: nat)
    requires j < |jobs| && k < |jobs|
  {
    jobs[j].scheduledFor < jobs[k].scheduledFor || (jobs[j].scheduledFor == jobs[k].scheduledFor && j <= k)
  }

  /** The claim takes the earliest due job, and the lower id of two. */
  predicate IsNextDue(jobs: seq<Job>, now: int, j: nat) {
    && j < |jobs| && Due(jobs[j], now)
    && forall k :: 0 <= k < |jobs| && Due(jobs[k], now) ==> Before(jobs, j, k)
  }

  predicate Configures(t: Tables, collection: string, repository: string) {
    Progress.Link(collection, repository) in t.links && collection in t.active
  }

  function ConfiguredCollections(t: Tables, repository: string): (collections: set<string>)
    ensures forall c :: c in collections <==> Configures(t, c, repository)
  {
    set l | l in t.links && l.repository == repository && l.collection in t.active :: l.collection
  }

  predicate Configured(t: Tables, repository: string) {
    ConfiguredCollections(t, repository) != {}
  }

  // ----- Generations -----

  predicate ValidDiscovery(d: Discovery) {
    forall n :: n in d.members ==> n > 0
  }

  function NewGeneration(job: Job, d: Discovery): Generation {
    Generation(job.repository, Hydrating, job.forced, d.discoveredAt, d.limits,
               map n | n in d.members :: Item(d.members[n], None), None, false, 0)
  }

  /** Rediscovery makes the members exactly the new set, and keeps the completed
      payload of every member that remains. */
  function Reconciled(g: Generation, d: Discovery): Generation {
    g.(phase := Hydrating, discoveredAt := d.discoveredAt, limits := d.limits,
       items := map n | n in d.members :: Item(d.members[n], if n in g.items then g.items[n].staged else None),
       progress := None, rediscovery := false, retries := 0)
  }

  function Pending(g: Generation): (numbers: set<Number>)
    ensures forall n :: n in numbers <==> n in g.items && g.items[n].staged.None?
  {
    set n | n in g.items && g.items[n].staged.None?
  }

  function Done(g: Generation): (numbers: set<Number>)
    ensures forall n :: n in numbers <==> n in g.items && g.items[n].staged.Some?
  {
    set n | n in g.items && g.items[n].staged.Some?
  }

  function WithOutcome(g: Generation, outcome: Outcome): set<Number> {
    set n | n in g.items && g.items[n].staged.Some? && g.items[n].staged.value.outcome == outcome
  }

  function CountsOf(g: Generation): Counts {
    Counts(|WithOutcome(g, Hit)|, |WithOutcome(g, Miss)|, |WithOutcome(g, Bypass)|)
  }

  /** The completed items, as LoadStagedRefreshPullRequests returns them. */
  function StagedItems(g: Option<Generation>): map<Number, Item> {
    if g.None? then map[] else map n | n in Done(g.value) :: g.value.items[n]
  }

  function Least(a: nat, b: nat): nat {
    if a < b then a else b
  }

  /** The first pending numbers of a hydrating generation, in order. */
  predicate IsNextOf(g: Option<Generation>, numbers: seq<Number>, limit: nat) {
    if g.None? || g.value.phase != Hydrating then numbers == []
    else
      && |numbers| == Least(limit, |Pending(g.value)|)
      && (forall i :: 0 <= i < |numbers| ==> numbers[i] in Pending(g.value))
      && (forall i, j :: 0 <= i < j < |numbers| ==> numbers[i] < numbers[j])
      && (forall n, i :: n in Pending(g.value) && n !in numbers && 0 <= i < |numbers| ==> numbers[i] < n)
  }

  predicate IsNextBatch(g: Option<Generation>, numbers: seq<Number>) {
    IsNextOf(g, numbers, BATCH_SIZE)
  }

  /** A batch commits only if every item is pending in a hydrating generation
      and carries a pull request of that generation's repository. */
  predicate BatchAccepted(g: Option<Generation>, staged: map<Number, Hydrated>) {
    && g.Some? && g.value.phase == Hydrating
    && forall n :: n in staged ==>
         n in Pending(g.value) && n > 0 && staged[n].pr.number == n && staged[n].pr.repository == g.value.repository
  }

  function WithBatch(g: Generation, staged: map<Number, Hydrated>): Generation {
    g.(items := map n | n in g.items :: if n in staged then g.items[n].(staged := Some(staged[n])) else g.items[n],
       retries := 0)
  }

  function Advanced(g: Generation, to: Phase, payload: Option<Progress.Snapshot>): Generation {
    g.(phase := to, progress := if payload.Some? then payload else g.progress, retries := 0)
  }

  // ----- Published rows -----

  function RowKeys(repository: string, numbers: set<Number>): (keys: set<PullRequestKey>)
    ensures forall k :: k in keys <==> k.repository == repository && k.number in numbers
  {
    set n | n in numbers :: PullRequestKey(repository, n)
  }

  function Upserted(rows: map<PullRequestKey, Cached>, repository: string,
                    published: map<Number, Cached>): map<PullRequestKey, Cached> {
    rows + map k | k in RowKeys(repository, published.Keys) :: published[k.number]
  }

  function AsRows(staged: map<Number, Hydrated>): map<Number, Cached> {
    map n | n in staged :: Cached(staged[n].pr, staged[n].fingerprint)
  }

  /** Who shall see the listed pull requests; an empty list of collections
      stands for every configured collection. */
  function Desired(configured: set<string>, repository: string, listed: map<Number, set<string>>,
                   implied: bool): (desired: set<Membership>)
    ensures forall m :: m in desired <==>
              && m.link.repository == repository && m.number in listed && m.link.collection in configured
              && (m.link.collection in listed[m.number] || (implied && listed[m.number] == {}))
  {
    set n, c | n in listed && c in configured && (c in listed[n] || (implied && listed[n] == {}))
      :: Membership(Progress.Link(c, repository), n)
  }

  /** A batch publishes its pull requests at once, without removing others. */
  function PublishBatch(t: Tables, repository: string, staged: map<Number, Hydrated>): Tables {
    t.(rows := Upserted(t.rows, repository, AsRows(staged)),
       members := t.members + Desired(ConfiguredCollections(t, repository), repository,
                                      map n | n in staged :: staged[n].pr.collections, false))
  }

  predicate SnapshotAccepted(t: Tables, repository: string, published: map<Number, Cached>) {
    && Configured(t, repository)
    && forall n, c :: n in published && c in published[n].pr.collections ==> Configures(t, c, repository)
  }

  function CollectionsOf(published: map<Number, Cached>): map<Number, set<string>> {
    map n | n in published :: published[n].pr.collections
  }

  function OfRepository(members: set<Membership>, repository: string): (selected: set<Membership>)
    ensures forall m :: m in selected <==> m in members && m.link.repository == repository
  {
    set m | m in members && m.link.repository == repository
  }

  function ReplaceMembers(members: set<Membership>, repository: string, desired: set<Membership>): set<Membership> {
    (members - OfRepository(members, repository)) + desired
  }

  function ReplaceRows(rows: map<PullRequestKey, Cached>, repository: string,
                       published: map<Number, Cached>): map<PullRequestKey, Cached> {
    Upserted(map k | k in rows && k.repository != repository :: rows[k], repository, published)
  }

  function Encode(counts: Counts, forced: bool): Refresh {
    Refresh(counts.hits, counts.misses + counts.bypasses, forced)
  }

  function Decode(refresh: Refresh): Counts {
    if refresh.forced then Counts(refresh.reused, 0, refresh.hydrated) else Counts(refresh.reused, refresh.hydrated, 0)
  }

  /** The final publication replaces everything a repository publishes. */
  function ReplaceSnapshot(t: Tables, repository: string, published: map<Number, Cached>, refresh: Refresh): Tables {
    t.(members := ReplaceMembers(t.members, repository,
                                 Desired(ConfiguredCollections(t, repository), repository, CollectionsOf(published),
                                         true)),
       rows := ReplaceRows(t.rows, repository, published),
       refreshes := t.refreshes[repository := refresh])
  }

  /** What the publishing step passes on: every staged payload, relabelled with
      the collections of the last discovery. */
  function Relabelled(staged: map<Number, Item>): map<Number, Cached>
    requires forall n :: n in staged ==> staged[n].staged.Some?
  {
    map n | n in staged ::
      Cached(staged[n].staged.value.pr.(collections := staged[n].collections), staged[n].staged.value.fingerprint)
  }

  function CachedRows(t: Tables, repository: string): map<Number, Cached> {
    map n | n in (set k | k in t.rows && k.repository == repository :: k.number)
        && PullRequestKey(repository, n) in t.rows
      :: t.rows[PullRequestKey(repository, n)]
  }

  // ----- Laws -----

  /** The two stored columns and the flag give back the three counters exactly
      when a forced publication has no misses and any other has no bypasses. */
  lemma CountsRoundTrip(counts: Counts, forced: bool)
    ensures Decode(Encode(counts, forced)) == counts <==> if forced then counts.misses == 0 else counts.bypasses == 0
  {
  }

  /** Pending and completed items partition the members, and outcomes partition
      the completed ones. */
  lemma ItemsArePartitioned(g: Generation)
    ensures |Pending(g)| + |Done(g)| == |g.items|
    ensures CountsOf(g).hits + CountsOf(g).misses + CountsOf(g).bypasses == |Done(g)|
  {
    assert Pending(g) + Done(g) == g.items.Keys;
    var hits, misses, bypasses := WithOutcome(g, Hit), WithOutcome(g, Miss), WithOutcome(g, Bypass);
    assert hits + misses + bypasses == Done(g);
    assert |hits + misses| == |hits| + |misses|;
  }

  /** After the final publication a repository shows exactly what was listed:
      its members, its rows, and nothing of any other repository changes. */
  lemma SnapshotIsExact(t: Tables, repository: string, published: map<Number, Cached>, refresh: Refresh)
    requires SnapshotAccepted(t, repository, published)
    ensures var u := ReplaceSnapshot(t, repository, published, refresh);
            && (forall m :: m in u.members && m.link.repository == repository <==>
                  && m.link.repository == repository && m.number in published
                  && if published[m.number].pr.collections == {} then Configures(t, m.link.collection, repository)
                     else m.link.collection in published[m.number].pr.collections)
            && (forall k :: k in u.rows && k.repository == repository <==>
                k.repository == repository && k.number in published)
            && (forall k :: k in u.rows && k.repository == repository ==> u.rows[k] == published[k.number])
            && (forall m: Membership :: m.link.repository != repository ==> (m in u.members <==> m in t.members))
            && (forall k: PullRequestKey :: k.repository != repository ==>
                (k in u.rows <==> k in t.rows) && (k in t.rows ==> u.rows[k] == t.rows[k]))
            && u == t.(members := u.members, rows := u.rows, refreshes := t.refreshes[repository := refresh])
  {
  }

  /** A committed batch shows each of its pull requests at once to the active
      collections it lists that hold the repository, and removes nothing. */
  lemma BatchIsExact(t: Tables, repository: string, staged: map<Number, Hydrated>)
    ensures var u := PublishBatch(t, repository, staged);
            && (forall m: Membership :: m in u.members <==>
                  || m in t.members
                  || (m.number in staged && m.link.repository == repository && m.link in t.links
                      && m.link.collection in t.active && m.link.collection in staged[m.number].pr.collections))
            && (forall n :: n in staged ==>
                  && PullRequestKey(repository, n) in u.rows
                  && u.rows[PullRequestKey(repository, n)] == Cached(staged[n].pr, staged[n].fingerprint))
            && (forall k: PullRequestKey :: !(k.repository == repository && k.number in staged) ==>
                (k in u.rows <==> k in t.rows) && (k in t.rows ==> u.rows[k] == t.rows[k]))
            && u == t.(members := u.members, rows := u.rows)
  {
    forall m: Membership | m.link.repository == repository
      ensures m.link == Progress.Link(m.link.collection, repository)
    {
    }
  }

  lemma ReplacingMembersIsFinal(members: set<Membership>, early: set<Membership>, desired: set<Membership>,
                                repository: string)
    requires forall m :: m in early || m in desired ==> m.link.repository == repository
    ensures ReplaceMembers(members + early, repository, desired) == ReplaceMembers(members, repository, desired)
    ensures ReplaceMembers(ReplaceMembers(members, repository, desired), repository, desired)
              == ReplaceMembers(members, repository, desired)
  {
  }

  lemma ReplacingRowsIsFinal(rows: map<PullRequestKey, Cached>, published: map<Number, Cached>, repository: string)
    ensures ReplaceRows(ReplaceRows(rows, repository, published), repository, published)
              == ReplaceRows(rows, repository, published)
  {
  }

  lemma ReplacingRowsAbsorbs(rows: map<PullRequestKey, Cached>, staged: map<Number, Cached>,
                             published: map<Number, Cached>, repository: string)
    ensures ReplaceRows(Upserted(rows, repository, staged), repository, published)
              == ReplaceRows(rows, repository, published)
  {
  }

  /** Publishing a snapshot again changes nothing. */
  lemma {:induction false} SnapshotReplay(t: Tables, repository: string, published: map<Number, Cached>,
                                          refresh: Refresh)
    ensures var once := ReplaceSnapshot(t, repository, published, refresh);
            ReplaceSnapshot(once, repository, published, refresh) == once
  {
    hide ReplaceMembers, ReplaceRows;
    var desired := Desired(ConfiguredCollections(t, repository), repository, CollectionsOf(published), true);
    ReplacingMembersIsFinal(t.members, {}, desired, repository);
    ReplacingRowsIsFinal(t.rows, published, repository);
  }

  /** The rows a batch wrote early are rows the final publication keeps:
      publishing a batch first does not change what is published in the end. */
  lemma {:induction false} EarlyBatchIsAbsorbed(t: Tables, repository: string, staged: map<Number, Hydrated>,
                                                published: map<Number, Cached>, refresh: Refresh)
    ensures ReplaceSnapshot(PublishBatch(t, repository, staged), repository, published, refresh)
         == ReplaceSnapshot(t, repository, published, refresh)
  {
    hide ReplaceMembers, ReplaceRows;
    var configured := ConfiguredCollections(t, repository);
    var desired := Desired(configured, repository, CollectionsOf(published), true);
    var early := Desired(configured, repository, map n | n in staged :: staged[n].pr.collections, false);
    ReplacingMembersIsFinal(t.members, early, desired, repository);
    ReplacingRowsAbsorbs(t.rows, AsRows(staged), published, repository);
  }

  /** Keeping completed work: a number stays completed by rediscovery exactly
      when it was completed before and is discovered again. */
  lemma RediscoveryKeepsCompletedWork(g: Generation, d: Discovery)
    ensures Reconciled(g, d).items.Keys == d.members.Keys
    ensures Done(Reconciled(g, d)) == Done(g) * d.members.Keys
    ensures forall n :: n in Done(Reconciled(g, d)) ==> Reconciled(g, d).items[n].staged == g.items[n].staged
  {
  }
}
