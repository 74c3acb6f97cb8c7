/** Hydration of discovered pull requests and reuse of persisted payloads.

    SHA-256 over a JSON body is modelled by `Digest`, a constructor applied to
    the hashed record: it is injective, and nothing else about it is used. */
module HydrationCache {
  import opened Wrappers

  const INPUT_FINGERPRINT_VERSION := "github-input-v1"

  /** Go's `int` on a 64-bit platform: the type of pull request numbers. */
  type Number = n: int | -0x8000_0000_0000_0000 <= n < 0x8000_0000_0000_0000

  datatype File = File(path: string, additions: nat, deletions: nat)

  datatype ExternalURL = ExternalURL(url: string, sourceKind: string, sourceID: string, discoveredAt: int)

  datatype Context = Context(
    completeness: string, limits: seq<string>, relationships: seq<string>,
    externalURLs: seq<ExternalURL>, collectedAt: int)

  datatype Readiness = NotCollected | Readiness(summary: string, collectedAt: int)

  datatype PullRequest = PullRequest(
    repository: string, number: Number, headSHA: string, title: string, body: string,
    author: string, authorID: int, authorAssociation: string, createdAt: int, updatedAt: int, url: string,
    additions: nat, deletions: nat, changedFiles: nat, reviewState: string, readiness: Readiness,
    context: Context, files: seq<File>, collections: set<string>)

  datatype Digest = Sha256(version: string, headSHA: string, input: PullRequest)

  datatype InputFingerprint = InputFingerprint(version: string, value: Digest)

  datatype Cached = Cached(pr: PullRequest, fingerprint: InputFingerprint)

  datatype Outcome = Hit | Miss | Bypass

  datatype Discovered = Discovered(number: Number, collections: set<string>, limits: seq<string>)

  /** What GitHub answers for one pull request: its facts, and the file list
      that a separate request would return. */
  datatype Observation = Observation(pr: PullRequest, fileList: seq<File>)

  datatype Hydrated = Hydrated(pr: PullRequest, fingerprint: InputFingerprint, outcome: Outcome)

  /** The pull request without the times at which facts were observed. */
  function EraseTimes(pr: PullRequest): PullRequest {
    pr.(context := pr.context.(
      collectedAt := 0,
      externalURLs := seq(|pr.context.externalURLs|, i requires 0 <= i < |pr.context.externalURLs| =>
        pr.context.externalURLs[i].(discoveredAt := 0))))
  }

  function FingerprintPullRequest(pr: PullRequest, headSHA: string): InputFingerprint {
    InputFingerprint(INPUT_FINGERPRINT_VERSION,
      Sha256(INPUT_FINGERPRINT_VERSION, headSHA, EraseTimes(pr).(readiness := NotCollected)))
  }

  /** The freshly collected pull request before its file list is fetched. */
  function Prepare(observed: PullRequest, item: Discovered): PullRequest {
    var limits := observed.context.limits + item.limits;
    observed.(
      files := [],
      collections := item.collections,
      context := observed.context.(
        limits := limits,
        completeness := if |limits| > 0 then "partial" else observed.context.completeness))
  }

  function Fingerprint(observed: PullRequest, item: Discovered): InputFingerprint {
    FingerprintPullRequest(Prepare(observed, item), observed.headSHA)
  }

  function HydrateOne(observation: Observation, item: Discovered, cached: Option<Cached>, forceFull: bool): Hydrated {
    var pr := Prepare(observation.pr, item);
    var fingerprint := FingerprintPullRequest(pr, observation.pr.headSHA);
    if !forceFull && cached.Some? && cached.value.fingerprint == fingerprint then
      Hydrated(cached.value.pr.(headSHA := pr.headSHA, readiness := pr.readiness, collections := item.collections),
               fingerprint, Hit)
    else
      Hydrated(if pr.changedFiles > 0 then pr.(files := observation.fileList) else pr,
               fingerprint, if forceFull then Bypass else Miss)
  }

  function CacheEntry(cached: map<Number, Cached>, number: Number): Option<Cached> {
    if number in cached then Some(cached[number]) else None
  }

  function CountOutcome(hydrated: seq<Hydrated>, outcome: Outcome): nat {
    if hydrated == [] then 0
    else CountOutcome(hydrated[..|hydrated| - 1], outcome)
         + (if hydrated[|hydrated| - 1].outcome == outcome then 1 else 0)
  }

  // ----- Facts and observation times -----

  /** The same URLs from the same sources, whenever they were discovered. */
  predicate SameURLs(a: seq<ExternalURL>, b: seq<ExternalURL>) {
    && |a| == |b|
    && forall i :: 0 <= i < |a| ==>
         a[i].url == b[i].url && a[i].sourceKind == b[i].sourceKind && a[i].sourceID == b[i].sourceID
  }

  /** The facts of the pull request itself and of what it refers to. */
  predicate SameDescription(a: PullRequest, b: PullRequest) {
    && a.repository == b.repository && a.number == b.number && a.headSHA == b.headSHA
    && a.title == b.title && a.body == b.body
    && a.author == b.author && a.authorID == b.authorID && a.authorAssociation == b.authorAssociation
    && a.createdAt == b.createdAt && a.updatedAt == b.updatedAt && a.url == b.url
    && a.additions == b.additions && a.deletions == b.deletions && a.changedFiles == b.changedFiles
    && a.reviewState == b.reviewState
    && a.context.relationships == b.context.relationships
    && SameURLs(a.context.externalURLs, b.context.externalURLs)
  }

  predicate SameLimits(a: PullRequest, b: PullRequest) {
    a.context.completeness == b.context.completeness && a.context.limits == b.context.limits
  }

  /** Everything but the times at which facts were observed. */
  predicate SameFacts(a: PullRequest, b: PullRequest) {
    && SameDescription(a, b) && SameLimits(a, b)
    && a.readiness == b.readiness && a.files == b.files && a.collections == b.collections
  }

  /** Two observations that hash alike: they may differ in readiness, in the
      file list and in observation times, and in how their limits are split
      between discovery and collection. */
  predicate SameInput(a: PullRequest, itemA: Discovered, b: PullRequest, itemB: Discovered) {
    && SameDescription(a, b) && itemA.collections == itemB.collections
    && a.context.limits + itemA.limits == b.context.limits + itemB.limits
    && (a.context.limits + itemA.limits == [] ==> a.context.completeness == b.context.completeness)
  }

  lemma SameFactsIff(a: PullRequest, b: PullRequest)
    ensures EraseTimes(a) == EraseTimes(b) <==> SameFacts(a, b)
  {
    var urlsA, urlsB := EraseTimes(a).context.externalURLs, EraseTimes(b).context.externalURLs;
    if EraseTimes(a) == EraseTimes(b) {
      forall i | 0 <= i < |a.context.externalURLs|
        ensures a.context.externalURLs[i].(discoveredAt := 0) == b.context.externalURLs[i].(discoveredAt := 0)
      {
        assert urlsA[i] == urlsB[i];
      }
    } else if SameURLs(a.context.externalURLs, b.context.externalURLs) {
      assert urlsA == urlsB;
    }
  }

  /** A payload is reused exactly if the collection is not forced and the input
      it was fingerprinted for agrees with the new one in every fact but
      readiness and the file list. */
  lemma ReuseIff(earlier: Observation, earlierItem: Discovered, earlierCached: Option<Cached>, earlierForced: bool,
                 payload: PullRequest, observation: Observation, item: Discovered, forceFull: bool)
    ensures var fingerprint := HydrateOne(earlier, earlierItem, earlierCached, earlierForced).fingerprint;
            HydrateOne(observation, item, Some(Cached(payload, fingerprint)), forceFull).outcome == Hit <==>
              !forceFull && SameInput(earlier.pr, earlierItem, observation.pr, item)
    ensures HydrateOne(observation, item, None, forceFull).outcome != Hit
  {
    var a := Prepare(earlier.pr, earlierItem).(readiness := NotCollected);
    var b := Prepare(observation.pr, item).(readiness := NotCollected);
    SameFactsIff(a, b);
  }

  /** Reuses the persisted payload when its fingerprint still matches, and
      otherwise keeps the fresh facts and attaches their file list. */
  method HydratePullRequest(observation: Observation, item: Discovered, cached: Option<Cached>, forceFull: bool)
    returns (hydrated: Hydrated)
    ensures hydrated == HydrateOne(observation, item, cached, forceFull)
    ensures forceFull <==> hydrated.outcome == Bypass
    ensures hydrated.outcome == Hit <==>
              !forceFull && cached.Some? && cached.value.fingerprint == hydrated.fingerprint
    ensures hydrated.outcome == Hit ==>
              hydrated.pr == cached.value.pr.(headSHA := observation.pr.headSHA,
                                              readiness := observation.pr.readiness,
                                              collections := item.collections)
    ensures hydrated.outcome != Hit ==>
              && SameDescription(hydrated.pr, observation.pr) && hydrated.pr.readiness == observation.pr.readiness
              && hydrated.pr.collections == item.collections
              && hydrated.pr.context.externalURLs == observation.pr.context.externalURLs
              && hydrated.pr.context.collectedAt == observation.pr.context.collectedAt
              && hydrated.pr.files == (if observation.pr.changedFiles > 0 then observation.fileList else [])
              && hydrated.pr.context.limits == observation.pr.context.limits + item.limits
              && hydrated.pr.context.completeness == if hydrated.pr.context.limits != [] then "partial"
                                                     else observation.pr.context.completeness
  {
    var pr := Prepare(observation.pr, item);
    var fingerprint := FingerprintPullRequest(pr, observation.pr.headSHA);
    if !forceFull && cached.Some? && cached.value.fingerprint == fingerprint {
      var headSHA, readiness := pr.headSHA, pr.readiness;
      pr := cached.value.pr;
      pr := pr.(headSHA := headSHA);
      pr := pr.(readiness := readiness);
      pr := pr.(collections := item.collections);
      return Hydrated(pr, fingerprint, Hit);
    }
    if pr.changedFiles > 0 {
      pr := pr.(files := observation.fileList);
    }
    hydrated := Hydrated(pr, fingerprint, if forceFull then Bypass else Miss);
  }

  /** The first `n` items hydrated one by one, without counters. */
  function HydrateAll(discovered: seq<Discovered>, observe: map<Number, Observation>,
                      cached: map<Number, Cached>, forceFull: bool, n: nat): (hydrated: seq<Hydrated>)
    requires n <= |discovered| && forall i :: 0 <= i < n ==> discovered[i].number in observe
    ensures |hydrated| == n
  {
    if n == 0 then []
    else
      var item := discovered[n - 1];
      HydrateAll(discovered, observe, cached, forceFull, n - 1)
      + [HydrateOne(observe[item.number], item, CacheEntry(cached, item.number), forceFull)]
  }

  /** The counters of a hydrated list. */
  predicate Tallied(hydrated: seq<Hydrated>, forceFull: bool, hits: nat, misses: nat, bypasses: nat) {
    && hits == CountOutcome(hydrated, Hit) && misses == CountOutcome(hydrated, Miss)
    && bypasses == CountOutcome(hydrated, Bypass)
    && hits + misses + bypasses == |hydrated|
    && (if forceFull then hits == misses == 0 else bypasses == 0)
  }

  lemma TallyOneMore(hydrated: seq<Hydrated>, next: Hydrated, forceFull: bool, hits: nat, misses: nat, bypasses: nat)
    requires Tallied(hydrated, forceFull, hits, misses, bypasses) && (forceFull <==> next.outcome == Bypass)
    ensures Tallied(hydrated + [next], forceFull,
                    if next.outcome == Hit then hits + 1 else hits,
                    if next.outcome == Miss then misses + 1 else misses,
                    if next.outcome == Bypass then bypasses + 1 else bypasses)
  {
    CountOneMore(hydrated, next, Hit);
    CountOneMore(hydrated, next, Miss);
    CountOneMore(hydrated, next, Bypass);
  }

  lemma NothingTallied(forceFull: bool)
    ensures Tallied([], forceFull, 0, 0, 0)
  {
  }

  lemma CountOneMore(hydrated: seq<Hydrated>, next: Hydrated, outcome: Outcome)
    ensures CountOutcome(hydrated + [next], outcome) == CountOutcome(hydrated, outcome)
              + (if next.outcome == outcome then 1 else 0)
  {
    assert (hydrated + [next])[..|hydrated|] == hydrated;
  }

  /** Hydrates one batch in order, and stops at the first failed observation. */
  method HydrateBatch(discovered: seq<Discovered>, observe: map<Number, Observation>,
                      cached: map<Number, Cached>, forceFull: bool)
    returns (result: Result<seq<Hydrated>>, hits: nat, misses: nat, bypasses: nat)
    ensures result.Err? <==> exists i :: 0 <= i < |discovered| && discovered[i].number !in observe
    ensures result.Ok? ==>
              && result.value == HydrateAll(discovered, observe, cached, forceFull, |discovered|)
              && Tallied(result.value, forceFull, hits, misses, bypasses)
  {
    hide HydrateOne, CacheEntry, CountOutcome, Tallied;
    var hydrated := [];
    NothingTallied(forceFull);
    hits, misses, bypasses := 0, 0, 0;
    for index := 0 to |discovered|
      invariant forall i :: 0 <= i < index ==> discovered[i].number in observe
      invariant hydrated == HydrateAll(discovered, observe, cached, forceFull, index)
      invariant Tallied(hydrated, forceFull, hits, misses, bypasses)
    {
      var item := discovered[index];
      if item.number !in observe {
        return Err("incomplete"), hits, misses, bypasses;
      }
      var next := HydratePullRequest(observe[item.number], item, CacheEntry(cached, item.number), forceFull);
      TallyOneMore(hydrated, next, forceFull, hits, misses, bypasses);
      match next.outcome {
        case Hit => hits := hits + 1;
        case Miss => misses := misses + 1;
        case Bypass => bypasses := bypasses + 1;
      }
      hydrated := hydrated + [next];
    }
    result := Ok(hydrated);
  }

  /** The file list a fingerprinted input stands for, given the assumption that
      GitHub's file list is a function of that input. */
  function FilesFor(filesOf: Digest -> seq<File>, digest: Digest): seq<File> {
    if digest.input.changedFiles > 0 then filesOf(digest) else []
  }

  ghost predicate Truthful(filesOf: Digest -> seq<File>, observation: Observation, item: Discovered) {
    observation.fileList == filesOf(Fingerprint(observation.pr, item).value)
  }

  /** A stored payload agrees with the input its fingerprint stands for in
      everything except observation times, readiness and collection ids. */
  ghost predicate Faithful(filesOf: Digest -> seq<File>, cached: Cached) {
    var digest := cached.fingerprint.value;
    && SameDescription(cached.pr, digest.input) && SameLimits(cached.pr, digest.input)
    && digest.headSHA == digest.input.headSHA
    && cached.pr.files == FilesFor(filesOf, digest)
  }

  /** A fingerprint stands for the facts of what it was computed from. */
  lemma FingerprintKeepsFacts(pr: PullRequest, headSHA: string)
    ensures var input := FingerprintPullRequest(pr, headSHA).value.input;
            SameDescription(pr, input) && SameLimits(pr, input)
  {
  }

  /** A hydrated pull request may itself be stored and reused. */
  lemma HydrationIsFaithful(filesOf: Digest -> seq<File>, observation: Observation, item: Discovered,
                            cached: Option<Cached>, forceFull: bool)
    requires Truthful(filesOf, observation, item)
    requires cached.Some? ==> Faithful(filesOf, cached.value)
    ensures var hydrated := HydrateOne(observation, item, cached, forceFull);
            Faithful(filesOf, Cached(hydrated.pr, hydrated.fingerprint))
  {
    FingerprintKeepsFacts(Prepare(observation.pr, item), observation.pr.headSHA);
  }

  /** The final publication rewrites only the collection ids of a payload. */
  lemma RelabelIsFaithful(filesOf: Digest -> seq<File>, cached: Cached, collections: set<string>)
    requires Faithful(filesOf, cached)
    ensures Faithful(filesOf, cached.(pr := cached.pr.(collections := collections)))
  {
  }

  /** Reuse is transparent: hydration yields the facts that full collection
      would have yielded, and differs only in the times they were observed. */
  lemma CacheIsTransparent(filesOf: Digest -> seq<File>, observation: Observation, item: Discovered,
                           cached: Option<Cached>, forceFull: bool)
    requires Truthful(filesOf, observation, item)
    requires cached.Some? ==> Faithful(filesOf, cached.value)
    ensures var hydrated := HydrateOne(observation, item, cached, forceFull);
            var collected := HydrateOne(observation, item, None, forceFull);
            SameFacts(hydrated.pr, collected.pr) && hydrated.fingerprint == collected.fingerprint
  {
    FingerprintKeepsFacts(Prepare(observation.pr, item), observation.pr.headSHA);
  }
}
