/** Model-inferred groups of related pull requests: what is known before the
    model answers, what an answer must satisfy, and when it is published.

    Group ids are hashes of the sorted member ids, and are modelled by the
    member set itself. Edge keys are joined with a byte no id contains, and are
    modelled by the triple. Texts are given with their white space normalised. */
module Correlation {
  import opened Wrappers

  const MAX_PULL_REQUESTS_PER_REQUEST: nat := 200
  const MAX_GROUPS_PER_RESPONSE: nat := 100
  const MAX_MEMBERS_PER_GROUP: nat := 50
  const MAX_EDGES_PER_GROUP: nat := 200
  const MAX_NAME_RUNES: nat := 120
  const MAX_DESCRIPTION_RUNES: nat := 500
  const MAX_REASON_RUNES: nat := 500
  const MAX_SOURCE_IDS: nat := 20

  datatype EdgeType = Duplicated | CompetingDesign | StackedOnTopOf | RelatedTo | OtherType(name: string)

  /** Collected evidence: `entityID` is the issue or pull request it refers to. */
  datatype Source = Source(id: string, entityID: string, repository: string, number: int, title: string, state: string,
                           url: string)

  datatype PullRequest = PullRequest(
    sourceID: string, repository: string, number: int, title: string, url: string, state: string,
        relationships: seq<Source>)

  datatype Request = Request(collection: string, chunk: nat, chunks: nat, pullRequests: seq<PullRequest>)

  datatype Member = Member(sourceID: string, repository: string, number: int, title: string, state: string, url: string)

  datatype Evidence = Evidence(owner: string, entityID: string)

  datatype Edge = Edge(from: string, to: string, kind: EdgeType, confidence: string, reason: string,
                       sourceIDs: seq<string>)

  /** One group as the model answered it. */
  datatype Candidate = Candidate(
    name: string, description: string, confidence: string, sourceIDs: seq<string>, members: seq<string>,
        edges: seq<Edge>)

  datatype Group = Group(id: set<string>, members: map<string, Member>, content: Candidate)

  // ----- Chunks -----

  /** The sorted pull requests of a collection in chunks of two hundred. */
  method BuildRequests(collection: string, pullRequests: seq<PullRequest>) returns (requests: seq<Request>)
    ensures |requests| == (|pullRequests| + MAX_PULL_REQUESTS_PER_REQUEST - 1) / MAX_PULL_REQUESTS_PER_REQUEST
    ensures Listed(requests, |requests|) == pullRequests
    ensures forall i :: 0 <= i < |requests| ==>
              && requests[i] == Request(collection, i + 1, |requests|, requests[i].pullRequests)
              && 0 < |requests[i].pullRequests| <= MAX_PULL_REQUESTS_PER_REQUEST
  {
    var chunks := (|pullRequests| + MAX_PULL_REQUESTS_PER_REQUEST - 1) / MAX_PULL_REQUESTS_PER_REQUEST;
    requests := [];
    for chunk := 0 to chunks
      invariant |requests| == chunk
      invariant forall i :: 0 <= i < chunk ==>
                  && requests[i] == Request(collection, i + 1, chunks, requests[i].pullRequests)
                  && 0 < |requests[i].pullRequests| <= MAX_PULL_REQUESTS_PER_REQUEST
      invariant Listed(requests, chunk)
             == pullRequests[..if chunk * MAX_PULL_REQUESTS_PER_REQUEST < |pullRequests|
                             then chunk * MAX_PULL_REQUESTS_PER_REQUEST else |pullRequests|]
    {
      var start := chunk * MAX_PULL_REQUESTS_PER_REQUEST;
      var end := if start + MAX_PULL_REQUESTS_PER_REQUEST < |pullRequests| then start + MAX_PULL_REQUESTS_PER_REQUEST
          else |pullRequests|;
      var longer := requests + [Request(collection, chunk + 1, chunks, pullRequests[start..end])];
      ListedPrefix(requests, longer, chunk);
      assert pullRequests[..start] + pullRequests[start..end] == pullRequests[..end];
      requests := longer;
    }
  }

  function Listed(requests: seq<Request>, n: nat): seq<PullRequest>
    requires n <= |requests|
  {
    if n == 0 then [] else Listed(requests, n - 1) + requests[n - 1].pullRequests
  }

  lemma {:induction false} ListedPrefix(a: seq<Request>, b: seq<Request>, n: nat)
    requires n <= |a| && n <= |b| && forall i :: 0 <= i < n ==> a[i] == b[i]
    ensures Listed(a, n) == Listed(b, n)
  {
    if n > 0 {
      ListedPrefix(a, b, n - 1);
    }
  }

  // ----- What is known -----

  function OwnMember(pr: PullRequest): Member {
    Member(pr.sourceID, pr.repository, pr.number, pr.title, pr.state, pr.url)
  }

  /** A referenced pull request that is no longer open may be a member too. */
  predicate IsFinished(source: Source) {
    "PR_" <= source.entityID && (source.state == "closed" || source.state == "merged")
  }

  function ReferencedMember(source: Source): Member {
    Member(source.entityID, source.repository, source.number, source.title, source.state, source.url)
  }

  datatype Known = Known(members: map<string, Member>, evidence: map<string, Evidence>)

  function WithSource(known: Known, owner: string, source: Source): Known {
    Known(if IsFinished(source) && source.entityID !in known.members
            then known.members[source.entityID := ReferencedMember(source)] else known.members,
          known.evidence[source.id := Evidence(owner, source.entityID)])
  }

  function WithSources(known: Known, pr: PullRequest, n: nat): Known
    requires n <= |pr.relationships|
  {
    if n == 0 then
      Known(known.members[pr.sourceID := OwnMember(pr)],
            known.evidence[pr.sourceID := Evidence(pr.sourceID, pr.sourceID)])
    else WithSource(WithSources(known, pr, n - 1), pr.sourceID, pr.relationships[n - 1])
  }

  function KnownAfter(prs: seq<PullRequest>, n: nat): Known
    requires n <= |prs|
  {
    if n == 0 then Known(map[], map[]) else WithSources(KnownAfter(prs, n - 1), prs[n - 1], |prs[n - 1].relationships|)
  }

  function KnownOf(request: Request): Known {
    KnownAfter(request.pullRequests, |request.pullRequests|)
  }

  method KnownSources(request: Request) returns (members: map<string, Member>, evidence: map<string, Evidence>)
    ensures Known(members, evidence) == KnownOf(request)
    ensures KnownExactly(Known(members, evidence), request.pullRequests, |request.pullRequests|,
                         LastCount(request.pullRequests, |request.pullRequests|))
  {
    hide KnownExactly;
    KnownIsExact(request.pullRequests, |request.pullRequests|);
    members, evidence := map[], map[];
    for i := 0 to |request.pullRequests|
      invariant Known(members, evidence) == KnownAfter(request.pullRequests, i)
    {
      var pr := request.pullRequests[i];
      ghost var before := Known(members, evidence);
      members := members[pr.sourceID := OwnMember(pr)];
      evidence := evidence[pr.sourceID := Evidence(pr.sourceID, pr.sourceID)];
      for k := 0 to |pr.relationships|
        invariant Known(members, evidence) == WithSources(before, pr, k)
      {
        var source := pr.relationships[k];
        evidence := evidence[source.id := Evidence(pr.sourceID, source.entityID)];
        if IsFinished(source) {
          if source.entityID !in members {
            members := members[source.entityID := ReferencedMember(source)];
          }
        }
      }
    }
  }

  predicate IsOwn(prs: seq<PullRequest>, n: nat, m: Member)
    requires n <= |prs|
  {
    exists i :: 0 <= i < n && OwnMember(prs[i]) == m
  }

  /** Known members carry their own id, and every open one is a pull request of
      the request. */
  ghost predicate MembersOk(known: Known, prs: seq<PullRequest>, n: nat)
    requires n <= |prs|
  {
    forall id :: id in known.members ==>
      known.members[id].sourceID == id && (known.members[id].state == "open" ==> IsOwn(prs, n, known.members[id]))
  }

  lemma {:induction false} SourcesKeepMembers(known: Known, prs: seq<PullRequest>, n: nat, k: nat)
    requires 0 < n <= |prs| && k <= |prs[n - 1].relationships| && MembersOk(known, prs, n - 1)
    ensures MembersOk(WithSources(known, prs[n - 1], k), prs, n)
  {
    if k > 0 {
      SourcesKeepMembers(known, prs, n, k - 1);
    } else {
      assert IsOwn(prs, n, OwnMember(prs[n - 1]));
      forall m | IsOwn(prs, n - 1, m) ensures IsOwn(prs, n, m) {
      }
    }
  }

  lemma {:induction false} OpenMembersAreListed(prs: seq<PullRequest>, n: nat)
    requires n <= |prs|
    ensures MembersOk(KnownAfter(prs, n), prs, n)
  {
    if n > 0 {
      OpenMembersAreListed(prs, n - 1);
      SourcesKeepMembers(KnownAfter(prs, n - 1), prs, n, |prs[n - 1].relationships|);
    }
  }

  // ----- Exactly what is known -----

  /** The relationship with index `j` of pull request `i` is among those of the
      first `n`, of whose last only the first `k` count. */
  predicate Among(prs: seq<PullRequest>, n: nat, k: nat, i: int, j: int)
    requires n <= |prs|
  {
    0 <= i < n && 0 <= j < |prs[i].relationships| && (i == n - 1 ==> j < k)
  }

  predicate OwnAs(prs: seq<PullRequest>, n: nat, id: string, m: Member)
    requires n <= |prs|
  {
    exists i :: 0 <= i < n && prs[i].sourceID == id
                && m == Member(id, prs[i].repository, prs[i].number, prs[i].title, prs[i].state, prs[i].url)
  }

  predicate Owned(prs: seq<PullRequest>, n: nat, id: string)
    requires n <= |prs|
  {
    exists i :: 0 <= i < n && prs[i].sourceID == id
  }

  predicate ClosedAs(source: Source, id: string, m: Member) {
    && source.entityID == id && "PR_" <= id && source.state in {"closed", "merged"}
    && m == Member(id, source.repository, source.number, source.title, source.state, source.url)
  }

  ghost predicate FinishedAs(prs: seq<PullRequest>, n: nat, k: nat, id: string, m: Member)
    requires n <= |prs|
  {
    exists i, j :: Among(prs, n, k, i, j) && ClosedAs(prs[i].relationships[j], id, m)
  }

  ghost predicate CitedAs(prs: seq<PullRequest>, n: nat, k: nat, id: string, e: Evidence)
    requires n <= |prs|
  {
    exists i, j :: Among(prs, n, k, i, j) && prs[i].relationships[j].id == id
                   && e == Evidence(prs[i].sourceID, prs[i].relationships[j].entityID)
  }

  /** Known members are the pull requests of the request and the finished pull
      requests they refer to, and a listed one stands for itself. Known evidence
      is each pull request for itself and each relationship for its owner. */
  ghost predicate KnownExactly(known: Known, prs: seq<PullRequest>, n: nat, k: nat)
    requires n <= |prs|
  {
    && (forall id :: Owned(prs, n, id) ==> id in known.members && id in known.evidence)
    && (forall id :: id in known.members ==>
          if Owned(prs, n, id) then OwnAs(prs, n, id, known.members[id])
          else FinishedAs(prs, n, k, id, known.members[id]))
    && (forall id, m :: FinishedAs(prs, n, k, id, m) ==> id in known.members)
    && (forall id :: id in known.evidence ==>
          (Owned(prs, n, id) && known.evidence[id] == Evidence(id, id)) || CitedAs(prs, n, k, id, known.evidence[id]))
    && (forall id, e :: CitedAs(prs, n, k, id, e) ==> id in known.evidence)
  }

  lemma SourceIsKnown(known: Known, prs: seq<PullRequest>, n: nat, k: nat, next: nat)
    requires 0 < n <= |prs| && k < |prs[n - 1].relationships| && next == k + 1 && KnownExactly(known, prs, n, k)
    ensures KnownExactly(WithSource(known, prs[n - 1].sourceID, prs[n - 1].relationships[k]), prs, n, next)
  {
    hide OwnAs, Owned, Among;
    var source, owner := prs[n - 1].relationships[k], prs[n - 1].sourceID;
    forall id, m
      ensures FinishedAs(prs, n, next, id, m) <==> FinishedAs(prs, n, k, id, m) || ClosedAs(source, id, m)
    {
      FinishedMore(prs, n, k, id, m);
    }
    forall id, e
      ensures CitedAs(prs, n, next, id, e) <==>
                CitedAs(prs, n, k, id, e) || (source.id == id && e == Evidence(owner, source.entityID))
    {
      CitedMore(prs, n, k, id, e);
    }
    assert IsFinished(source) ==> ClosedAs(source, source.entityID, ReferencedMember(source));
    assert CitedAs(prs, n, next, source.id, Evidence(owner, source.entityID));
  }

  lemma FinishedMore(prs: seq<PullRequest>, n: nat, k: nat, id: string, m: Member)
    requires 0 < n <= |prs| && k < |prs[n - 1].relationships|
    ensures FinishedAs(prs, n, k + 1, id, m) <==>
              FinishedAs(prs, n, k, id, m) || ClosedAs(prs[n - 1].relationships[k], id, m)
  {
    assert Among(prs, n, k + 1, n - 1, k);
    forall i, j ensures Among(prs, n, k + 1, i, j) <==> Among(prs, n, k, i, j) || (i == n - 1 && j == k) {
    }
  }

  lemma CitedMore(prs: seq<PullRequest>, n: nat, k: nat, id: string, e: Evidence)
    requires 0 < n <= |prs| && k < |prs[n - 1].relationships|
    ensures CitedAs(prs, n, k + 1, id, e) <==>
              || CitedAs(prs, n, k, id, e)
              || (prs[n - 1].relationships[k].id == id
                  && e == Evidence(prs[n - 1].sourceID, prs[n - 1].relationships[k].entityID))
  {
    assert Among(prs, n, k + 1, n - 1, k);
    forall i, j ensures Among(prs, n, k + 1, i, j) <==> Among(prs, n, k, i, j) || (i == n - 1 && j == k) {
    }
  }

  /** How many relationships the last of the first `n` has. */
  function LastCount(prs: seq<PullRequest>, n: nat): nat
    requires n <= |prs|
  {
    if n == 0 then 0 else |prs[n - 1].relationships|
  }

  lemma SameAmong(prs: seq<PullRequest>, n: nat)
    requires 0 < n <= |prs|
    ensures forall i, j :: Among(prs, n, 0, i, j) <==> Among(prs, n - 1, LastCount(prs, n - 1), i, j)
    ensures forall id :: Owned(prs, n, id) <==> Owned(prs, n - 1, id) || prs[n - 1].sourceID == id
    ensures forall id, m :: OwnAs(prs, n - 1, id, m) ==> OwnAs(prs, n, id, m)
  {
  }

  lemma OwnIsKnown(known: Known, prs: seq<PullRequest>, n: nat)
    requires 0 < n <= |prs| && KnownExactly(known, prs, n - 1, LastCount(prs, n - 1))
    ensures KnownExactly(WithSources(known, prs[n - 1], 0), prs, n, 0)
  {
    hide Among, Owned, OwnAs, LastCount;
    SameAmong(prs, n);
    assert OwnAs(prs, n, prs[n - 1].sourceID, OwnMember(prs[n - 1])) by { OwnsItself(prs, n); }
    forall id, m ensures FinishedAs(prs, n, 0, id, m) <==> FinishedAs(prs, n - 1, LastCount(prs, n - 1), id, m) {
    }
    forall id, e ensures CitedAs(prs, n, 0, id, e) <==> CitedAs(prs, n - 1, LastCount(prs, n - 1), id, e) {
    }
  }

  lemma OwnsItself(prs: seq<PullRequest>, n: nat)
    requires 0 < n <= |prs|
    ensures OwnAs(prs, n, prs[n - 1].sourceID, OwnMember(prs[n - 1]))
  {
  }

  lemma {:induction false} SourcesAreKnown(known: Known, prs: seq<PullRequest>, n: nat, k: nat)
    requires 0 < n <= |prs| && k <= |prs[n - 1].relationships|
    requires KnownExactly(known, prs, n - 1, LastCount(prs, n - 1))
    ensures KnownExactly(WithSources(known, prs[n - 1], k), prs, n, k)
  {
    hide KnownExactly, WithSource;
    if k == 0 {
      OwnIsKnown(known, prs, n);
    } else {
      SourcesAreKnown(known, prs, n, k - 1);
      SourceIsKnown(WithSources(known, prs[n - 1], k - 1), prs, n, k - 1, k);
    }
  }

  lemma {:induction false} KnownIsExact(prs: seq<PullRequest>, n: nat)
    requires n <= |prs|
    ensures KnownExactly(KnownAfter(prs, n), prs, n, LastCount(prs, n))
  {
    hide KnownExactly, WithSources;
    if n == 0 {
      NothingKnown(prs);
    } else {
      KnownIsExact(prs, n - 1);
      SourcesAreKnown(KnownAfter(prs, n - 1), prs, n, |prs[n - 1].relationships|);
    }
  }

  lemma NothingKnown(prs: seq<PullRequest>)
    ensures KnownExactly(Known(map[], map[]), prs, 0, 0)
  {
  }

  // ----- What an answer must satisfy -----

  predicate ValidConfidence(value: string) {
    value == "medium" || value == "high"
  }

  predicate ValidText(value: string, limit: nat) {
    0 < |value| <= limit
  }

  predicate Distinct<T(==)>(values: seq<T>) {
    forall i, k :: 0 <= i < k < |values| ==> values[i] != values[k]
  }

  predicate About(evidence: Evidence, relevant: set<string>) {
    evidence.owner in relevant || evidence.entityID in relevant
  }

  predicate EvidenceOk(ids: seq<string>, known: map<string, Evidence>, relevant: set<string>) {
    && 0 < |ids| <= MAX_SOURCE_IDS && Distinct(ids)
    && forall i :: 0 <= i < |ids| ==> ids[i] in known && About(known[ids[i]], relevant)
  }

  /** Two edges state the same fact: only stacking has a direction. */
  predicate SameEdge(a: Edge, b: Edge) {
    && a.kind == b.kind
    && ((a.from == b.from && a.to == b.to) || (a.kind != StackedOnTopOf && a.from == b.to && a.to == b.from))
  }

  predicate EdgeOk(e: Edge, memberIDs: set<string>, known: map<string, Evidence>) {
    && !e.kind.OtherType? && ValidConfidence(e.confidence) && ValidText(e.reason, MAX_REASON_RUNES)
    && e.from != e.to && e.from in memberIDs && e.to in memberIDs
    && EvidenceOk(e.sourceIDs, known, {e.from, e.to})
  }

  predicate EdgesOk(edges: seq<Edge>, memberIDs: set<string>, known: map<string, Evidence>) {
    && |edges| <= MAX_EDGES_PER_GROUP
    && (forall i :: 0 <= i < |edges| ==> EdgeOk(edges[i], memberIDs, known))
    && (forall i, k :: 0 <= i < k < |edges| ==> !SameEdge(edges[i], edges[k]))
  }

  function Ids(values: seq<string>): set<string> {
    set v | v in values
  }

  predicate CandidateOk(c: Candidate, known: Known) {
    && ValidText(c.name, MAX_NAME_RUNES) && ValidText(c.description, MAX_DESCRIPTION_RUNES)
    && ValidConfidence(c.confidence)
    && 2 <= |c.members| <= MAX_MEMBERS_PER_GROUP && Distinct(c.members)
    && (forall i :: 0 <= i < |c.members| ==> c.members[i] in known.members)
    && (exists i ::
        0 <= i < |c.members| && c.members[i] in known.members && known.members[c.members[i]].state == "open")
    && EvidenceOk(c.sourceIDs, known.evidence, Ids(c.members))
    && EdgesOk(c.edges, Ids(c.members), known.evidence)
  }

  function GroupOf(c: Candidate, known: Known): Group {
    Group(Ids(c.members), map id | id in Ids(c.members) && id in known.members :: known.members[id], c)
  }

  predicate ResponseOk(candidates: seq<Candidate>, known: Known) {
    && |candidates| <= MAX_GROUPS_PER_RESPONSE
    && (forall i :: 0 <= i < |candidates| ==> CandidateOk(candidates[i], known))
    && (forall i, k :: 0 <= i < k < |candidates| ==> Ids(candidates[i].members) != Ids(candidates[k].members))
  }

  function GroupsOf(candidates: seq<Candidate>, known: Known, n: nat): seq<Group>
    requires n <= |candidates|
  {
    if n == 0 then [] else GroupsOf(candidates, known, n - 1) + [GroupOf(candidates[n - 1], known)]
  }

  /** The group consists of the members the candidate lists, as they are known. */
  ghost predicate IsGroup(g: Group, c: Candidate, known: Known) {
    && g.content == c && g.members.Keys == g.id
    && (forall id :: id in g.id <==> id in c.members)
    && (forall id :: id in g.id ==> id in known.members && g.members[id] == known.members[id])
  }

  lemma CandidateIsGroup(c: Candidate, known: Known)
    requires CandidateOk(c, known)
    ensures IsGroup(GroupOf(c, known), c, known)
  {
    hide EvidenceOk, EdgesOk;
  }

  /** Every candidate becomes a group, in order. */
  lemma {:induction false} GroupsAreCandidates(candidates: seq<Candidate>, known: Known, n: nat)
    requires n <= |candidates| && forall i :: 0 <= i < n ==> CandidateOk(candidates[i], known)
    ensures |GroupsOf(candidates, known, n)| == n
    ensures forall i :: 0 <= i < n ==> IsGroup(GroupsOf(candidates, known, n)[i], candidates[i], known)
  {
    hide CandidateOk, IsGroup, GroupOf;
    if n > 0 {
      GroupsAreCandidates(candidates, known, n - 1);
      CandidateIsGroup(candidates[n - 1], known);
    }
  }

  method ValidateEvidence(ids: seq<string>, known: map<string, Evidence>, relevant: set<string>) returns (ok: bool)
    ensures ok == EvidenceOk(ids, known, relevant)
    ensures ok <==>
              && 1 <= |ids| <= 20 && (forall i, k :: 0 <= i < k < |ids| ==> ids[i] != ids[k])
              && forall i :: 0 <= i < |ids| ==>
                   ids[i] in known && (known[ids[i]].owner in relevant || known[ids[i]].entityID in relevant)
  {
    if |ids| == 0 || |ids| > MAX_SOURCE_IDS {
      return false;
    }
    var seen: set<string> := {};
    for i := 0 to |ids|
      invariant seen == Ids(ids[..i])
      invariant forall k :: 0 <= k < i ==> ids[k] in known && About(known[ids[k]], relevant)
      invariant forall k, l :: 0 <= k < l < i ==> ids[k] != ids[l]
    {
      var id := ids[i];
      if id !in known {
        return false;
      }
      if known[id].owner !in relevant && known[id].entityID !in relevant {
        return false;
      }
      if id in seen {
        var k :| 0 <= k < i && ids[..i][k] == id;
        assert ids[k] == ids[i];
        return false;
      }
      assert ids[..i + 1] == ids[..i] + [id];
      seen := seen + {id};
    }
    ok := true;
  }

  /** The order of two strings, char by char. */
  predicate LessFrom(a: string, b: string, i: nat)
    requires i <= |a| && i <= |b|
    decreases |a| - i
  {
    if i == |b| then false
    else if i == |a| then true
    else if a[i] != b[i] then a[i] < b[i]
    else LessFrom(a, b, i + 1)
  }

  datatype EdgeKey = EdgeKey(kind: EdgeType, from: string, to: string)

  function KeyOf(e: Edge): EdgeKey {
    if e.kind != StackedOnTopOf && LessFrom(e.to, e.from, 0) then EdgeKey(e.kind, e.to, e.from)
        else EdgeKey(e.kind, e.from, e.to)
  }

  lemma {:induction false} OneIsLess(a: string, b: string, i: nat)
    requires i <= |a| && i <= |b| && a[..i] == b[..i] && a != b
    ensures LessFrom(a, b, i) <==> !LessFrom(b, a, i)
    decreases |a| - i
  {
    assert a[..|a|] == a && b[..|b|] == b;
    if i < |a| && i < |b| && a[i] == b[i] {
      assert a[..i + 1] == a[..i] + [a[i]] && b[..i + 1] == b[..i] + [b[i]];
      OneIsLess(a, b, i + 1);
    }
  }

  /** Keys coincide exactly for edges that state the same fact. */
  lemma SameKeyIffSameEdge(a: Edge, b: Edge)
    requires a.from != a.to && b.from != b.to
    ensures KeyOf(a) == KeyOf(b) <==> SameEdge(a, b)
  {
    hide LessFrom;
    OneIsLess(a.from, a.to, 0);
    OneIsLess(b.from, b.to, 0);
  }

  method ValidateEdges(edges: seq<Edge>, memberIDs: set<string>, known: map<string, Evidence>) returns (ok: bool)
    ensures ok == EdgesOk(edges, memberIDs, known)
    ensures ok <==>
              && |edges| <= 200
              && (forall i :: 0 <= i < |edges| ==>
                    && edges[i].kind in {Duplicated, CompetingDesign, StackedOnTopOf, RelatedTo}
                    && edges[i].confidence in {"medium", "high"} && 1 <= |edges[i].reason| <= 500
                    && edges[i].from != edges[i].to && edges[i].from in memberIDs && edges[i].to in memberIDs
                    && EvidenceOk(edges[i].sourceIDs, known, {edges[i].from, edges[i].to}))
              && (forall i, k :: 0 <= i < k < |edges| && edges[i].kind == edges[k].kind ==>
                    && (edges[i].from != edges[k].from || edges[i].to != edges[k].to)
                    && (edges[i].kind != StackedOnTopOf ==>
                          edges[i].from != edges[k].to || edges[i].to != edges[k].from))
  {
    if |edges| > MAX_EDGES_PER_GROUP {
      return false;
    }
    var seen: set<EdgeKey> := {};
    for i := 0 to |edges|
      invariant forall k :: 0 <= k < i ==> EdgeOk(edges[k], memberIDs, known)
      invariant forall key :: key in seen <==> exists k :: 0 <= k < i && KeyOf(edges[k]) == key
      invariant forall k, l :: 0 <= k < l < i ==> !SameEdge(edges[k], edges[l])
    {
      hide EvidenceOk, KeyOf, SameEdge;
      var e := edges[i];
      var grounded := ValidateEvidence(e.sourceIDs, known, {e.from, e.to});
      if e.kind.OtherType? || !ValidConfidence(e.confidence) || !ValidText(e.reason, MAX_REASON_RUNES)
         || e.from == e.to || e.from !in memberIDs || e.to !in memberIDs || !grounded {
        assert !EdgeOk(edges[i], memberIDs, known);
        return false;
      }
      if KeyOf(e) in seen {
        var k :| 0 <= k < i && KeyOf(edges[k]) == KeyOf(e);
        SameKeyIffSameEdge(edges[k], edges[i]);
        return false;
      }
      forall k | 0 <= k < i ensures !SameEdge(edges[k], edges[i]) {
        SameKeyIffSameEdge(edges[k], edges[i]);
      }
      seen := seen + {KeyOf(e)};
    }
    ok := true;
  }

  method ValidateCandidate(c: Candidate, known: Known) returns (ok: bool)
    ensures ok == CandidateOk(c, known)
    ensures ok <==>
              && 1 <= |c.name| <= 120 && 1 <= |c.description| <= 500 && c.confidence in {"medium", "high"}
              && 2 <= |c.members| <= 50
              && (forall i, k :: 0 <= i < k < |c.members| ==> c.members[i] != c.members[k])
              && (forall i :: 0 <= i < |c.members| ==> c.members[i] in known.members)
              && (exists i :: 0 <= i < |c.members| && c.members[i] in known.members
                              && known.members[c.members[i]].state == "open")
              && EvidenceOk(c.sourceIDs, known.evidence, Ids(c.members))
              && EdgesOk(c.edges, Ids(c.members), known.evidence)
  {
    if !ValidText(c.name, MAX_NAME_RUNES) || !ValidText(c.description, MAX_DESCRIPTION_RUNES)
        || !ValidConfidence(c.confidence)
       || |c.members| < 2 || |c.members| > MAX_MEMBERS_PER_GROUP {
      return false;
    }
    var memberIDs: set<string> := {};
    var open := false;
    for i := 0 to |c.members|
      invariant memberIDs == Ids(c.members[..i])
      invariant forall k :: 0 <= k < i ==> c.members[k] in known.members
      invariant forall k, l :: 0 <= k < l < i ==> c.members[k] != c.members[l]
      invariant open <==>
                  exists k :: 0 <= k < i && c.members[k] in known.members && known.members[c.members[k]].state == "open"
    {
      var id := c.members[i];
      if id in memberIDs {
        var k :| 0 <= k < i && c.members[..i][k] == id;
        assert c.members[k] == c.members[i];
        return false;
      }
      if id !in known.members {
        return false;
      }
      assert c.members[..i + 1] == c.members[..i] + [id];
      memberIDs := memberIDs + {id};
      open := open || known.members[id].state == "open";
    }
    assert c.members[..|c.members|] == c.members;
    if !open {
      return false;
    }
    ok := ValidateEvidence(c.sourceIDs, known.evidence, memberIDs);
    if ok {
      ok := ValidateEdges(c.edges, memberIDs, known.evidence);
    }
  }

  /** The first `n` candidates form a valid answer, whose group ids are `seen`. */
  ghost predicate Accepted(candidates: seq<Candidate>, known: Known, n: nat, seen: set<set<string>>)
    requires n <= |candidates|
  {
    && (forall k :: 0 <= k < n ==> CandidateOk(candidates[k], known))
    && (forall ids :: ids in seen <==> exists k :: 0 <= k < n && Ids(candidates[k].members) == ids)
    && (forall k, l :: 0 <= k < l < n ==> Ids(candidates[k].members) != Ids(candidates[l].members))
  }

  lemma AcceptOneMore(candidates: seq<Candidate>, known: Known, n: nat, seen: set<set<string>>)
    requires n < |candidates| && Accepted(candidates, known, n, seen) && CandidateOk(candidates[n], known)
    ensures Ids(candidates[n].members) !in seen ==>
              Accepted(candidates, known, n + 1, seen + {Ids(candidates[n].members)})
    ensures Ids(candidates[n].members) in seen ==> !ResponseOk(candidates, known)
  {
    hide CandidateOk, Ids;
  }

  lemma NoneAccepted(candidates: seq<Candidate>, known: Known)
    ensures Accepted(candidates, known, 0, {})
    ensures ResponseOk(candidates, known) <==>
              && |candidates| <= 100 && (forall i :: 0 <= i < |candidates| ==> CandidateOk(candidates[i], known))
              && forall i, k :: 0 <= i < k < |candidates| ==> Ids(candidates[i].members) != Ids(candidates[k].members)
  {
    hide CandidateOk, Ids;
  }

  lemma AllAccepted(candidates: seq<Candidate>, known: Known, seen: set<set<string>>)
    requires Accepted(candidates, known, |candidates|, seen) && |candidates| <= MAX_GROUPS_PER_RESPONSE
    ensures ResponseOk(candidates, known)
  {
    hide CandidateOk, Ids;
  }

  method ValidateResponse(candidates: seq<Candidate>, known: Known) returns (result: Result<seq<Group>>)
    ensures result.Ok? <==> ResponseOk(candidates, known)
    ensures result.Ok? <==>
              && |candidates| <= 100 && (forall i :: 0 <= i < |candidates| ==> CandidateOk(candidates[i], known))
              && forall i, k :: 0 <= i < k < |candidates| ==>
                   Ids(candidates[i].members) != Ids(candidates[k].members)
    ensures result.Ok? ==> result.value == GroupsOf(candidates, known, |candidates|)
    ensures result.Ok? ==>
              && |result.value| == |candidates|
              && forall i :: 0 <= i < |candidates| ==> IsGroup(result.value[i], candidates[i], known)
  {
    hide CandidateOk, Ids, GroupOf, IsGroup, Accepted, ResponseOk;
    NoneAccepted(candidates, known);
    if |candidates| > MAX_GROUPS_PER_RESPONSE {
      return Err("too many groups");
    }
    var groups: seq<Group> := [];
    var seen: set<set<string>> := {};
    for i := 0 to |candidates|
      invariant groups == GroupsOf(candidates, known, i)
      invariant Accepted(candidates, known, i, seen)
    {
      var ok := ValidateCandidate(candidates[i], known);
      if !ok {
        return Err("invalid group");
      }
      AcceptOneMore(candidates, known, i, seen);
      if Ids(candidates[i].members) in seen {
        return Err("duplicate group");
      }
      seen := seen + {Ids(candidates[i].members)};
      groups := groups + [GroupOf(candidates[i], known)];
    }
    AllAccepted(candidates, known, seen);
    GroupsAreCandidates(candidates, known, |candidates|);
    result := Ok(groups);
  }
}
