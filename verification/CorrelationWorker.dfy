/** One correlation job from its inputs to its published graph: every chunk is
    answered by one provider, and the graph is replaced only if the inputs it
    was built from are still current.

    A request's revision is a hash of everything in it. The revision of a
    collection's inputs hashes the sorted request revisions, and is modelled by
    the multiset of the requests. */
module CorrelationWorker {
  import opened Wrappers
  import opened Correlation

  /** What one provider answers to each request; an absent answer is a failure,
      and an absent provider is not configured in this process. */
  type Provider = Option<seq<Option<seq<Candidate>>>>

  predicate DistinctGroups(groups: seq<Group>) {
    forall i, k :: 0 <= i < k < |groups| ==> groups[i].id != groups[k].id
  }

  predicate ChunksOk(requests: seq<Request>, answers: seq<Option<seq<Candidate>>>, n: nat)
    requires n <= |requests| == |answers|
  {
    forall i :: 0 <= i < n ==> answers[i].Some? && ResponseOk(answers[i].value, KnownOf(requests[i]))
  }

  function ChunkGroups(request: Request, answer: Option<seq<Candidate>>): seq<Group> {
    if answer.None? then [] else GroupsOf(answer.value, KnownOf(request), |answer.value|)
  }

  function AllGroups(requests: seq<Request>, answers: seq<Option<seq<Candidate>>>, n: nat): seq<Group>
    requires n <= |requests| == |answers|
  {
    if n == 0 then [] else AllGroups(requests, answers, n - 1) + ChunkGroups(requests[n - 1], answers[n - 1])
  }

  /** How many candidates the first `n` answers hold. */
  function Total(answers: seq<Option<seq<Candidate>>>, n: nat): nat
    requires n <= |answers|
  {
    if n == 0 then 0 else Total(answers, n - 1) + if answers[n - 1].Some? then |answers[n - 1].value| else 0
  }

  /** Candidate `i` of chunk `r` has its place among all groups. */
  ghost predicate HoldsCandidate(groups: seq<Group>, requests: seq<Request>, answers: seq<Option<seq<Candidate>>>,
                                 r: nat, i: nat)
    requires r < |requests| == |answers| && answers[r].Some? && i < |answers[r].value|
  {
    && Total(answers, r) + i < |groups|
    && IsGroup(groups[Total(answers, r) + i], answers[r].value[i], KnownOf(requests[r]))
  }

  lemma {:induction false} CandidatesHavePlaces(requests: seq<Request>, answers: seq<Option<seq<Candidate>>>, n: nat,
                                                r: nat, i: nat)
    requires r < n <= |requests| == |answers| && ChunksOk(requests, answers, n) && i < |answers[r].value|
    ensures |AllGroups(requests, answers, n)| == Total(answers, n)
    ensures HoldsCandidate(AllGroups(requests, answers, n), requests, answers, r, i)
  {
    hide KnownOf, IsGroup, CandidateOk, GroupsOf;
    var last := n - 1;
    GroupsAreCandidates(answers[last].value, KnownOf(requests[last]), |answers[last].value|);
    AsManyAsCandidates(requests, answers, last);
    if r < last {
      CandidatesHavePlaces(requests, answers, last, r, i);
    }
  }

  lemma {:induction false} AsManyAsCandidates(requests: seq<Request>, answers: seq<Option<seq<Candidate>>>, n: nat)
    requires n <= |requests| == |answers| && ChunksOk(requests, answers, n)
    ensures |AllGroups(requests, answers, n)| == Total(answers, n)
  {
    hide KnownOf, IsGroup, CandidateOk, GroupsOf;
    if n > 0 {
      AsManyAsCandidates(requests, answers, n - 1);
      GroupsAreCandidates(answers[n - 1].value, KnownOf(requests[n - 1]), |answers[n - 1].value|);
    }
  }

  /** The groups are the candidates of all chunks, in order, and no others. */
  ghost predicate AreCandidates(groups: seq<Group>, requests: seq<Request>, answers: seq<Option<seq<Candidate>>>)
    requires |requests| == |answers|
  {
    && |groups| == Total(answers, |answers|)
    && forall r: nat, i: nat :: r < |answers| && answers[r].Some? && i < |answers[r].value| ==>
         HoldsCandidate(groups, requests, answers, r, i)
  }

  lemma AllAreCandidates(requests: seq<Request>, answers: seq<Option<seq<Candidate>>>)
    requires |requests| == |answers| && ChunksOk(requests, answers, |requests|)
    ensures AreCandidates(AllGroups(requests, answers, |requests|), requests, answers)
  {
    hide HoldsCandidate, KnownOf, ResponseOk;
    AsManyAsCandidates(requests, answers, |requests|);
    forall r: nat, i: nat | r < |answers| && answers[r].Some? && i < |answers[r].value|
      ensures HoldsCandidate(AllGroups(requests, answers, |requests|), requests, answers, r, i)
    {
      CandidatesHavePlaces(requests, answers, |requests|, r, i);
    }
  }

  predicate ProviderOk(requests: seq<Request>, provider: Provider)
    requires provider.Some? ==> |provider.value| == |requests|
  {
    && provider.Some? && ChunksOk(requests, provider.value, |requests|)
    && DistinctGroups(AllGroups(requests, provider.value, |requests|))
  }

  predicate WellShaped(requests: seq<Request>, providers: seq<Provider>) {
    forall p :: 0 <= p < |providers| && providers[p].Some? ==> |providers[p].value| == |requests|
  }

  /** The first provider whose every chunk is valid and whose groups are distinct. */
  function Chosen(requests: seq<Request>, providers: seq<Provider>, n: nat): (chosen: Option<nat>)
    requires n <= |providers| && WellShaped(requests, providers)
    ensures chosen.Some? ==> chosen.value < n && ProviderOk(requests, providers[chosen.value])
    ensures chosen.Some? ==> forall p :: 0 <= p < chosen.value ==> !ProviderOk(requests, providers[p])
    ensures chosen.None? ==> forall p :: 0 <= p < n ==> !ProviderOk(requests, providers[p])
  {
    if n == 0 then None
    else if Chosen(requests, providers, n - 1).Some? then Chosen(requests, providers, n - 1)
    else if ProviderOk(requests, providers[n - 1]) then Some(n - 1)
    else None
  }

  lemma {:induction false} PrefixOfDistinct(requests: seq<Request>, answers: seq<Option<seq<Candidate>>>, m: nat,
                                            n: nat)
    requires m <= n <= |requests| == |answers|
    ensures AllGroups(requests, answers, m) <= AllGroups(requests, answers, n)
  {
    hide ChunkGroups;
    if m < n {
      var before := AllGroups(requests, answers, n - 1);
      PrefixOfDistinct(requests, answers, m, n - 1);
      assert before <= before + ChunkGroups(requests[n - 1], answers[n - 1]);
    }
  }

  /** The ids seen so far are those of the collected groups, which are distinct. */
  ghost predicate Tracks(ids: set<set<string>>, collected: seq<Group>) {
    DistinctGroups(collected) && forall id :: id in ids <==> exists k :: 0 <= k < |collected| && collected[k].id == id
  }

  /** Asks one provider for every chunk, and gives up at the first failure,
      invalid answer or repeated group. */
  method AskProvider(requests: seq<Request>, provider: Provider) returns (groups: Option<seq<Group>>)
    requires provider.Some? ==> |provider.value| == |requests|
    ensures groups.Some? <==> ProviderOk(requests, provider)
    ensures groups.Some? ==> groups.value == AllGroups(requests, provider.value, |requests|)
    ensures groups.Some? ==> AreCandidates(groups.value, requests, provider.value)
  {
    hide ResponseOk, CandidateOk, KnownOf, KnownExactly, GroupsOf, AreCandidates, IsGroup, ProviderOk, ChunksOk,
      AllGroups, DistinctGroups;
    if provider.None? {
      NoProvider(requests);
      return None;
    }
    var answers := provider.value;
    var collected: seq<Group> := [];
    var ids: set<set<string>> := {};
    NothingAsked(requests, answers);
    for chunk := 0 to |requests|
      invariant ChunksOk(requests, answers, chunk)
      invariant collected == AllGroups(requests, answers, chunk) && Tracks(ids, collected)
    {
      hide Tracks;
      if answers[chunk].None? {
        ChunkFails(requests, answers, chunk);
        return None;
      }
      var members, evidence := KnownSources(requests[chunk]);
      var result := ValidateResponse(answers[chunk].value, Known(members, evidence));
      if result.Err? {
        ChunkFails(requests, answers, chunk);
        return None;
      }
      OneMoreChunk(requests, answers, chunk);
      ghost var before := collected;
      var distinct: bool;
      distinct, ids, collected := AddGroups(ids, collected, result.value);
      if !distinct {
        PrefixOfDistinct(requests, answers, chunk + 1, |requests|);
        RepetitionStays(before + result.value, AllGroups(requests, answers, |requests|));
        EndsUp(requests, provider);
        return None;
      }
    }
    AllAreCandidates(requests, answers);
    TrackedAreDistinct(ids, collected);
    EndsUp(requests, provider);
    groups := Some(collected);
  }

  lemma NoProvider(requests: seq<Request>)
    ensures !ProviderOk(requests, None)
  {
  }

  lemma NothingAsked(requests: seq<Request>, answers: seq<Option<seq<Candidate>>>)
    requires |requests| == |answers|
    ensures ChunksOk(requests, answers, 0) && AllGroups(requests, answers, 0) == [] && Tracks({}, [])
  {
  }

  lemma ChunkFails(requests: seq<Request>, answers: seq<Option<seq<Candidate>>>, n: nat)
    requires n < |requests| == |answers|
    requires answers[n].None? || !ResponseOk(answers[n].value, KnownOf(requests[n]))
    ensures !ProviderOk(requests, Some(answers))
  {
    hide ResponseOk;
  }

  lemma OneMoreChunk(requests: seq<Request>, answers: seq<Option<seq<Candidate>>>, n: nat)
    requires n < |requests| == |answers| && ChunksOk(requests, answers, n)
    requires answers[n].Some? && ResponseOk(answers[n].value, KnownOf(requests[n]))
    ensures ChunksOk(requests, answers, n + 1)
    ensures AllGroups(requests, answers, n + 1)
         == AllGroups(requests, answers, n) + GroupsOf(answers[n].value, KnownOf(requests[n]), |answers[n].value|)
  {
    hide ResponseOk;
  }

  /** When every chunk is valid, the provider succeeds exactly if no group repeats. */
  lemma EndsUp(requests: seq<Request>, provider: Provider)
    requires provider.Some? && |provider.value| == |requests|
    ensures ProviderOk(requests, provider) <==>
              && ChunksOk(requests, provider.value, |requests|)
              && DistinctGroups(AllGroups(requests, provider.value, |requests|))
  {
  }

  lemma TrackedAreDistinct(ids: set<set<string>>, collected: seq<Group>)
    requires Tracks(ids, collected)
    ensures DistinctGroups(collected)
  {
  }

  lemma RepetitionStays(part: seq<Group>, all: seq<Group>)
    requires part <= all && !DistinctGroups(part)
    ensures !DistinctGroups(all)
  {
    var i, k :| 0 <= i < k < |part| && part[i].id == part[k].id;
    assert all[i] == part[i] && all[k] == part[k];
  }

  /** Appends the groups of one chunk until one repeats. */
  method AddGroups(ids: set<set<string>>, collected: seq<Group>, groups: seq<Group>)
    returns (distinct: bool, moreIDs: set<set<string>>, longer: seq<Group>)
    requires Tracks(ids, collected)
    ensures distinct <==> DistinctGroups(collected + groups)
    ensures distinct ==> longer == collected + groups && Tracks(moreIDs, longer)
  {
    moreIDs, longer := ids, collected;
    for i := 0 to |groups|
      invariant longer == collected + groups[..i] && Tracks(moreIDs, longer)
    {
      var group := groups[i];
      ghost var all := collected + groups;
      assert all[..|longer|] == longer && all[|longer|] == group;
      if group.id in moreIDs {
        var k :| 0 <= k < |longer| && longer[k].id == group.id;
        assert all[k] == all[..|longer|][k] == longer[k];
        return false, moreIDs, longer;
      }
      assert groups[..i + 1] == groups[..i] + [group];
      TrackOneMore(moreIDs, longer, group);
      moreIDs, longer := moreIDs + {group.id}, longer + [group];
    }
    assert groups[..|groups|] == groups;
    distinct := true;
  }

  lemma TrackOneMore(ids: set<set<string>>, collected: seq<Group>, group: Group)
    requires Tracks(ids, collected) && group.id !in ids
    ensures Tracks(ids + {group.id}, collected + [group])
  {
    var longer := collected + [group];
    assert longer[|collected|] == group;
    assert forall k :: 0 <= k < |collected| ==> longer[k] == collected[k];
  }

  /** Tries the providers in order. */
  method Process(requests: seq<Request>, providers: seq<Provider>) returns (chosen: Option<nat>, groups: seq<Group>)
    requires WellShaped(requests, providers)
    ensures chosen == Chosen(requests, providers, |providers|)
    ensures chosen.Some? ==>
              && chosen.value < |providers| && ProviderOk(requests, providers[chosen.value])
              && groups == AllGroups(requests, providers[chosen.value].value, |requests|)
              && AreCandidates(groups, requests, providers[chosen.value].value)
    ensures forall p :: 0 <= p < (if chosen.Some? then chosen.value else |providers|) ==>
              !ProviderOk(requests, providers[p])
  {
    hide AreCandidates, ProviderOk, AllGroups;
    chosen, groups := None, [];
    for p := 0 to |providers|
      invariant Chosen(requests, providers, p).None?
    {
      var answered := AskProvider(requests, providers[p]);
      if answered.Some? {
        assert Chosen(requests, providers, p + 1) == Some(p);
        ChosenStays(requests, providers, p + 1, |providers|);
        return Some(p), answered.value;
      }
    }
  }

  lemma {:induction false} ChosenStays(requests: seq<Request>, providers: seq<Provider>, m: nat, n: nat)
    requires m <= n <= |providers| && WellShaped(requests, providers) && Chosen(requests, providers, m).Some?
    ensures Chosen(requests, providers, n) == Chosen(requests, providers, m)
  {
    hide ProviderOk;
    if m < n {
      ChosenStays(requests, providers, m, n - 1);
    }
  }

  // ----- Publication -----

  datatype Status = Queued | Running | Completed

  /** How far the worker of a job is. `Recorded` has published, or recorded a
      failure, or been refused because the inputs have changed; `Asking` has
      completed a refused job and not yet asked again. */
  datatype Stage = Built(requests: seq<Request>) | Recorded(refused: bool) | Asking

  /** `input` is what the collection's requests are now; `basis` what they were
      when the graph was last replaced. `workers` are at work on claimed jobs. */
  datatype State = State(input: seq<Request>, graph: seq<Group>, basis: seq<Request>, jobs: seq<Status>,
                         workers: map<nat, Stage>)

  /** Each step of a worker is a transaction of its own. `Lose` and `Crash` stand
      for any error, cancellation or kill; `Recover` runs in a fresh process. */
  datatype Event =
    | Change(input: seq<Request>)
    | Enqueue
    | Claim(job: nat)
    | Build(job: nat)
    | Answer(job: nat, providers: seq<Provider>)
    | Complete(job: nat)
    | Ask(job: nat)
    | Lose(job: nat)
    | Crash
    | Recover

  function Revision(requests: seq<Request>): multiset<Request> {
    multiset(requests)
  }

  predicate HasActive(jobs: seq<Status>) {
    exists i :: 0 <= i < |jobs| && jobs[i] != Completed
  }

  function Enqueued(jobs: seq<Status>): seq<Status> {
    if HasActive(jobs) then jobs else jobs + [Queued]
  }

  predicate Works(s: State, j: nat) {
    j < |s.jobs| && j in s.workers
  }

  predicate Enabled(s: State, e: Event) {
    match e
    case Change(_) => true
    case Enqueue => true
    case Claim(j) => j < |s.jobs| && s.jobs[j] == Queued
    case Build(j) => j < |s.jobs| && s.jobs[j] == Running && j !in s.workers
    case Answer(j, providers) => Works(s, j) && s.workers[j].Built? && WellShaped(s.workers[j].requests, providers)
    case Complete(j) => Works(s, j) && s.workers[j].Recorded?
    case Ask(j) => Works(s, j) && s.workers[j].Asking?
    case Lose(j) => Works(s, j)
    case Crash => true
    case Recover => s.workers == map[]
  }

  predicate InputsChanged(s: State, requests: seq<Request>) {
    Revision(requests) != Revision(s.input)
  }

  /** An answer was found: for no pull requests the empty graph, or else what the
      first successful provider says. */
  predicate Succeeds(requests: seq<Request>, providers: seq<Provider>)
    requires WellShaped(requests, providers)
  {
    requests == [] || Chosen(requests, providers, |providers|).Some?
  }

  function Published(requests: seq<Request>, providers: seq<Provider>): seq<Group>
    requires WellShaped(requests, providers) && Succeeds(requests, providers)
  {
    if requests == [] then []
    else AllGroups(requests, providers[Chosen(requests, providers, |providers|).value].value, |requests|)
  }

  function Answered(s: State, j: nat, providers: seq<Provider>): State
    requires Enabled(s, Answer(j, providers))
  {
    var requests := s.workers[j].requests;
    var refused := Succeeds(requests, providers) && InputsChanged(s, requests);
    var next := s.(workers := s.workers[j := Recorded(refused)]);
    if Succeeds(requests, providers) && !refused then next.(graph := Published(requests, providers), basis := s.input)
    else next
  }

  /** A refused job is completed, and its worker still has to ask for another. */
  function Completing(s: State, j: nat): State
    requires Enabled(s, Complete(j))
  {
    s.(jobs := s.jobs[j := Completed],
       workers := if s.workers[j].refused then s.workers[j := Asking] else s.workers - {j})
  }

  function Asked(s: State, j: nat): State {
    s.(jobs := Enqueued(s.jobs), workers := s.workers - {j})
  }

  function After(s: State, e: Event): State
    requires Enabled(s, e)
  {
    match e
    case Change(input) => s.(input := input)
    case Enqueue => s.(jobs := Enqueued(s.jobs))
    case Claim(j) => s.(jobs := s.jobs[j := Running])
    case Build(j) => s.(workers := s.workers[j := Built(s.input)])
    case Answer(j, providers) => Answered(s, j, providers)
    case Complete(j) => Completing(s, j)
    case Ask(j) => Asked(s, j)
    case Lose(j) => s.(workers := s.workers - {j})
    case Crash => s.(workers := map[])
    case Recover => s.(jobs := seq(|s.jobs|, i requires 0 <= i < |s.jobs| =>
                                 if s.jobs[i] == Running then Queued else s.jobs[i]))
  }

  predicate IsRun(ss: seq<State>, es: seq<Event>) {
    && |ss| == |es| + 1 && ss[0] == State([], [], [], [], map[])
    && forall i :: 0 <= i < |es| ==> Enabled(ss[i], es[i]) && ss[i + 1] == After(ss[i], es[i])
  }

  /** A published group is one the validation accepted for one current request. */
  ghost predicate Grounded(g: Group, basis: seq<Request>) {
    exists r :: r in basis && CandidateOk(g.content, KnownOf(r)) && g == GroupOf(g.content, KnownOf(r))
  }

  ghost predicate GraphOk(graph: seq<Group>, basis: seq<Request>) {
    DistinctGroups(graph) && forall i :: 0 <= i < |graph| ==> Grounded(graph[i], basis)
  }

  lemma {:induction false} ChunkIsGrounded(candidates: seq<Candidate>, request: Request, n: nat, basis: seq<Request>)
    requires n <= |candidates| && request in basis && forall i :: 0 <= i < n ==>
               CandidateOk(candidates[i], KnownOf(request))
    ensures forall g :: g in GroupsOf(candidates, KnownOf(request), n) ==> Grounded(g, basis)
  {
    hide CandidateOk;
    if n > 0 {
      ChunkIsGrounded(candidates, request, n - 1, basis);
      assert Grounded(GroupOf(candidates[n - 1], KnownOf(request)), basis);
    }
  }

  lemma {:induction false} AllAreGrounded(requests: seq<Request>, answers: seq<Option<seq<Candidate>>>, n: nat,
                                          basis: seq<Request>)
    requires n <= |requests| == |answers| && ChunksOk(requests, answers, n) && forall r :: r in requests ==> r in basis
    ensures forall g :: g in AllGroups(requests, answers, n) ==> Grounded(g, basis)
  {
    hide CandidateOk, Grounded;
    if n > 0 {
      AllAreGrounded(requests, answers, n - 1, basis);
      ChunkIsGrounded(answers[n - 1].value, requests[n - 1], |answers[n - 1].value|, basis);
    }
  }

  lemma SameRevisionSameRequests(held: seq<Request>, input: seq<Request>)
    requires Revision(held) == Revision(input)
    ensures forall r :: r in held ==> r in input
  {
    forall r | r in held ensures r in input {
      assert r in multiset(held);
    }
  }

  lemma AnswerKeepsGraph(s: State, j: nat, providers: seq<Provider>)
    requires Enabled(s, Answer(j, providers)) && GraphOk(s.graph, s.basis)
    ensures GraphOk(Answered(s, j, providers).graph, Answered(s, j, providers).basis)
  {
    hide Grounded, CandidateOk;
    var requests := s.workers[j].requests;
    if requests != [] && Succeeds(requests, providers) && !InputsChanged(s, requests) {
      var chosen := Chosen(requests, providers, |providers|).value;
      SameRevisionSameRequests(requests, s.input);
      AllAreGrounded(requests, providers[chosen].value, |requests|, s.input);
    }
  }

  /** Every published graph has distinct groups, each accepted for a request
      that was current when it was published. */
  lemma {:induction false} PublishedGraphsAreGrounded(ss: seq<State>, es: seq<Event>, n: nat)
    requires IsRun(ss, es) && n <= |es|
    ensures GraphOk(ss[n].graph, ss[n].basis)
  {
    hide Grounded, Answered;
    if n > 0 {
      PublishedGraphsAreGrounded(ss, es, n - 1);
      match es[n - 1] {
        case Answer(j, providers) => AnswerKeepsGraph(ss[n - 1], j, providers);
        case _ =>
      }
    }
  }

  ghost predicate ListsOpenMember(g: Group, r: Request) {
    exists k :: 0 <= k < |r.pullRequests| && r.pullRequests[k].state == "open" && r.pullRequests[k].sourceID in g.id
  }

  lemma OpenMemberIsListed(g: Group, r: Request)
    requires CandidateOk(g.content, KnownOf(r)) && g == GroupOf(g.content, KnownOf(r))
    ensures ListsOpenMember(g, r)
  {
    hide EdgesOk, EvidenceOk, KnownAfter;
    OpenMembersAreListed(r.pullRequests, |r.pullRequests|);
    var i :| 0 <= i < |g.content.members| && g.content.members[i] in KnownOf(r).members
        && KnownOf(r).members[g.content.members[i]].state == "open";
    var member := KnownOf(r).members[g.content.members[i]];
    assert IsOwn(r.pullRequests, |r.pullRequests|, member);
    var k :| 0 <= k < |r.pullRequests| && OwnMember(r.pullRequests[k]) == member;
    assert r.pullRequests[k].sourceID in g.id;
  }

  /** One to twenty distinct known sources, each about one of these. */
  ghost predicate Cites(ids: seq<string>, known: map<string, Evidence>, relevant: set<string>) {
    && 1 <= |ids| <= 20 && (forall i, k :: 0 <= i < k < |ids| ==> ids[i] != ids[k])
    && forall k :: 0 <= k < |ids| ==>
         ids[k] in known && (known[ids[k]].owner in relevant || known[ids[k]].entityID in relevant)
  }

  /** The ends of an edge, what it cites, and that no other edge says the same. */
  ghost predicate EdgesInside(edges: seq<Edge>, members: set<string>, known: map<string, Evidence>) {
    && (forall i :: 0 <= i < |edges| ==>
          && edges[i].from in members && edges[i].to in members && edges[i].from != edges[i].to
          && Cites(edges[i].sourceIDs, known, {edges[i].from, edges[i].to}))
    && (forall i, k :: 0 <= i < k < |edges| && edges[i].kind == edges[k].kind ==>
          && (edges[i].from != edges[k].from || edges[i].to != edges[k].to)
          && (edges[i].kind != StackedOnTopOf ==> edges[i].from != edges[k].to || edges[i].to != edges[k].from))
  }

  lemma EvidenceIsCited(ids: seq<string>, known: map<string, Evidence>, relevant: set<string>)
    requires EvidenceOk(ids, known, relevant)
    ensures Cites(ids, known, relevant)
  {
  }

  lemma EdgesAreInside(edges: seq<Edge>, members: set<string>, known: map<string, Evidence>)
    requires EdgesOk(edges, members, known)
    ensures EdgesInside(edges, members, known)
  {
    hide EvidenceOk, Cites;
    forall i | 0 <= i < |edges|
      ensures Cites(edges[i].sourceIDs, known, {edges[i].from, edges[i].to})
    {
      assert EdgeOk(edges[i], members, known);
      EvidenceIsCited(edges[i].sourceIDs, known, {edges[i].from, edges[i].to});
    }
    assert forall i, k :: 0 <= i < k < |edges| ==> !SameEdge(edges[i], edges[k]);
  }

  /** What a grounded group guarantees, by one request of its inputs: a member
      that is an open pull request of that request, and edges inside the group
      that state distinct facts and cite that request's evidence about their
      ends. */
  lemma GroundedMeans(g: Group, basis: seq<Request>)
    requires Grounded(g, basis)
    ensures 2 <= |g.id| <= 50 && g.members.Keys == g.id
    ensures exists r :: r in basis && ListsOpenMember(g, r) && Cites(g.content.sourceIDs, KnownOf(r).evidence, g.id)
                        && EdgesInside(g.content.edges, g.id, KnownOf(r).evidence)
  {
    var r :| r in basis && CandidateOk(g.content, KnownOf(r)) && g == GroupOf(g.content, KnownOf(r));
    OpenMemberIsListed(g, r);
    hide KnownOf, EdgesOk, EvidenceOk, ListsOpenMember, Cites, EdgesInside;
    assert ListsOpenMember(g, r);
    EvidenceIsCited(g.content.sourceIDs, KnownOf(r).evidence, g.id);
    EdgesAreInside(g.content.edges, g.id, KnownOf(r).evidence);
    DistinctSize(g.content.members, |g.content.members|);
    assert g.content.members[..|g.content.members|] == g.content.members;
  }

  lemma {:induction false} DistinctSize(values: seq<string>, n: nat)
    requires n <= |values| && Distinct(values)
    ensures |Ids(values[..n])| == n
  {
    hide Ids;
    if n > 0 {
      DistinctSize(values, n - 1);
      OneMoreId(values, n - 1);
    } else {
      NoIds(values);
    }
  }

  lemma OneMoreId(values: seq<string>, k: nat)
    requires k < |values| && Distinct(values)
    ensures Ids(values[..k + 1]) == Ids(values[..k]) + {values[k]} && values[k] !in Ids(values[..k])
  {
    assert values[..k + 1] == values[..k] + [values[k]];
    forall v | v in values[..k] ensures v != values[k] {
      var i :| 0 <= i < k && values[..k][i] == v;
      assert values[i] == v;
    }
  }

  lemma NoIds(values: seq<string>)
    ensures Ids(values[..0]) == {}
  {
  }

  /** The graph is replaced only by a successful answer whose inputs are still
      current; failures and changed inputs keep it. */
  lemma GraphChangesOnlyWhenCurrent(s: State, e: Event)
    requires Enabled(s, e)
    ensures After(s, e).graph != s.graph || After(s, e).basis != s.basis ==>
              && e.Answer? && Succeeds(s.workers[e.job].requests, e.providers)
              && !InputsChanged(s, s.workers[e.job].requests) && After(s, e).basis == s.input
    ensures e.Answer? ==>
              && e.job in After(s, e).workers
              && (After(s, e).workers[e.job] == Recorded(true) <==>
                    Succeeds(s.workers[e.job].requests, e.providers) && InputsChanged(s, s.workers[e.job].requests))
  {
  }

  /** And it is replaced by every one: the graph then holds exactly the
      candidates of the first provider that answered every chunk validly with
      distinct groups, or nothing if there are no pull requests. */
  lemma AnswerPublishes(s: State, j: nat, providers: seq<Provider>)
    requires Enabled(s, Answer(j, providers)) && Succeeds(s.workers[j].requests, providers)
    requires multiset(s.workers[j].requests) == multiset(s.input)
    ensures var graph, requests := After(s, Answer(j, providers)).graph, s.workers[j].requests;
            if requests == [] then graph == []
            else exists p ::
                   && 0 <= p < |providers| && ProviderOk(requests, providers[p])
                   && (forall q :: 0 <= q < p ==> !ProviderOk(requests, providers[q]))
                   && AreCandidates(graph, requests, providers[p].value)
  {
    hide AreCandidates;
    var requests := s.workers[j].requests;
    if requests != [] {
      var p := Chosen(requests, providers, |providers|).value;
      assert ProviderOk(requests, providers[p]);
      AllAreCandidates(requests, providers[p].value);
    }
  }

  // ----- Asking again -----

  predicate OneActive(jobs: seq<Status>) {
    forall i, k :: 0 <= i < k < |jobs| ==> jobs[i] == Completed || jobs[k] == Completed
  }

  /** At most one job is active, and a worker that has not completed its job is
      at work on the running one. */
  ghost predicate Orderly(s: State) {
    && OneActive(s.jobs)
    && forall j :: j in s.workers ==> j < |s.jobs| && (!s.workers[j].Asking? ==> s.jobs[j] == Running)
                                      && (s.workers[j].Asking? ==> s.jobs[j] == Completed)
  }

  lemma EnqueuedIsOrderly(jobs: seq<Status>)
    requires OneActive(jobs)
    ensures OneActive(Enqueued(jobs)) && HasActive(Enqueued(jobs)) && |jobs| <= |Enqueued(jobs)|
    ensures forall i :: 0 <= i < |jobs| ==> Enqueued(jobs)[i] == jobs[i]
  {
    if !HasActive(jobs) {
      assert Enqueued(jobs)[|jobs|] == Queued;
    }
  }

  lemma StaysOrderly(s: State, e: Event)
    requires Enabled(s, e) && Orderly(s)
    ensures Orderly(After(s, e))
  {
    hide Enqueued, Succeeds, Published;
    EnqueuedIsOrderly(s.jobs);
  }

  lemma {:induction false} RunsAreOrderly(ss: seq<State>, es: seq<Event>, n: nat)
    requires IsRun(ss, es) && n <= |es|
    ensures Orderly(ss[n])
  {
    hide After, Enabled, Orderly;
    if n == 0 {
      NothingIsOrderly();
    } else {
      RunsAreOrderly(ss, es, n - 1);
      StaysOrderly(ss[n - 1], es[n - 1]);
    }
  }

  lemma NothingIsOrderly()
    ensures Orderly(State([], [], [], [], map[]))
  {
  }

  /** The worker of `j` asks again, or is lost before it has. */
  predicate Ends(e: Event, j: nat) {
    e == Ask(j) || e == Lose(j) || e == Crash
  }

  /** Somebody else queues a job of the collection. */
  predicate AsksToo(e: Event, j: nat) {
    e.Enqueue? || (e.Ask? && e.job != j)
  }

  /** Between completing and asking again, nothing is active and the worker
      still has to ask. */
  ghost predicate Owes(s: State, j: nat) {
    j in s.workers && s.workers[j] == Asking && !HasActive(s.jobs)
  }

  lemma CompletionOwes(s: State, j: nat)
    requires Enabled(s, Complete(j)) && s.workers[j] == Recorded(true) && Orderly(s)
    ensures Owes(After(s, Complete(j)), j)
  {
  }

  lemma StillOwes(s: State, e: Event, j: nat)
    requires Enabled(s, e) && Orderly(s) && Owes(s, j) && !Ends(e, j) && !AsksToo(e, j)
    ensures Owes(After(s, e), j)
  {
    hide Succeeds, Published;
  }

  lemma {:induction false} OwesUntilEnd(ss: seq<State>, es: seq<Event>, c: nat, n: nat, j: nat)
    requires IsRun(ss, es) && c < n <= |es| && es[c] == Complete(j) && j in ss[c].workers
             && ss[c].workers[j] == Recorded(true)
    requires forall k :: c < k < n ==> !Ends(es[k], j) && !AsksToo(es[k], j)
    ensures Owes(ss[n], j)
  {
    hide Owes, Orderly, Ends, AsksToo, After, Enabled;
    RunsAreOrderly(ss, es, n - 1);
    assert Enabled(ss[n - 1], es[n - 1]) && ss[n] == After(ss[n - 1], es[n - 1]);
    if n == c + 1 {
      CompletionOwes(ss[c], j);
    } else {
      OwesUntilEnd(ss, es, c, n - 1, j);
      StillOwes(ss[n - 1], es[n - 1], j);
    }
  }

  lemma EndOfDebt(s: State, e: Event, j: nat)
    requires Enabled(s, e) && Owes(s, j) && Ends(e, j)
    ensures HasActive(After(s, e).jobs) <==> e == Ask(j)
    ensures j !in After(s, e).workers
  {
    assert Enqueued(s.jobs)[|s.jobs|] == Queued;
  }

  /** A refused job is asked for again exactly if its worker is not lost between
      completing it and asking. Otherwise the collection has no active job, until
      somebody else asks. */
  lemma {:induction false} AskedAgainIff(ss: seq<State>, es: seq<Event>, c: nat, n: nat, j: nat)
    requires IsRun(ss, es) && c < n < |es| && es[c] == Complete(j) && j in ss[c].workers
             && ss[c].workers[j] == Recorded(true)
    requires Ends(es[n], j) && forall k :: c < k < n ==> !Ends(es[k], j) && !AsksToo(es[k], j)
    ensures !HasActive(ss[n].jobs)
    ensures HasActive(ss[n + 1].jobs) <==> es[n] == Ask(j)
    ensures j !in ss[n + 1].workers
  {
    OwesUntilEnd(ss, es, c, n, j);
    hide After, Enabled, Ends, AsksToo;
    assert Enabled(ss[n], es[n]) && ss[n + 1] == After(ss[n], es[n]);
    EndOfDebt(ss[n], es[n], j);
  }

  /** A collection that is left without an active job stays so until somebody
      queues one. */
  lemma IdleUntilAsked(s: State, e: Event)
    requires Enabled(s, e) && Orderly(s) && !HasActive(s.jobs) && !e.Enqueue? && !e.Ask?
    ensures !HasActive(After(s, e).jobs) && After(s, e).graph == s.graph
  {
    hide Succeeds, Published;
  }

  /** What a job leaves whose worker is not lost: the graph of a successful answer
      to inputs that are still current, or else the old one, and a job that is
      completed. Another is queued exactly if a successful answer was refused and
      nothing else is active. */
  ghost predicate JobLeaves(s: State, u: State, j: nat, requests: seq<Request>, providers: seq<Provider>)
    requires j < |s.jobs| && WellShaped(requests, providers)
  {
    var answered := requests == [] || exists p :: 0 <= p < |providers| && ProviderOk(requests, providers[p]);
    var current := multiset(requests) == multiset(s.input);
    var done := s.jobs[j := Completed];
    && u.input == s.input
    && (!(answered && current) ==> u.graph == s.graph && u.basis == s.basis)
    && (answered && current ==>
          && u.basis == s.input && (requests == [] ==> u.graph == [])
          && (requests != [] ==>
                exists p :: 0 <= p < |providers| && ProviderOk(requests, providers[p])
                            && (forall q :: 0 <= q < p ==> !ProviderOk(requests, providers[q]))
                            && AreCandidates(u.graph, requests, providers[p].value)))
    && u.jobs == if answered && !current && (forall k :: 0 <= k < |done| ==> done[k] == Completed)
                 then done + [Queued] else done
  }

  lemma JobIsExact(s: State, j: nat, providers: seq<Provider>)
    requires Enabled(s, Answer(j, providers))
    ensures var answered := Answered(s, j, providers);
            var completed := Completing(answered, j);
            JobLeaves(s, if j in completed.workers then Asked(completed, j) else completed, j, s.workers[j].requests,
                      providers)
  {
    hide AreCandidates, ProviderOk, AllGroups;
    var requests := s.workers[j].requests;
    if Succeeds(requests, providers) && !InputsChanged(s, requests) {
      AnswerPublishes(s, j, providers);
    }
  }

  /** A queued or running job stays one of these until its worker completes it:
      neither a claim, a change of the inputs, a crash nor recovery drops it. */
  lemma ActiveUntilCompleted(s: State, e: Event)
    requires Enabled(s, e) && Orderly(s)
    ensures HasActive(After(s, e).jobs) <==> e.Enqueue? || e.Ask? || (HasActive(s.jobs) && !e.Complete?)
  {
    hide Succeeds, Published;
    var after := After(s, e).jobs;
    if HasActive(s.jobs) && !e.Complete? {
      var i :| 0 <= i < |s.jobs| && s.jobs[i] != Completed;
      assert after[i] != Completed;
    } else if e.Enqueue? || e.Ask? {
      assert !HasActive(s.jobs) ==> after[|s.jobs|] == Queued;
      EnqueuedIsOrderly(s.jobs);
    }
  }

  /** The rows of one collection, changed in place. */
  class Store {
    var input: seq<Request>
    var graph: seq<Group>
    ghost var basis: seq<Request>
    var jobs: seq<Status>

    /** Compares the inputs again inside the publishing transaction, deletes the
        old groups and inserts the new ones. */
    method RecordCorrelationSuccess(requests: seq<Request>, groups: seq<Group>) returns (ok: bool)
      modifies `graph, `basis
      ensures ok <==> multiset(requests) == multiset(input)
      ensures graph == (if ok then groups else old(graph)) && basis == if ok then input else old(basis)
    {
      if Revision(requests) != Revision(input) {
        return false;
      }
      graph, basis := [], input;
      for i := 0 to |groups|
        invariant graph == groups[..i] && basis == input
      {
        assert groups[..i + 1] == groups[..i] + [groups[i]];
        graph := graph + [groups[i]];
      }
      assert groups[..|groups|] == groups;
      ok := true;
    }

    /** The statement has no condition on the status. */
    method CompleteCorrelationJob(j: nat)
      requires j < |jobs|
      modifies `jobs
      ensures jobs == old(jobs)[j := Completed]
    {
      jobs := jobs[j := Completed];
    }

    method EnqueueCollectionCorrelation()
      modifies `jobs
      ensures jobs == Enqueued(old(jobs))
      ensures jobs == if forall k :: 0 <= k < |old(jobs)| ==> old(jobs)[k] == Completed then old(jobs) + [Queued]
                      else old(jobs)
    {
      var active := false;
      for i := 0 to |jobs|
        invariant active <==> exists k :: 0 <= k < i && jobs[k] != Completed
      {
        active := active || jobs[i] != Completed;
      }
      if !active {
        jobs := jobs + [Queued];
      }
    }

    ghost function View(workers: map<nat, Stage>): State
      reads this
    {
      State(input, graph, basis, jobs, workers)
    }

    /** One claimed job, with the inputs it was built from and the answers the
        providers gave, if the worker is not lost: it answers, completes, and
        asks again if it was refused. The store's own inputs may have moved. */
    method RunJob(j: nat, requests: seq<Request>, providers: seq<Provider>)
      requires j < |jobs| && jobs[j] == Running && WellShaped(requests, providers)
      modifies `graph, `basis, `jobs
      ensures var answered := Answered(old(View(map[j := Built(requests)])), j, providers);
              var completed := Completing(answered, j);
              View(map[]) == if j in completed.workers then Asked(completed, j) else completed
      ensures JobLeaves(old(View(map[j := Built(requests)])), View(map[]), j, requests, providers)
    {
      hide ProviderOk, AllGroups, Enqueued, AreCandidates, JobLeaves;
      JobIsExact(View(map[j := Built(requests)]), j, providers);
      var chosen: Option<nat>, groups := Some(0), [];
      if requests != [] {
        chosen, groups := Process(requests, providers);
      }
      var ok := true;
      if chosen.Some? {
        ok := RecordCorrelationSuccess(requests, groups);
      }
      CompleteCorrelationJob(j);
      if !ok {
        EnqueueCollectionCorrelation();
      }
      NoneLeft(j);
    }
  }

  lemma NoneLeft(j: nat)
    ensures forall stage: Stage :: map[j := stage] - {j} == map[]
    ensures forall stage: Stage, next: Stage :: map[j := stage][j := next] == map[j := next]
  {
  }
}
