/** Repository identities of the configuration, and the source ids of their pull
    requests. */
module SourceIdentity {
  import opened Wrappers

  predicate Letter(c: char) {
    'a' <= c <= 'z' || 'A' <= c <= 'Z' || '0' <= c <= '9'
  }

  predicate ValidOwner(owner: string) {
    1 <= |owner| <= 39 && Letter(owner[0]) && forall i :: 0 <= i < |owner| ==> Letter(owner[i]) || owner[i] == '-'
  }

  predicate ValidName(name: string) {
    1 <= |name| <= 100 && forall i :: 0 <= i < |name| ==>
        Letter(name[i]) || name[i] == '_' || name[i] == '.' || name[i] == '-'
  }

  datatype Identity = Identity(owner: string, name: string)

  predicate Valid(id: Identity) {
    ValidOwner(id.owner) && ValidName(id.name)
  }

  function Written(id: Identity): string {
    id.owner + "/" + id.name
  }

  /** The first place of `c` in `s` from `i` on, or the end. */
  function FirstFrom(s: string, c: char, i: nat): (k: nat)
    requires i <= |s|
    ensures i <= k <= |s| && (k < |s| ==> s[k] == c) && forall j :: i <= j < k ==> s[j] != c
    decreases |s| - i
  {
    if i == |s| || s[i] == c then i else FirstFrom(s, c, i + 1)
  }

  /** The place after the last `c` among the first `n` characters. */
  function AfterLast(s: string, c: char, n: nat): (k: nat)
    requires n <= |s|
    ensures k <= n && (k > 0 ==> s[k - 1] == c) && forall j :: k <= j < n ==> s[j] != c
  {
    if n == 0 || s[n - 1] == c then n else AfterLast(s, c, n - 1)
  }

  function Digit(d: nat): char
    requires d < 10
  {
    ('0' as int + d) as char
  }

  function Decimal(n: nat): (text: string)
    ensures |text| > 0 && forall i :: 0 <= i < |text| ==> '0' <= text[i] <= '9'
  {
    if n < 10 then [Digit(n)] else Decimal(n / 10) + [Digit(n % 10)]
  }

  /** The number a decimal text stands for. */
  function Value(text: string): int {
    if text == [] then 0 else 10 * Value(text[..|text| - 1]) + (text[|text| - 1] as int - '0' as int)
  }

  lemma {:induction false} DecimalReadsBack(n: nat)
    ensures Value(Decimal(n)) == n
  {
    if n < 10 {
      assert Decimal(n)[..0] == [];
    } else {
      DecimalReadsBack(n / 10);
      assert Decimal(n)[..|Decimal(n)| - 1] == Decimal(n / 10);
    }
  }

  function Replaced(s: string): (text: string)
    ensures |text| == |s| && forall i :: 0 <= i < |s| ==> text[i] == if s[i] in {'/', '#', ' '} then '_' else s[i]
  {
    seq(|s|, i requires 0 <= i < |s| => if s[i] in {'/', '#', ' '} then '_' else s[i])
  }

  function PullRequestSourceID(repository: string, number: nat): string {
    "PR_" + Replaced(repository) + "_" + Decimal(number)
  }

  /** Reads an id back: the owner ends at the first underscore, and the number
      begins after the last. */
  function Parse(id: string): Option<(Identity, int)> {
    if |id| < 3 || id[..3] != "PR_" then None
    else
      var rest := id[3..];
      var first, last := FirstFrom(rest, '_', 0), AfterLast(rest, '_', |rest|);
      if first + 1 < last then Some((Identity(rest[..first], rest[first + 1..last - 1]), Value(rest[last..]))) else None
  }

  /** The two outer underscores are found if neither end contains one. */
  lemma PartsAreFound(owner: string, name: string, d: string)
    requires '_' !in owner && '_' !in d
    ensures var rest := owner + "_" + name + "_" + d;
            && FirstFrom(rest, '_', 0) == |owner| && AfterLast(rest, '_', |rest|) == |owner| + |name| + 2
            && rest[..|owner|] == owner && rest[|owner| + 1..|owner| + |name| + 1] == name
            && rest[|owner| + |name| + 2..] == d
  {
    var rest := owner + "_" + name + "_" + d;
    assert rest[|owner|] == '_' && rest[|owner| + |name| + 1] == '_';
    assert forall i :: 0 <= i < |owner| ==> rest[i] == owner[i];
    assert rest[|owner| + |name| + 2..] == d;
    assert forall p :: |owner| + |name| + 2 <= p < |rest| ==> rest[p] == d[p - (|owner| + |name| + 2)];
  }

  /** A printed source id can be parsed back, because owners contain no underscore. */
  lemma SourceIDReadsBack(id: Identity, number: nat)
    requires Valid(id)
    ensures Parse(PullRequestSourceID(Written(id), number)) == Some((id, number))
  {
    hide Replaced, Decimal, Value, FirstFrom, AfterLast;
    var text, d := PullRequestSourceID(Written(id), number), Decimal(number);
    NamesAreKept(id);
    assert text[3..] == id.owner + "_" + id.name + "_" + d;
    PartsAreFound(id.owner, id.name, d);
    DecimalReadsBack(number);
  }

  lemma NamesAreKept(id: Identity)
    requires Valid(id)
    ensures Replaced(Written(id)) == id.owner + "_" + id.name
  {
    var text := Written(id);
    forall i | 0 <= i < |text|
      ensures Replaced(text)[i] == (id.owner + "_" + id.name)[i]
    {
      if i < |id.owner| {
        assert text[i] == id.owner[i];
      } else if i > |id.owner| {
        assert text[i] == id.name[i - |id.owner| - 1];
      }
    }
  }

  /** Without the pattern two repositories could share every id. */
  lemma UnderscoreOwnersCollide(number: nat)
    ensures PullRequestSourceID("a_b/c", number) == PullRequestSourceID("a/b_c", number)
    ensures !ValidOwner("a_b")
  {
    assert Replaced("a_b/c") == "a_b_c" == Replaced("a/b_c");
    assert "a_b"[1] == '_';
  }

  // ----- Canonical casing -----

  function Lower(s: string): (text: string)
    ensures |text| == |s|
  {
    seq(|s|, i requires 0 <= i < |s| => if 'A' <= s[i] <= 'Z' then (s[i] as int + 32) as char else s[i])
  }

  /** One is a capital letter and the other the small one. */
  predicate OtherCase(c: char, d: char) {
    'A' <= c <= 'Z' && d as int == c as int + 32
  }

  /** Two spellings are of one repository exactly if they differ in the case of
      letters only. */
  lemma SameIdentityIff(a: string, b: string)
    ensures Lower(a) == Lower(b) <==>
              && |a| == |b|
              && forall i :: 0 <= i < |a| ==> a[i] == b[i] || OtherCase(a[i], b[i]) || OtherCase(b[i], a[i])
  {
    if Lower(a) == Lower(b) {
      forall i | 0 <= i < |a|
        ensures a[i] == b[i] || OtherCase(a[i], b[i]) || OtherCase(b[i], a[i])
      {
        assert Lower(a)[i] == Lower(b)[i];
      }
    }
  }

  predicate Matches(repository: string) {
    var slash := FirstFrom(repository, '/', 0);
    slash < |repository| && ValidOwner(repository[..slash]) && ValidName(repository[slash + 1..])
  }

  lemma MatchesIsWritten(repository: string) returns (id: Identity)
    requires Matches(repository)
    ensures Valid(id) && Written(id) == repository
  {
    var slash := FirstFrom(repository, '/', 0);
    id := Identity(repository[..slash], repository[slash + 1..]);
  }

  /** Repositories the pattern accepts never share a source id. */
  lemma SourceIDsAreInjective(a: string, m: nat, b: string, n: nat)
    requires Matches(a) && Matches(b)
    ensures PullRequestSourceID(a, m) == PullRequestSourceID(b, n) <==> a == b && m == n
  {
    hide PullRequestSourceID, Parse;
    var x := MatchesIsWritten(a);
    var y := MatchesIsWritten(b);
    SourceIDReadsBack(x, m);
    SourceIDReadsBack(y, n);
  }

  /** Every repository matches the pattern, a collection lists none twice, and
      one repository has one casing everywhere. */
  predicate Canonical(collections: seq<seq<string>>) {
    && (forall c, i :: 0 <= c < |collections| && 0 <= i < |collections[c]| ==> Matches(collections[c][i]))
    && (forall c, i, k :: 0 <= c < |collections| && 0 <= i < k < |collections[c]| ==>
        Lower(collections[c][i]) != Lower(collections[c][k]))
    && (forall c, d, i, k ::
          0 <= c < |collections| && 0 <= d < |collections| && 0 <= i < |collections[c]| && 0 <= k < |collections[d]| ==>
          Lower(collections[c][i]) == Lower(collections[d][k]) ==> collections[c][i] == collections[d][k])
  }

  /** The repositories listed before place `i` of collection `c`. */
  predicate Earlier(collections: seq<seq<string>>, c: nat, i: nat, d: nat, k: nat)
    requires d < |collections| && k < |collections[d]|
  {
    d < c || (d == c && k < i)
  }

  ghost predicate Knows(canonical: map<string, string>, collections: seq<seq<string>>, c: nat, i: nat)
    requires c <= |collections| && (c < |collections| ==> i <= |collections[c]|)
  {
    && (forall d, k :: 0 <= d < |collections| && 0 <= k < |collections[d]| && Earlier(collections, c, i, d, k) ==>
          Lower(collections[d][k]) in canonical && canonical[Lower(collections[d][k])] == collections[d][k]
              && Matches(collections[d][k]))
    && (forall identity :: identity in canonical ==> exists d, k ::
          0 <= d < |collections| && 0 <= k < |collections[d]| && Earlier(collections, c, i, d, k)
          && Lower(collections[d][k]) == identity && canonical[identity] == collections[d][k])
  }

  ghost predicate Listed(seen: set<string>, repositories: seq<string>, i: nat)
    requires i <= |repositories|
  {
    && (forall identity :: identity in seen <==> exists k :: 0 <= k < i && Lower(repositories[k]) == identity)
    && (forall k, l :: 0 <= k < l < i ==> Lower(repositories[k]) != Lower(repositories[l]))
  }

  method ValidateRepositories(collections: seq<seq<string>>) returns (ok: bool)
    ensures ok <==> Canonical(collections)
  {
    var canonical: map<string, string> := map[];
    for c := 0 to |collections|
      invariant Knows(canonical, collections, c, 0)
      invariant forall d, i, k :: 0 <= d < c && 0 <= i < k < |collections[d]| ==>
                  Lower(collections[d][i]) != Lower(collections[d][k])
    {
      hide Lower, Matches;
      var seen: set<string> := {};
      for i := 0 to |collections[c]|
        invariant Knows(canonical, collections, c, i) && Listed(seen, collections[c], i)
      {
        hide Knows, Listed;
        var repository := collections[c][i];
        if !Matches(repository) {
          return false;
        }
        var identity := Lower(repository);
        if identity in seen {
          RepeatedInCollection(seen, collections, c, i);
          return false;
        }
        if identity in canonical && canonical[identity] != repository {
          OtherCasing(canonical, collections, c, i);
          return false;
        }
        KnowOneMore(canonical, collections, c, i);
        ListOneMore(seen, collections[c], i);
        canonical := canonical[identity := repository];
        seen := seen + {identity};
      }
      NextCollection(canonical, collections, c);
    }
    KnownIsCanonical(canonical, collections);
    ok := true;
  }

  lemma RepeatedInCollection(seen: set<string>, collections: seq<seq<string>>, c: nat, i: nat)
    requires c < |collections| && i < |collections[c]| && Listed(seen, collections[c], i)
             && Lower(collections[c][i]) in seen
    ensures !Canonical(collections)
  {
    hide Lower, Matches;
  }

  lemma OtherCasing(canonical: map<string, string>, collections: seq<seq<string>>, c: nat, i: nat)
    requires c < |collections| && i < |collections[c]| && Knows(canonical, collections, c, i)
    requires Lower(collections[c][i]) in canonical && canonical[Lower(collections[c][i])] != collections[c][i]
    ensures !Canonical(collections)
  {
    hide Lower, Matches;
  }

  lemma KnowOneMore(canonical: map<string, string>, collections: seq<seq<string>>, c: nat, i: nat)
    requires c < |collections| && i < |collections[c]| && Knows(canonical, collections, c, i)
             && Matches(collections[c][i])
    requires Lower(collections[c][i]) in canonical ==> canonical[Lower(collections[c][i])] == collections[c][i]
    ensures Knows(canonical[Lower(collections[c][i]) := collections[c][i]], collections, c, i + 1)
  {
    hide Lower, Matches;
  }

  lemma ListOneMore(seen: set<string>, repositories: seq<string>, i: nat)
    requires i < |repositories| && Listed(seen, repositories, i) && Lower(repositories[i]) !in seen
    ensures Listed(seen + {Lower(repositories[i])}, repositories, i + 1)
  {
    hide Lower;
  }

  lemma NextCollection(canonical: map<string, string>, collections: seq<seq<string>>, c: nat)
    requires c < |collections| && Knows(canonical, collections, c, |collections[c]|)
    ensures Knows(canonical, collections, c + 1, 0)
  {
    hide Lower, Matches;
  }

  lemma KnownIsCanonical(canonical: map<string, string>, collections: seq<seq<string>>)
    requires Knows(canonical, collections, |collections|, 0)
    requires forall d, i, k :: 0 <= d < |collections| && 0 <= i < k < |collections[d]| ==>
               Lower(collections[d][i]) != Lower(collections[d][k])
    ensures Canonical(collections)
  {
    hide Lower, Matches;
  }
}
