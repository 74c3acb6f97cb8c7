/** Display levels, model evaluations, and the last valid value of each section
    of an analysis. */
module AnalysisResult {
  import opened Wrappers

  datatype Severity = Low | Medium | High | OtherSeverity(text: string)

  datatype Level = Unset | NoConcerns | ReviewSuggested | StrongConcerns

  // ----- Levels -----

  function CountLow(findings: seq<Severity>, n: nat): nat
    requires n <= |findings|
  {
    if n == 0 then 0 else CountLow(findings, n - 1) + (if findings[n - 1] == Low then 1 else 0)
  }

  /** A high finding is a strong concern; a medium one, or two low ones, suggest
      a review. */
  function LevelOf(findings: seq<Severity>): Level {
    if High in findings then StrongConcerns
    else if Medium in findings || CountLow(findings, |findings|) >= 2 then ReviewSuggested
    else NoConcerns
  }

  /** Two different places of the list hold this severity. */
  predicate Twice(findings: seq<Severity>, severity: Severity) {
    exists i, k :: 0 <= i < k < |findings| && findings[i] == severity && findings[k] == severity
  }

  lemma {:induction false} LowIsCounted(findings: seq<Severity>, n: nat)
    requires n <= |findings|
    ensures CountLow(findings, n) >= 1 <==> exists i :: 0 <= i < n && findings[i] == Low
    ensures CountLow(findings, n) >= 2 <==> exists i, k :: 0 <= i < k < n && findings[i] == findings[k] == Low
  {
    if n > 0 {
      LowIsCounted(findings, n - 1);
    }
  }

  lemma LevelMeans(findings: seq<Severity>)
    ensures var level := LevelOf(findings);
            && (level == StrongConcerns <==> High in findings)
            && (level == ReviewSuggested <==> High !in findings && (Medium in findings || Twice(findings, Low)))
            && level != Unset
  {
    LowIsCounted(findings, |findings|);
  }

  method ComputeLevel(findings: seq<Severity>) returns (level: Level)
    ensures level == LevelOf(findings)
    ensures level == StrongConcerns <==> High in findings
    ensures level == ReviewSuggested <==> High !in findings && (Medium in findings || Twice(findings, Low))
    ensures level != Unset
  {
    hide Twice;
    LevelMeans(findings);
    var lowCount := 0;
    level := NoConcerns;
    for i := 0 to |findings|
      invariant lowCount == CountLow(findings, i)
      invariant forall k :: 0 <= k < i ==> findings[k] != High
      invariant level == if exists k :: 0 <= k < i && findings[k] == Medium then ReviewSuggested else NoConcerns
    {
      match findings[i] {
        case High => return StrongConcerns;
        case Medium => level := ReviewSuggested;
        case Low => lowCount := lowCount + 1;
        case OtherSeverity(_) =>
      }
    }
    if lowCount >= 2 {
      return ReviewSuggested;
    }
  }

  lemma {:induction false} CountLowAppends(a: seq<Severity>, b: seq<Severity>, n: nat)
    requires n <= |b|
    ensures CountLow(a + b, |a| + n) == CountLow(a, |a|) + CountLow(b, n)
  {
    if n > 0 {
      CountLowAppends(a, b, n - 1);
      assert (a + b)[|a| + n - 1] == b[n - 1];
    } else {
      CountLowPrefix(a, b, |a|);
    }
  }

  lemma {:induction false} CountLowPrefix(a: seq<Severity>, b: seq<Severity>, n: nat)
    requires n <= |a|
    ensures CountLow(a + b, n) == CountLow(a, n)
  {
    if n > 0 {
      CountLowPrefix(a, b, n - 1);
      assert (a + b)[n - 1] == a[n - 1];
    }
  }

  /** The list takes the worse of the two stored levels. */
  function Combined(rules: Level, model: Level): Level {
    if rules == StrongConcerns || model == StrongConcerns then StrongConcerns
    else if rules == ReviewSuggested || model == ReviewSuggested then ReviewSuggested
    else NoConcerns
  }

  function Rank(level: Level): nat {
    match level
    case Unset => 0
    case NoConcerns => 1
    case ReviewSuggested => 2
    case StrongConcerns => 3
  }

  /** It is one of the two, and neither is worse. */
  lemma CombinedIsWorse(rules: Level, model: Level)
    requires rules != Unset && model != Unset
    ensures Combined(rules, model) in {rules, model}
    ensures Rank(rules) <= Rank(Combined(rules, model)) && Rank(model) <= Rank(Combined(rules, model))
  {
  }

  predicate OnlyOneLow(findings: seq<Severity>) {
    High !in findings && Medium !in findings && CountLow(findings, |findings|) == 1
  }

  /** The list agrees with the detail page, which judges all findings together,
      except when the rules and the model each found one low concern only. */
  lemma ListAgreesWithDetailIff(rules: seq<Severity>, model: seq<Severity>)
    ensures Combined(LevelOf(rules), LevelOf(model)) == LevelOf(rules + model) <==>
              !(OnlyOneLow(rules) && OnlyOneLow(model))
  {
    CountLowAppends(rules, model, |model|);
    assert High in rules + model <==> High in rules || High in model;
    assert Medium in rules + model <==> Medium in rules || Medium in model;
  }

  // ----- Rules -----

  datatype Policy = Policy(
    minReferences: int, strongMinReferences: int, minFiles: int, minAdditions: int, maxDeletions: int)

  /** The facts the rules look at: the file references of the description, how
      many of them are in the diff, and the churn. */
  datatype Facts = Facts(references: nat, matched: nat, files: nat, changedFileCount: nat, additions: nat,
                         deletions: nat)

  datatype Verdict = Clear | NotEvaluated | Finding(severity: Severity)

  function AssessMismatch(f: Facts, p: Policy): Verdict {
    if f.references == 0 then Clear
    else if f.files == 0 then NotEvaluated
    else if f.matched != 0 || f.references < p.minReferences then Clear
    else Finding(if f.references >= p.strongMinReferences then High else Medium)
  }

  function AssessBroadAdditions(f: Facts, p: Policy): Verdict {
    var count := if f.changedFileCount == 0 then f.files else f.changedFileCount;
    if count == 0 then (if f.additions == 0 && f.deletions == 0 then Clear else NotEvaluated)
    else if count < p.minFiles || f.additions < p.minAdditions || f.deletions > p.maxDeletions then Clear
    else Finding(Medium)
  }

  function Assess(f: Facts, p: Policy): seq<Severity> {
    (if AssessMismatch(f, p).Finding? then [AssessMismatch(f, p).severity] else [])
    + (if AssessBroadAdditions(f, p).Finding? then [AssessBroadAdditions(f, p).severity] else [])
  }

  /** What the rules come to: a description none of whose enough file references
      is in the diff is a strong concern from the strong minimum on, and suggests
      a review below it; so does a broad addition. Without references, without
      files or below a minimum nothing is found. */
  lemma RulesFindIff(f: Facts, p: Policy)
    ensures var level := LevelOf(Assess(f, p));
            var unmatched := f.references > 0 && f.files > 0 && f.matched == 0 && f.references >= p.minReferences;
            var changed := if f.changedFileCount == 0 then f.files else f.changedFileCount;
            var broad := changed > 0 && changed >= p.minFiles && f.additions >= p.minAdditions
                         && f.deletions <= p.maxDeletions;
            && (level == StrongConcerns <==> unmatched && f.references >= p.strongMinReferences)
            && (level == ReviewSuggested <==>
                  (unmatched && f.references < p.strongMinReferences)
                  || (broad && !(unmatched && f.references >= p.strongMinReferences)))
  {
    var rules := Assess(f, p);
    LevelMeans(rules);
    AssessedSeverities(f, p);
    assert Twice(rules, Low) ==> Low in rules;
  }

  lemma AssessedSeverities(f: Facts, p: Policy)
    ensures var rules := Assess(f, p);
            && (High in rules <==> AssessMismatch(f, p) == Finding(High))
            && (Medium in rules <==>
                  AssessMismatch(f, p) == Finding(Medium) || AssessBroadAdditions(f, p) == Finding(Medium))
            && Low !in rules
  {
    var rules := Assess(f, p);
    assert AssessMismatch(f, p).Finding? ==> rules[0] == AssessMismatch(f, p).severity;
    assert AssessBroadAdditions(f, p).Finding? ==> rules[|rules| - 1] == AssessBroadAdditions(f, p).severity;
  }

  /** The rules never find a low concern, so for what they find the list and the
      detail page always agree. */
  lemma RulesAgreeWithDetail(f: Facts, p: Policy, model: seq<Severity>)
    ensures Combined(LevelOf(Assess(f, p)), LevelOf(model)) == LevelOf(Assess(f, p) + model)
  {
    var rules := Assess(f, p);
    assert |rules| <= 2 && forall i :: 0 <= i < |rules| ==> rules[i] == Medium || rules[i] == High;
    if |rules| > 0 {
      assert rules[0] in rules;
    }
    ListAgreesWithDetailIff(rules, model);
  }

  // ----- Model evaluations -----

  const FAMILIES: seq<string> := [
    "unrelated_changes", "description_diff_mismatch", "missing_expected_tests", "internal_contradictions",
        "unsupported_references"]

  const MAX_REASON_RUNES: nat := 500
  const MAX_FINDING_RUNES: nat := 500

  datatype ModelFinding = ModelFinding(severity: Severity, confidence: string, summary: string, sourceIDs: seq<string>)

  datatype Evaluation = Evaluation(family: string, status: string, completeness: string, reason: string,
                                   finding: Option<ModelFinding>)

  predicate Blank(text: string) {
    forall c :: c in text ==> c == ' ' || c == '\t' || c == '\n' || c == '\r'
  }

  predicate Text(text: string, limit: nat) {
    !Blank(text) && |text| <= limit
  }

  predicate Cites(sourceIDs: seq<string>, known: set<string>) {
    && 0 < |sourceIDs| <= 20
    && (forall i :: 0 <= i < |sourceIDs| ==> sourceIDs[i] in known)
    && (forall i, k :: 0 <= i < k < |sourceIDs| ==> sourceIDs[i] != sourceIDs[k])
  }

  predicate FindingOk(e: Evaluation, f: ModelFinding, known: set<string>) {
    && !f.severity.OtherSeverity? && (f.confidence == "medium" || f.confidence == "high")
    && (f.severity == High ==> e.completeness == "complete" && f.confidence == "high")
    && (e.family == "missing_expected_tests" || e.family == "unsupported_references" ==> e.completeness == "complete")
    && Text(f.summary, MAX_FINDING_RUNES) && Cites(f.sourceIDs, known)
  }

  predicate EvaluationOk(e: Evaluation, known: set<string>) {
    if e.status == "no_concern" then e.completeness == "complete" && e.finding.None? && e.reason == ""
    else if e.status == "not_evaluated" then
      e.completeness == "partial" && e.finding.None? && Text(e.reason, MAX_REASON_RUNES)
    else
      && e.status == "finding" && e.completeness in {"complete", "partial"} && e.finding.Some? && e.reason == ""
      && FindingOk(e, e.finding.value, known)
  }

  method ValidateEvaluations(evaluations: seq<Evaluation>, known: set<string>) returns (ok: bool)
    ensures ok <==>
      && |evaluations| == |FAMILIES|
      && (forall i :: 0 <= i < |evaluations| ==>
          evaluations[i].family in FAMILIES && EvaluationOk(evaluations[i], known))
      && (forall i, k :: 0 <= i < k < |evaluations| ==> evaluations[i].family != evaluations[k].family)
  {
    hide EvaluationOk;
    if |evaluations| != |FAMILIES| {
      return false;
    }
    var families: set<string> := {};
    for i := 0 to |evaluations|
      invariant forall k :: 0 <= k < i ==> evaluations[k].family in FAMILIES && EvaluationOk(evaluations[k], known)
      invariant forall f :: f in families <==> exists k :: 0 <= k < i && evaluations[k].family == f
      invariant forall k, l :: 0 <= k < l < i ==> evaluations[k].family != evaluations[l].family
    {
      var e := evaluations[i];
      if e.family !in FAMILIES {
        return false;
      }
      if e.family in families {
        return false;
      }
      families := families + {e.family};
      if !EvaluationOk(e, known) {
        return false;
      }
    }
    ok := true;
  }

  ghost function FamiliesOf(evaluations: seq<Evaluation>, n: nat): (families: set<string>)
    requires n <= |evaluations|
    ensures forall f :: f in families <==> exists k :: 0 <= k < n && evaluations[k].family == f
  {
    if n == 0 then {} else FamiliesOf(evaluations, n - 1) + {evaluations[n - 1].family}
  }

  lemma {:induction false} AsManyFamilies(evaluations: seq<Evaluation>, n: nat)
    requires n <= |evaluations| && forall i, k :: 0 <= i < k < |evaluations| ==>
               evaluations[i].family != evaluations[k].family
    ensures |FamiliesOf(evaluations, n)| == n
  {
    if n > 0 {
      AsManyFamilies(evaluations, n - 1);
    }
  }

  lemma SameSizeSubset(a: set<string>, b: set<string>)
    requires a <= b && |a| >= |b|
    ensures a == b
  {
    assert b == a + (b - a);
    assert |b| == |a| + |b - a|;
  }

  ghost function FirstFamilies(n: nat): (families: set<string>)
    requires n <= |FAMILIES|
    ensures |families| <= n && forall f :: f in families <==> exists k :: 0 <= k < n && FAMILIES[k] == f
  {
    if n == 0 then {} else FirstFamilies(n - 1) + {FAMILIES[n - 1]}
  }

  /** A valid list judges every concern family exactly once. */
  lemma EveryFamilyIsJudged(evaluations: seq<Evaluation>, family: string)
    requires |evaluations| == |FAMILIES| && forall i :: 0 <= i < |evaluations| ==> evaluations[i].family in FAMILIES
    requires forall i, k :: 0 <= i < k < |evaluations| ==> evaluations[i].family != evaluations[k].family
    requires family in FAMILIES
    ensures exists i :: 0 <= i < |evaluations| && evaluations[i].family == family
  {
    hide FirstFamilies, FamiliesOf;
    var all, judged := FirstFamilies(|FAMILIES|), FamiliesOf(evaluations, |evaluations|);
    AsManyFamilies(evaluations, |evaluations|);
    SameSizeSubset(judged, all);
    assert family in all;
  }

  /** A strong concern of an accepted list rests on complete evidence, high
      confidence and known sources, and each of its findings cites one to twenty
      distinct known sources. */
  lemma AcceptedFindingsAreSupported(e: Evaluation, known: set<string>)
    requires EvaluationOk(e, known)
    ensures e.status == "finding" <==> e.finding.Some?
    ensures e.finding.Some? ==>
              var f := e.finding.value;
              && f.severity in {Low, Medium, High} && f.confidence in {"medium", "high"}
              && 1 <= |f.sourceIDs| <= 20 && (forall id :: id in f.sourceIDs ==> id in known)
              && (forall i, k :: 0 <= i < k < |f.sourceIDs| ==> f.sourceIDs[i] != f.sourceIDs[k])
              && 0 < |f.summary| <= 500 && e.reason == ""
              && (f.severity == High ==> e.completeness == "complete" && f.confidence == "high")
              && (e.family in {"missing_expected_tests", "unsupported_references"} ==> e.completeness == "complete")
    ensures e.completeness in {"complete", "partial"}
    ensures e.status == "no_concern" ==> e.completeness == "complete" && e.reason == ""
    ensures e.status == "not_evaluated" ==> e.completeness == "partial" && 0 < |e.reason| <= 500
    ensures e.status in {"no_concern", "not_evaluated", "finding"}
  {
    EmptyIsBlank();
  }

  lemma EmptyIsBlank()
    ensures Blank("")
  {
  }

  predicate Finds(e: Evaluation, severity: Severity) {
    e.status == "finding" && e.finding.Some? && e.finding.value.severity == severity
  }

  function Severities(evaluations: seq<Evaluation>, n: nat): seq<Severity>
    requires n <= |evaluations|
  {
    if n == 0 then []
    else if evaluations[n - 1].status == "finding" && evaluations[n - 1].finding.Some? then
      Severities(evaluations, n - 1) + [evaluations[n - 1].finding.value.severity]
    else Severities(evaluations, n - 1)
  }

  function EvaluationLevel(evaluations: seq<Evaluation>): Level {
    LevelOf(Severities(evaluations, |evaluations|))
  }

  /** A high finding makes a strong concern; otherwise a medium one or two low
      ones suggest a review. */
  predicate Judges(level: Level, evaluations: seq<Evaluation>) {
    && level != Unset
    && (level == StrongConcerns <==> exists i :: 0 <= i < |evaluations| && Finds(evaluations[i], High))
    && (level == ReviewSuggested <==>
          && level != StrongConcerns
          && ((exists i :: 0 <= i < |evaluations| && Finds(evaluations[i], Medium))
              || exists i, k :: 0 <= i < k < |evaluations| && Finds(evaluations[i], Low)
                                && Finds(evaluations[k], Low)))
  }

  /** Every finding has its place in the list, in order. */
  lemma {:induction false} SeveritiesAreFindings(evaluations: seq<Evaluation>, n: nat, severity: Severity)
    requires n <= |evaluations|
    ensures severity in Severities(evaluations, n) <==> exists i :: 0 <= i < n && Finds(evaluations[i], severity)
    ensures Twice(Severities(evaluations, n), severity) <==>
              exists i, k :: 0 <= i < k < n && Finds(evaluations[i], severity) && Finds(evaluations[k], severity)
  {
    hide Twice;
    if n > 0 {
      SeveritiesAreFindings(evaluations, n - 1, severity);
      var earlier, last := Severities(evaluations, n - 1), evaluations[n - 1];
      if last.status == "finding" && last.finding.Some? {
        TwiceOneMore(earlier, last.finding.value.severity, severity);
      }
    } else {
      NothingTwice(severity);
    }
  }

  lemma NothingTwice(severity: Severity)
    ensures !Twice([], severity)
  {
  }

  lemma TwiceOneMore(findings: seq<Severity>, next: Severity, severity: Severity)
    ensures Twice(findings + [next], severity) <==>
              Twice(findings, severity) || (severity in findings && next == severity)
  {
    var longer := findings + [next];
    if severity in findings && next == severity {
      var i :| 0 <= i < |findings| && findings[i] == severity;
      assert longer[i] == severity && longer[|findings|] == severity;
    }
    if Twice(findings, severity) {
      var i, k :| 0 <= i < k < |findings| && findings[i] == severity && findings[k] == severity;
      assert longer[i] == severity && longer[k] == severity;
    }
  }

  method QualityLevel(evaluations: seq<Evaluation>) returns (level: Level)
    ensures level == EvaluationLevel(evaluations) && Judges(level, evaluations)
  {
    hide Judges;
    LevelJudges(evaluations);
    var findings: seq<Severity> := [];
    for i := 0 to |evaluations|
      invariant findings == Severities(evaluations, i)
    {
      if evaluations[i].status != "finding" || evaluations[i].finding.None? {
        continue;
      }
      findings := findings + [evaluations[i].finding.value.severity];
    }
    level := ComputeLevel(findings);
  }

  // ----- Last valid sections -----

  datatype Waiting = Waiting(party: string, reason: string)

  /** A section is present only if it was valid on its own. */
  datatype Response = Response(load: Option<string>, waitingOn: Option<seq<Waiting>>,
                               evaluations: Option<seq<Evaluation>>)

  datatype Analysis = Analysis(load: Option<string>, waitingOn: Option<seq<Waiting>>,
                               evaluations: Option<seq<Evaluation>>, level: Level)

  const NOTHING := Analysis(None, None, None, Unset)

  function Merge(previous: Analysis, response: Response): Analysis {
    var waitingOn := if response.waitingOn.Some? then response.waitingOn else previous.waitingOn;
    var evaluations := if response.evaluations.Some? then response.evaluations else previous.evaluations;
    var level := if response.evaluations.Some? then EvaluationLevel(response.evaluations.value) else previous.level;
    Analysis(if response.load.Some? then response.load else previous.load,
             if waitingOn.None? then Some([]) else waitingOn,
             if evaluations.None? then Some([]) else evaluations,
             if level == Unset then NoConcerns else level)
  }

  /** The merge as it is written: sections first, defaults last. */
  method MergeSections(previous: Analysis, response: Response) returns (result: Analysis)
    ensures result == Merge(previous, response)
    ensures result.load == if response.load.Some? then response.load else previous.load
    ensures result.waitingOn == if response.waitingOn.Some? then response.waitingOn
                                else if previous.waitingOn.Some? then previous.waitingOn else Some([])
    ensures result.evaluations == if response.evaluations.Some? then response.evaluations
                                  else if previous.evaluations.Some? then previous.evaluations else Some([])
    ensures response.evaluations.None? ==>
              result.level == if previous.level == Unset then NoConcerns else previous.level
    ensures response.evaluations.Some? ==> Judges(result.level, response.evaluations.value)
  {
    result := previous;
    if response.load.Some? {
      result := result.(load := response.load);
    }
    if response.waitingOn.Some? {
      result := result.(waitingOn := response.waitingOn);
    }
    if response.evaluations.Some? {
      var level := QualityLevel(response.evaluations.value);
      result := result.(evaluations := response.evaluations, level := level);
    }
    if result.waitingOn.None? {
      result := result.(waitingOn := Some([]));
    }
    if result.evaluations.None? {
      result := result.(evaluations := Some([]));
    }
    if result.level == Unset {
      result := result.(level := NoConcerns);
    }
  }

  /** Recording also sorts the waiting states by party, in place. */
  function Record(sorted: seq<Waiting> -> seq<Waiting>, previous: Analysis, response: Response): Analysis {
    var result := Merge(previous, response);
    result.(waitingOn := Some(sorted(result.waitingOn.value)))
  }

  function Recorded(sorted: seq<Waiting> -> seq<Waiting>, responses: seq<Response>, n: nat): Analysis
    requires n <= |responses|
  {
    if n == 0 then NOTHING else Record(sorted, Recorded(sorted, responses, n - 1), responses[n - 1])
  }

  function LatestLoad(responses: seq<Response>, n: nat): Option<string>
    requires n <= |responses|
  {
    if n == 0 then None else if responses[n - 1].load.Some? then responses[n - 1].load else LatestLoad(responses, n - 1)
  }

  function LatestWaiting(responses: seq<Response>, n: nat): seq<Waiting>
    requires n <= |responses|
  {
    if n == 0 then []
    else if responses[n - 1].waitingOn.Some? then responses[n - 1].waitingOn.value
    else LatestWaiting(responses, n - 1)
  }

  function LatestEvaluations(responses: seq<Response>, n: nat): seq<Evaluation>
    requires n <= |responses|
  {
    if n == 0 then []
    else if responses[n - 1].evaluations.Some? then responses[n - 1].evaluations.value
    else LatestEvaluations(responses, n - 1)
  }

  /** After any history of responses each section is the last valid one, and the
      stored level is that of the stored evaluations. */
  lemma {:induction false} LastValidSections(sorted: seq<Waiting> -> seq<Waiting>, responses: seq<Response>, n: nat)
    requires 0 < n <= |responses| && sorted([]) == [] && forall s :: sorted(sorted(s)) == sorted(s)
    ensures var stored := Recorded(sorted, responses, n);
            && stored.load == LatestLoad(responses, n)
            && stored.waitingOn == Some(sorted(LatestWaiting(responses, n)))
            && stored.evaluations == Some(LatestEvaluations(responses, n))
            && Judges(stored.level, stored.evaluations.value)
            && stored.level == EvaluationLevel(stored.evaluations.value)
  {
    if n > 1 {
      LastValidSections(sorted, responses, n - 1);
    }
    LevelJudges(LatestEvaluations(responses, n));
    NothingJudged();
  }

  lemma LevelJudges(evaluations: seq<Evaluation>)
    ensures Judges(EvaluationLevel(evaluations), evaluations)
  {
    hide Twice, Finds;
    LevelMeans(Severities(evaluations, |evaluations|));
    SeveritiesAreFindings(evaluations, |evaluations|, High);
    SeveritiesAreFindings(evaluations, |evaluations|, Medium);
    SeveritiesAreFindings(evaluations, |evaluations|, Low);
  }

  lemma NothingJudged()
    ensures EvaluationLevel([]) == NoConcerns
  {
    assert Severities([], 0) == [];
  }
}
