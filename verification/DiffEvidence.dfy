/** Bounded patch evidence: how the client builds it, and what the store asks of
    it before it is cached. */
module DiffEvidence {
  import opened Utf8

  const MAX_FILES: nat := 100
  const MAX_FILE_BYTES: nat := 8 * 1024
  const MAX_TOTAL_BYTES: nat := 128 * 1024

  datatype File = File(name: string, patch: seq<Byte>)

  datatype Source = Source(path: string, patch: seq<Byte>, originalBytes: nat, sentBytes: nat, truncated: bool)

  datatype Completeness = Complete | Partial | Unavailable

  datatype Evidence = Evidence(
    completeness: Completeness, originalFiles: int, sentFiles: int, omittedFiles: int,
    originalBytes: int, sentBytes: int, truncated: bool, sources: seq<Source>)

  // ----- What the store accepts -----

  function SentBytes(sources: seq<Source>, n: nat): nat
    requires n <= |sources|
  {
    if n == 0 then 0 else SentBytes(sources, n - 1) + sources[n - 1].sentBytes
  }

  predicate AnyTruncated(sources: seq<Source>, n: nat)
    requires n <= |sources|
  {
    exists i :: 0 <= i < n && sources[i].truncated
  }

  predicate SourceOk(s: Source) {
    && s.path != "" && s.patch != [] && Valid(s.patch) && |s.patch| <= MAX_FILE_BYTES
    && s.sentBytes == |s.patch| && s.originalBytes >= s.sentBytes
  }

  predicate CompletenessOk(e: Evidence) {
    match e.completeness
    case Complete => !e.truncated
    case Partial => e.truncated
    case Unavailable => e.sources == [] && e.sentBytes == 0
  }

  predicate Acceptable(e: Evidence) {
    && |e.sources| <= MAX_FILES && e.sentFiles == |e.sources|
    && e.originalFiles >= e.sentFiles && e.omittedFiles == e.originalFiles - e.sentFiles
    && (forall i :: 0 <= i < |e.sources| ==> SourceOk(e.sources[i]))
    && e.sentBytes == SentBytes(e.sources, |e.sources|) <= MAX_TOTAL_BYTES && e.originalBytes >= e.sentBytes
    && e.truncated == (e.omittedFiles > 0 || AnyTruncated(e.sources, |e.sources|))
    && CompletenessOk(e)
  }

  /** The primary key of the stored sources. */
  predicate DistinctPaths(sources: seq<Source>) {
    forall i, k :: 0 <= i < k < |sources| ==> sources[i].path != sources[k].path
  }

  method Validate(e: Evidence) returns (ok: bool)
    ensures ok == Acceptable(e)
  {
    if |e.sources| > MAX_FILES || e.sentFiles != |e.sources| || e.originalFiles < e.sentFiles
       || e.omittedFiles != e.originalFiles - e.sentFiles {
      return false;
    }
    var sent := 0;
    var truncated := e.omittedFiles > 0;
    for i := 0 to |e.sources|
      invariant forall k :: 0 <= k < i ==> SourceOk(e.sources[k])
      invariant sent == SentBytes(e.sources, i)
      invariant truncated == (e.omittedFiles > 0 || AnyTruncated(e.sources, i))
    {
      var source := e.sources[i];
      var wellFormed := IsValid(source.patch);
      if source.path == "" || source.patch == [] || !wellFormed || |source.patch| > MAX_FILE_BYTES
         || source.sentBytes != |source.patch| || source.originalBytes < source.sentBytes {
        assert !SourceOk(e.sources[i]);
        return false;
      }
      sent := sent + source.sentBytes;
      truncated := truncated || source.truncated;
    }
    if sent != e.sentBytes || sent > MAX_TOTAL_BYTES || e.originalBytes < e.sentBytes || e.truncated != truncated {
      return false;
    }
    if (e.completeness == Complete && e.truncated) || (e.completeness == Partial && !e.truncated)
       || (e.completeness == Unavailable && (|e.sources| != 0 || e.sentBytes != 0)) {
      return false;
    }
    ok := true;
  }

  // ----- What the client builds -----

  function TotalBytes(files: seq<File>, n: nat): nat
    requires n <= |files|
  {
    if n == 0 then 0 else TotalBytes(files, n - 1) + |files[n - 1].patch|
  }

  function Budget(sources: seq<Source>): int {
    MAX_TOTAL_BYTES - SentBytes(sources, |sources|)
  }

  function SourceOf(file: File, budget: nat): Source {
    var patch := Truncated(file.patch, if budget < MAX_FILE_BYTES then budget else MAX_FILE_BYTES);
    Source(file.name, patch, |file.patch|, |patch|, |patch| != |file.patch|)
  }

  predicate Sent(file: File, budget: int) {
    && file.name != "" && file.patch != [] && budget > 0
    && SourceOf(file, budget).patch != []
  }

  /** The sources of the first `n` files, each cut to its own limit and to what
      is left of the total. */
  function Collected(files: seq<File>, n: nat): seq<Source>
    requires n <= |files|
  {
    if n == 0 then []
    else
      var earlier := Collected(files, n - 1);
      if Sent(files[n - 1], Budget(earlier)) then earlier + [SourceOf(files[n - 1], Budget(earlier))] else earlier
  }

  lemma {:induction false} PrefixSums(a: seq<Source>, b: seq<Source>, n: nat)
    requires n <= |a| && n <= |b| && a[..n] == b[..n]
    ensures SentBytes(a, n) == SentBytes(b, n)
  {
    if n > 0 {
      assert a[..n - 1] == a[..n][..n - 1] == b[..n][..n - 1] == b[..n - 1];
      assert a[n - 1] == a[..n][n - 1] == b[..n][n - 1];
      PrefixSums(a, b, n - 1);
    }
  }

  lemma OneMoreSource(sources: seq<Source>, source: Source)
    ensures SentBytes(sources + [source], |sources| + 1) == SentBytes(sources, |sources|) + source.sentBytes
    ensures AnyTruncated(sources + [source], |sources| + 1) == (AnyTruncated(sources, |sources|) || source.truncated)
  {
    assert (sources + [source])[..|sources|] == sources[..|sources|];
    PrefixSums(sources + [source], sources, |sources|);
    assert (sources + [source])[|sources|] == source;
    assert forall i :: 0 <= i < |sources| ==> (sources + [source])[i] == sources[i];
  }

  lemma NothingCollected(files: seq<File>)
    ensures Collected(files, 0) == [] && SentBytes([], 0) == 0 && !AnyTruncated([], 0)
  {
  }

  /** One file in the terms of the loop. */
  lemma CollectOneMore(files: seq<File>, i: nat, remaining: nat)
    requires i < |files| && remaining == Budget(Collected(files, i))
    ensures var file, earlier := files[i], Collected(files, i);
            var cut := Truncated(file.patch, if remaining < MAX_FILE_BYTES then remaining else MAX_FILE_BYTES);
            Collected(files, i + 1)
              == if file.name == "" || file.patch == [] || remaining == 0 || cut == [] then earlier
                 else earlier + [Source(file.name, cut, |file.patch|, |cut|, |cut| != |file.patch|)]
  {
    hide Truncated, SentBytes;
  }

  method BuildEvidence(files: seq<File>, changedFiles: int) returns (e: Evidence)
    requires |files| <= MAX_FILES
    ensures e.sources == Collected(files, |files|)
    ensures e.sentFiles == |e.sources| && e.sentBytes == SentBytes(e.sources, |e.sources|)
    ensures e.originalFiles == (if changedFiles < |files| then |files| else changedFiles)
            && e.originalBytes == TotalBytes(files, |files|)
    ensures e.omittedFiles == e.originalFiles - e.sentFiles
    ensures e.truncated == (e.omittedFiles > 0 || AnyTruncated(e.sources, |e.sources|))
    ensures e.completeness == if e.truncated then Partial else Complete
  {
    var originalFiles := if changedFiles < |files| then |files| else changedFiles;
    var originalBytes := 0;
    for i := 0 to |files|
      invariant originalBytes == TotalBytes(files, i)
    {
      originalBytes := originalBytes + |files[i].patch|;
    }
    hide AnyTruncated, Truncated, SentBytes, Collected, TotalBytes;
    NothingCollected(files);
    var sources: seq<Source> := [];
    var sent, remaining, truncated := 0, MAX_TOTAL_BYTES, false;
    for i := 0 to |files|
      invariant sources == Collected(files, i) && |sources| <= i
      invariant sent == SentBytes(sources, |sources|) && remaining == MAX_TOTAL_BYTES - sent >= 0
      invariant AnyTruncated(sources, |sources|) ==> truncated
      invariant truncated ==> AnyTruncated(sources, |sources|) || |sources| < i
    {
      var file := files[i];
      CollectOneMore(files, i, remaining);
      if file.name == "" || file.patch == [] || remaining == 0 {
        continue;
      }
      var patch := TruncateBytes(file.patch, if remaining < MAX_FILE_BYTES then remaining else MAX_FILE_BYTES);
      if patch == [] {
        truncated := true;
        continue;
      }
      var source := Source(file.name, patch, |file.patch|, |patch|, |patch| != |file.patch|);
      OneMoreSource(sources, source);
      sources := sources + [source];
      sent := sent + |patch|;
      remaining := remaining - |patch|;
      truncated := truncated || source.truncated;
    }
    var omitted := if originalFiles - |sources| > 0 then originalFiles - |sources| else 0;
    truncated := truncated || omitted > 0;
    e := Evidence(if truncated then Partial else Complete, originalFiles, |sources|, omitted, originalBytes, sent,
                  truncated, sources);
  }

  /** What the store records when collection failed. */
  function UnavailableEvidence(changedFiles: nat): Evidence {
    Evidence(Unavailable, changedFiles, 0, changedFiles, 0, 0, changedFiles > 0, [])
  }

  // ----- The client meets the store -----

  predicate ValidPatches(files: seq<File>) {
    forall i :: 0 <= i < |files| ==> Valid(files[i].patch)
  }

  predicate DistinctNames(files: seq<File>) {
    forall i, k :: 0 <= i < k < |files| ==> files[i].name != files[k].name
  }

  lemma SourceFits(file: File, budget: nat)
    requires Valid(file.patch) && Sent(file, budget)
    ensures var source := SourceOf(file, budget);
            SourceOk(source) && source.sentBytes <= budget && source.sentBytes <= |file.patch|
  {
    CutIsTight(file.patch, if budget < MAX_FILE_BYTES then budget else MAX_FILE_BYTES);
  }

  lemma {:induction false} CollectedSources(files: seq<File>, n: nat)
    requires n <= |files| && ValidPatches(files)
    ensures var sources := Collected(files, n);
            && |sources| <= n && SentBytes(sources, |sources|) <= MAX_TOTAL_BYTES
            && SentBytes(sources, |sources|) <= TotalBytes(files, n)
            && (forall i :: 0 <= i < |sources| ==> SourceOk(sources[i]))
  {
    hide Sent, SourceOf, SourceOk;
    if n > 0 {
      CollectedSources(files, n - 1);
      var earlier := Collected(files, n - 1);
      if Sent(files[n - 1], Budget(earlier)) {
        OneMoreSource(earlier, SourceOf(files[n - 1], Budget(earlier)));
        SourceFits(files[n - 1], Budget(earlier));
      }
    }
  }

  function Smaller(a: int, b: int): int {
    if a < b then a else b
  }

  /** The source is the longest well-formed start of the patch within the limit. */
  predicate IsCut(source: Source, file: File, limit: int) {
    && source.path == file.name && source.patch <= file.patch && 0 < |source.patch| <= limit && Valid(source.patch)
    && (forall m :: |source.patch| < m <= |file.patch| && m <= limit ==> !Valid(file.patch[..m]))
    && source.originalBytes == |file.patch| && source.sentBytes == |source.patch|
    && (source.truncated <==> |source.patch| < |file.patch|)
  }

  /** Each file in turn adds its patch, cut to 8 KiB and to what is left of 128
      KiB, exactly if it has a name and not even one character is too long. */
  lemma EachFileIsCut(files: seq<File>, k: nat)
    requires k < |files| && Valid(files[k].patch)
    ensures var earlier, sources := Collected(files, k), Collected(files, k + 1);
            var limit := Smaller(8192, 131_072 - SentBytes(earlier, |earlier|));
            if files[k].name != ""
               && exists m :: 0 < m <= |files[k].patch| && m <= limit && Valid(files[k].patch[..m])
            then sources != [] && sources[..|sources| - 1] == earlier && IsCut(sources[|sources| - 1], files[k], limit)
            else sources == earlier
  {
    var earlier := Collected(files, k);
    var left := 131_072 - SentBytes(earlier, |earlier|);
    hide SentBytes, Valid, Truncated, Collected, IsCut;
    if left > 0 {
      CollectOneMore(files, k, left);
      CutOnce(files[k], Smaller(8192, left));
    } else {
      NothingLeft(files, k);
    }
  }

  lemma NothingLeft(files: seq<File>, k: nat)
    requires k < |files| && Budget(Collected(files, k)) <= 0
    ensures Collected(files, k + 1) == Collected(files, k)
  {
  }

  lemma CutOnce(file: File, limit: nat)
    requires Valid(file.patch)
    ensures var cut := Truncated(file.patch, limit);
            && (cut != [] ==> IsCut(Source(file.name, cut, |file.patch|, |cut|, |cut| != |file.patch|), file, limit))
            && (cut != [] <==> exists m :: 0 < m <= |file.patch| && m <= limit && Valid(file.patch[..m]))
  {
    hide Valid, Truncated;
    CutIsTight(file.patch, limit);
    NothingToCut(file.patch, limit);
    var cut := Truncated(file.patch, limit);
    assert cut == file.patch[..|cut|];
  }

  lemma NothingToCut(patch: seq<Byte>, limit: nat)
    ensures |patch| <= limit ==> Truncated(patch, limit) == patch
  {
  }

  predicate CutFrom(source: Source, files: seq<File>, n: nat)
    requires n <= |files|
  {
    exists k :: 0 <= k < n && source.path == files[k].name && source.patch <= files[k].patch
  }

  /** Every source is the start of one named file's patch, and no file is sent twice. */
  lemma {:induction false} CollectedPaths(files: seq<File>, n: nat)
    requires n <= |files| && DistinctNames(files)
    ensures DistinctPaths(Collected(files, n))
    ensures forall i :: 0 <= i < |Collected(files, n)| ==> CutFrom(Collected(files, n)[i], files, n)
  {
    hide Truncated, Budget;
    if n > 0 {
      CollectedPaths(files, n - 1);
      forall source | CutFrom(source, files, n - 1) ensures CutFrom(source, files, n) {
      }
      if Sent(files[n - 1], Budget(Collected(files, n - 1))) {
        assert CutFrom(SourceOf(files[n - 1], Budget(Collected(files, n - 1))), files, n);
      }
    }
  }

  /** Whatever valid patches GitHub returns, the evidence built from them passes
      the store's validation, and its paths fit the primary key. */
  lemma BuiltEvidenceIsAcceptable(files: seq<File>, e: Evidence)
    requires |files| <= MAX_FILES && ValidPatches(files) && DistinctNames(files)
    requires e.sources == Collected(files, |files|) && e.sentFiles == |e.sources|
             && e.sentBytes == SentBytes(e.sources, |e.sources|)
    requires e.originalFiles >= |files| && e.originalBytes == TotalBytes(files, |files|)
    requires e.omittedFiles == e.originalFiles - e.sentFiles
    requires e.truncated == (e.omittedFiles > 0 || AnyTruncated(e.sources, |e.sources|))
    requires e.completeness == if e.truncated then Partial else Complete
    ensures Acceptable(e) && DistinctPaths(e.sources)
  {
    CollectedSources(files, |files|);
    CollectedPaths(files, |files|);
  }

  /** The whole path: build, then validate. */
  method CollectAndValidate(files: seq<File>, changedFiles: int) returns (e: Evidence, ok: bool)
    requires |files| <= MAX_FILES
    ensures ValidPatches(files) && DistinctNames(files) ==> ok && DistinctPaths(e.sources)
    ensures e.sources == Collected(files, |files|)
  {
    e := BuildEvidence(files, changedFiles);
    if ValidPatches(files) && DistinctNames(files) {
      BuiltEvidenceIsAcceptable(files, e);
    }
    ok := Validate(e);
  }

  /** What stands for a failed collection is accepted, and it is the only such
      evidence of a pull request with so many changed files. */
  lemma UnavailableIsAcceptable(changedFiles: nat)
    ensures Acceptable(UnavailableEvidence(changedFiles))
    ensures UnavailableEvidence(changedFiles).completeness == Unavailable
            && UnavailableEvidence(changedFiles).originalFiles == changedFiles
    ensures forall e: Evidence ::
              Acceptable(e) && e.completeness == Unavailable && e.originalFiles == changedFiles && e.originalBytes == 0
              ==> e == UnavailableEvidence(changedFiles)
  {
  }

  function PatchBytes(sources: seq<Source>): nat {
    if sources == [] then 0 else |sources[0].patch| + PatchBytes(sources[1..])
  }

  lemma {:induction false} SentArePatches(sources: seq<Source>, n: nat)
    requires n <= |sources| && forall i :: 0 <= i < |sources| ==> SourceOk(sources[i])
    ensures SentBytes(sources, n) == PatchBytes(sources[..n])
  {
    hide SourceOk, Valid;
    if n > 0 {
      SentArePatches(sources, n - 1);
      PatchesAppend(sources[..n - 1], sources[n - 1]);
      assert sources[..n] == sources[..n - 1] + [sources[n - 1]];
      assert SourceOk(sources[n - 1]) && sources[n - 1].sentBytes == |sources[n - 1].patch| by {
        SentIsPatch(sources[n - 1]);
      }
    }
  }

  lemma SentIsPatch(source: Source)
    requires SourceOk(source)
    ensures source.sentBytes == |source.patch|
  {
  }

  lemma {:induction false} PatchesAppend(sources: seq<Source>, source: Source)
    ensures PatchBytes(sources + [source]) == PatchBytes(sources) + |source.patch|
  {
    if sources != [] {
      assert (sources + [source])[1..] == sources[1..] + [source];
      PatchesAppend(sources[1..], source);
    }
  }

  /** Accepted evidence keeps the limits of a hundred files, 8 KiB for each and
      128 KiB for all, and every patch in it is well formed. */
  lemma {:induction false} AcceptableIsBounded(e: Evidence)
    requires Acceptable(e)
    ensures |e.sources| <= 100 && e.sentBytes == PatchBytes(e.sources) <= 131_072
    ensures forall i :: 0 <= i < |e.sources| ==>
              && e.sources[i].path != "" && 0 < |e.sources[i].patch| <= 8192 && Valid(e.sources[i].patch)
              && e.sources[i].sentBytes == |e.sources[i].patch| <= e.sources[i].originalBytes
  {
    SentArePatches(e.sources, |e.sources|);
    assert e.sources[..|e.sources|] == e.sources;
  }

  /** Its header follows from its sources: what was sent and omitted, whether
      anything was cut, and unless collection failed the completeness. */
  lemma AcceptableIsDetermined(e: Evidence, f: Evidence)
    requires Acceptable(e) && Acceptable(f) && e.sources == f.sources
    requires e.originalFiles == f.originalFiles && e.originalBytes == f.originalBytes
    requires e.completeness == Unavailable <==> f.completeness == Unavailable
    ensures e == f
    ensures e.sentFiles == |e.sources| && e.sentFiles + e.omittedFiles == e.originalFiles && e.omittedFiles >= 0
    ensures e.truncated <==>
              e.omittedFiles > 0 || exists i :: 0 <= i < |e.sources| && e.sources[i].truncated
    ensures e.completeness == Complete ==> !e.truncated
    ensures e.completeness == Unavailable ==> e.sources == []
  {
    hide SourceOk, SentBytes;
  }

  /** Everything of the files is in the sources. */
  predicate Everything(files: seq<File>, sources: seq<Source>, n: nat)
    requires n <= |files|
  {
    |sources| == n && forall i :: 0 <= i < n ==> sources[i].path == files[i].name && sources[i].patch == files[i].patch
  }

  lemma {:induction false} NothingLost(files: seq<File>, n: nat)
    requires n <= |files|
    ensures |Collected(files, n)| <= n
    ensures |Collected(files, n)| == n && !AnyTruncated(Collected(files, n), n) <==>
              Everything(files, Collected(files, n), n)
  {
    if n > 0 {
      NothingLost(files, n - 1);
      var earlier, sources := Collected(files, n - 1), Collected(files, n);
      if |sources| == n {
        assert sources[..n - 1] == earlier;
        var last := sources[n - 1];
        assert last == SourceOf(files[n - 1], Budget(earlier));
        assert last.truncated <==> last.patch != files[n - 1].patch;
        assert forall i :: 0 <= i < n - 1 ==> sources[i] == earlier[i];
      }
    }
  }

  /** Evidence is complete exactly when nothing was lost: no changed file is
      missing from the list, and every file is sent whole. */
  lemma CompleteMeansEverything(files: seq<File>, e: Evidence)
    requires e.sources == Collected(files, |files|) && e.sentFiles == |e.sources| && e.originalFiles >= |files|
    requires e.omittedFiles == e.originalFiles - e.sentFiles
    requires e.truncated == (e.omittedFiles > 0 || AnyTruncated(e.sources, |e.sources|))
    requires e.completeness == if e.truncated then Partial else Complete
    ensures e.completeness == Complete <==> e.originalFiles == |files| && Everything(files, e.sources, |files|)
  {
    NothingLost(files, |files|);
  }
}
