/**
 * The featured-keyword registry of app/featured_keywords.py.
 *
 * The registry is loaded from a JSON file. The file system is replaced by an abstract
 * `Source`: either the file is missing, or it has a size and reading it has one outcome.
 * Source-level problems discard everything and record an error. Entry-level problems
 * skip only the entry concerned.
 */
module FeaturedKeywords {
  import opened Wrappers
  import opened PyValues

  const MaxFileSize: nat := 1024 * 1024
  const MaxNameLength: nat := 50
  const MaxKeywordLength: nat := 50
  const MaxConditionLength: nat := 500

  /** An accepted entry is kept as the whole dictionary read from the file, extra keys included. */
  type Entry = map<string, Json>

  /** What `open` followed by `json.load` yields once the size checks have passed. */
  datatype ReadOutcome =
    | Parsed(data: Json)
    | InvalidJson
    | PermissionDenied
    | EncodingError
    | UnexpectedFailure

  datatype Source = Missing | Present(size: nat, read: ReadOutcome)

  datatype LoadReason =
    | FileMissing
    | FileEmpty
    | FileTooLarge(size: nat)
    | MalformedJson
    | NoPermission
    | BadEncoding
    | Unexpected

  /** `FeaturedKeywordsLoadError` and `FeaturedKeywordsValidationError` */
  datatype RegistryError = LoadError(reason: LoadReason) | ValidationError

  datatype LoadResult = LoadResult(keywords: seq<Entry>, lastError: Option<RegistryError>)

  // ---------------------------------------------------------------------------------------
  // Per-entry validation
  // ---------------------------------------------------------------------------------------

  /** Why one item of the list is skipped, or `Passes` when it reaches the duplicate check. */
  datatype Verdict =
    | Passes
    | NotADict
    | MissingField
    | BadGender
    | NameTooLong
    | KeywordTooLong
    | ConditionTooLong
    | LengthRaised  // `len` of a number or boolean raises TypeError; the handler skips the item

  predicate HasField(m: Entry, f: string) {
    f in m && Truthy(m[f])
  }

  /** The rules every registry entry obeys, stated independently of the order of the checks. */
  ghost predicate EntryRules(e: Entry) {
    && HasField(e, "name") && HasField(e, "keyword") && HasField(e, "gender") && HasField(e, "condition")
    && (e["gender"] == JStr("ladies") || e["gender"] == JStr("mens"))
    && LenAtMost(e["name"], MaxNameLength)
    && LenAtMost(e["keyword"], MaxKeywordLength)
    && LenAtMost(e["condition"], MaxConditionLength)
  }

  /** The early-exit checks of the per-item loop, in the source's order, before the duplicate scan. */
  function Screen(item: Json): (r: Verdict)
    ensures r == Passes <==> item.JObj? && EntryRules(item.fields)
  {
    if !item.JObj? then NotADict
    else
      var m := item.fields;
      if !(HasField(m, "name") && HasField(m, "keyword") && HasField(m, "gender") && HasField(m, "condition")) then
        MissingField
      else if m["gender"] != JStr("ladies") && m["gender"] != JStr("mens") then BadGender
      else if Len(m["name"]).None? then LengthRaised
      else if Len(m["name"]).value > MaxNameLength then NameTooLong
      else if Len(m["keyword"]).None? then LengthRaised
      else if Len(m["keyword"]).value > MaxKeywordLength then KeywordTooLong
      else if Len(m["condition"]).None? then LengthRaised
      else if Len(m["condition"]).value > MaxConditionLength then ConditionTooLong
      else Passes
  }

  /** The entry's keyword is a string, so `.lower().strip()` can be applied to it. */
  predicate StrKey(e: Entry) {
    "keyword" in e && e["keyword"].JStr?
  }

  function KeyNorm(e: Entry): string
    requires StrKey(e)
  {
    Norm(e["keyword"].s)
  }

  datatype Scan = Clean | Duplicate | Raised

  /**
   * The inner loop over the entries already accepted, comparing
   * `existing['keyword'].lower().strip() == item['keyword'].lower().strip()`. A keyword that is
   * not a string makes `.lower()` raise; the item is then skipped like a duplicate.
   */
  function DupScan(accepted: seq<Entry>, key: Json): Scan
    decreases |accepted|
  {
    if accepted == [] then Clean
    else if !StrKey(accepted[0]) || !key.JStr? then Raised
    else if KeyNorm(accepted[0]) == Norm(key.s) then Duplicate
    else DupScan(accepted[1..], key)
  }

  /** One iteration of the per-item loop. */
  function Accept(acc: seq<Entry>, item: Json): seq<Entry> {
    if Screen(item) == Passes && DupScan(acc, item.fields["keyword"]) == Clean then acc + [item.fields]
    else acc
  }

  /** The list `validated_keywords` after the loop has run over `items`. */
  function ValidateAll(items: seq<Json>): seq<Entry>
    decreases |items|
  {
    if items == [] then [] else Accept(ValidateAll(items[..|items| - 1]), items[|items| - 1])
  }

  /** `_load_keywords` as a function of what the file system and the JSON parser report. */
  function Load(src: Source): (r: LoadResult)
    ensures r.lastError.Some? ==> r.keywords == []
    ensures r.lastError.None? <==>
      src.Present? && 0 < src.size <= MaxFileSize && src.read.Parsed? && src.read.data.JList?
    ensures r.lastError == Some(ValidationError) <==>
      src.Present? && 0 < src.size <= MaxFileSize && src.read.Parsed? && !src.read.data.JList?
    ensures r.lastError.None? ==> r.keywords == ValidateAll(src.read.data.items)
  {
    match src
    case Missing => LoadResult([], Some(LoadError(FileMissing)))
    case Present(size, read) =>
      if size == 0 then LoadResult([], Some(LoadError(FileEmpty)))
      else if size > MaxFileSize then LoadResult([], Some(LoadError(FileTooLarge(size))))
      else
        match read
        case InvalidJson => LoadResult([], Some(LoadError(MalformedJson)))
        case PermissionDenied => LoadResult([], Some(LoadError(NoPermission)))
        case EncodingError => LoadResult([], Some(LoadError(BadEncoding)))
        case UnexpectedFailure => LoadResult([], Some(LoadError(Unexpected)))
        case Parsed(data) =>
          if !data.JList? then LoadResult([], Some(ValidationError))
          else if data.items == [] then LoadResult([], None)
          else LoadResult(ValidateAll(data.items), None)
  }

  // ---------------------------------------------------------------------------------------
  // The registry invariant and its proof
  // ---------------------------------------------------------------------------------------

  /**
   * No two entries share a comparison key. Both keys must be strings for that; an entry whose
   * keyword is a list or a dictionary can only ever be alone (see `NonStringKeyShadowsRest`).
   */
  ghost predicate Distinct(es: seq<Entry>) {
    forall i, j :: 0 <= i < j < |es| ==> StrKey(es[i]) && StrKey(es[j]) && KeyNorm(es[i]) != KeyNorm(es[j])
  }

  ghost predicate WellFormed(es: seq<Entry>) {
    (forall i :: 0 <= i < |es| ==> EntryRules(es[i])) && Distinct(es)
  }

  lemma {:induction false} DupScanCleanMeansFresh(acc: seq<Entry>, key: Json)
    requires DupScan(acc, key) == Clean
    ensures acc != [] ==> key.JStr?
    ensures forall e :: e in acc ==> StrKey(e) && KeyNorm(e) != Norm(key.s)
    decreases |acc|
  {
    if acc != [] {
      DupScanCleanMeansFresh(acc[1..], key);
      forall e | e in acc ensures StrKey(e) && KeyNorm(e) != Norm(key.s) {
        if e != acc[0] {
          assert e in acc[1..];
        }
      }
    }
  }

  lemma {:induction false} FreshMeansDupScanClean(acc: seq<Entry>, key: Json)
    requires key.JStr?
    requires forall e :: e in acc ==> StrKey(e) && KeyNorm(e) != Norm(key.s)
    ensures DupScan(acc, key) == Clean
    decreases |acc|
  {
    if acc != [] {
      assert acc[0] in acc;
      forall e | e in acc[1..] ensures StrKey(e) && KeyNorm(e) != Norm(key.s) {
        assert e in acc;
      }
      FreshMeansDupScanClean(acc[1..], key);
    }
  }

  /** The scan depends on the new keyword only through its comparison key. */
  lemma {:induction false} DupScanKeyOnly(acc: seq<Entry>, k1: Json, k2: Json)
    requires k1.JStr? && k2.JStr? && Norm(k1.s) == Norm(k2.s)
    ensures DupScan(acc, k1) == DupScan(acc, k2)
    decreases |acc|
  {
    if acc != [] {
      DupScanKeyOnly(acc[1..], k1, k2);
    }
  }

  lemma {:induction false} DupScanAppend(acc: seq<Entry>, x: Entry, key: Json)
    ensures DupScan(acc + [x], key) == if DupScan(acc, key) != Clean then DupScan(acc, key) else DupScan([x], key)
    decreases |acc|
  {
    if acc == [] {
      assert acc + [x] == [x];
    } else {
      assert (acc + [x])[0] == acc[0];
      assert (acc + [x])[1..] == acc[1..] + [x];
      DupScanAppend(acc[1..], x, key);
    }
  }

  /** Every loaded registry satisfies the entry rules and has no duplicate keys. */
  lemma {:induction false} ValidateAllWellFormed(items: seq<Json>)
    ensures WellFormed(ValidateAll(items))
    decreases |items|
  {
    if items != [] {
      var pre := items[..|items| - 1];
      var x := items[|items| - 1];
      var acc := ValidateAll(pre);
      ValidateAllWellFormed(pre);
      if Screen(x) == Passes && DupScan(acc, x.fields["keyword"]) == Clean {
        DupScanCleanMeansFresh(acc, x.fields["keyword"]);
        var r := acc + [x.fields];
        forall i, j | 0 <= i < j < |r| ensures StrKey(r[i]) && StrKey(r[j]) && KeyNorm(r[i]) != KeyNorm(r[j]) {
          if j == |r| - 1 {
            assert r[i] in acc;
          }
        }
      }
    }
  }

  /** Every accepted entry is, as a dictionary, an item of the input that passed the checks. */
  lemma {:induction false} ValidateAllFromInput(items: seq<Json>)
    ensures forall e :: e in ValidateAll(items) ==> JObj(e) in items && Screen(JObj(e)) == Passes
    decreases |items|
  {
    if items != [] {
      var pre := items[..|items| - 1];
      var x := items[|items| - 1];
      ValidateAllFromInput(pre);
      forall e | e in ValidateAll(items) ensures JObj(e) in items && Screen(JObj(e)) == Passes {
        if e in ValidateAll(pre) {
          assert JObj(e) in pre;
        } else {
          assert x.JObj? && e == x.fields && x == JObj(e);
        }
      }
    }
  }

  function Objects(es: seq<Entry>): (r: seq<Json>)
    ensures |r| == |es| && forall i :: 0 <= i < |es| ==> r[i] == JObj(es[i])
  {
    seq(|es|, i requires 0 <= i < |es| => JObj(es[i]))
  }

  /** `xs` is `ys` with some elements left out, the rest in their original order. */
  ghost predicate IsSubsequence(xs: seq<Json>, ys: seq<Json>)
    decreases |ys|
  {
    xs == [] ||
    (ys != [] &&
      (IsSubsequence(xs, ys[..|ys| - 1]) ||
       (xs[|xs| - 1] == ys[|ys| - 1] && IsSubsequence(xs[..|xs| - 1], ys[..|ys| - 1]))))
  }

  /** The accepted entries are a subsequence of the input list, in their original order. */
  lemma {:induction false} ValidateAllSubsequence(items: seq<Json>)
    ensures IsSubsequence(Objects(ValidateAll(items)), items)
    decreases |items|
  {
    if items != [] {
      var pre := items[..|items| - 1];
      var x := items[|items| - 1];
      var acc := ValidateAll(pre);
      ValidateAllSubsequence(pre);
      if ValidateAll(items) == acc {
        if Objects(acc) != [] {
          assert IsSubsequence(Objects(acc), items[..|items| - 1]);
        }
      } else {
        var r := acc + [x.fields];
        assert ValidateAll(items) == r;
        assert Objects(r)[..|r| - 1] == Objects(acc);
        assert Objects(r)[|r| - 1] == JObj(x.fields) == x;
      }
    }
  }

  /** The loop only ever appends: the result for a prefix is a prefix of the result. */
  lemma {:induction false} ValidateAllGrows(items: seq<Json>, n: nat)
    requires n <= |items|
    ensures ValidateAll(items[..n]) <= ValidateAll(items)
    decreases |items| - n
  {
    if n < |items| {
      var m := |items| - 1;
      assert items[..m][..n] == items[..n];
      ValidateAllGrows(items[..m], n);
      assert items[..|items|] == items;
    } else {
      assert items[..n] == items;
    }
  }

  lemma ValidateAllStep(items: seq<Json>, n: nat)
    requires n < |items|
    ensures ValidateAll(items[..n + 1]) == Accept(ValidateAll(items[..n]), items[n])
  {
    assert items[..n + 1][..n] == items[..n];
  }

  /**
   * The first item that passes the checks and whose keyword (a string) has a key that no earlier
   * passing item has is accepted, provided every earlier passing item had a string keyword.
   */
  lemma FirstOccurrenceWins(items: seq<Json>, j: nat)
    requires j < |items| && Screen(items[j]) == Passes && StrKey(items[j].fields)
    requires forall i :: 0 <= i < j && Screen(items[i]) == Passes ==>
      StrKey(items[i].fields) && KeyNorm(items[i].fields) != KeyNorm(items[j].fields)
    ensures ValidateAll(items[..j + 1]) == ValidateAll(items[..j]) + [items[j].fields]
  {
    var acc := ValidateAll(items[..j]);
    var key := items[j].fields["keyword"];
    ValidateAllFromInput(items[..j]);
    forall e | e in acc ensures StrKey(e) && KeyNorm(e) != Norm(key.s) {
      assert JObj(e) in items[..j];
      var i :| 0 <= i < j && items[..j][i] == JObj(e);
      assert items[i] == JObj(e);
    }
    FreshMeansDupScanClean(acc, key);
    ValidateAllStep(items, j);
  }

  /** Once some passing item has a string keyword, no later item with the same key is accepted. */
  lemma {:induction false} KeyCovered(items: seq<Json>, i: nat, n: nat, key: Json)
    requires i < n <= |items| && Screen(items[i]) == Passes && StrKey(items[i].fields)
    requires key.JStr? && Norm(key.s) == KeyNorm(items[i].fields)
    ensures DupScan(ValidateAll(items[..n]), key) != Clean
    decreases n
  {
    var acc := ValidateAll(items[..n - 1]);
    var x := items[n - 1];
    ValidateAllStep(items, n - 1);
    if n - 1 == i {
      var k := x.fields["keyword"];
      DupScanKeyOnly(acc, k, key);
      if DupScan(acc, k) == Clean {
        assert ValidateAll(items[..n]) == acc + [x.fields];
        DupScanAppend(acc, x.fields, key);
      }
    } else {
      KeyCovered(items, i, n - 1, key);
      if ValidateAll(items[..n]) != acc {
        DupScanAppend(acc, x.fields, key);
      }
    }
  }

  /** A later item whose key repeats the key of an earlier passing item is dropped: the first wins. */
  lemma DuplicateDropped(items: seq<Json>, i: nat, j: nat)
    requires i < j < |items|
    requires Screen(items[i]) == Passes && StrKey(items[i].fields)
    requires Screen(items[j]) == Passes && StrKey(items[j].fields)
    requires KeyNorm(items[i].fields) == KeyNorm(items[j].fields)
    ensures ValidateAll(items[..j + 1]) == ValidateAll(items[..j])
  {
    KeyCovered(items, i, j, items[j].fields["keyword"]);
    ValidateAllStep(items, j);
  }

  /**
   * Once the first accepted entry has a keyword that is not a string (a non-empty list or
   * dictionary passes every check), the duplicate scan raises for every later item, so nothing
   * after it is ever accepted, however valid.
   */
  lemma {:induction false} NonStringKeyShadowsRest(items: seq<Json>, j: nat, n: nat)
    requires j <= n <= |items|
    requires |ValidateAll(items[..j])| > 0 && !StrKey(ValidateAll(items[..j])[0])
    ensures ValidateAll(items[..n]) == ValidateAll(items[..j])
    decreases n
  {
    if n > j {
      NonStringKeyShadowsRest(items, j, n - 1);
      ValidateAllStep(items, n - 1);
    }
  }

  /** The items that pass the checks, as dictionaries, in order. */
  function PassingEntries(items: seq<Json>): seq<Entry>
    decreases |items|
  {
    if items == [] then []
    else
      var x := items[|items| - 1];
      PassingEntries(items[..|items| - 1]) + (if Screen(x) == Passes then [x.fields] else [])
  }

  /**
   * Entry isolation: when the passing items have string keywords with pairwise different keys,
   * exactly the passing items are loaded; each malformed item costs only itself.
   */
  lemma {:induction false} IsolationOfMalformedItems(items: seq<Json>)
    requires forall i, j :: 0 <= i < j < |items| && Screen(items[i]) == Passes && Screen(items[j]) == Passes ==>
      StrKey(items[i].fields) && StrKey(items[j].fields) && KeyNorm(items[i].fields) != KeyNorm(items[j].fields)
    ensures ValidateAll(items) == PassingEntries(items)
    decreases |items|
  {
    if items != [] {
      var m := |items| - 1;
      var pre := items[..m];
      var x := items[m];
      IsolationOfMalformedItems(pre);
      var acc := ValidateAll(pre);
      if Screen(x) == Passes && acc != [] {
        var key := x.fields["keyword"];
        ValidateAllFromInput(pre);
        assert acc[0] in acc;
        assert JObj(acc[0]) in pre;
        var i0 :| 0 <= i0 < m && pre[i0] == JObj(acc[0]);
        assert items[i0] == pre[i0];
        assert StrKey(x.fields);
        forall e | e in acc ensures StrKey(e) && KeyNorm(e) != Norm(key.s) {
          assert JObj(e) in pre;
          var i :| 0 <= i < m && pre[i] == JObj(e);
          assert items[i] == pre[i];
        }
        FreshMeansDupScanClean(acc, key);
      }
    }
  }

  lemma {:induction false} NoPassingNothingLoaded(items: seq<Json>)
    requires forall i :: 0 <= i < |items| ==> Screen(items[i]) != Passes
    ensures ValidateAll(items) == []
    decreases |items|
  {
    if items != [] {
      NoPassingNothingLoaded(items[..|items| - 1]);
    }
  }

  /** The smallest index of a passing item, given one. */
  lemma {:induction false} FirstPassing(items: seq<Json>, j: nat) returns (k: nat)
    requires j < |items| && Screen(items[j]) == Passes
    ensures k <= j && Screen(items[k]) == Passes
    ensures forall i :: 0 <= i < k ==> Screen(items[i]) != Passes
    decreases j
  {
    if exists i :: 0 <= i < j && Screen(items[i]) == Passes {
      var i :| 0 <= i < j && Screen(items[i]) == Passes;
      k := FirstPassing(items, i);
    } else {
      k := j;
    }
  }

  /** The registry ends up non-empty exactly when some item of the list passes the checks. */
  lemma SomethingLoadedIffSomeItemPasses(items: seq<Json>)
    ensures ValidateAll(items) != [] <==> exists i :: 0 <= i < |items| && Screen(items[i]) == Passes
  {
    if ValidateAll(items) != [] {
      ValidateAllFromInput(items);
      var e := ValidateAll(items)[0];
      assert e in ValidateAll(items);
      assert JObj(e) in items;
    }
    if exists i :: 0 <= i < |items| && Screen(items[i]) == Passes {
      var j :| 0 <= j < |items| && Screen(items[j]) == Passes;
      var k := FirstPassing(items, j);
      NoPassingNothingLoaded(items[..k]);
      ValidateAllStep(items, k);
      ValidateAllGrows(items, k + 1);
    }
  }

  /** In a registry of several entries every keyword is a string. */
  lemma SeveralEntriesHaveStringKeys(es: seq<Entry>)
    requires WellFormed(es) && |es| > 1
    ensures forall i :: 0 <= i < |es| ==> StrKey(es[i])
  {
    forall i | 0 <= i < |es| ensures StrKey(es[i]) {
      if i == 0 {
        DistinctPairHasStringKeys(es, 0, 1);
      } else {
        DistinctPairHasStringKeys(es, 0, i);
      }
    }
  }

  lemma DistinctPairHasStringKeys(es: seq<Entry>, i: int, j: int)
    requires Distinct(es) && 0 <= i < j < |es|
    ensures StrKey(es[i]) && StrKey(es[j])
  {
    var a, b := es[i], es[j];
    assert StrKey(a) && StrKey(b) && KeyNorm(a) != KeyNorm(b);
  }

  /** A registry entry whose keyword is not a string is the only entry. */
  lemma NonStringKeyIsAlone(es: seq<Entry>, i: nat)
    requires WellFormed(es) && i < |es|
    ensures !StrKey(es[i]) ==> |es| == 1
  {
    if |es| > 1 {
      SeveralEntriesHaveStringKeys(es);
    }
  }

  // ---------------------------------------------------------------------------------------
  // Queries
  // ---------------------------------------------------------------------------------------

  /** What `is_featured_keyword(k)` answers of a registry. */
  ghost predicate Featured(es: seq<Entry>, k: Json) {
    k.JStr? && Norm(k.s) != "" &&
    exists i :: 0 <= i < |es| && StrKey(es[i]) && KeyNorm(es[i]) == Norm(k.s)
  }

  /** Whitespace around the queried keyword never changes the answer. */
  lemma PaddedQuerySameAnswer(es: seq<Entry>, p: string, s: string, q: string)
    requires AllPySpace(p) && AllPySpace(q)
    ensures Featured(es, JStr(p + s + q)) == Featured(es, JStr(s))
  {
    PaddingIgnored(p, s, q);
  }

  /** A whitespace-only query is never featured, whatever the registry holds. */
  lemma BlankQueryNotFeatured(es: seq<Entry>, s: string)
    requires AllPySpace(s)
    ensures !Featured(es, JStr(s))
  {
    LowerKeepsSpaces(s);
    StripStartAllSpace(s);
  }

  /** In a registry at most one entry answers a query. */
  lemma MatchIsUnique(es: seq<Entry>, i: nat, j: nat)
    requires WellFormed(es) && i < |es| && j < |es|
    requires StrKey(es[i]) && StrKey(es[j]) && KeyNorm(es[i]) == KeyNorm(es[j])
    ensures i == j
  {
  }

  /** `duplicate_found` loop of `_load_keywords` (lines 149-156) */
  method ScanForDuplicate(accepted: seq<Entry>, key: Json) returns (r: Scan)
    ensures r == DupScan(accepted, key)
  {
    var j := 0;
    while j < |accepted|
      invariant 0 <= j <= |accepted|
      invariant DupScan(accepted, key) == DupScan(accepted[j..], key)
    {
      var existing := accepted[j];
      if !StrKey(existing) || !key.JStr? {
        return Raised;
      }
      if KeyNorm(existing) == Norm(key.s) {
        return Duplicate;
      }
      assert accepted[j..][1..] == accepted[j + 1..];
      j := j + 1;
    }
    return Clean;
  }

  datatype HealthStatus = HealthStatus(
    isAvailable: bool,
    keywordsCount: nat,
    filePath: string,
    fileExists: bool,
    lastError: Option<RegistryError>,
    errorType: Option<string>)

  function ErrorTypeName(e: RegistryError): string {
    match e
    case LoadError(_) => "FeaturedKeywordsLoadError"
    case ValidationError => "FeaturedKeywordsValidationError"
  }

  class FeaturedKeywordsManager {
    const jsonPath: string
    var keywords: seq<Entry>
    var lastError: Option<RegistryError>

    ghost predicate Valid()
      reads this
    {
      WellFormed(keywords) && (lastError.Some? ==> keywords == [])
    }

    /** `__init__`: load from the file at `path`, whose content on disk is `src`. */
    constructor (path: string, src: Source)
      ensures jsonPath == path
      ensures keywords == Load(src).keywords && lastError == Load(src).lastError
      ensures Valid()
    {
      jsonPath := path;
      keywords := [];
      lastError := None;
      new;
      LoadFromSource(src);
    }

    /** `_load_keywords` */
    method LoadFromSource(src: Source)
      modifies this
      ensures keywords == Load(src).keywords && lastError == Load(src).lastError
      ensures Valid()
    {
      if src.Missing? {
        keywords, lastError := [], Some(LoadError(FileMissing));
        return;
      }
      var size, read := src.size, src.read;
      if size == 0 {
        keywords, lastError := [], Some(LoadError(FileEmpty));
        return;
      }
      if size > MaxFileSize {
        keywords, lastError := [], Some(LoadError(FileTooLarge(size)));
        return;
      }
      match read {
        case InvalidJson =>
          keywords, lastError := [], Some(LoadError(MalformedJson));
        case PermissionDenied =>
          keywords, lastError := [], Some(LoadError(NoPermission));
        case EncodingError =>
          keywords, lastError := [], Some(LoadError(BadEncoding));
        case UnexpectedFailure =>
          keywords, lastError := [], Some(LoadError(Unexpected));
        case Parsed(data) =>
          if !data.JList? {
            keywords, lastError := [], Some(ValidationError);
            return;
          }
          var items := data.items;
          if |items| == 0 {
            keywords, lastError := [], None;
            return;
          }
          var validated: seq<Entry> := [];
          for i := 0 to |items|
            invariant validated == ValidateAll(items[..i])
          {
            ValidateAllStep(items, i);
            var item := items[i];
            if Screen(item) != Passes {
              continue;
            }
            var scan := ScanForDuplicate(validated, item.fields["keyword"]);
            if scan != Clean {
              continue;
            }
            validated := validated + [item.fields];
          }
          assert items[..|items|] == items;
          ValidateAllWellFormed(items);
          keywords, lastError := validated, None;
      }
    }

    /** `load_keywords`: a copy of the entries (a Dafny sequence is a value, so it is one). */
    method LoadKeywords() returns (r: seq<Entry>)
      ensures r == keywords
    {
      r := keywords;
    }

    /** `get_all_keywords`: the same copy as `load_keywords`. */
    method GetAllKeywords() returns (r: seq<Entry>)
      ensures r == keywords
    {
      r := keywords;
    }

    /** `is_featured_keyword` */
    method IsFeaturedKeyword(k: Json) returns (r: bool)
      requires Valid()
      ensures r == Featured(keywords, k)
    {
      if !Truthy(k) || !k.JStr? {
        return false;
      }
      if |keywords| == 0 {
        return false;
      }
      var target := Norm(k.s);
      if target == "" {
        return false;
      }
      for i := 0 to |keywords|
        invariant forall j :: 0 <= j < i ==> StrKey(keywords[j]) && KeyNorm(keywords[j]) != target
      {
        var item := keywords[i];
        if !StrKey(item) {
          // `.lower()` raises; the handler answers False
          NonStringKeyIsAlone(keywords, i);
          return false;
        }
        if KeyNorm(item) == target {
          return true;
        }
      }
      return false;
    }

    /** `get_keyword_info`: the entry answering the query, exactly when the query is featured. */
    method GetKeywordInfo(k: Json) returns (r: Option<Entry>)
      requires Valid()
      ensures r.Some? <==> Featured(keywords, k)
      ensures r.Some? ==> r.value in keywords && StrKey(r.value) && KeyNorm(r.value) == Norm(k.s)
    {
      if !Truthy(k) || !k.JStr? {
        return None;
      }
      if |keywords| == 0 {
        return None;
      }
      var target := Norm(k.s);
      if target == "" {
        return None;
      }
      for i := 0 to |keywords|
        invariant forall j :: 0 <= j < i ==> StrKey(keywords[j]) && KeyNorm(keywords[j]) != target
      {
        var item := keywords[i];
        if !StrKey(item) {
          NonStringKeyIsAlone(keywords, i);
          return None;
        }
        if KeyNorm(item) == target {
          return Some(item);
        }
      }
      return None;
    }

    /** `is_available` */
    function IsAvailable(): (r: bool)
      reads this
      ensures r <==> |keywords| > 0
    {
      |keywords| > 0
    }

    /** `reload_keywords`: reload from `src`; on failure the previous entries are gone. */
    method ReloadKeywords(src: Source) returns (ok: bool)
      modifies this
      ensures keywords == Load(src).keywords && lastError == Load(src).lastError
      ensures ok <==> lastError.None?
      ensures !ok ==> keywords == []
      ensures Valid()
    {
      LoadFromSource(src);
      ok := lastError.None?;
    }

    /** `get_health_status`; `fileExists` is what `os.path.exists` reports. */
    function GetHealthStatus(fileExists: bool): (h: HealthStatus)
      reads this
      ensures h.keywordsCount == |keywords| && h.isAvailable == (h.keywordsCount > 0)
      ensures h.filePath == jsonPath && h.fileExists == fileExists && h.lastError == lastError
      ensures h.errorType.Some? <==> lastError.Some?
      ensures lastError.Some? && lastError.value.LoadError? ==> h.errorType == Some("FeaturedKeywordsLoadError")
      ensures lastError == Some(ValidationError) ==> h.errorType == Some("FeaturedKeywordsValidationError")
    {
      HealthStatus(
        IsAvailable(), |keywords|, jsonPath, fileExists, lastError,
        if lastError.Some? then Some(ErrorTypeName(lastError.value)) else None)
    }
  }

}
