/**
 * Template generation of app/generator.py: choosing the model, resolving the season, checking
 * each template the language model returns, extracting the JSON array from the reply, and
 * keeping at most `MaxTemplates` valid templates.
 *
 * The language model is not modelled. Its reply, or the exception it raised, is a parameter.
 * So is `json.loads`, as a function from text to `ParseOutcome`.
 */
module Generator {
  import opened Wrappers
  import opened PyValues

  const MaxTemplates: nat := 15
  const TitleLimit: nat := 30
  const MenuLimit: nat := 50
  const CommentLimit: nat := 120
  const HashtagLimit: nat := 20
  const MinHashtags: nat := 7

  const DefaultModel: string := "gemini-2.5-flash"
  const SupportedModels: seq<string> := ["gemini-2.5-flash", "gemini-2.5-flash-lite"]

  /** `config.SEASON_KEYWORDS` */
  const SeasonKeywords: map<string, seq<string>> := map[
    "spring" := ["春カラー", "スプリング"],
    "summer" := ["夏カラー", "サマー"],
    "autumn" := ["秋カラー", "オータム"],
    "winter" := ["冬カラー", "ウィンター"],
    "all_year" := ["定番", "いつでも人気", "ベーシック"],
    "graduation_entrance" := ["卒業式", "入学式", "卒園式", "入園式", "新生活応援"],
    "rainy_season" := ["梅雨", "湿気対策", "うねり解消", "縮毛矯正", "ストレートパーマ"],
    "year_end_new_year" := ["年末年始", "クリスマス", "お正月", "冬休み", "カウントダウン", "成人式"]
  ]

  type Template = map<string, Json>

  // ---------------------------------------------------------------------------------------
  // Construction: model choice
  // ---------------------------------------------------------------------------------------

  /** The model `__init__` settles on: a supported name is kept, anything else falls back. */
  function ResolveModel(requested: Json): (r: string)
    ensures r in SupportedModels
    ensures requested.JStr? && requested.s in SupportedModels ==> r == requested.s
    ensures !(requested.JStr? && requested.s in SupportedModels) ==> r == DefaultModel
  {
    if requested.JStr? && requested.s in SupportedModels then requested.s else DefaultModel
  }

  /** Resolving an already resolved model name changes nothing. */
  lemma ResolveModelIdempotent(requested: Json)
    ensures ResolveModel(JStr(ResolveModel(requested))) == ResolveModel(requested)
  {
  }

  /** The exceptions of the generator that its caller tells apart: `ValueError` and the rest. */
  datatype ValueProblem =
    | NoApiKey
    | EmptyTitles
    | MissingKeyword
    | ModelValueError
    | MissingOpenBracket
    | MissingCloseBracket
    | NotJsonText
    | NotAList
    | NoValidTemplates

  datatype GenError = ValueErr(problem: ValueProblem) | OtherErr

  /** `TemplateGenerator(model_name=...)`: raises `ValueError` when no API key is configured. */
  function NewGenerator(apiKeySet: bool, requested: Json): (r: Result<string, GenError>)
    ensures r.Err? <==> !apiKeySet
    ensures r.Err? ==> r.error == ValueErr(NoApiKey)
    ensures r.Ok? ==> r.value == ResolveModel(requested)
  {
    if !apiKeySet then Err(ValueErr(NoApiKey)) else Ok(ResolveModel(requested))
  }

  // ---------------------------------------------------------------------------------------
  // Prompt parameters
  // ---------------------------------------------------------------------------------------

  /** The display name of each season key. */
  function SeasonName(key: string): string {
    if key == "spring" then "春"
    else if key == "summer" then "夏"
    else if key == "autumn" then "秋"
    else if key == "winter" then "冬"
    else if key == "all_year" then "通年"
    else if key == "graduation_entrance" then "卒業・入学シーズン"
    else if key == "rainy_season" then "梅雨"
    else if key == "year_end_new_year" then "年末年始・成人式"
    else key
  }

  /**
   * The season part of the prompt: either the generic instruction, or the display name, the
   * example keywords, and whether the extra keyword hint is added.
   */
  datatype SeasonContext =
    | NoSeason
    | Seasonal(key: string, name: string, keywords: seq<string>, keywordHint: bool)

  /**
   * The season test of `_create_prompt`. A truthy list or dictionary other than `"none"` reaches
   * `season in SEASON_KEYWORDS`, which raises TypeError (unhashable); `None` stands for that.
   */
  function ResolveSeason(season: Json): (r: Option<SeasonContext>)
    ensures r.None? <==> Truthy(season) && (season.JList? || season.JObj?)
    ensures (r.Some? && r.value.Seasonal?) <==> season.JStr? && season.s in SeasonKeywords
    ensures r.Some? && r.value.Seasonal? ==>
      r.value.key == season.s && r.value.name == SeasonName(season.s) &&
      r.value.keywords == SeasonKeywords[season.s] && r.value.keywordHint
  {
    if !Truthy(season) || season == JStr("none") then Some(NoSeason)
    else if season.JList? || season.JObj? then None
    else if season.JStr? && season.s in SeasonKeywords then
      var ks := SeasonKeywords[season.s];
      Some(Seasonal(season.s, SeasonName(season.s), ks, ks != []))
    else Some(NoSeason)
  }

  /** Every one of the eight seasons has its own display name, different from its key. */
  lemma SeasonNamesDistinct(a: string, b: string)
    requires a in SeasonKeywords && b in SeasonKeywords && a != b
    ensures SeasonName(a) != SeasonName(b) && SeasonName(a) != a
  {
  }

  /** `"レディース" if gender == 'ladies' else "メンズ"` */
  function GenderName(gender: Json): (r: string)
    ensures r == "レディース" <==> gender == JStr("ladies")
  {
    if gender == JStr("ladies") then "レディース" else "メンズ"
  }

  // ---------------------------------------------------------------------------------------
  // Template validation
  // ---------------------------------------------------------------------------------------

  /** The outcome of `_validate_template`: accepted, rejected, or an exception it does not catch. */
  datatype Verdict = Valid | Invalid | Raises

  /** The verdict on the hashtags, checked in order; the first offending tag decides. */
  function TagsVerdict(tags: seq<Json>): Verdict
    decreases |tags|
  {
    if tags == [] then Valid
    else if Len(tags[0]).None? then Raises
    else if Len(tags[0]).value > HashtagLimit then Invalid
    else TagsVerdict(tags[1..])
  }

  /**
   * `_validate_template` in the order of its checks. `.lower()` on a non-string keyword or title
   * raises AttributeError, which the function catches. `len` of a number raises TypeError,
   * which it does not catch.
   */
  function TemplateVerdict(t: Template, keyword: Json): Verdict {
    if !("title" in t && "menu" in t && "comment" in t && "hashtag" in t) then Invalid
    else if !keyword.JStr? || !t["title"].JStr? then Invalid
    else if |t["title"].s| > TitleLimit then Invalid
    else if Len(t["menu"]).None? then Raises
    else if Len(t["menu"]).value > MenuLimit then Invalid
    else if Len(t["comment"]).None? then Raises
    else if Len(t["comment"]).value > CommentLimit then Invalid
    else if !t["hashtag"].JList? then Invalid
    else if |t["hashtag"].items| < MinHashtags then Invalid
    else TagsVerdict(t["hashtag"].items)
  }

  /** The output contract the prompt asks of each template, as a plain conjunction. */
  ghost predicate MeetsOutputContract(t: Template) {
    && "title" in t && "menu" in t && "comment" in t && "hashtag" in t
    && t["title"].JStr? && |t["title"].s| <= TitleLimit
    && LenAtMost(t["menu"], MenuLimit)
    && LenAtMost(t["comment"], CommentLimit)
    && t["hashtag"].JList? && |t["hashtag"].items| >= MinHashtags
    && forall i :: 0 <= i < |t["hashtag"].items| ==> LenAtMost(t["hashtag"].items[i], HashtagLimit)
  }

  lemma {:induction false} TagsVerdictValidIff(tags: seq<Json>)
    ensures TagsVerdict(tags) == Valid <==> forall i :: 0 <= i < |tags| ==> LenAtMost(tags[i], HashtagLimit)
    decreases |tags|
  {
    if tags != [] {
      TagsVerdictValidIff(tags[1..]);
      if TagsVerdict(tags) == Valid {
        forall i | 0 <= i < |tags| ensures LenAtMost(tags[i], HashtagLimit) {
          if i > 0 {
            assert tags[i] == tags[1..][i - 1];
          }
        }
      } else if LenAtMost(tags[0], HashtagLimit) {
        var i :| 0 <= i < |tags[1..]| && !LenAtMost(tags[1..][i], HashtagLimit);
        assert tags[i + 1] == tags[1..][i];
      }
    }
  }

  /**
   * For a string keyword, a template is accepted exactly when it meets the output contract: the
   * check that the keyword occurs in the title is advisory only.
   */
  lemma ValidIffMeetsOutputContract(t: Template, keyword: Json)
    requires keyword.JStr?
    ensures TemplateVerdict(t, keyword) == Valid <==> MeetsOutputContract(t)
  {
    if "hashtag" in t && t["hashtag"].JList? {
      TagsVerdictValidIff(t["hashtag"].items);
    }
  }

  /** The verdict is the same for every string keyword. */
  lemma VerdictIgnoresKeywordText(t: Template, a: string, b: string)
    ensures TemplateVerdict(t, JStr(a)) == TemplateVerdict(t, JStr(b))
  {
  }

  /** A keyword that is not a string never lets a template through. */
  lemma NonStringKeywordRejectsAll(t: Template, keyword: Json)
    requires !keyword.JStr?
    ensures TemplateVerdict(t, keyword) == Invalid
  {
  }

  /** Only a string keyword lets a template through. */
  lemma ValidNeedsStringKeyword(t: Template, keyword: Json)
    requires TemplateVerdict(t, keyword) == Valid
    ensures keyword.JStr?
  {
    if !keyword.JStr? {
      NonStringKeywordRejectsAll(t, keyword);
    }
  }

  /** `_validate_template`, with its three loops. */
  method ValidateTemplate(t: Template, keyword: Json) returns (r: Verdict)
    ensures r == TemplateVerdict(t, keyword)
  {
    var requiredKeys := ["title", "menu", "comment", "hashtag"];
    for k := 0 to |requiredKeys|
      invariant forall j :: 0 <= j < k ==> requiredKeys[j] in t
    {
      if requiredKeys[k] !in t {
        return Invalid;
      }
    }
    assert requiredKeys[0] in t && requiredKeys[1] in t && requiredKeys[2] in t && requiredKeys[3] in t;
    if !keyword.JStr? || !t["title"].JStr? {
      return Invalid;
    }
    var limits := [("title", TitleLimit), ("menu", MenuLimit), ("comment", CommentLimit), ("hashtag", HashtagLimit)];
    for k := 0 to |limits|
      invariant k >= 1 ==> |t["title"].s| <= TitleLimit
      invariant k >= 2 ==> LenAtMost(t["menu"], MenuLimit)
      invariant k >= 3 ==> LenAtMost(t["comment"], CommentLimit)
    {
      var (key, limit) := limits[k];
      assert k == 0 || k == 1 || k == 2 || k == 3;
      if key == "hashtag" {
        continue;
      }
      var n := Len(t[key]);
      if n.None? {
        return Raises;
      }
      if n.value > limit {
        return Invalid;
      }
    }
    var hashtag := t["hashtag"];
    if !hashtag.JList? {
      return Invalid;
    }
    if |hashtag.items| < MinHashtags {
      return Invalid;
    }
    var tags := hashtag.items;
    for k := 0 to |tags|
      invariant TagsVerdict(tags) == TagsVerdict(tags[k..])
    {
      assert tags[k..][1..] == tags[k + 1..];
      var n := Len(tags[k]);
      if n.None? {
        return Raises;
      }
      if n.value > HashtagLimit {
        return Invalid;
      }
    }
    return Valid;
  }

  // ---------------------------------------------------------------------------------------
  // Extracting the JSON array from the reply
  // ---------------------------------------------------------------------------------------

  /** `text.find(c)` */
  function Find(text: string, c: char): (r: int)
    ensures -1 <= r < |text|
    ensures r == -1 <==> c !in text
    ensures r >= 0 ==> text[r] == c && c !in text[..r]
    decreases |text|
  {
    if text == [] then -1
    else if text[0] == c then 0
    else
      var k := Find(text[1..], c);
      assert text[1..][..k + 1] == text[1..k + 2] by {
        assert k >= 0 ==> text[1..][..k] == text[1..k + 1];
      }
      if k == -1 then -1 else k + 1
  }

  /** `text.rfind(c)` */
  function RFind(text: string, c: char): (r: int)
    ensures -1 <= r < |text|
    ensures r == -1 <==> c !in text
    ensures r >= 0 ==> text[r] == c && c !in text[r + 1..]
    decreases |text|
  {
    if text == [] then -1
    else if text[|text| - 1] == c then |text| - 1
    else
      var k := RFind(text[..|text| - 1], c);
      assert text == text[..|text| - 1] + [text[|text| - 1]];
      assert k >= 0 ==> text[k + 1..] == text[..|text| - 1][k + 1..] + [text[|text| - 1]];
      k
  }

  /**
   * `text[start:end + 1]` between the first `'['` and the last `']'`. When the last `']'`
   * comes before the first `'['` the slice is empty, as Python slices are.
   */
  function ExtractJsonText(text: string): (r: Result<string, GenError>)
    ensures r == Err(ValueErr(MissingOpenBracket)) <==> '[' !in text
    ensures r == Err(ValueErr(MissingCloseBracket)) <==> '[' in text && ']' !in text
  {
    var start := Find(text, '[');
    if start == -1 then Err(ValueErr(MissingOpenBracket))
    else
      var end := RFind(text, ']');
      if end == -1 then Err(ValueErr(MissingCloseBracket))
      else if end < start then Ok("")
      else Ok(text[start..end + 1])
  }

  /**
   * A non-empty extraction runs from the first `'['` to the last `']'`: the text splits into a
   * prefix without `'['`, the extraction, and a suffix without `']'`. It is empty exactly when
   * every `']'` precedes every `'['`.
   */
  lemma ExtractionSpansBrackets(text: string)
    requires ExtractJsonText(text).Ok?
    ensures ExtractJsonText(text).value == [] <==> RFind(text, ']') < Find(text, '[')
    ensures ExtractJsonText(text).value != [] ==> SplitsAtBrackets(text, ExtractJsonText(text).value)
  {
    var start, end := Find(text, '['), RFind(text, ']');
    assert 0 <= start && 0 <= end;
    if start <= end {
      BracketSlice(text, start, end);
    }
  }

  /** A slice from a first `'['` to a last `']'` splits the text at the brackets. */
  lemma BracketSlice(text: string, start: int, end: int)
    requires 0 <= start <= end < |text| && text[start] == '[' && text[end] == ']'
    requires '[' !in text[..start] && ']' !in text[end + 1..]
    ensures SplitsAtBrackets(text, text[start..end + 1])
  {
    var s, p, q := text[start..end + 1], text[..start], text[end + 1..];
    SliceSplit(text, start, end);
    assert s[0] == text[start] && s[|s| - 1] == text[end];
    SplitsAtBracketsIntro(text, p, s, q);
  }

  lemma SplitsAtBracketsIntro(text: string, p: string, s: string, q: string)
    requires text == p + s + q && '[' !in p && ']' !in q
    requires |s| > 0 && s[0] == '[' && s[|s| - 1] == ']'
    ensures SplitsAtBrackets(text, s)
  {
  }

  /** A text holding both brackets is always extracted: the two bracket errors are the only ones. */
  lemma ExtractionSucceedsWithBrackets(text: string)
    requires '[' in text && ']' in text
    ensures ExtractJsonText(text).Ok?
  {
  }

  lemma SliceSplit(text: string, start: nat, end: nat)
    requires start <= end < |text|
    ensures text == text[..start] + text[start..end + 1] + text[end + 1..]
  {
  }

  /** `s` begins with `'['`, ends with `']'`, and sits in `text` after a prefix free of `'['` and before a suffix free of `']'`. */
  ghost predicate SplitsAtBrackets(text: string, s: string) {
    |s| > 0 && s[0] == '[' && s[|s| - 1] == ']' &&
    exists p, q :: text == p + s + q && '[' !in p && ']' !in q
  }

  // ---------------------------------------------------------------------------------------
  // The generation pipeline
  // ---------------------------------------------------------------------------------------

  /** What the language model call produced: a reply text, or the exception it raised. */
  datatype ModelReply = Reply(text: string) | ModelRaised(isValueError: bool)

  /** What `json.loads` makes of a text. */
  datatype ParseOutcome = NotJson | Parsed(value: Json)

  /**
   * The validation loop over the parsed list: `Some(valid)` when it runs to the end, `None` when
   * an exception escapes it (`template.get` on a non-dictionary, or an uncaught TypeError).
   */
  function FilterTemplates(items: seq<Json>, keyword: Json): Option<seq<Template>>
    decreases |items|
  {
    if items == [] then Some([])
    else
      match FilterTemplates(items[..|items| - 1], keyword)
      case None => None
      case Some(acc) =>
        var t := items[|items| - 1];
        if !t.JObj? then None
        else
          match TemplateVerdict(t.fields, keyword)
          case Raises => None
          case Valid => Some(acc + [t.fields])
          case Invalid => Some(acc)
  }

  /** The loop runs to the end exactly when every item is a dictionary whose check does not raise. */
  lemma {:induction false} FilterCompletesIff(items: seq<Json>, keyword: Json)
    ensures FilterTemplates(items, keyword).Some? <==>
      forall i :: 0 <= i < |items| ==> items[i].JObj? && TemplateVerdict(items[i].fields, keyword) != Raises
    decreases |items|
  {
    if items != [] {
      var pre := items[..|items| - 1];
      FilterCompletesIff(pre, keyword);
      assert forall i :: 0 <= i < |pre| ==> pre[i] == items[i];
    }
  }

  /** Everything the loop keeps is a dictionary of the list that passed the check, in order. */
  lemma {:induction false} FilterKeepsValid(items: seq<Json>, keyword: Json)
    requires FilterTemplates(items, keyword).Some?
    ensures forall t :: t in FilterTemplates(items, keyword).value ==>
      JObj(t) in items && TemplateVerdict(t, keyword) == Valid
    decreases |items|
  {
    if items != [] {
      var pre := items[..|items| - 1];
      FilterKeepsValid(pre, keyword);
      var acc := FilterTemplates(pre, keyword).value;
      forall t | t in FilterTemplates(items, keyword).value
        ensures JObj(t) in items && TemplateVerdict(t, keyword) == Valid
      {
        if t in acc {
          assert JObj(t) in pre;
        } else {
          assert JObj(t) == items[|items| - 1];
        }
      }
    }
  }

  /** The number of dictionaries in the list that pass the check. */
  function CountValid(items: seq<Json>, keyword: Json): nat
    decreases |items|
  {
    if items == [] then 0
    else
      var t := items[|items| - 1];
      CountValid(items[..|items| - 1], keyword) +
        (if t.JObj? && TemplateVerdict(t.fields, keyword) == Valid then 1 else 0)
  }

  /** When the loop completes it has kept every valid template and dropped every invalid one. */
  lemma {:induction false} FilterKeepsAllValid(items: seq<Json>, keyword: Json)
    requires FilterTemplates(items, keyword).Some?
    ensures |FilterTemplates(items, keyword).value| == CountValid(items, keyword)
    decreases |items|
  {
    if items != [] {
      FilterKeepsAllValid(items[..|items| - 1], keyword);
    }
  }

  /** The item as a template when it is a dictionary that passes the check, else nothing. */
  function Kept(item: Json, keyword: Json): seq<Template> {
    if item.JObj? && TemplateVerdict(item.fields, keyword) == Valid then [item.fields] else []
  }

  /** The dictionaries of the list that pass the check, in the order of the list. */
  function PassingDicts(items: seq<Json>, keyword: Json): seq<Template>
    decreases |items|
  {
    if items == [] then [] else Kept(items[0], keyword) + PassingDicts(items[1..], keyword)
  }

  lemma {:induction false} PassingDictsAppend(a: seq<Json>, b: seq<Json>, keyword: Json)
    ensures PassingDicts(a + b, keyword) == PassingDicts(a, keyword) + PassingDicts(b, keyword)
    decreases |a|
  {
    if a == [] {
      assert a + b == b;
    } else {
      assert (a + b)[0] == a[0] && (a + b)[1..] == a[1..] + b;
      PassingDictsAppend(a[1..], b, keyword);
      var k := Kept(a[0], keyword);
      assert PassingDicts(a + b, keyword) == k + (PassingDicts(a[1..], keyword) + PassingDicts(b, keyword));
      assert k + (PassingDicts(a[1..], keyword) + PassingDicts(b, keyword)) ==
        (k + PassingDicts(a[1..], keyword)) + PassingDicts(b, keyword);
    }
  }

  /**
   * A completed loop keeps exactly the passing dictionaries, each once and in the order of the
   * list.
   */
  lemma {:induction false} FilterKeepsPassingInOrder(items: seq<Json>, keyword: Json)
    requires FilterTemplates(items, keyword).Some?
    ensures FilterTemplates(items, keyword).value == PassingDicts(items, keyword)
    decreases |items|
  {
    if items != [] {
      var pre, last := items[..|items| - 1], items[|items| - 1];
      FilterKeepsPassingInOrder(pre, keyword);
      assert items == pre + [last];
      PassingDictsAppend(pre, [last], keyword);
      assert PassingDicts([last], keyword) == Kept(last, keyword) + PassingDicts([], keyword);
    }
  }

  /** `generate_templates_async` as a function of the model's reply and of `json.loads`. */
  function Generate(titles: seq<string>, keyword: Json, season: Json, reply: ModelReply,
                    parse: string -> ParseOutcome): Result<seq<Template>, GenError>
  {
    if titles == [] then Err(ValueErr(EmptyTitles))
    else if !Truthy(keyword) then Err(ValueErr(MissingKeyword))
    else if ResolveSeason(season).None? then Err(OtherErr)
    else
      match reply
      case ModelRaised(isValueError) => Err(if isValueError then ValueErr(ModelValueError) else OtherErr)
      case Reply(text) =>
        match ExtractJsonText(text)
        case Err(e) => Err(e)
        case Ok(jsonText) =>
          // `json.loads("")` always fails; `parse` decides every other text.
          match (if jsonText == "" then NotJson else parse(jsonText))
          case NotJson => Err(ValueErr(NotJsonText))
          case Parsed(v) =>
            if !v.JList? then Err(ValueErr(NotAList))
            else
              match FilterTemplates(v.items, keyword)
              case None => Err(OtherErr)
              case Some(valid) =>
                if valid == [] then Err(ValueErr(NoValidTemplates))
                else Ok(valid[..if |valid| < MaxTemplates then |valid| else MaxTemplates])
  }

  /**
   * A successful generation returns between one and `MaxTemplates` templates, each accepted by
   * the check and each taken from the reply's list.
   */
  lemma GenerateResultBounds(titles: seq<string>, keyword: Json, season: Json, reply: ModelReply,
                             parse: string -> ParseOutcome)
    requires Generate(titles, keyword, season, reply, parse).Ok?
    ensures var ts := Generate(titles, keyword, season, reply, parse).value;
      1 <= |ts| <= MaxTemplates &&
      keyword.JStr? &&
      forall t :: t in ts ==>
        (TemplateVerdict(t, keyword) == Valid && MeetsOutputContract(t) &&
         JObj(t) in parse(ExtractJsonText(reply.text).value).value.items)
  {
    var items := parse(ExtractJsonText(reply.text).value).value.items;
    var valid := FilterTemplates(items, keyword).value;
    FilterKeepsValid(items, keyword);
    var ts := Generate(titles, keyword, season, reply, parse).value;
    assert forall t :: t in ts ==> t in valid;
    assert ts[0] in ts;
    ValidNeedsStringKeyword(ts[0], keyword);
    forall t | t in ts ensures MeetsOutputContract(t) {
      ValidIffMeetsOutputContract(t, keyword);
    }
  }

  /** The first `MaxTemplates` passing dictionaries of the reply's list are returned, in order. */
  lemma GenerateKeepsFirstValid(titles: seq<string>, keyword: Json, season: Json, text: string,
                                parse: string -> ParseOutcome)
    requires Generate(titles, keyword, season, Reply(text), parse).Ok?
    ensures var items := parse(ExtractJsonText(text).value).value.items;
      var n := CountValid(items, keyword);
      var ts := Generate(titles, keyword, season, Reply(text), parse).value;
      |ts| == (if n < MaxTemplates then n else MaxTemplates) &&
      ts <= PassingDicts(items, keyword)
  {
    var items := parse(ExtractJsonText(text).value).value.items;
    FilterKeepsAllValid(items, keyword);
    FilterKeepsPassingInOrder(items, keyword);
  }

  /** A keyword that is not a string never yields templates, whatever the model replies. */
  lemma NonStringKeywordNeverSucceeds(titles: seq<string>, keyword: Json, season: Json, reply: ModelReply,
                                      parse: string -> ParseOutcome)
    requires !keyword.JStr?
    ensures Generate(titles, keyword, season, reply, parse).Err?
  {
    if Generate(titles, keyword, season, reply, parse).Ok? {
      GenerateResultBounds(titles, keyword, season, reply, parse);
    }
  }

  /** `generate_templates_async`, with its validation loop. */
  method GenerateTemplates(titles: seq<string>, keyword: Json, season: Json, reply: ModelReply,
                           parse: string -> ParseOutcome) returns (r: Result<seq<Template>, GenError>)
    ensures r == Generate(titles, keyword, season, reply, parse)
  {
    if titles == [] {
      return Err(ValueErr(EmptyTitles));
    }
    if !Truthy(keyword) {
      return Err(ValueErr(MissingKeyword));
    }
    if ResolveSeason(season).None? {
      return Err(OtherErr);
    }
    if reply.ModelRaised? {
      return Err(if reply.isValueError then ValueErr(ModelValueError) else OtherErr);
    }
    var extracted := ExtractJsonText(reply.text);
    if extracted.Err? {
      return Err(extracted.error);
    }
    var parsed := if extracted.value == "" then NotJson else parse(extracted.value);
    if parsed.NotJson? {
      return Err(ValueErr(NotJsonText));
    }
    if !parsed.value.JList? {
      return Err(ValueErr(NotAList));
    }
    var filtered := FilterLoop(parsed.value.items, keyword);
    if filtered.None? {
      return Err(OtherErr);
    }
    var valid := filtered.value;
    if valid == [] {
      return Err(ValueErr(NoValidTemplates));
    }
    return Ok(valid[..if |valid| < MaxTemplates then |valid| else MaxTemplates]);
  }

  /**
   * The validation loop of `generate_templates_async`: the accepted templates in order, or
   * `None` when an exception escapes the loop.
   */
  method FilterLoop(templates: seq<Json>, keyword: Json) returns (r: Option<seq<Template>>)
    ensures r == FilterTemplates(templates, keyword)
  {
    var valid: seq<Template> := [];
    for i := 0 to |templates|
      invariant FilterTemplates(templates[..i], keyword) == Some(valid)
    {
      assert templates[..i + 1][..i] == templates[..i];
      var template := templates[i];
      if !template.JObj? {
        FilterStaysFailed(templates, keyword, i + 1);
        return None;
      }
      var verdict := ValidateTemplate(template.fields, keyword);
      if verdict == Raises {
        FilterStaysFailed(templates, keyword, i + 1);
        return None;
      }
      if verdict == Valid {
        valid := valid + [template.fields];
      }
    }
    assert templates[..|templates|] == templates;
    return Some(valid);
  }

  /** An escaped exception ends the loop: the filter over any longer prefix fails as well. */
  lemma {:induction false} FilterStaysFailed(items: seq<Json>, keyword: Json, n: nat)
    requires n <= |items| && FilterTemplates(items[..n], keyword).None?
    ensures FilterTemplates(items, keyword).None?
    decreases |items| - n
  {
    if n < |items| {
      assert items[..n + 1][..n] == items[..n];
      FilterStaysFailed(items, keyword, n + 1);
    } else {
      assert items[..n] == items;
    }
  }
}
