/**
 * The `/api/generate` endpoint of app/main.py: the order of its request checks, the short-circuit
 * when scraping finds no titles, and the mapping of exceptions to HTTP statuses and error codes.
 *
 * The request and the backends are parameters:
 * - what Flask reports about the body;
 * - whether the API key is configured;
 * - what the scraper returns or raises;
 * - the language model's reply, and `json.loads`.
 */
module Api {
  import opened Wrappers
  import opened PyValues
  import opened Generator

  /** What `request.get_json()` yields. */
  datatype GetJsonOutcome =
    | Value(data: Json)
    | NoneValue
    | RaisedBadRequest  // malformed JSON body
    | RaisedOther       // any other exception from Flask

  /** `request.is_json`, whether `request.data` is non-empty, and what `get_json` does. */
  datatype Request = Request(isJson: bool, hasBody: bool, body: GetJsonOutcome)

  /** What `scrape_titles_async` returns, or the exception it raises. */
  datatype ScrapeOutcome = Titles(titles: seq<string>) | ScrapeRaised(isValueError: bool)

  datatype Backend = Backend(
    apiKeySet: bool,
    scrape: ScrapeOutcome,
    reply: ModelReply,
    parse: string -> ParseOutcome)

  datatype ErrorCode = InvalidJson | ValidationError | NoResultsFound | InternalServerError

  /** The JSON response: `status`, `success`, `error.code` and `templates`. */
  datatype Response = Response(status: int, success: bool, code: Option<ErrorCode>, templates: seq<Template>)

  function Failure(status: int, code: ErrorCode): Response {
    Response(status, false, Some(code), [])
  }

  /** The exception that leaves `process_template_generation`, as the handler's clauses sort it. */
  datatype Raised = RaisedValueError | RaisedException

  // ---------------------------------------------------------------------------------------
  // int(data.get('num_templates', 5))
  // ---------------------------------------------------------------------------------------

  datatype IntOutcome = IntOk | IntValueError | IntTypeError | IntOverflow

  predicate IsDigit(c: char) {
    '0' <= c <= '9'
  }

  /** Digits, with single underscores allowed between two digits. */
  predicate IsDigitRun(s: string) {
    |s| > 0 && IsDigit(s[0]) && IsDigit(s[|s| - 1]) &&
    (forall i :: 0 <= i < |s| ==> IsDigit(s[i]) || s[i] == '_') &&
    (forall i :: 0 <= i < |s| - 1 ==> !(s[i] == '_' && s[i + 1] == '_'))
  }

  /**
   * The most digits `int()` converts from a string: CPython's default limit, in force from
   * Python 3.11 (and 3.10.7) on. Underscores do not count; leading zeros do.
   */
  const IntMaxStrDigits: nat := 4300

  function DigitCount(s: string): (n: nat)
    ensures n <= |s|
    decreases |s|
  {
    if s == [] then 0 else (if IsDigit(s[0]) then 1 else 0) + DigitCount(s[1..])
  }

  /**
   * A base-10 literal `int(s)` accepts once surrounding whitespace is stripped, with no more
   * than `IntMaxStrDigits` digits.
   */
  predicate IsIntLiteral(s: string) {
    var t := Strip(s);
    |t| > 0 && (if t[0] == '+' || t[0] == '-' then IsDigitRun(t[1..]) else IsDigitRun(t)) &&
    DigitCount(t) <= IntMaxStrDigits
  }

  /** `int(v)` where `v` is the JSON value of `num_templates` (`None` when the key is absent). */
  function PyInt(v: Option<Json>): (r: IntOutcome)
    ensures r == IntTypeError <==> v.Some? && (v.value.JNull? || v.value.JList? || v.value.JObj?)
    ensures v.Some? && v.value.JStr? ==> (r == IntOk <==> IsIntLiteral(v.value.s))
    ensures r == IntOverflow <==> v == Some(JFloat(Infinite))
    ensures v.None? || v.value.JBool? || v.value.JInt? ==> r == IntOk
    ensures v == Some(JFloat(Zero)) || v == Some(JFloat(NonZeroFinite)) ==> r == IntOk
    ensures v == Some(JFloat(NaN)) ==> r == IntValueError
  {
    match v
    case None => IntOk
    case Some(j) =>
      match j
      case JNull => IntTypeError
      case JBool(_) => IntOk
      case JInt(_) => IntOk
      case JFloat(k) => if k == NaN then IntValueError else if k == Infinite then IntOverflow else IntOk
      case JStr(s) => if IsIntLiteral(s) then IntOk else IntValueError
      case JList(_) => IntTypeError
      case JObj(_) => IntTypeError
  }

  /** Whitespace around a literal never changes whether `int()` accepts it. */
  lemma IntLiteralPaddingIgnored(p: string, s: string, q: string)
    requires AllPySpace(p) && AllPySpace(q)
    ensures IsIntLiteral(p + s + q) <==> IsIntLiteral(s)
  {
    StripPadding(p, s, q);
  }

  /** More than `IntMaxStrDigits` digits is a ValueError, however well-formed the literal. */
  lemma TooManyDigitsRefused(s: string)
    requires DigitCount(Strip(s)) > IntMaxStrDigits
    ensures PyInt(Some(JStr(s))) == IntValueError
  {
  }

  /** A decimal with single underscores between digits parses; a doubled or trailing one does not. */
  lemma IntLiteralExamples()
    ensures IsIntLiteral(" 1_000\n") && IsIntLiteral("-7")
    ensures !IsIntLiteral("1__0") && !IsIntLiteral("10_") && !IsIntLiteral("") && !IsIntLiteral("+")
  {
    assert Strip(" 1_000\n") == "1_000" by {
      assert " 1_000\n"[1..] == "1_000\n";
      assert "1_000\n"[..5] == "1_000";
    }
    assert Strip("-7") == "-7";
    assert Strip("1__0") == "1__0";
    assert "1__0"[1] == '_' && "1__0"[2] == '_';
    assert Strip("10_") == "10_";
    assert Strip("+") == "+" && "+"[1..] == "";
  }

  // ---------------------------------------------------------------------------------------
  // The endpoint
  // ---------------------------------------------------------------------------------------

  /**
   * `process_template_generation`: scrape, stop at no titles, otherwise generate. The empty
   * list comes only from a scraper that found nothing; every other failure is raised.
   */
  function ProcessTemplateGeneration(keyword: Json, season: Json, model: Json, b: Backend)
    : (r: Result<seq<Template>, Raised>)
    ensures r == Ok([]) <==> b.scrape == Titles([])
    ensures r == Err(RaisedException) <==>
      b.scrape == ScrapeRaised(false) ||
      (b.scrape.Titles? && b.scrape.titles != [] && b.apiKeySet &&
       (var g := Generate(b.scrape.titles, keyword, season, b.reply, b.parse);
        g.Err? && !g.error.ValueErr?))
    ensures r == Err(RaisedValueError) <==>
      b.scrape == ScrapeRaised(true) ||
      (b.scrape.Titles? && b.scrape.titles != [] &&
       (!b.apiKeySet || (var g := Generate(b.scrape.titles, keyword, season, b.reply, b.parse);
                         g.Err? && g.error.ValueErr?)))
    ensures r.Ok? && r.value != [] <==>
      b.scrape.Titles? && b.scrape.titles != [] && b.apiKeySet &&
      Generate(b.scrape.titles, keyword, season, b.reply, b.parse).Ok?
    ensures r.Ok? && r.value != [] ==> r.value == Generate(b.scrape.titles, keyword, season, b.reply, b.parse).value
  {
    match b.scrape
    case ScrapeRaised(isValueError) => Err(if isValueError then RaisedValueError else RaisedException)
    case Titles(titles) =>
      if titles == [] then Ok([])
      else if !b.apiKeySet then Err(RaisedValueError)
      else
        match Generate(titles, keyword, season, b.reply, b.parse)
        case Ok(ts) =>
          GenerateResultBounds(titles, keyword, season, b.reply, b.parse);
          Ok(ts)
        case Err(e) => Err(if e.ValueErr? then RaisedValueError else RaisedException)
  }

  function Lookup(m: map<string, Json>, key: string): Option<Json> {
    if key in m then Some(m[key]) else None
  }

  /** `data.get(key, default)` */
  function Get(m: map<string, Json>, key: string, default: Json): Json {
    if key in m then m[key] else default
  }

  /** `generate`: the checks in the order the handler makes them. */
  function HandleGenerate(req: Request, b: Backend): (r: Response)
    ensures r.status in {200, 400, 404, 500}
    ensures r.success <==> r.status == 200
    ensures r.code.None? <==> r.success
    ensures r.status == 404 ==> r.code == Some(NoResultsFound)
    ensures r.status == 500 ==> r.code == Some(InternalServerError)
    ensures r.status == 400 ==> r.code == Some(InvalidJson) || r.code == Some(ValidationError)
    ensures r.success ==> 1 <= |r.templates| <= MaxTemplates
  {
    if !req.isJson && req.hasBody then Failure(400, InvalidJson)
    else
      match req.body
      case RaisedBadRequest => Failure(400, InvalidJson)
      case RaisedOther => Failure(500, InternalServerError)
      case NoneValue => Failure(400, InvalidJson)
      case Value(data) =>
        if data.JNull? then Failure(400, InvalidJson)
        else if !data.JObj? then Failure(500, InternalServerError)  // `data.get` raises AttributeError
        else
          var m := data.fields;
          var keyword := Get(m, "keyword", JNull);
          var gender := Get(m, "gender", JStr("ladies"));
          var season := Get(m, "season", JNull);
          var model := Get(m, "model", JStr(DefaultModel));
          match PyInt(Lookup(m, "num_templates"))
          case IntValueError => Failure(400, ValidationError)
          case IntTypeError => Failure(500, InternalServerError)
          case IntOverflow => Failure(500, InternalServerError)
          case IntOk =>
            if !Truthy(keyword) then Failure(400, ValidationError)
            else if gender != JStr("ladies") && gender != JStr("mens") then Failure(400, ValidationError)
            else
              match ProcessTemplateGeneration(keyword, season, model, b)
              case Err(RaisedValueError) => Failure(400, ValidationError)
              case Err(RaisedException) => Failure(500, InternalServerError)
              case Ok(ts) =>
                if ts == [] then Failure(404, NoResultsFound)
                else
                  GenerateOkLength(keyword, season, b);
                  Response(200, true, None, ts)
  }

  lemma GenerateOkLength(keyword: Json, season: Json, b: Backend)
    requires b.scrape.Titles? && b.scrape.titles != [] && b.apiKeySet
    requires Generate(b.scrape.titles, keyword, season, b.reply, b.parse).Ok?
    ensures 1 <= |Generate(b.scrape.titles, keyword, season, b.reply, b.parse).value| <= MaxTemplates
  {
    GenerateResultBounds(b.scrape.titles, keyword, season, b.reply, b.parse);
  }

  /**
   * The request gets past every check of the handler: a JSON object body, a number of templates
   * `int()` accepts, a truthy keyword and a known gender.
   */
  ghost predicate PassesRequestChecks(req: Request) {
    (req.isJson || !req.hasBody) && req.body.Value? && req.body.data.JObj? &&
    var m := req.body.data.fields;
    PyInt(Lookup(m, "num_templates")) == IntOk && Truthy(Get(m, "keyword", JNull)) &&
    (Get(m, "gender", JStr("ladies")) == JStr("ladies") || Get(m, "gender", JStr("ladies")) == JStr("mens"))
  }

  /** What the handler passes on to `process_template_generation`. */
  ghost function BodyKeyword(req: Request): Json
    requires req.body.Value? && req.body.data.JObj?
  {
    Get(req.body.data.fields, "keyword", JNull)
  }

  ghost function BodySeason(req: Request): Json
    requires req.body.Value? && req.body.data.JObj?
  {
    Get(req.body.data.fields, "season", JNull)
  }

  ghost function BodyModel(req: Request): Json
    requires req.body.Value? && req.body.data.JObj?
  {
    Get(req.body.data.fields, "model", JStr(DefaultModel))
  }

  /**
   * Past the request checks, a ValueError from the pipeline (the scraper, the missing API key,
   * the generator) is 400 VALIDATION_ERROR and any other exception 500 INTERNAL_SERVER_ERROR.
   */
  lemma PipelineErrorsMapped(req: Request, b: Backend)
    requires PassesRequestChecks(req)
    ensures var p := ProcessTemplateGeneration(BodyKeyword(req), BodySeason(req), BodyModel(req), b);
      (p == Err(RaisedValueError) ==> HandleGenerate(req, b) == Failure(400, ValidationError)) &&
      (p == Err(RaisedException) ==> HandleGenerate(req, b) == Failure(500, InternalServerError))
  {
  }

  /**
   * A request succeeds exactly when it passes the checks, the scraper finds titles, the API key
   * is set and generation succeeds; it then returns the generated templates unchanged.
   */
  lemma SuccessIffGenerated(req: Request, b: Backend)
    ensures HandleGenerate(req, b).success <==>
      PassesRequestChecks(req) && b.scrape.Titles? && b.scrape.titles != [] && b.apiKeySet &&
      Generate(b.scrape.titles, BodyKeyword(req), BodySeason(req), b.reply, b.parse).Ok?
    ensures HandleGenerate(req, b).success ==>
      HandleGenerate(req, b).templates ==
        Generate(b.scrape.titles, BodyKeyword(req), BodySeason(req), b.reply, b.parse).value
  {
  }

  /** A `num_templates` string that `int()` refuses is 400 VALIDATION_ERROR, whatever the keyword. */
  lemma NonNumericCountRefused(req: Request, b: Backend)
    requires (req.isJson || !req.hasBody) && req.body.Value? && req.body.data.JObj?
    requires var v := Lookup(req.body.data.fields, "num_templates");
      v.Some? && v.value.JStr? && !IsIntLiteral(v.value.s)
    ensures HandleGenerate(req, b) == Failure(400, ValidationError)
  {
  }

  /** A body Flask cannot parse, or one that is empty or `null`, is 400 INVALID_JSON. */
  lemma NoDataRefused(req: Request, b: Backend)
    requires req.isJson || !req.hasBody
    requires req.body.RaisedBadRequest? || req.body.NoneValue? || req.body == Value(JNull)
    ensures HandleGenerate(req, b) == Failure(400, InvalidJson)
  {
  }

  /** A non-JSON content type with a body is refused first, whatever the body and the backends. */
  lemma NonJsonBodyRefusedFirst(req: Request, b: Backend)
    requires !req.isJson && req.hasBody
    ensures HandleGenerate(req, b) == Failure(400, InvalidJson)
  {
  }

  /** A missing or empty keyword is a validation error before any backend is consulted. */
  lemma MissingKeywordRefused(req: Request, b1: Backend, b2: Backend)
    requires (req.isJson || !req.hasBody) && req.body.Value? && req.body.data.JObj?
    requires PyInt(Lookup(req.body.data.fields, "num_templates")) == IntOk
    requires var m := req.body.data.fields; !("keyword" in m && Truthy(m["keyword"]))
    ensures HandleGenerate(req, b1) == HandleGenerate(req, b2) == Failure(400, ValidationError)
  {
  }

  /** `int(num_templates)` runs before the keyword check: `null` gives 500 even with no keyword. */
  lemma NumTemplatesCheckedBeforeKeyword(b: Backend)
    ensures HandleGenerate(Request(true, true, Value(JObj(map["num_templates" := JNull]))), b)
      == Failure(500, InternalServerError)
  {
    assert Lookup(map["num_templates" := JNull], "num_templates") == Some(JNull);
  }

  /** A gender other than `ladies` or `mens` is refused before scraping. */
  lemma InvalidGenderRefused(req: Request, b1: Backend, b2: Backend)
    requires (req.isJson || !req.hasBody) && req.body.Value? && req.body.data.JObj?
    requires var m := req.body.data.fields;
      "keyword" in m && Truthy(m["keyword"]) && PyInt(Lookup(m, "num_templates")) == IntOk &&
      "gender" in m && m["gender"] != JStr("ladies") && m["gender"] != JStr("mens")
    ensures HandleGenerate(req, b1) == HandleGenerate(req, b2) == Failure(400, ValidationError)
  {
  }

  /**
   * No titles means 404 NO_RESULTS_FOUND: the generator is never built, so neither the API key
   * nor the model reply nor the parser matters.
   */
  lemma NoTitlesGivesNotFound(req: Request, b: Backend)
    requires PassesRequestChecks(req) && b.scrape == Titles([])
    ensures HandleGenerate(req, b) == Failure(404, NoResultsFound)
  {
  }

  /**
   * The converse: past the request checks, 404 NO_RESULTS_FOUND means the scraper returned no
   * titles, and never stands for a scraper or generator that raised.
   */
  lemma NotFoundOnlyForNoTitles(req: Request, b: Backend)
    requires PassesRequestChecks(req)
    ensures HandleGenerate(req, b).status == 404 <==> b.scrape == Titles([])
  {
  }

  /** Past the request checks, a scraper that raises anything but a ValueError is 500. */
  lemma ScraperCrashIsInternalError(req: Request, b: Backend)
    requires PassesRequestChecks(req) && b.scrape == ScrapeRaised(false)
    ensures HandleGenerate(req, b) == Failure(500, InternalServerError)
  {
  }

  /** A successful response carries only templates that meet the output contract. */
  lemma SuccessMeetsOutputContract(req: Request, b: Backend)
    requires HandleGenerate(req, b).success
    ensures forall t :: t in HandleGenerate(req, b).templates ==> MeetsOutputContract(t)
  {
    GenerateResultBounds(b.scrape.titles, BodyKeyword(req), BodySeason(req), b.reply, b.parse);
  }

  /** Without an API key a request that reaches generation is a validation error (400). */
  lemma NoApiKeyIsValidationError(req: Request, b: Backend)
    requires PassesRequestChecks(req) && b.scrape.Titles? && b.scrape.titles != [] && !b.apiKeySet
    ensures HandleGenerate(req, b) == Failure(400, ValidationError)
  {
  }
}
