# Hair-style template generator: a verified model of its decision logic

The system looks up hair-style titles for a keyword. It then has a language model write
salon-catalogue templates (title, menu, comment, hashtags) and shows them in the browser, six per
page. This project models in Dafny the parts of it that make decisions:

- **The featured-keyword registry** (`app/featured_keywords.py`, module `FeaturedKeywords`).
  - The loader turns a source outcome into `keywords` and `_last_error`. It runs the
    per-entry checks, the length caps and the duplicate scan.
  - It answers lookup, health and reload queries.
  - It is a class `FeaturedKeywordsManager` whose load loop is proved against a left fold,
    `ValidateAll`.
- **The template post-processor** (`app/generator.py`, module `Generator`):
  - the model-name fallback;
  - season resolution;
  - `_validate_template`, written as a method with its loops and proved against the function
    `TemplateVerdict`;
  - the extraction from the first `[` to the last `]`;
  - the order-preserving filter, as the method `FilterLoop` proved against the function
    `FilterTemplates`, and the cut to 15 templates, as the method `GenerateTemplates` proved
    against the function `Generate`.
- **The `/api/generate` endpoint** (`app/main.py`, module `Api`): the order of the request checks,
  the `int(num_templates)` conversion, the empty-titles short-circuit, and the mapping of
  exceptions to status codes.
- **The browser script** (`app/static/js/script.js`):
  - pagination (`Pagination`): the page count, the page slices, the five-page window with its
    first and last buttons and ellipses, and the state object with its handlers;
  - the CSV export (`CsvExport`), with a reader for the quoted records and a proof that it reads
    every field back;
  - the character and hashtag counters (`Counters`);
  - the progress steps and their indicators (`Progress`);
  - the featured-keyword selection state (`KeywordSelection`).

Python values are modelled by `PyValues.Json`, so the checks keep the exceptions Python raises:
- truthiness matters;
- `len` of a number raises TypeError;
- `.lower()` on a non-string raises AttributeError;
- an unhashable value used as a dictionary key raises TypeError.

JavaScript string lengths are counted in UTF-16 code units (`JsText`).

The file system, the scraper, the language model and `json.loads` are parameters:
- the registry reads a `Source` outcome;
- the endpoint takes a `Backend` (API key present, scrape outcome, model reply, parser).

## Model

| member | source | states |
|---|---|---|
| FeaturedKeywords.Screen | app/featured_keywords.py:105-146 | an item passes the per-entry checks exactly when it is a dict meeting every field rule (non-empty name, keyword, gender and condition; gender ladies or mens; name and keyword at most 50, condition at most 500); every other item is skipped, with the reason (not a dict, missing field, bad gender, too long, or `len` raising) |
| FeaturedKeywords.Load | app/featured_keywords.py:50-203 | an error always leaves the registry empty; there is no error exactly when the file exists, its size is between 1 and 1 MiB and it parses to a list; a non-list root is a ValidationError; with no error the entries are `ValidateAll` of the list |
| FeaturedKeywords.ScanForDuplicate | app/featured_keywords.py:149-159 | the inner loop over the accepted entries returns what `DupScan` specifies: clean, a duplicate of `keyword.lower().strip()`, or an exception from a non-string accepted keyword |
| FeaturedKeywords.DupScanCleanMeansFresh | app/featured_keywords.py:149-159 | a clean scan means every accepted entry has a string keyword whose normal form differs from the new one |
| FeaturedKeywords.FreshMeansDupScanClean | app/featured_keywords.py:149-159 | the converse: a string key whose normal form is new is scanned clean |
| FeaturedKeywords.DupScanKeyOnly | app/featured_keywords.py:151 | the scan depends on the new key only through `lower().strip()` |
| FeaturedKeywords.DupScanAppend | app/featured_keywords.py:150-156 | the scan stops at the first accepted entry that decides it |
| FeaturedKeywords.ValidateAllWellFormed | app/featured_keywords.py:105-170 | the accepted entries never share a normalised keyword, and every one meets the field rules |
| FeaturedKeywords.ValidateAllFromInput | app/featured_keywords.py:105-161 | every accepted entry is a dict of the input that passes the checks |
| FeaturedKeywords.ValidateAllSubsequence | app/featured_keywords.py:161-170 | the accepted entries are a subsequence of the input, in the original order |
| FeaturedKeywords.ValidateAllGrows | app/featured_keywords.py:105-161 | the entries accepted from a prefix of the input are a prefix of those accepted from the whole |
| FeaturedKeywords.ValidateAllStep | app/featured_keywords.py:105-168 | one more item changes the result only by what that item's checks accept |
| FeaturedKeywords.FirstOccurrenceWins | app/featured_keywords.py:148-161 | a passing item with a string key that no earlier passing item shares is appended |
| FeaturedKeywords.KeyCovered | app/featured_keywords.py:149-156 | once an item with a string key passes, every later scan of the same normalised key finds a duplicate, or raises |
| FeaturedKeywords.DuplicateDropped | app/featured_keywords.py:149-159 | a later item whose normalised key repeats an earlier passing item's is dropped: the first one wins |
| FeaturedKeywords.NonStringKeyShadowsRest | app/featured_keywords.py:150-168 | when the first accepted entry has a non-string keyword (a list, say), the scan raises for every later item, and nothing more is accepted |
| FeaturedKeywords.IsolationOfMalformedItems | app/featured_keywords.py:105-171 | when the passing items have pairwise distinct string keys, the loader keeps exactly the passing items; each malformed item is skipped on its own |
| FeaturedKeywords.NoPassingNothingLoaded | app/featured_keywords.py:95-171 | when no item passes (the empty list included), nothing is loaded |
| FeaturedKeywords.FirstPassing | app/featured_keywords.py:105-161 | if some item passes, there is a first one |
| FeaturedKeywords.SomethingLoadedIffSomeItemPasses | app/featured_keywords.py:105-171 | the registry is non-empty, and so available, exactly when some item passes the checks (availability is checked at app/featured_keywords.py:300) |
| FeaturedKeywords.SeveralEntriesHaveStringKeys | app/featured_keywords.py:149-161 | with two or more accepted entries, every accepted keyword is a string |
| FeaturedKeywords.NonStringKeyIsAlone | app/featured_keywords.py:149-161 | an accepted entry with a non-string keyword is the only entry |
| PyValues.PaddingIgnored | app/featured_keywords.py:151 | `s.lower().strip()` ignores white space added at either end of `s` (the same normalisation at app/featured_keywords.py:232) |
| FeaturedKeywords.PaddedQuerySameAnswer | app/featured_keywords.py:232 | surrounding white space in the query does not change `is_featured_keyword` |
| FeaturedKeywords.BlankQueryNotFeatured | app/featured_keywords.py:232-235 | an empty or white-space-only query is never featured |
| FeaturedKeywords.FeaturedKeywordsManager.constructor | app/featured_keywords.py:39-48 | the manager starts with the path given and the state `Load` gives for the source |
| FeaturedKeywords.FeaturedKeywordsManager.LoadFromSource | app/featured_keywords.py:50-203 | `_load_keywords`: the loop's result equals `ValidateAll` step by step; the new state is `Load(src)` and keeps `Valid()` |
| FeaturedKeywords.FeaturedKeywordsManager.LoadKeywords | app/featured_keywords.py:205-212 | returns the entries (an immutable value, so a copy) |
| FeaturedKeywords.FeaturedKeywordsManager.GetAllKeywords | app/featured_keywords.py:285-292 | returns the entries (an immutable value, so a copy) |
| FeaturedKeywords.FeaturedKeywordsManager.IsFeaturedKeyword | app/featured_keywords.py:214-247 | false for a non-string, empty or blank query and for an empty registry; otherwise true exactly when some entry's `keyword.lower().strip()` equals the query's |
| FeaturedKeywords.FeaturedKeywordsManager.GetKeywordInfo | app/featured_keywords.py:249-283 | returns an entry exactly when `is_featured_keyword` holds, and that entry is a registry entry with the matching key |
| FeaturedKeywords.FeaturedKeywordsManager.IsAvailable | app/featured_keywords.py:294-300 | available exactly when some entry is loaded |
| FeaturedKeywords.FeaturedKeywordsManager.ReloadKeywords | app/featured_keywords.py:302-327 | the new state is a fresh load; it returns true exactly when the load ended without an error; a failure leaves the registry empty |
| FeaturedKeywords.FeaturedKeywordsManager.GetHealthStatus | app/featured_keywords.py:337-349 | the count is the number of entries, available means a non-zero count, and there is an error type exactly when there is a last error: `FeaturedKeywordsLoadError` for a load error, `FeaturedKeywordsValidationError` for a validation error |
| Generator.ResolveModel | app/generator.py:18-22 | the model used is always supported: a supported name is kept, anything else falls back to gemini-2.5-flash |
| Generator.ResolveModelIdempotent | app/generator.py:18-22 | resolving the resolved name changes nothing |
| Generator.NewGenerator | app/generator.py:14-22 | construction fails with a ValueError exactly when the API key is unset; otherwise it yields the resolved model |
| Generator.ResolveSeason | app/generator.py:44-66 | a truthy list or dict as season raises TypeError; the seasonal block appears exactly for a string key of `SEASON_KEYWORDS`, with its display name and keywords |
| Generator.SeasonNamesDistinct | app/generator.py:47-54 | the eight seasons get eight different Japanese display names, none equal to its key |
| Generator.GenderName | app/generator.py:38 | レディース exactly for `ladies`, メンズ for anything else |
| Generator.TagsVerdictValidIff | app/generator.py:205-208 | the tag check passes exactly when every tag has a length of at most 20 |
| Generator.ValidIffMeetsOutputContract | app/generator.py:171-214 | for a string keyword, `_validate_template` accepts exactly the templates whose four keys exist, with title at most 30, menu at most 50, comment at most 120, and at least 7 tags of at most 20 |
| Generator.VerdictIgnoresKeywordText | app/generator.py:182-184 | whether the keyword occurs in the title never changes the verdict |
| Generator.NonStringKeywordRejectsAll | app/generator.py:182-214 | a non-string keyword makes `.lower()` raise AttributeError, which is caught, so every template is rejected |
| Generator.ValidateTemplate | app/generator.py:171-214 | the loops over the required keys, the limits and the tags return `TemplateVerdict`: accepted, rejected, or an uncaught TypeError |
| Generator.Find | app/generator.py:263 | `str.find`: the first index of the character, or -1 exactly when it is absent |
| Generator.RFind | app/generator.py:268 | `str.rfind`: the last index of the character, or -1 exactly when it is absent |
| Generator.ExtractJsonText | app/generator.py:262-273 | a missing `[` and a missing `]` are the two ValueErrors, each exactly in its case |
| Generator.ExtractionSucceedsWithBrackets | app/generator.py:262-273 | a text holding both a `[` and a `]` is always extracted: the bracket errors are the only ones |
| Generator.ExtractionSpansBrackets | app/generator.py:263-273 | the extracted text is empty exactly when the last `]` precedes the first `[`; otherwise it runs from the first `[` to the last `]`, inclusive, with no `[` before it and no `]` after it |
| Generator.FilterCompletesIff | app/generator.py:288-296 | the validation loop runs to the end exactly when every item is a dict whose check does not raise |
| Generator.FilterKeepsValid | app/generator.py:288-296 | every kept template is a dict of the reply that passed the check |
| Generator.FilterKeepsAllValid | app/generator.py:288-296 | a completed loop keeps exactly as many templates as pass the check |
| Generator.FilterKeepsPassingInOrder | app/generator.py:289-295 | a completed loop keeps exactly the dicts that pass the check, each once and in the order of the reply's list (`PassingDicts`, a filter written from the front) |
| Generator.GenerateResultBounds | app/generator.py:288-302 | a successful generation returns between 1 and 15 templates, each valid, each meeting the output contract, each from the reply's list |
| Generator.GenerateKeepsFirstValid | app/generator.py:302 | the result has `min(n, 15)` templates for `n` passing dicts, and is a prefix of the passing dicts in reply order |
| Generator.NonStringKeywordNeverSucceeds | app/generator.py:297-299 | a keyword that is not a string never yields templates (the rejection at app/generator.py:182) |
| Generator.GenerateTemplates | app/generator.py:216-309 | the method returns exactly `Generate`: empty titles and empty keyword are ValueErrors before the model is asked, then extraction, parse (an empty extraction never parses, as `json.loads("")` fails), non-list and no-valid-template ValueErrors; other failures are wrapped exceptions |
| Generator.FilterLoop | app/generator.py:289-295 | the validation loop returns the accepted templates in their order, or nothing when `template.get` or a TypeError escapes it, exactly as `FilterTemplates` |
| Api.PyInt | app/main.py:180 | `int()` of `num_templates`: null, lists and dicts raise TypeError; a string converts exactly when, after stripping, it is a base-10 literal of at most 4300 digits; only infinity overflows; absent values, booleans, integers and finite floats convert; NaN raises ValueError |
| Api.IntLiteralExamples | app/main.py:180 | literals with single underscores and surrounding spaces convert; doubled or trailing underscores, and a lone sign, do not |
| Api.IntLiteralPaddingIgnored | app/main.py:180 | white space around a `num_templates` string never changes whether `int()` accepts it |
| Api.TooManyDigitsRefused | app/main.py:180 | a string of more than 4300 digits is a ValueError, however well-formed |
| Api.ProcessTemplateGeneration | app/main.py:102-146 | the empty list is returned exactly when the scraper finds no titles, before the generator is built; any other exception leaves it exactly when the scraper raises one or generation fails with one that is not a ValueError; a ValueError leaves it exactly when the scraper raises one, or titles were found and the API key is missing or generation fails with one; it returns templates exactly when titles were found, the key is set and generation succeeds, and they are the generated ones |
| Api.HandleGenerate | app/main.py:148-261 | the status is 200, 400, 404 or 500; success exactly at 200, and an error code exactly when it fails; 404 is NO_RESULTS_FOUND and 500 is INTERNAL_SERVER_ERROR; a success carries 1 to 15 templates |
| Api.GenerateOkLength | app/main.py:208-221 | a successful pipeline returns 1 to 15 templates |
| Api.NonJsonBodyRefusedFirst | app/main.py:153-163 | a non-JSON request with a body is 400 INVALID_JSON whatever the body or the backends |
| Api.MissingKeywordRefused | app/main.py:184-192 | a missing or empty keyword is 400 VALIDATION_ERROR, and no backend affects the answer |
| Api.NumTemplatesCheckedBeforeKeyword | app/main.py:180-192 | a null `num_templates` gives 500 even without a keyword: `int()` runs first (error mapping at app/main.py:249-261) |
| Api.InvalidGenderRefused | app/main.py:194-202 | a gender other than ladies or mens is 400 VALIDATION_ERROR before scraping |
| Api.NoTitlesGivesNotFound | app/main.py:207-215 | no titles gives 404 NO_RESULTS_FOUND whatever the API key, the model and the parser (the scraper result at app/main.py:122-124) |
| Api.NotFoundOnlyForNoTitles | app/main.py:207-215 | past the request checks, 404 NO_RESULTS_FOUND happens exactly when the scraper returns no titles, never for a scraper or generator that raised |
| Api.ScraperCrashIsInternalError | app/main.py:249-261 | past the request checks, a scraper that raises something other than a ValueError gives 500 INTERNAL_SERVER_ERROR |
| Api.SuccessMeetsOutputContract | app/main.py:217-221 | every template of a successful response meets the output contract |
| Api.NoApiKeyIsValidationError | app/main.py:238-247 | without an API key a request that reaches generation is 400 VALIDATION_ERROR (the key check at app/main.py:128) |
| Api.PipelineErrorsMapped | app/main.py:238-261 | past the request checks, a ValueError from the pipeline is 400 VALIDATION_ERROR and any other exception 500 INTERNAL_SERVER_ERROR |
| Api.SuccessIffGenerated | app/main.py:204-221 | a request succeeds exactly when it passes the request checks, titles are found, the API key is set and generation succeeds; the response then carries exactly the generated templates |
| Api.NonNumericCountRefused | app/main.py:180 | a `num_templates` string that `int()` refuses is 400 VALIDATION_ERROR, whatever the keyword and the backends (the ValueError clause at app/main.py:238-247) |
| Api.NoDataRefused | app/main.py:164-174 | a body Flask cannot parse, or one it reads as `None` (empty or `null`), is 400 INVALID_JSON (the BadRequest clause at app/main.py:223-236) |
| JsText.Utf16LengthIsLenIffBmp | app/static/js/script.js:1832 | a JavaScript length equals the character count exactly when the text stays in the Basic Multilingual Plane |
| JsText.Trim | app/static/js/script.js:792 | `trim()` removes only white space, and only at the ends: everything before and after the slice it returns is white space, and the slice neither starts nor ends with white space |
| JsText.TrimPadding | app/static/js/script.js:792 | trimming any white-space padding off a text that neither starts nor ends with white space gives back exactly that text |
| JsText.TrimIdempotent | app/static/js/script.js:792 | trimming twice is trimming once |
| JsText.Split | app/static/js/script.js:1846 | `split(',')` gives at least one part, none containing a comma |
| JsText.JoinSplit | app/static/js/script.js:1846 | joining the parts of a split with the separator gives back the text |
| JsText.SplitJoin | app/static/js/script.js:1846 | splitting the join of separator-free parts gives the parts back (the join at app/static/js/script.js:1419) |
| JsText.DecimalRoundTrip | app/static/js/script.js:1833 | the decimal rendering of a count reads back as the count |
| Pagination.TotalPagesFor | app/static/js/script.js:1174 | `Math.ceil(n / 6)`: enough pages for every item, and no page more than needed |
| Pagination.PageSize | app/static/js/script.js:1194-1196 | every page from 1 to the page count holds between 1 and 6 items, the slice `[(p-1)*6, p*6)` |
| Pagination.PagesUpToIsPrefix | app/static/js/script.js:1194-1196 | pages 1 to k together are the first `6k` items |
| Pagination.PagesCoverAll | app/static/js/script.js:1194-1196 | pages 1 to the page count, put together, are all the templates (the page count at app/static/js/script.js:1174) |
| Pagination.WindowBounds | app/static/js/script.js:1246-1253 | `1 <= startPage <= current <= endPage <= total` and the window holds `min(5, total)` pages |
| Pagination.BarPages | app/static/js/script.js:1256-1314 | the buttons read 1 when the window starts after 1, then the window, then the last page when the window ends before it |
| Pagination.BarShape | app/static/js/script.js:1256-1314 | the page numbers on the bar rise strictly, stay within 1..total, and include 1, the current page and the last page |
| Pagination.BarNumbersIncrease | app/static/js/script.js:1256-1314 | page 1, the window and the last page, each shown only outside the window, rise strictly within 1..total |
| Pagination.BarNumbersContain | app/static/js/script.js:1256-1314 | those numbers include 1, every page of the window and the last page |
| Pagination.BarMarksCurrent | app/static/js/script.js:1277-1284 | exactly the current page's button is marked current |
| Pagination.BuildBar | app/static/js/script.js:1219-1316 | the loop that creates the buttons yields `PaginationBar` |
| Pagination.ClickedPageInRange | app/static/js/script.js:1261-1311 | every page a bar button leads to lies in 1..total |
| Pagination.PaginationState.UpdatePaginationUI | app/static/js/script.js:1219-1316 | the bar, its visibility and the disabled state of Prev and Next agree with the position; with one page or none the bar is emptied and hidden, and Prev and Next are left as they were |
| Pagination.PaginationState.DisplayTemplatesForPage | app/static/js/script.js:1185-1216 | the page shown is the slice of that page, and the bar follows |
| Pagination.PaginationState.DisplayTemplates | app/static/js/script.js:1169-1182 | stores the templates, sets the page count to `ceil(n/6)`, and shows the first six |
| Pagination.PaginationState.PrevPage | app/static/js/script.js:1318-1322 | moves back one page unless on the first, and stays within the pages |
| Pagination.PaginationState.NextPage | app/static/js/script.js:1324-1328 | moves on one page unless on the last, and stays within the pages |
| Pagination.PaginationState.ClickPageItem | app/static/js/script.js:1261-1311 | a button shows its page, and the state stays valid |
| CsvExport.ExportCsv | app/static/js/script.js:1700-1710 | nothing is exported exactly when there are no templates (the emptiness check at app/static/js/script.js:1575-1580) |
| CsvExport.EscapedRoundTrip | app/static/js/script.js:1704-1707 | a field with its quotes doubled is read back, closing quote included |
| CsvExport.RecordRoundTrip | app/static/js/script.js:1703-1708 | a line of quoted fields joined by commas is read back field by field, whatever commas, quotes or line feeds the fields hold |
| CsvExport.QuotedFieldRoundTrip | app/static/js/script.js:1703-1708 | a quoted field is read back whole when no quote follows it |
| CsvExport.RecordsRoundTrip | app/static/js/script.js:1703-1710 | lines joined with line feeds are read back as the records written |
| CsvExport.ExportRoundTrip | app/static/js/script.js:1701-1710 | the file is the BOM, the header and a line feed, then text from which every template's title, menu, comment and space-joined hashtags are read back in order |
| CsvExport.HeaderIsOneLine | app/static/js/script.js:1701 | the header holds neither a quote nor a line feed |
| Counters.CharLevelMonotone | app/static/js/script.js:1836-1842 | a longer text never shows a milder class |
| Counters.CardThresholds | app/static/js/script.js:1836-1842 | for the title limit 30, warning starts at 24 and error at 30; for 50 warning starts at 40; for 100 at 80 (the limits passed at app/static/js/script.js:1426-1429) |
| Counters.HashtagsAreClean | app/static/js/script.js:1846 | every tag the hashtag counter finds is non-empty, trimmed and comma-free |
| Counters.HashtagsOfJoin | app/static/js/script.js:1846 | the hashtag array written into the textarea is read back by the counter exactly (the join at app/static/js/script.js:1419) |
| Counters.HashtagsOfEmpty | app/static/js/script.js:1846 | an empty textarea holds no tags |
| Counters.ServerTagsShowNoError | app/static/js/script.js:1846-1856 | tags the server accepts that stay in the Basic Multilingual Plane show a tag count and no error (the join at app/static/js/script.js:1419) |
| Counters.EmojiTagFlagged | app/static/js/script.js:1847 | eleven emoji pass the server's 20-character check but count 22 in JavaScript, so the counter flags them |
| Counters.CounterElement.UpdateCharCount | app/static/js/script.js:1831-1843 | the text is `length/max`; error exactly from the limit on; warning exactly from 80% of it up to the limit; never both |
| Counters.CounterElement.UpdateHashtagCount | app/static/js/script.js:1845-1857 | with over-long tags, their count and the error class, leaving warning as it was; otherwise the tag count with both classes removed |
| Counters.HashtagTextsDistinct | app/static/js/script.js:1849-1854 | the too-long report and the tag count never coincide, and each text determines its count |
| Progress.StepsAscend | app/static/js/script.js:25-35 | four steps, ending at rising percentages, the last 100 and named 完了 |
| Progress.ActiveIsCurrent | app/static/js/script.js:1040-1058 | the active indicator is exactly the current one, and no indicator is both active and completed |
| Progress.CompletedFormPrefix | app/static/js/script.js:1040-1058 | the completed indicators are exactly those before the current step |
| Progress.StepAfterSaturates | app/static/js/script.js:1017-1037 | k firings of the timeout from the first step reach step `min(k, 3)` |
| Progress.LastStepIsFixed | app/static/js/script.js:1019-1022 | at the last step further moves stay there |
| Progress.ProgressBar.ResetProgress | app/static/js/script.js:955-966 | back to step 0 at 0%, showing the first step's name and its loading message, with only the first indicator active |
| Progress.ProgressBar.StartProgressSimulation | app/static/js/script.js:969-985 | shows the first step's name and loading message at 0%, activates the first indicator, schedules the next move, and keeps the current step |
| Progress.ProgressBar.UpdateStepIndicators | app/static/js/script.js:1040-1058 | every indicator takes the classes of its position relative to the current step |
| Progress.ProgressBar.MoveToNextStep | app/static/js/script.js:1017-1037 | one step on, never past the last; another move is scheduled exactly while the last step is not reached; the percentage, the step name and the loading message are kept |
| Progress.ProgressBar.StopProgressSimulation | app/static/js/script.js:1061-1070 | no timeout is left pending; the step, the percentage, the step name and the loading message are kept |
| Progress.ProgressBar.CompleteProgress | app/static/js/script.js:1073-1082 | stopped, 100%, 完了 with the loading message for 完了, the current step kept, every indicator completed |
| Progress.ProgressBar.UpdateProgressUI | app/static/js/script.js:1085-1095 | the percentage, the step name and the loading message |
| KeywordSelection.FeaturedSelection.ClearSelection | app/static/js/script.js:536-554 | no selection, no selection time, no active button; the input and the gender are untouched |
| KeywordSelection.FeaturedSelection.OnKeywordInput | app/static/js/script.js:790-800 | a selection survives an edit exactly when the trimmed input equals the selected keyword, and then its time and its active button are kept; otherwise no selection, time or active button is left |
| KeywordSelection.FeaturedSelection.OnGenderChanged | app/static/js/script.js:93-140 | within a second of a selection nothing changes; otherwise the keyword list is reloaded for the new gender and the selection, its time and the active button are cleared (the reload at app/static/js/script.js:513-532) |
| KeywordSelection.FeaturedSelection.SelectGender | app/static/js/script.js:398-455 | nothing when the gender is already checked; a dialog exactly when another gender is checked and the selection time says manual; a refusal keeps the old gender; otherwise the radios follow the gender, and a known gender outside the one-second window reloads its keywords and clears the selection; in every other case the selection, its time and the reloads stay as they were |
| KeywordSelection.FeaturedSelection.SelectFeaturedKeyword | app/static/js/script.js:330-362 | the selected keyword again deselects it and empties the input, with no reload; another keyword becomes the selection, fills the input and records the time, and its button is marked active only when the keyword list is not reloaded (the reload's loading view removes the buttons, and the list it renders has none pressed); the gender dialog appears whenever the checked gender differs, and a change to a known gender that is not refused reloads that gender's keywords exactly once |
| KeywordSelection.FeaturedSelection.DeselectFeaturedKeyword | app/static/js/script.js:364-396 | empties the input and clears the selection |

## Left out

- File-system access in the registry (`os.path.exists`, `getsize`, `open`, `json.load`) is the
  `Source` parameter, listing the outcomes. The health status takes `file_exists` as a parameter.
- `get_last_error` is a plain accessor of the `lastError` field and has no member of its own.
- Python's `str.lower` is modelled for ASCII letters only, and `strip` for ASCII white space and
  the common Unicode spaces. Full Unicode case mapping is not modelled.
- `int()` of a string accepts ASCII digits only here; Python also accepts other Unicode decimal
  digits.
- Api.PyInt: the 4300-digit limit is CPython's default from 3.11 (and 3.10.7) on. Older
  interpreters, and a limit changed through `PYTHONINTMAXSTRDIGITS`, accept other lengths.
- The scraper (app/scraping.py) is the `ScrapeOutcome` parameter. The language-model SDKs, their
  fallback and the prompt text are the `ModelReply` parameter. `json.loads` is the `parse` parameter,
  except on the empty text, which it always refuses.
- Logging and the `asyncio` wrapper are not modelled.
- In app/main.py, the template logging after generation cannot raise, because the templates were
  validated, so it is not modelled.
- The DOM, toasts, animations, `fetch` and the float sub-progress animation are not modelled.
  - Timers are flags, and a dispatched event runs its listener at once.
  - `confirm()` and `Date.now()` are parameters.
  - The percentage shown between steps is not modelled.
- The `.step-indicator` elements come from the page's HTML, which is not part of this model. Their
  number is a constructor parameter (at least one, as `resetProgress` needs).
- The TXT export, copying to the clipboard and the file download are not modelled.
- CsvExport.ExportCsv: templates whose title, menu or comment is not a string are outside the model.
  `.replace` throws on them.
- CsvExport.ExportCsv: hashtag elements are strings here. The server's tag check also lets
  through lists or dicts short enough for `len`, and `join(' ')` would turn them into their
  JavaScript string forms, which the model does not render.
- `initializeTextareas` passes the `maxlength` attribute, a string, as the limit of
  `updateCharCount`. This model uses the number only.
- Pagination.PaginationState.DisplayTemplatesForPage: the content is set at once rather than
  after its 300 ms timeout.
- The comment counter on a result card uses a limit of 100. The server accepts comments of up to
  120 characters, so a valid comment can show the counter's error class. The model keeps both
  constants as they are.
- The hashtag textarea's `input` listener calls the plain character counter with a limit of 50,
  not the hashtag counter (app/static/js/script.js:1459-1462). The model has both counters, and
  that listener is a call of `UpdateCharCount`.
- The registry behaves this way as written (see `FeaturedKeywords.NonStringKeyShadowsRest`): when
  the first accepted entry has a non-string keyword, the duplicate scan raises for every later
  item, so each later item is skipped.
- The `change` listener of the gender radios shows a toast for a manual change only when a
  selection remains. The reload it starts has already cleared the selection by then, so that
  branch is never taken, and the model has no toast.
