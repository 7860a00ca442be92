# Flexible web scraper: extraction decision engine

This project models the decision logic of `FlexibleWebScraper`. That is the
part of the scraper that decides which value each configured field gets and
which of the three acquisition methods supplies a URL's record. It covers:

- **the field cascade** (`extract_with_config`). For every configured field it
  tries the four strategies in order: CSS selectors, XPath (only on a
  browser-rendered page), regex patterns over the page text, then element
  attributes. Each strategy list is scanned in order and the first non-empty
  text wins. The optional transform is then applied. A field that ends without
  a truthy value is recorded as `"Not Found"`.
- **the transform engine** (`apply_transform`). It covers `regex`
  substitution, `strip_chars`, and `convert_to_number`. For
  `convert_to_number` the first match of `[-+]?[0-9]*\.?[0-9]+` is modelled
  exactly. Unknown kinds leave the value unchanged.
- **the quality gate** (`is_extraction_successful`). A record passes when
  `found / total >= success_threshold`. A value counts as found when it is not
  `None`, `""` or `"Not Found"`.
- **the acquisition fallback chain** (`scrape_with_multiple_methods` and
  `try_api_extraction`). It tries Selenium, then Requests (status 200 only),
  then the configured API. The first extraction that passes the gate is
  returned, or a truthy API body. Failing all of these, the last extraction
  that completed is returned, else `{}`.
- **the batch driver** (`bulk_scrape_urls`). The scraper object's `data` list
  receives one record per URL, stamped with `source_url` and `scraped_at`.
  A URL whose result cannot be stamped is skipped.
- **the command-line helpers**:
  - the default runtime config;
  - its shallow merge with the loaded config;
  - the URL list built from `--url` and `--url-file`.

Python values are modelled as `Values.Value`. A Python exception is the
`Raised` case of `Wrappers.Result`. The libraries the code calls are parameters
of the model, given as uninterpreted function fields of `Oracles.Page` and
`Oracles.Engine`:

- BeautifulSoup lookups;
- the Selenium element search;
- `re.search` / `re.sub`;
- `float()`.

What the browser, the HTTP client and the API answer for a URL is an
`Acquisition.Fetch` value. The timestamp of the i-th URL is `clock(i)`.

Behaviours of the code worth noting:

- **Regex transform without `pattern`.** Looking up the missing `pattern`
  raises `KeyError` before the `try`. The failure therefore escapes the whole
  extraction instead of returning the untransformed value. Within the chain
  that method then counts as failed.
- **The API method.** It is attempted whenever the key `api_endpoint` is
  present, not only when a `url` is configured. Without a truthy `url` it
  yields `{}`, which is falsy, so the chain falls through.
- **Falsy transform results.** If a transform produces a falsy value, the
  field is recorded as `"Not Found"`. Examples: a count of zero (`0.0`), or a
  substitution that removes the whole value.
- **Whitespace-only `--url`.** It is truthy, so it contributes the empty string
  to the URL list.

## Model

| member | source | states |
|---|---|---|
| Text.StripStart | flexible_scraper.py:237 | where `lstrip` stops: every skipped character is strippable and the character it stops at is not |
| Text.StripEnd | flexible_scraper.py:237 | where `rstrip` stops: every dropped character is strippable and the last kept one is not |
| Text.Strip | flexible_scraper.py:237 | `str.strip`: a contiguous slice of the input whose two ends are not strippable; everything cut off on either side is strippable |
| Text.StripOccurs | flexible_scraper.py:237 | the stripped string occurs in the original where `lstrip` stops |
| Text.StripFixed | flexible_scraper.py:198 | a string whose first and last characters are not strippable is left unchanged |
| Text.StripIdempotent | flexible_scraper.py:237 | stripping twice gives the same result as stripping once |
| Text.IsSpace | flexible_scraper.py:237 | the characters for which `str.isspace()` holds, which a bare `strip()` removes |
| Text.DigitsEnd | flexible_scraper.py:240 | the greedy `[0-9]*` run: every character in the run is a digit and the character after it is not |
| Text.NumberStartsAt | flexible_scraper.py:240 | the numeric pattern matches at a position exactly when, after an optional sign, there is a digit, or a dot followed by a digit |
| Text.NumberEnd | flexible_scraper.py:240 | the greedy extent of a match: it is non-empty, ends on a digit that no digit follows, holds only digits with at most one dot (where the integer run ends), and when it holds no dot it is not followed by a dot and a digit |
| Text.FirstNumeralFrom | flexible_scraper.py:240-241 | scanning from position i finds nothing exactly when the pattern matches at no position from i on |
| Text.FirstNumeral | flexible_scraper.py:240-241 | `re.findall` of the numeric pattern is empty exactly when the pattern matches at no position |
| Text.FirstNumeralIsLeftmost | flexible_scraper.py:240-241 | the first element of `re.findall` is the match at the leftmost position where the pattern matches |
| Text.HalfNumeral | flexible_scraper.py:240 | "0.5" is read whole, not as the "0" before its dot |
| Text.NumeralFromIffDigit | flexible_scraper.py:240 | scanning from position i finds a numeral exactly when a digit occurs at or after i |
| Text.NumeralFromFindsDigit | flexible_scraper.py:240 | the numeral found from position i holds a digit and occurs in the string at or after i |
| Text.NumeralAtHasDigit | flexible_scraper.py:240 | every match of the numeric pattern contains a digit |
| Text.DigitStartsNumeral | flexible_scraper.py:240 | the numeric pattern matches at every digit |
| Text.NumeralExistsIffDigit | flexible_scraper.py:240-241 | `re.findall` of the numeric pattern is non-empty exactly when the string contains an ASCII digit; its first element contains a digit and occurs in the string |
| Transforms.ConvertToNumber | flexible_scraper.py:238-243 | the result is either the unchanged string or a number; a number comes from `float()` of the first numeral and implies a digit; when `float()` accepts the numeral, the value is kept exactly when it has no digit |
| Transforms.ApplyTransform | flexible_scraper.py:226-244 | raises exactly for a `regex` transform without `pattern`; a `regex` transform gives the substitution's output with `''` as the default replacement, or the value when the substitution raises; `strip_chars` gives `Strip` with `chars` or whitespace; `convert_to_number` gives `ConvertToNumber`; an absent or unknown `type` returns the value unchanged |
| Transforms.RegexFailureKeepsValue | flexible_scraper.py:228-234 | a substitution that raises leaves the value unchanged |
| Transforms.StripCharsTransform | flexible_scraper.py:235-237 | `strip_chars` gives a slice of the value whose ends are not in the strip set (whitespace when `chars` is absent), and is idempotent |
| Transforms.StripCharsIsStrip | flexible_scraper.py:235-237 | a `strip_chars` transform strips with `chars`, or with whitespace when `chars` is absent |
| Transforms.ScoreNumeral | flexible_scraper.py:240 | the first numeral of "Score: 87.5%" is "87.5" |
| Transforms.ConvertExamples | flexible_scraper.py:238-243 | "Score: 87.5%" converts to 87.5, and "N/A" is kept as it is |
| Transforms.ConvertZero | flexible_scraper.py:238-241 | a captured "0" converts to the number 0.0, which is falsy |
| Extraction.FirstHit | flexible_scraper.py:168-216 | a strategy loop gives a non-empty string, or nothing exactly when no entry of its list hits |
| Extraction.FirstHitIsFirst | flexible_scraper.py:173-174 | the first entry that hits decides the value, whatever the later entries would give |
| Extraction.SelectorStrategy | flexible_scraper.py:168-176 | the CSS loop, with its break, gives the first non-empty selected text |
| Extraction.XPathStrategy | flexible_scraper.py:180-189 | the XPath loop gives the first non-empty stripped element text |
| Extraction.PatternStrategy | flexible_scraper.py:193-203 | the pattern loop gives the first non-empty stripped capture group |
| Extraction.AttributeStrategy | flexible_scraper.py:207-216 | the attribute loop gives the first non-empty attribute value |
| Extraction.RawValue | flexible_scraper.py:165-216 | the value the cascade settles on is never the empty string |
| Extraction.FieldValue | flexible_scraper.py:165-222 | a recorded value is truthy or "Not Found", and is a string or a number; a raw hit without a transform is recorded as that string; with a transform, a raise propagates, a truthy result is recorded as it is, and a falsy one becomes "Not Found" |
| Extraction.Extract | flexible_scraper.py:162-224 | the record has exactly the configured field names, each holding that field's value; the extraction raises exactly when some field raises |
| Extraction.ExtractField | flexible_scraper.py:165-222 | the per-field loop body computes `FieldValue` |
| Extraction.ExtractWithConfig | flexible_scraper.py:162-224 | the loop over the field config computes `Extract` |
| Extraction.AllMissNotFound | flexible_scraper.py:218-222 | when no strategy hits, the field is recorded as "Not Found" whatever its transform |
| Extraction.EmptyFieldNotFound | flexible_scraper.py:168-222 | a field whose four strategy lists are all empty is always "Not Found" |
| Extraction.CssHitWins | flexible_scraper.py:168-192 | a CSS hit is the raw value, whatever XPath, the page text and the attributes would give |
| Extraction.XPathOnlyForSelenium | flexible_scraper.py:179 | on a Requests page the XPath lookup has no influence on the field |
| Extraction.XPathHitWins | flexible_scraper.py:179-192 | when CSS misses, an XPath hit on a Selenium page is the raw value, whatever the patterns and attributes would give |
| Extraction.PatternHitWins | flexible_scraper.py:192-206 | when CSS and XPath miss, a pattern hit is the raw value and the attributes are never consulted |
| Extraction.AttributeHitWins | flexible_scraper.py:206-216 | when CSS, XPath on a Selenium page, and the patterns all miss, the first attribute hit is the raw value |
| Extraction.UntransformedHitRecorded | flexible_scraper.py:218-222 | in an extracted record, a field without a transform holds its raw hit as a string |
| Extraction.FalsyTransformNotFound | flexible_scraper.py:219-222 | a transform that yields a falsy value records "Not Found" |
| Extraction.SinglePatternRaw | flexible_scraper.py:194-201 | a field with one pattern and no other strategy takes the stripped capture |
| Extraction.ZeroCaptureRaw | flexible_scraper.py:194-201 | a pattern that captures "0" gives the raw value "0" |
| Extraction.ZeroCountNotFound | flexible_scraper.py:219-222 | a count of zero passed through `convert_to_number` is recorded as "Not Found" |
| Extraction.EmptySubstitutionNotFound | flexible_scraper.py:228-232 | a substitution that deletes the whole value records "Not Found" |
| Extraction.ExtractRaisesOnlyOnPatternlessRegex | flexible_scraper.py:229 | without a patternless `regex` transform, extraction never raises |
| QualityGate.ThresholdOf | flexible_scraper.py:253 | an absent `success_threshold` means 0.5, and a numeric one is used as given |
| QualityGate.IsFound | flexible_scraper.py:252 | a value counts as found when it is not None, "" or "Not Found" |
| QualityGate.FoundKeys | flexible_scraper.py:252 | the found fields are exactly those whose value is not None, "" or "Not Found" |
| QualityGate.IsExtractionSuccessful | flexible_scraper.py:246-253 | an empty record is rejected; a non-empty record gets a verdict exactly when the threshold converts to a float |
| QualityGate.GateIff | flexible_scraper.py:253 | a non-empty record is accepted exactly when found >= threshold * total |
| QualityGate.DivAtLeastIff | flexible_scraper.py:253 | found / total >= t exactly when found >= t * total, for a positive total |
| QualityGate.FoundAtMostTotal | flexible_scraper.py:249-252 | the found count never exceeds the field count |
| QualityGate.NonPositiveThresholdAccepts | flexible_scraper.py:253 | with a threshold of at most zero, every non-empty record is accepted |
| QualityGate.MoreFoundStillAccepted | flexible_scraper.py:252-253 | over the same fields, more found values never turn an accept into a reject |
| QualityGate.FillingFieldStillAccepted | flexible_scraper.py:252-253 | replacing "Not Found" by a found value keeps an accepted record accepted |
| QualityGate.NothingFoundRejected | flexible_scraper.py:252-253 | a record with nothing found is rejected by any positive threshold |
| QualityGate.ExtractedFoundIffNotSentinel | flexible_scraper.py:222 | in an extracted record, a value counts as found exactly when it is not "Not Found" |
| Acquisition.TryApiExtraction | flexible_scraper.py:139-152 | with no endpoint, or an endpoint without a truthy `url`, the result is `{}`; an endpoint that is not a dict or a `method` that is not a string raises; once the request is made, a raising request raises and a JSON body is returned as it is |
| Acquisition.SeleniumAttempt | flexible_scraper.py:78-108 | the Selenium method completes exactly when the browser renders a page and its extraction does not raise; the record then has exactly the configured fields, each holding that field's value on the page |
| Acquisition.RequestsAttempt | flexible_scraper.py:112-123 | the Requests method completes exactly when the response has status 200 and its extraction does not raise; the record then has exactly the configured fields, each holding that field's value on the page |
| Acquisition.ApiAttempt | flexible_scraper.py:128-133 | the API is consulted only when `api_endpoint` is present; a result other than `{}` is the JSON body; once the request is made, a result exists exactly when the response gives JSON |
| Acquisition.ScrapeResult | flexible_scraper.py:74-137 | the chain's result is a dict, or a truthy API body; a non-empty dict without exactly the configured field names comes from the API |
| Acquisition.SeleniumAcceptedStops | flexible_scraper.py:105-108 | an accepted Selenium extraction is returned, and neither the HTTP nor the API answer can change the result |
| Acquisition.RequestsAcceptedStops | flexible_scraper.py:117-121 | an accepted Requests extraction, after Selenium was not accepted, is returned, and no API answer can change the result |
| Acquisition.Non200IsFailure | flexible_scraper.py:117-123 | a response whose status is not 200 leads to the same result as a request that raised |
| Acquisition.BestEffortResult | flexible_scraper.py:75-137 | when nothing is accepted, the result is the Requests extraction, else the Selenium extraction, else `{}` |
| Acquisition.AllFailedGivesEmpty | flexible_scraper.py:74-137 | when every method raises, the result is `{}` |
| Acquisition.ApiTruthyReturned | flexible_scraper.py:128-133 | a truthy API body is returned as it is, without passing through the gate |
| Acquisition.NoEndpointNoApi | flexible_scraper.py:128 | without `api_endpoint`, the API answer has no influence and the result is a dict |
| Acquisition.ResultShape | flexible_scraper.py:74-137 | the chain never raises; its result is a dict, or a truthy API JSON body |
| Scraper.Stamp | flexible_scraper.py:296-297 | the stamped record has the URL and the time added, both overwrite any existing key of that name, and every other key is kept |
| Scraper.RecordFor | flexible_scraper.py:292-298 | a URL contributes at most one record, exactly when its result is a dict, and that record holds the URL and its time |
| Scraper.Collected | flexible_scraper.py:291-298 | the records of the first n URLs: those of the first n - 1 followed by the n-th URL's contribution |
| Scraper.BatchOrderAndStamps | flexible_scraper.py:290-301 | the new records follow URL order, one for each URL whose result is a dict, each stamped with that URL and its own time |
| Scraper.KeptInOrder | flexible_scraper.py:291-298 | the kept positions are below n, strictly increasing, and are exactly the positions whose result is a dict |
| Scraper.CollectedFollowsKept | flexible_scraper.py:291-298 | there is one record per kept position, and the j-th record is the stamped dict of the j-th kept position |
| Scraper.BatchCount | flexible_scraper.py:290-301 | the number of new records is the number of URLs minus the number skipped |
| Scraper.NoEndpointNoSkips | flexible_scraper.py:293-298 | without an API endpoint, every URL contributes exactly one record |
| Scraper.BatchStep | flexible_scraper.py:291-298 | one iteration of the batch loop extends the collected records by exactly that URL's contribution |
| Scraper.FlexibleWebScraper.constructor | flexible_scraper.py:29-34 | the scraper starts with the loaded config and no data |
| Scraper.FlexibleWebScraper.ScrapeWithMultipleMethods | flexible_scraper.py:74-137 | the method, with its early returns, computes the fallback chain's result |
| Scraper.FlexibleWebScraper.BulkScrapeUrls | flexible_scraper.py:290-301 | `data` becomes its old value followed by the records collected for the URL list, and nothing else changes |
| Cli.DefaultConfig | flexible_scraper.py:316-329 | the defaults have exactly the keys `success_threshold` (0.5), `politeness_delay_seconds` (2), `selenium` (with `headless`, `save_screenshots`, `sleep_after_load`, `wait_seconds`) and `debug` (`save_html` false) |
| Cli.DefaultConfigFacts | flexible_scraper.py:316-329 | the defaults have exactly four keys, a threshold of 0.5 and no API endpoint |
| Cli.MergeConfig | flexible_scraper.py:428 | the merge has the keys of both configs; the user's value wins for every key it has, and the default is used for every other key |
| Cli.NestedDictReplacedWhole | flexible_scraper.py:428 | a user `selenium` dict replaces the default one whole, so nested defaults are not merged in |
| Cli.MergedSettings | flexible_scraper.py:428 | after the merge the threshold is the user's when given and 0.5 otherwise; an API endpoint is present exactly when the user configured one |
| UrlList.UrlArgPart | flexible_scraper.py:433-434 | a non-empty `--url` contributes exactly one URL, its stripped form; otherwise it contributes nothing |
| UrlList.FileUrls | flexible_scraper.py:437 | the file gives at most one URL per line, and none of them is empty |
| UrlList.StripAll | flexible_scraper.py:437 | every line is stripped, and positions are kept |
| UrlList.MapSeq | flexible_scraper.py:437 | the function is applied to every element, and positions are kept |
| UrlList.MapSeqAppend | flexible_scraper.py:437 | mapping distributes over concatenation |
| UrlList.NonBlank | flexible_scraper.py:437 | the filter keeps at most as many strings as it is given, and none of them is empty |
| UrlList.NonBlankMembers | flexible_scraper.py:437 | the filter keeps exactly the non-empty strings |
| UrlList.NonBlankAppend | flexible_scraper.py:437 | the filter distributes over concatenation, so order is kept |
| UrlList.FileUrlsMembers | flexible_scraper.py:437 | a URL is listed exactly when it is the non-empty stripped form of some line of the file |
| UrlList.FileUrlsClean | flexible_scraper.py:437 | every listed URL is non-empty and already stripped |
| UrlList.FileUrlsAppend | flexible_scraper.py:437 | the URLs of two consecutive chunks of lines are the URLs of the first chunk followed by those of the second |
| UrlList.FileUrlsEmptyIff | flexible_scraper.py:437-439 | the file contributes no URL exactly when every line is blank |
| UrlList.BuildUrlList | flexible_scraper.py:432-437 | the list is the `--url` part followed by the file's URLs; it is empty exactly when neither source contributes |

## Left out

- Browser and HTTP setup (`setup_selenium`, `setup_requests_session`), navigation, waits (including `wait_css_selectors`), settle sleeps, screenshots and the HTML debug dump are reduced to "the Selenium attempt raised or produced a page", as a `BrowserOutcome`.
- HTML parsing, CSS and XPath evaluation, `re.search`, `re.sub` and `float()` are external libraries. They are parameters of the model (`Oracles`), not implemented.
- `Transforms.ConvertToNumber`: the numeric pattern is modelled exactly, but the string-to-float conversion is the `toFloat` parameter.
- `QualityGate.IsExtractionSuccessful`: the division and the comparison are exact rationals, so the rounding of binary floating point is not modelled.
- Attribute values that BeautifulSoup returns as lists (multi-valued attributes such as `class`) are modelled as strings.
- Field configs whose shape `Extraction.FieldSpec` cannot represent are not modelled. The model also does not capture what the code does with them:
  - A `transform` that is not a dict (including `None`) makes `.get` raise (flexible_scraper.py:227). This is outside every `try`, so the exception escapes `extract_with_config`, and within the chain that method counts as failed.
  - A `strip_chars` transform whose `chars` is neither a string nor `None` makes `str.strip` raise (flexible_scraper.py:237). This escapes in the same way.
  - A strategy value that is not iterable (for example `None`) makes the `for` itself raise (flexible_scraper.py:168, 180, 194, 207). This is outside the per-entry `try`, so it escapes too.
  - A strategy value that is a string is iterated character by character, and each character is used as a selector, XPath or pattern.
  - A field entry that is not a dict makes `.get` raise and escape.
  - What the model does capture: an attribute entry that lacks `selector` or `attribute` raises inside the per-entry `try` (flexible_scraper.py:208-216) and counts as a miss, and the model treats it as one. A `pattern` or `replacement` that `re.sub` rejects is caught (flexible_scraper.py:231-234), and the model covers it as the substitution's failure. The missing `pattern` of a `regex` transform is modelled as a raise.
- Python dict order is not modelled: `Extract` is a map, and the order only decides which raising field raises first, not the outcome.
- `time.sleep` for the politeness delay: any exception it raises comes after the append and does not change `data`. The progress messages are output only.
- `load_config`, `load_field_config`, `parse_args`, `save_data`, `close`, `create_sample_field_config` and `add_new_fields_dynamically` are file I/O, argument parsing, output or fixed sample data, and are not modelled. The loaded config is an input of the constructor; the file's lines are an input of `UrlList.BuildUrlList`.
- The rest of `main` reads, writes and prints only (the message and early return on an empty URL list, saving, closing). Only the merge and the URL list are modelled from it.
