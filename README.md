# Redfin address pipeline — a Dafny model

This project models the property-lookup pipeline of the hms-backend service:

- **The resolver** (`search_redfin_property`; copies in util/user_util.py, util/redifinProperty.py
  and api/api_v1/endpoints/user.py). It turns "address, city, state zip" into a search url with
  every space written `%20`, and removes a leading `{}&&` guard from the reply. It then walks
  `payload.sections[].rows[]` and returns `https://www.redfin.com` plus the first row's `url`.
  Anything else, including every exception, gives the sentinel: "Not Found", or `None` in the
  CSV script.
- **The extractor.** Four independent lookups on a property page keyed by `data-rf-test-id`. An
  absent container gives "Not Available". Price, beds and baths read the container's
  `statsValue` descendant; sqft reads the container's own text.
- **`fetch_property_details`.** It works over the process-wide cache (a dict with optional
  invalidation) and runs up to three fetch-and-parse rounds. It stores a result only when no
  field is "Not Available", "Error" or empty; when every round fails it returns four "Error"
  fields.
- **The drivers.** `process_address` / `process_in_batches` (chunks of fifty, order kept), the
  status-driven `fetch_with_retry` and `scrape_redfin` of util/directory_helper.py, the two
  URL endpoints, and the CSV script's row loop.

Modules, one per concern:

| file | module | models |
|---|---|---|
| python.dfy | `Python` | `None`/value, the exceptions raised inside the `try` blocks, a fetch outcome |
| text.dfy | `Text` | `startswith`, substring `in`, `replace(" ", "%20")`, `str.strip()` |
| json.dfy | `Json` | the value `json.loads` returns; Python truthiness, `in`, `[...]`, `str()` on it |
| resolver.dfy | `Resolver` | the three copies of `search_redfin_property` |
| extractor.dfy | `Extractor` | the four field lookups and `is_data_available` |
| property_cache.dfy | `PropertyCache` | the global `cache` and `fetch_property_details` |
| batch.dfy | `Batch` | `process_address`, `process_in_batches` |
| directory_helper.dfy | `DirectoryHelper` | `fetch_with_retry`, `scrape_redfin` |
| url_endpoints.dfy | `UrlEndpoints` | `get_redfin_urls`, `get_redfin_url_single` |
| redfin_csv.dfy | `RedfinCsv` | the row loop of the CSV script's `main` |

The network and the parsers are parameters:

- The search service is a pair of functions: what a GET of a url yields, and what
  `json.loads` makes of a text (`None` when it raises).
- The detail pages are likewise two functions: the outcome of the `k`-th fetch of a url within
  one `fetch_property_details` call, and what BeautifulSoup makes of a text. The latter is a map
  from test-id to the first container carrying it, with that container's text and the text of
  its first `statsValue` descendant, if any.
- `fetch_with_retry` in util/directory_helper.py takes the response of each attempt as a
  function of the attempt's index.

Python's own semantics are written out where the resolver depends on them:

- `x in v` is a key test on a dict, an element test on a list and a substring test on a
  string, and raises TypeError on a number, a bool or `None`.
- `v[key]` raises KeyError on a dict without the key and TypeError on anything else.
- Iterating a string yields its characters.
- Iterating a dict yields its keys. For a non-empty dict the outcome does not depend on the keys'
  order, so the model needs none.

The cache is a class whose `entries` map the methods update. It keeps two invariants:

- `Valid()`: every stored result is complete.
- `AgreesWith(up)`: every stored result is what a fresh fetch from the same upstream would
  return. While the upstream stays the same, a cache hit is therefore indistinguishable from a
  fetch. This is what makes the batch result at position `i` a function of input `i` alone.

## Model

| member | source | states |
|---|---|---|
| Json.Contains | util/user_util.py:134-137 | `key in v` raises exactly on a number, bool or `None`; on a dict it is the key test |
| Json.StrReadsBack | util/user_util.py:138 | the f-string puts a string url in as it is, and an integer url as its canonical decimal numeral (`Json.Str`, `Json.NatText`): minus sign exactly when negative, digits only, no leading zero unless zero, reading back as the same integer |
| Json.Subscript | util/user_util.py:134-138 | `v[key]` succeeds exactly on a dict holding the key and yields its value; KeyError on a dict, TypeError otherwise |
| Text.StripPrefix | util/user_util.py:130-131 | when the text starts with the guard the result is the text after it (guard + result == text); otherwise the text is unchanged |
| Text.StripPrefixOnce | util/user_util.py:130-131 | the guard is removed once: `{}&&` followed by t gives t, even when t itself starts with `{}&&` |
| Text.EncodeSpaces | util/user_util.py:121 | the encoded address holds no space, and an address without spaces is left as it is |
| Text.DecodeEncodeSpaces | util/user_util.py:121 | reading `%20` back as a space recovers the address, when the address has no `%` of its own |
| Text.LeadingSpaces | util/user_util.py:71 | counts exactly the whitespace characters at the start |
| Text.TrailingSpaces | util/user_util.py:71 | counts exactly the whitespace characters at the end |
| Text.Strip | util/user_util.py:71 | `strip()` never lengthens, and its result neither starts nor ends with whitespace |
| Text.StripPadded | util/user_util.py:69-91 | a value surrounded by whitespace strips to exactly that value |
| Text.StripIdempotent | util/user_util.py:69-91 | stripping a stripped value changes nothing |
| Text.IsSubstringAt | util/user_util.py:137 | the substring test holds exactly when the needle occurs at some index |
| Resolver.Iterate | util/user_util.py:135-136 | `for x in v` succeeds exactly on a list or a string |
| Resolver.ScanItem | util/user_util.py:137-138 | a row stops the walk with a url exactly when it is a dict with a `url` key, and the url is that key's value |
| Resolver.ScanRowsOf | util/user_util.py:136-137 | `for item in section["rows"]`: a list scans its rows; a string's one-character items never hold "url", so it yields nothing; a number, bool or `None` raises TypeError; only a list can yield a url |
| Resolver.CharRowsMiss | util/user_util.py:136-137 | rows that are one-character strings never stop the walk |
| Resolver.ScanSectionsOf | util/user_util.py:135-136 | `for section in ...["sections"]`: a list scans its sections; a non-empty string raises TypeError on `"x"["rows"]`; a number, bool or `None` raises TypeError; only a list can yield a url; the walk raises only TypeError or KeyError |
| Resolver.FindUrl | util/user_util.py:134-139 | falsy data (`Json.Truthy`) gives no url; a truthy number or bool raises TypeError; a dict without `payload` gives no url; a dict `payload` leads to its `sections`, or to no url without them; a non-dict payload never yields a url |
| Resolver.ResolveParsed | util/user_util.py:132-139 | JSONDecodeError exactly when `json.loads` fails: the walk itself never raises it |
| Resolver.Resolve | util/user_util.py:127-139 | the `try` block: FetchError exactly when the fetch fails, JSONDecodeError exactly when the guard-stripped text does not parse, and a url only from a fetched, parsed reply |
| Resolver.GuardStrippedBeforeParsing | util/user_util.py:127-132 | the parser sees the reply without its `{}&&` guard, and a reply without the guard as it is |
| Resolver.SearchUrlCarriesAddress | util/user_util.py:121-122 | the search url (`Resolver.SearchUrl`) starts with the autocomplete endpoint; its `location` part has no space and decodes back to the address (the copies at util/redifinProperty.py:10-11 and api/api_v1/endpoints/user.py:32-33 build the same url) |
| Resolver.SearchRedfinProperty | util/user_util.py:120-142 | "Not Found" exactly when the search (`Resolver.Search`: fetch of the search url, then the `try` block) does not hit a url; otherwise the host followed by the url found; never raises (the endpoint's copy at api/api_v1/endpoints/user.py:28-58 is the same function of the search outcome) |
| Resolver.SearchRedfinPropertyOrNone | util/redifinProperty.py:6-40 | `None` exactly when the search does not hit; otherwise a non-empty url starting with the host |
| Resolver.SentinelCopiesAgree | util/redifinProperty.py:32-40 | the `None` copy and the "Not Found" copies return the same url, with `None` where the others say "Not Found" |
| Resolver.ScanRowsFirst | util/user_util.py:136-138 | the inner loop (`Resolver.ScanRows`): if row j has a `url` and every row before it is a dict without one, row j's url is returned, whatever the rows after it are (they are never read) |
| Resolver.ScanRowsNone | util/user_util.py:136-139 | dict rows without a `url` yield nothing |
| Resolver.FirstUrlInOrder | util/user_util.py:134-138 | the two loops (`Resolver.ScanSections` over `Resolver.ScanSection`): when row j of section i is the first row carrying a `url` in section/row order (`Resolver.FirstUrlAt`: the earlier sections well-formed and without a url, the earlier rows of section i dicts without one), its url is returned; later rows and sections are unconstrained |
| Resolver.EarlyStopExample | util/user_util.py:135-138 | the return is at the first hit: a malformed row after it and a section without `rows` after it do not raise |
| Resolver.NoUrlNoHit | util/user_util.py:134-139 | `Resolver.ScanSections` over well-formed sections with no `url` row yields nothing |
| Resolver.MissingRowsRaises | util/user_util.py:135-136 | a section without `rows`, met before any url, raises KeyError, whatever later sections hold |
| Resolver.ResolvesFirstUrl | util/user_util.py:127-138 | end to end: a reply parsing to a payload whose sections have their first url at (i, j) (`Resolver.FirstUrlAt`) returns the host plus that url; nothing after the hit is constrained |
| Resolver.NotFoundCases | util/user_util.py:127-142 | end to end: a failed fetch, unparsable text or a payload without url rows gives "Not Found", nothing propagates |
| Extractor.StatsField | util/user_util.py:69-74 | absent container: "Not Available"; present without `statsValue`: AttributeError; otherwise the stripped child text |
| Extractor.TextField | util/user_util.py:87-91 | an absent sqft container gives "Not Available", a present one its own stripped text |
| Extractor.ParseDetails | util/user_util.py:69-91 | the parse raises exactly when a price/beds/baths container lacks `statsValue`; otherwise each absent container's field is "Not Available" (`scrape_redfin` performs the same four lookups at util/directory_helper.py:68-93) |
| Extractor.DataAvailableIff | util/user_util.py:56-59 | `is_data_available` (`Extractor.IsDataAvailable`, `Extractor.IsValidValue`) holds exactly when no value of the details is "Not Available", "Error" or empty |
| Extractor.FieldsIndependent | util/user_util.py:69-91 | each field depends on its own container only |
| Extractor.PresentFieldValue | util/user_util.py:69-91 | a present container's field is the stripped `statsValue` text for price, beds and baths, and the container's own text for sqft |
| Extractor.MissingContainerIncomplete | util/user_util.py:56-59 | a page missing any of the four containers never passes `is_data_available` |
| Extractor.AllErrorIncomplete | util/user_util.py:113-118 | the all-"Error" result fails `is_data_available`, so it is never cached |
| PropertyCache.RetryFrom | util/user_util.py:61-118 | the retry loop runs at most as many rounds as it has retries, and at least one |
| PropertyCache.RetrySucceedsIff | util/user_util.py:61-96 | the loop returns complete details exactly when one of its rounds succeeds |
| PropertyCache.RetryTakesFirstSuccess | util/user_util.py:62-96 | it returns the first successful round's details, after exactly that many rounds |
| PropertyCache.RetryExhausted | util/user_util.py:105-118 | when no round succeeds all three rounds are spent and the result is four "Error" fields |
| PropertyCache.RetryAllOrNothing | util/user_util.py:61-118 | the result is complete or all "Error", never a partial record |
| PropertyCache.IncompleteRoundRetries | util/user_util.py:64-106 | one pass of the loop body (`PropertyCache.RoundOutcome`, indexed by `PropertyCache.Rounds`: fetch, parse, four lookups) with a container missing, or a stats container lacking `statsValue`, does not return: it uses up a retry |
| PropertyCache.RunRounds | util/user_util.py:61-118 | the `while retries > 0` loop, for any round outcomes, returns exactly the details and round count `RetryFrom` gives from round 0 with three retries; `PropertyCache.FetchSpec` is that loop run on the rounds of `PropertyCache.RoundOutcome` |
| PropertyCache.DetailsCache.constructor | util/user_util.py:14 | the cache starts empty |
| PropertyCache.DetailsCache.FetchPropertyDetails | util/user_util.py:33-118 | a hit without invalidation returns the stored details, fetches nothing, changes nothing; otherwise the loop's result, stored iff complete, the url's entry dropped if not, other entries untouched, cache purity and agreement kept |
| Batch.AddressResult | util/user_util.py:156-178 | the record carries the input id and the resolver's url for "address, city, state zip" (`Resolver.FullAddress`); "Not Found" gives four "Not Found" fields, else the details a fetch returns |
| Batch.RecordNeverPartial | util/user_util.py:163-178 | no record carries "Not Available": it is not found, complete or all "Error" |
| Batch.ProcessAddress | util/user_util.py:156-178 | the record carries the input id and the resolver's url; "Not Found" gives four "Not Found" fields and leaves the cache as it was; a found url gives what `Batch.CachedRecord` says; with an agreeing cache the record is `AddressResult` of its input, and the cache stays pure and agreeing |
| Batch.FetchRecord | util/user_util.py:173-178 | after a url is found: a cached url gives its stored details with the cache unchanged; an uncached one gives the retry loop's details, added to the cache exactly when complete, every other entry kept |
| Batch.CachedRecordGrows | util/user_util.py:173-178 | a record for a found url leaves the cache as it was or adds exactly its own url, which was not there before; when its details are complete they are the ones stored under its url |
| Batch.ProcessChunk | util/user_util.py:149-151 | a chunk's results answer its addresses position by position (id and the resolver's url, `Batch.UrlFor`); every old cache entry is kept as it was and every new key is the url of one of the chunk's records; every found record with complete details has them stored under its url (`Batch.Stored`); with an agreeing cache the results are `AddressResult` mapped over the chunk, and the cache stays pure and agreeing |
| Batch.RecordStep | util/user_util.py:150-151 | appending `f` of the next address to `f` mapped over the addresses before it gives `f` mapped over the longer prefix |
| Batch.AnswerStep | util/user_util.py:150-151 | appending the next address's record, with its id and url, keeps the records answering the addresses position by position |
| Batch.GrowStep | util/user_util.py:150-151 | one more `process_address` keeps every old entry and adds only the new record's url |
| Batch.GrowAppend | util/user_util.py:151 | a cache grown by the records so far and then by a chunk's records has grown by all of them |
| Batch.StoreStep | util/user_util.py:150-151 | one more `process_address` keeps every earlier found, complete record stored and stores the new one when it is found and complete |
| Batch.StoreAppend | util/user_util.py:151 | records stored before a chunk stay stored when the chunk keeps every old entry, so the stored records of all chunks add up |
| Batch.ChunkStep | util/user_util.py:151 | extending the results by a chunk's results keeps ids and urls aligned with the input, and the map of a function over the prefix stays one over the longer prefix |
| Batch.ProcessInBatches | util/user_util.py:146-152 | one result per input, in input order, with its id and the resolver's url for it; every old cache entry kept as it was and every new key the url of one of the results; every found, complete result stored under its url (`Batch.Stored`); with an agreeing cache result i is `AddressResult` of input i |
| DirectoryHelper.RetryFrom | util/directory_helper.py:25-41 | at most `retries` requests; text exactly when some request in range answers 200, and then the first such 200's body; otherwise every retry is spent |
| DirectoryHelper.FetchWithRetry | util/directory_helper.py:25-41 | the loop returns the text and attempt count `RetryFrom` describes |
| DirectoryHelper.NoRetriesNoRequest | util/directory_helper.py:25-27 | with no retries nothing is requested and `None` is returned |
| DirectoryHelper.ScrapeFromText | util/directory_helper.py:53-96 | no text or empty text: four "Error" fields with the url; raises exactly when a stats container lacks `statsValue`; otherwise the fields are those `ParseDetails` reads from the page ("Not Available" per absent container, stripped `statsValue` text, sqft's own text); a result always carries the url |
| DirectoryHelper.ScrapeRedfin | util/directory_helper.py:43-96 | fetch with three tries, then read the page as `ScrapeFromText` says |
| DirectoryHelper.ExhaustedScrapeIsError | util/directory_helper.py:53-62 | when no request answers 200, the scrape reports "Error" in every field, with its url |
| UrlEndpoints.GetRedfinUrlSingle | api/api_v1/endpoints/user.py:83-101 | always a 200 reply echoing the request, whose `redfin_url` is `SearchRedfinProperty` of `Resolver.FullAddress` of the request: "Not Found" exactly when the search misses, else a url on the host |
| UrlEndpoints.GetRedfinUrls | api/api_v1/endpoints/user.py:61-81 | one record per request, in request order, each the single endpoint's record for that request |
| RedfinCsv.RowFor | util/redifinProperty.py:74-85 | the row echoes the address fields; its "Redfin URL" cell is what the "Not Found" copy of the resolver returns for `Resolver.FullAddress` of the entry |
| RedfinCsv.ResultRows | util/redifinProperty.py:73-85 | one row per address, in address order |

## Left out

- HTTP clients (httpx, requests, aiohttp), request headers and timeouts. A fetch is a parameter
  of the model.
- `raise_for_status` and tenacity's three attempts inside user_util's `fetch_with_retry`. They
  count as one fetch outcome, success or failure.
- Back-off timing, `asyncio.sleep` and `time.sleep`. Only the number of attempts is modelled.
- `asyncio.gather` concurrency within a chunk, and cache races between concurrent
  `process_address` calls. Each chunk is processed in order. The model shows that, under an
  agreeing cache, every record is independent of the cache, so the order does not matter.
- BeautifulSoup and `json.loads` themselves. They are parameters: a page is the map from test-id
  to its first container, and a parse is a JSON value or `None`.
- JSON floats. The JSON value has no floating-point case.
- Json.Str: `str()` of a JSON list or dict used as a row's `url` is rendered as the empty
  string, not as Python's `repr` text.
- PropertyCache.DetailsCache.FetchPropertyDetails: the upstream is indexed by the round number within one
  call, so two calls see the same pages for the same round. A page that changes between calls
  is outside the `AgreesWith` guarantee, although purity (`Valid`) still holds.
- Batch.ProcessAddress: the `except` branch of `process_address`, which returns id "test" and
  five "Error" fields, is not modelled. Nothing inside its `try` block can raise:
  - the resolver catches every exception;
  - `fetch_property_details` catches every exception inside its loop;
  - its other statements operate on values of known type.
- `None` among the values `is_data_available` rejects. Every field is a string, so it cannot
  occur.
- Logging and `print`, the CSV header and file writing, and the hardcoded address list of the
  CSV script's `main`.
- The `main` of util/directory_helper.py, `create_directory`, `create_document_directory` and
  `generate_file_name`. These are file-system and randomness helpers outside the pipeline.
- FastAPI routing, pydantic validation, `get_current_user` and `get_current_user_permission`.
- models/table.py, which declares a column and has no logic.
