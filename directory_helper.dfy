/** util/directory_helper.py: a status-driven fetch that retries until a 200 arrives, and
    `scrape_redfin`, which reads the four fields of a page and adds the page's url. */
module DirectoryHelper {
  import opened Python
  import opened Extractor

  const DefaultRetries := 3

  /** One GET as `fetch_with_retry` sees it: a response with its status and text, or an
      exception from the client. */
  datatype Response = Response(status: int, body: string) | ClientError

  predicate IsOk(r: Response) {
    r.Response? && r.status == 200
  }

  /** What the loop returns (the text of the 200 response, or `None`) and how many
      requests it made. */
  datatype Fetch = Fetch(text: Option<string>, attempts: nat)

  /** The loop from request `k` with `retries` left: a 200 returns its text, a 202, any
      other status and an exception each use up one retry. */
  function RetryFrom(attempt: nat -> Response, k: nat, retries: int): (r: Fetch)
    ensures r.attempts <= (if retries > 0 then retries else 0)
    ensures r.text.Some? <==> exists i :: k <= i < k + retries && IsOk(attempt(i))
    ensures r.text.Some? ==>
      && r.attempts >= 1
      && IsOk(attempt(k + r.attempts - 1))
      && r.text.value == attempt(k + r.attempts - 1).body
      && forall i :: k <= i < k + r.attempts - 1 ==> !IsOk(attempt(i))
    ensures r.text.None? ==>
      r.attempts == (if retries > 0 then retries else 0)
    decreases retries
  {
    if retries <= 0 then Fetch(None, 0)
    else if IsOk(attempt(k)) then Fetch(Some(attempt(k).body), 1)
    else
      var rest := RetryFrom(attempt, k + 1, retries - 1);
      Fetch(rest.text, rest.attempts + 1)
  }

  /** `fetch_with_retry(url, headers, retries)`; `attempt(i)` is the answer to the
      `i`-th request. */
  method FetchWithRetry(attempt: nat -> Response, retries: int) returns (text: Option<string>, attempts: nat)
    ensures Fetch(text, attempts) == RetryFrom(attempt, 0, retries)
  {
    var left := retries;
    attempts := 0;
    while left > 0
      invariant left == retries - attempts
      invariant RetryFrom(attempt, attempts, left).text == RetryFrom(attempt, 0, retries).text
      invariant attempts + RetryFrom(attempt, attempts, left).attempts == RetryFrom(attempt, 0, retries).attempts
    {
      var response := attempt(attempts);
      if response.Response? && response.status == 200 {
        text := Some(response.body);
        attempts := attempts + 1;
        return;
      }
      left := left - 1;
      attempts := attempts + 1;
    }
    text := None;
  }

  /** A scraped page: the four fields and the url they came from. */
  datatype Scraped = Scraped(url: string, details: Details)

  /** The body of `scrape_redfin` after the fetch: no text (or empty text) gives "Error"
      in every field; otherwise the four lookups of `ParseDetails`, whose AttributeError
      propagates, so `PresentFieldValue` and `MissingContainerIncomplete` apply to a scrape too. */
  function ScrapeFromText(url: string, html: Option<string>, parse: string -> Page): (r: Result<Scraped>)
    ensures r.Ok? ==> r.value.url == url
    ensures html.None? || html == Some("") ==> r == Ok(Scraped(url, AllError))
    ensures r.Raised? <==> html.Some? && html.value != "" && LacksStatsValue(parse(html.value))
    ensures html.Some? && html.value != "" && r.Ok? ==> r.value.details == ParseDetails(parse(html.value)).value
  {
    if html.None? || html.value == "" then Ok(Scraped(url, AllError))
    else match ParseDetails(parse(html.value))
      case Ok(d) => Ok(Scraped(url, d))
      case Raised(e) => Raised(e)
  }

  /** `scrape_redfin(url)`: fetch with the default three tries, then read the page. */
  method ScrapeRedfin(url: string, attempt: nat -> Response, parse: string -> Page) returns (r: Result<Scraped>)
    ensures r == ScrapeFromText(url, RetryFrom(attempt, 0, DefaultRetries).text, parse)
  {
    var html, _ := FetchWithRetry(attempt, DefaultRetries);
    if html.None? || html.value == "" {
      return Ok(Scraped(url, AllError));
    }
    var parsed := ParseDetails(parse(html.value));
    match parsed
    case Ok(d) => r := Ok(Scraped(url, d));
    case Raised(e) => r := Raised(e);
  }

  /** With `retries <= 0` nothing is requested and nothing is returned. */
  lemma NoRetriesNoRequest(attempt: nat -> Response, retries: int)
    requires retries <= 0
    ensures RetryFrom(attempt, 0, retries) == Fetch(None, 0)
  {
  }

  /** A scrape whose requests all fail reports "Error" in every field, with its url. */
  lemma ExhaustedScrapeIsError(url: string, attempt: nat -> Response, parse: string -> Page)
    requires forall i :: 0 <= i < DefaultRetries ==> !IsOk(attempt(i))
    ensures ScrapeFromText(url, RetryFrom(attempt, 0, DefaultRetries).text, parse) == Ok(Scraped(url, AllError))
  {
  }
}
