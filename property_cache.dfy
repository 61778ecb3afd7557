/** `fetch_property_details` and the process-wide `cache` it reads and writes: up to three
    fetch-and-parse rounds, a round counting only when all four fields are available, and
    only such a result ever stored. */
module PropertyCache {
  import opened Python
  import opened Extractor

  const MaxRounds := 3

  /** The detail pages as `fetch_property_details` sees them: the outcome of its `k`-th
      fetch of a url (the three attempts of the retrying fetch helper count as one), and
      what BeautifulSoup makes of a text. */
  datatype PageUpstream = PageUpstream(fetch: (string, nat) -> FetchOutcome, html: string -> Page)

  /** One round of the loop body: fetch the page and parse the four fields. */
  function RoundOutcome(url: string, up: PageUpstream, k: nat): Result<Details> {
    match up.fetch(url, k)
    case FetchFailed => Raised(FetchError)
    case Fetched(text) => ParseDetails(up.html(text))
  }

  /** The rounds of one call, by index. */
  function Rounds(url: string, up: PageUpstream): nat -> Result<Details> {
    (k: nat) => RoundOutcome(url, up, k)
  }

  /** Round `k` returns: it raised nothing and all four fields are available. */
  predicate RoundSucceeds(round: nat -> Result<Details>, k: nat) {
    round(k).Ok? && IsDataAvailable(round(k).value)
  }

  /** What the loop returns and how many rounds it ran. */
  datatype Retried = Retried(details: Details, rounds: nat)

  /** The loop from round `k` with `retries` rounds left, `round(i)` being what round `i`
      parses. */
  function RetryFrom(round: nat -> Result<Details>, k: nat, retries: nat): (r: Retried)
    ensures r.rounds <= retries
    ensures retries > 0 ==> 1 <= r.rounds
    decreases retries
  {
    if retries == 0 then Retried(AllError, 0)
    else if RoundSucceeds(round, k) then Retried(round(k).value, 1)
    else
      var rest := RetryFrom(round, k + 1, retries - 1);
      Retried(rest.details, rest.rounds + 1)
  }

  /** The loop as the source starts it: three rounds from the first. */
  function FetchSpec(url: string, up: PageUpstream): Retried {
    RetryFrom(Rounds(url, up), 0, MaxRounds)
  }

  /** The loop returns a complete result exactly when one of its rounds succeeds. */
  lemma {:induction false} RetrySucceedsIff(round: nat -> Result<Details>, k: nat, retries: nat)
    ensures IsDataAvailable(RetryFrom(round, k, retries).details) <==>
      exists i :: k <= i < k + retries && RoundSucceeds(round, i)
    decreases retries
  {
    if retries == 0 {
      AllErrorIncomplete();
    } else if !RoundSucceeds(round, k) {
      RetrySucceedsIff(round, k + 1, retries - 1);
      if exists i :: k <= i < k + retries && RoundSucceeds(round, i) {
        var i :| k <= i < k + retries && RoundSucceeds(round, i);
        assert k + 1 <= i;
      }
    }
  }

  /** The loop returns the fields of its first successful round, after exactly that many rounds. */
  lemma {:induction false} RetryTakesFirstSuccess(round: nat -> Result<Details>, k: nat, retries: nat, i: nat)
    requires k <= i < k + retries && RoundSucceeds(round, i)
    requires forall j :: k <= j < i ==> !RoundSucceeds(round, j)
    ensures RetryFrom(round, k, retries) == Retried(round(i).value, i - k + 1)
    decreases retries
  {
    if i > k {
      RetryTakesFirstSuccess(round, k + 1, retries - 1, i);
    }
  }

  /** When no round succeeds, every round is spent and all four fields are "Error". */
  lemma {:induction false} RetryExhausted(round: nat -> Result<Details>, k: nat, retries: nat)
    requires forall j :: k <= j < k + retries ==> !RoundSucceeds(round, j)
    ensures RetryFrom(round, k, retries) == Retried(AllError, retries)
    decreases retries
  {
    if retries > 0 {
      RetryExhausted(round, k + 1, retries - 1);
    }
  }

  /** All or nothing: the loop's result is either complete or all "Error", never a partial
      record with "Not Available" in it. */
  lemma {:induction false} RetryAllOrNothing(round: nat -> Result<Details>, k: nat, retries: nat)
    ensures var d := RetryFrom(round, k, retries).details;
      IsDataAvailable(d) || d == AllError
    decreases retries
  {
    if retries > 0 && !RoundSucceeds(round, k) {
      RetryAllOrNothing(round, k + 1, retries - 1);
    }
  }

  /** A round whose page lacks one of the four containers, or holds a stats container
      without its `statsValue` child, does not return: it consumes a retry. */
  lemma IncompleteRoundRetries(url: string, up: PageUpstream, k: nat, testId: string)
    requires up.fetch(url, k).Fetched?
    requires var page := up.html(up.fetch(url, k).text);
      LacksStatsValue(page) || (testId in {PriceId, BedsId, BathsId, SqftId} && testId !in page)
    ensures !RoundSucceeds(Rounds(url, up), k)
  {
    var page := up.html(up.fetch(url, k).text);
    if !LacksStatsValue(page) {
      MissingContainerIncomplete(page, testId);
    }
  }

  /** The process-wide `cache`, url to details. */
  class DetailsCache {
    var entries: map<string, Details>

    /** Cache purity: every stored result passed `is_data_available`. */
    ghost predicate Valid()
      reads this
    {
      forall u | u in entries :: IsDataAvailable(entries[u])
    }

    /** Every stored result is what running the loop on `up` for its url yields; holds
        while the upstream stays the same. */
    ghost predicate AgreesWith(up: PageUpstream)
      reads this
    {
      forall u | u in entries :: entries[u] == FetchSpec(u, up).details
    }

    constructor ()
      ensures entries == map[] && Valid()
    {
      entries := map[];
    }

    /** `fetch_property_details(url, invalidate_cache)`; `rounds` is the number of
        fetch-and-parse rounds it ran. The source stores a complete result just before
        returning it from inside the loop; here the loop returns it and the store follows,
        with nothing in between. */
    method FetchPropertyDetails(url: string, invalidateCache: bool, up: PageUpstream)
      returns (details: Details, rounds: nat)
      requires Valid()
      modifies this
      ensures Valid()
      ensures rounds <= MaxRounds
      ensures !invalidateCache && url in old(entries) ==>
        details == old(entries)[url] && rounds == 0 && entries == old(entries)
      ensures invalidateCache || url !in old(entries) ==>
        details == FetchSpec(url, up).details && rounds == FetchSpec(url, up).rounds &&
        entries == if IsDataAvailable(details) then old(entries)[url := details]
                   else old(entries) - {url}
      ensures old(AgreesWith(up)) ==> AgreesWith(up) && details == FetchSpec(url, up).details
    {
      if invalidateCache && url in entries {
        entries := entries - {url};
      }
      if url in entries {
        return entries[url], 0;
      }
      assert entries == old(entries) - {url} by {
        if !(invalidateCache && url in old(entries)) {
          assert old(entries) - {url} == old(entries);
        }
      }
      details, rounds := RunRounds(Rounds(url, up));
      if IsDataAvailable(details) {
        entries := entries[url := details];
      }
    }
  }

  /** The `while retries > 0` loop of `fetch_property_details`, `round(i)` being what its
      round `i` fetches and parses: up to three rounds, ending at the first complete one,
      and four "Error" fields when none is. */
  method RunRounds(round: nat -> Result<Details>) returns (details: Details, rounds: nat)
    ensures Retried(details, rounds) == RetryFrom(round, 0, MaxRounds)
  {
    var retries := MaxRounds;
    rounds := 0;
    while retries > 0
      invariant 0 <= retries <= MaxRounds && rounds == MaxRounds - retries
      invariant RetryFrom(round, rounds, retries).details == RetryFrom(round, 0, MaxRounds).details
      invariant rounds + RetryFrom(round, rounds, retries).rounds == RetryFrom(round, 0, MaxRounds).rounds
    {
      var parsed := round(rounds);
      if parsed.Ok? && IsDataAvailable(parsed.value) {
        return parsed.value, rounds + 1;
      }
      retries := retries - 1;
      rounds := rounds + 1;
    }
    details := AllError;
  }
}
