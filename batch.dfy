/** The batch orchestrator of util/user_util.py: `process_address` resolves one address and
    fetches its details through the cache; `process_in_batches` runs it over the input in
    chunks of fifty and keeps the input's order. */
module Batch {
  import opened Python
  import opened Resolver
  import opened Extractor
  import opened PropertyCache

  const BatchSize := 50

  /** An address of a batch request: its id and its four address fields. */
  datatype Listing = Listing(id: string, place: Address)

  /** One output record `{id, redfin_url, price, beds, baths, sqft}`. */
  datatype ResultRecord = ResultRecord(id: string, redfinUrl: string,
                                       price: string, beds: string, baths: string, sqft: string)

  function DetailsOf(r: ResultRecord): Details {
    Details(r.price, r.beds, r.baths, r.sqft)
  }

  /** What `process_address` returns for `a` when the cache agrees with the upstream. */
  function AddressResult(a: Listing, search: SearchUpstream, pages: PageUpstream): (r: ResultRecord)
    ensures r.id == a.id
    ensures r.redfinUrl == SearchRedfinProperty(FullAddress(a.place), search)
    ensures r.redfinUrl == NotFound ==> DetailsOf(r) == Details(NotFound, NotFound, NotFound, NotFound)
    ensures r.redfinUrl != NotFound ==> DetailsOf(r) == FetchSpec(r.redfinUrl, pages).details
  {
    var url := SearchRedfinProperty(FullAddress(a.place), search);
    if url == NotFound then ResultRecord(a.id, url, NotFound, NotFound, NotFound, NotFound)
    else
      var d := FetchSpec(url, pages).details;
      ResultRecord(a.id, url, d.price, d.beds, d.baths, d.sqft)
  }

  /** No record ever carries "Not Available": an address is either not found, or its
      details are complete, or all four are "Error". */
  lemma RecordNeverPartial(a: Listing, search: SearchUpstream, pages: PageUpstream)
    ensures var r := AddressResult(a, search, pages);
      r.redfinUrl == NotFound || IsDataAvailable(DetailsOf(r)) || DetailsOf(r) == AllError
    ensures var r := AddressResult(a, search, pages);
      NotAvailable !in [r.price, r.beds, r.baths, r.sqft]
  {
    var r := AddressResult(a, search, pages);
    if r.redfinUrl != NotFound {
      RetryAllOrNothing(Rounds(r.redfinUrl, pages), 0, MaxRounds);
    }
  }

  /** `process_address(address)`, reading and writing the cache. */
  method ProcessAddress(cache: DetailsCache, a: Listing, search: SearchUpstream, pages: PageUpstream)
    returns (r: ResultRecord)
    requires cache.Valid()
    modifies cache
    ensures cache.Valid()
    ensures r.id == a.id && r.redfinUrl == SearchRedfinProperty(FullAddress(a.place), search)
    ensures r.redfinUrl == NotFound ==>
      DetailsOf(r) == Details(NotFound, NotFound, NotFound, NotFound) && cache.entries == old(cache.entries)
    ensures r.redfinUrl != NotFound ==> CachedRecord(old(cache.entries), cache.entries, r, pages)
    ensures old(cache.AgreesWith(pages)) ==> cache.AgreesWith(pages) && r == AddressResult(a, search, pages)
  {
    var fullAddress := FullAddress(a.place);
    var url := SearchRedfinProperty(fullAddress, search);
    if url == NotFound {
      return ResultRecord(a.id, url, NotFound, NotFound, NotFound, NotFound);
    }
    r := FetchRecord(cache, a.id, url, pages);
  }

  /** The details of a record for a found url, and the cache after them: a cached url
      gives its stored details and leaves the cache as it was; an uncached one gives what
      the retry loop returns, stored only when complete. */
  ghost predicate CachedRecord(before: map<string, Details>, after: map<string, Details>,
                               r: ResultRecord, pages: PageUpstream)
  {
    if r.redfinUrl in before then
      DetailsOf(r) == before[r.redfinUrl] && after == before
    else
      && DetailsOf(r) == FetchSpec(r.redfinUrl, pages).details
      && after == if IsDataAvailable(DetailsOf(r)) then before[r.redfinUrl := DetailsOf(r)] else before
  }

  /** The part of `process_address` after a url is found: `fetch_property_details(url)`
      and the record built from its details. */
  method FetchRecord(cache: DetailsCache, id: string, url: string, pages: PageUpstream)
    returns (r: ResultRecord)
    requires cache.Valid()
    modifies cache
    ensures cache.Valid()
    ensures r.id == id && r.redfinUrl == url
    ensures CachedRecord(old(cache.entries), cache.entries, r, pages)
    ensures old(cache.AgreesWith(pages)) ==> cache.AgreesWith(pages) && DetailsOf(r) == FetchSpec(url, pages).details
  {
    var details, _ := cache.FetchPropertyDetails(url, false, pages);
    r := ResultRecord(id, url, details.price, details.beds, details.baths, details.sqft);
    assert DetailsOf(r) == details;
    if url !in old(cache.entries) {
      assert old(cache.entries) - {url} == old(cache.entries);
    }
  }

  /** `process_address` as a function of the address, for an agreeing cache. */
  function ResultFor(search: SearchUpstream, pages: PageUpstream): Listing -> ResultRecord {
    a => AddressResult(a, search, pages)
  }

  /** The url the resolver finds for an address. */
  function UrlFor(search: SearchUpstream): Listing -> string {
    (a: Listing) => SearchRedfinProperty(FullAddress(a.place), search)
  }

  /** The records of `results` answer the addresses of `addresses`, position by position:
      each carries its address's id and the url `urlOf` gives for it. */
  predicate Answers(results: seq<ResultRecord>, addresses: seq<Listing>, urlOf: Listing -> string) {
    && |results| == |addresses|
    && forall k :: 0 <= k < |results| ==>
         results[k].id == addresses[k].id && results[k].redfinUrl == urlOf(addresses[k])
  }

  /** Every entry of `before` is in `after` with the same details. */
  ghost predicate Keeps(before: map<string, Details>, after: map<string, Details>) {
    forall u | u in before :: u in after && after[u] == before[u]
  }

  /** The cache grew from `before` to `after` by the records `results`: every entry of
      `before` is kept as it was, and every new key is the url of one of the records. */
  ghost predicate GrewBy(before: map<string, Details>, after: map<string, Details>,
                         results: seq<ResultRecord>)
  {
    && Keeps(before, after)
    && (forall u | u in after && u !in before :: exists k :: 0 <= k < |results| && results[k].redfinUrl == u)
  }

  /** Every record of `results` with a found url and complete details has those details
      stored under its url. */
  ghost predicate Stored(entries: map<string, Details>, results: seq<ResultRecord>) {
    forall k | 0 <= k < |results| && results[k].redfinUrl != NotFound && IsDataAvailable(DetailsOf(results[k])) ::
      results[k].redfinUrl in entries && entries[results[k].redfinUrl] == DetailsOf(results[k])
  }

  /** Processing one more address keeps every stored record stored and stores the new one
      when it is found and complete. */
  lemma StoreStep(mid: map<string, Details>, after: map<string, Details>,
                  results: seq<ResultRecord>, r: ResultRecord)
    requires Stored(mid, results)
    requires after == mid || (r.redfinUrl !in mid && after == mid[r.redfinUrl := DetailsOf(r)])
    requires r.redfinUrl != NotFound && IsDataAvailable(DetailsOf(r)) ==>
      r.redfinUrl in after && after[r.redfinUrl] == DetailsOf(r)
    ensures Stored(after, results + [r])
  {
    var all := results + [r];
    forall k | 0 <= k < |all| && all[k].redfinUrl != NotFound && IsDataAvailable(DetailsOf(all[k]))
      ensures all[k].redfinUrl in after && after[all[k].redfinUrl] == DetailsOf(all[k])
    {
      if k < |results| {
        assert all[k] == results[k];
      }
    }
  }

  /** Records stored before a chunk stay stored when the chunk keeps the old entries. */
  lemma StoreAppend(mid: map<string, Details>, after: map<string, Details>,
                    results: seq<ResultRecord>, batchResults: seq<ResultRecord>)
    requires Stored(mid, results) && Keeps(mid, after) && Stored(after, batchResults)
    ensures Stored(after, results + batchResults)
  {
    var all := results + batchResults;
    forall k | 0 <= k < |all| && all[k].redfinUrl != NotFound && IsDataAvailable(DetailsOf(all[k]))
      ensures all[k].redfinUrl in after && after[all[k].redfinUrl] == DetailsOf(all[k])
    {
      if k < |results| {
        assert all[k] == results[k];
      } else {
        assert all[k] == batchResults[k - |results|];
      }
    }
  }

  /** Processing one more address keeps the cache growing only by the records' urls. */
  lemma GrowStep(before: map<string, Details>, mid: map<string, Details>, after: map<string, Details>,
                 results: seq<ResultRecord>, r: ResultRecord)
    requires GrewBy(before, mid, results)
    requires after == mid || (r.redfinUrl !in mid && after == mid[r.redfinUrl := DetailsOf(r)])
    ensures GrewBy(before, after, results + [r])
  {
    var all := results + [r];
    forall u | u in after && u !in before
      ensures exists k :: 0 <= k < |all| && all[k].redfinUrl == u
    {
      if u in mid {
        var k :| 0 <= k < |results| && results[k].redfinUrl == u;
        assert all[k] == results[k];
      } else {
        assert all[|results|] == r;
      }
    }
  }

  /** Growing by two runs of records is growing by both. */
  lemma GrowAppend(before: map<string, Details>, mid: map<string, Details>, after: map<string, Details>,
                   results: seq<ResultRecord>, batchResults: seq<ResultRecord>)
    requires GrewBy(before, mid, results) && GrewBy(mid, after, batchResults)
    ensures GrewBy(before, after, results + batchResults)
  {
    var all := results + batchResults;
    forall u | u in after && u !in before
      ensures exists k :: 0 <= k < |all| && all[k].redfinUrl == u
    {
      if u in mid {
        var k :| 0 <= k < |results| && results[k].redfinUrl == u;
        assert all[k] == results[k];
      } else {
        var k :| 0 <= k < |batchResults| && batchResults[k].redfinUrl == u;
        assert all[|results| + k] == batchResults[k];
      }
    }
  }

  /** The cache after one record for a found url is the cache before it, or that cache
      with the record's url newly added. */
  lemma CachedRecordGrows(before: map<string, Details>, after: map<string, Details>,
                          r: ResultRecord, pages: PageUpstream)
    requires CachedRecord(before, after, r, pages)
    ensures after == before || (r.redfinUrl !in before && after == before[r.redfinUrl := DetailsOf(r)])
    ensures IsDataAvailable(DetailsOf(r)) ==> r.redfinUrl in after && after[r.redfinUrl] == DetailsOf(r)
  {
  }

  /** One chunk: `asyncio.gather` over `process_address`, collected in input order. */
  method ProcessChunk(cache: DetailsCache, batch: seq<Listing>, search: SearchUpstream,
                      pages: PageUpstream)
    returns (batchResults: seq<ResultRecord>)
    requires cache.Valid()
    modifies cache
    ensures cache.Valid()
    ensures Answers(batchResults, batch, UrlFor(search))
    ensures GrewBy(old(cache.entries), cache.entries, batchResults)
    ensures Stored(cache.entries, batchResults)
    ensures old(cache.AgreesWith(pages)) ==>
      cache.AgreesWith(pages) && batchResults == Map(ResultFor(search, pages), batch)
  {
    ghost var agreed := cache.AgreesWith(pages);
    batchResults := [];
    for j := 0 to |batch|
      invariant cache.Valid()
      invariant Answers(batchResults, batch[..j], UrlFor(search))
      invariant GrewBy(old(cache.entries), cache.entries, batchResults)
      invariant Stored(cache.entries, batchResults)
      invariant agreed ==> cache.AgreesWith(pages) && batchResults == Map(ResultFor(search, pages), batch[..j])
    {
      ghost var mid := cache.entries;
      var r := ProcessAddress(cache, batch[j], search, pages);
      if r.redfinUrl != NotFound {
        CachedRecordGrows(mid, cache.entries, r, pages);
      }
      GrowStep(old(cache.entries), mid, cache.entries, batchResults, r);
      StoreStep(mid, cache.entries, batchResults, r);
      AnswerStep(batch, j, batchResults, r, UrlFor(search));
      if agreed {
        RecordStep(ResultFor(search, pages), batch, j, batchResults, r);
      }
      batchResults := batchResults + [r];
    }
    assert batch[..|batch|] == batch;
  }

  /** Appending the record of `batch[j]` to those of `batch[..j]` answers `batch[..j + 1]`. */
  lemma AnswerStep(batch: seq<Listing>, j: nat, batchResults: seq<ResultRecord>, r: ResultRecord,
                   urlOf: Listing -> string)
    requires j < |batch| && Answers(batchResults, batch[..j], urlOf)
    requires r.id == batch[j].id && r.redfinUrl == urlOf(batch[j])
    ensures Answers(batchResults + [r], batch[..j + 1], urlOf)
  {
    var all, done := batchResults + [r], batch[..j + 1];
    forall k | 0 <= k < |all|
      ensures all[k].id == done[k].id && all[k].redfinUrl == urlOf(done[k])
    {
      if k < j {
        assert all[k] == batchResults[k] && done[k] == batch[..j][k];
      } else {
        assert all[k] == r && done[k] == batch[j];
      }
    }
  }

  /** Appending `f` of `batch[j]` to `f` mapped over `batch[..j]` gives `f` mapped over
      `batch[..j + 1]`. */
  lemma RecordStep(f: Listing -> ResultRecord, batch: seq<Listing>, j: nat,
                   batchResults: seq<ResultRecord>, r: ResultRecord)
    requires j < |batch| && batchResults == Map(f, batch[..j]) && r == f(batch[j])
    ensures batchResults + [r] == Map(f, batch[..j + 1])
  {
    assert batch[..j + 1][..j] == batch[..j];
  }

  /** Appending the records of the chunk `addresses[i..end]` to those of `addresses[..i]`
      gives the records of `addresses[..end]`, ids aligned and, when both parts are
      `f` of their addresses, all of them `f` of theirs. */
  lemma ChunkStep(f: Listing -> ResultRecord, addresses: seq<Listing>, i: nat, end: nat,
                  results: seq<ResultRecord>, batchResults: seq<ResultRecord>,
                  urlOf: Listing -> string)
    requires i <= end <= |addresses|
    requires Answers(results, addresses[..i], urlOf) && Answers(batchResults, addresses[i..end], urlOf)
    ensures Answers(results + batchResults, addresses[..end], urlOf)
    ensures results == Map(f, addresses[..i]) && batchResults == Map(f, addresses[i..end]) ==>
      results + batchResults == Map(f, addresses[..end])
  {
    var all, done, batch := results + batchResults, addresses[..i], addresses[i..end];
    assert done + batch == addresses[..end];
    forall k | 0 <= k < |all|
      ensures all[k].id == addresses[..end][k].id && all[k].redfinUrl == urlOf(addresses[..end][k])
    {
      if k < |results| {
        assert all[k] == results[k] && addresses[..end][k] == done[k];
      } else {
        assert all[k] == batchResults[k - |results|] && addresses[..end][k] == batch[k - |results|];
      }
    }
    MapAppend(f, done, batch);
  }

  /** `process_in_batches(addresses)`: chunks of fifty, each processed and appended in turn. */
  method ProcessInBatches(cache: DetailsCache, addresses: seq<Listing>, search: SearchUpstream,
                          pages: PageUpstream)
    returns (results: seq<ResultRecord>)
    requires cache.Valid()
    modifies cache
    ensures cache.Valid()
    ensures Answers(results, addresses, UrlFor(search))
    ensures GrewBy(old(cache.entries), cache.entries, results)
    ensures Stored(cache.entries, results)
    ensures old(cache.AgreesWith(pages)) ==>
      && cache.AgreesWith(pages)
      && forall k :: 0 <= k < |addresses| ==> results[k] == AddressResult(addresses[k], search, pages)
  {
    ghost var agreed := cache.AgreesWith(pages);
    results := [];
    var i := 0;
    while i < |addresses|
      invariant i <= |addresses|
      invariant cache.Valid()
      invariant Answers(results, addresses[..i], UrlFor(search))
      invariant GrewBy(old(cache.entries), cache.entries, results)
      invariant Stored(cache.entries, results)
      invariant agreed ==> cache.AgreesWith(pages) && results == Map(ResultFor(search, pages), addresses[..i])
    {
      // The chunk `addresses[i : i + 50]`; the next chunk starts where this one ends.
      var end := if i + BatchSize < |addresses| then i + BatchSize else |addresses|;
      var batch := addresses[i..end];
      ghost var mid := cache.entries;
      var batchResults := ProcessChunk(cache, batch, search, pages);
      GrowAppend(old(cache.entries), mid, cache.entries, results, batchResults);
      StoreAppend(mid, cache.entries, results, batchResults);
      ChunkStep(ResultFor(search, pages), addresses, i, end, results, batchResults, UrlFor(search));
      results := results + batchResults;
      i := end;
    }
    assert addresses[..|addresses|] == addresses;
    if agreed {
      forall k | 0 <= k < |addresses| ensures results[k] == AddressResult(addresses[k], search, pages) {
        MapAt(ResultFor(search, pages), addresses, k);
      }
    }
  }
}
