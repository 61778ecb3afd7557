/** api/api_v1/endpoints/user.py: the two URL endpoints. Each echoes the request's four
    address fields and adds the Redfin URL found for "address, city, state zip". */
module UrlEndpoints {
  import opened Python
  import opened Text
  import opened Resolver

  /** An `AddressResponse`: the request's fields plus `redfin_url`. */
  datatype UrlRecord = UrlRecord(address: string, city: string, state: string, zip: string,
                                 redfinUrl: string)

  /** The reply of the single-address endpoint: the record with status 200, or the
      HTTPException with status 500 that its `except` branch would raise. */
  datatype Reply = Reply200(body: UrlRecord) | Reply500(detail: string)

  /** The record echoes the request it answers. */
  predicate Echoes(rec: UrlRecord, req: Address) {
    rec.address == req.address && rec.city == req.city && rec.state == req.state && rec.zip == req.zip
  }

  /** `get_redfin_url_single(address_data)`. Nothing in its `try` block raises (the lookup
      turns every failure into "Not Found"), so the reply is always a 200, and a missed
      lookup is reported as data, not as an error. */
  function GetRedfinUrlSingle(req: Address, search: SearchUpstream): (r: Reply)
    ensures r.Reply200? && Echoes(r.body, req)
    ensures r.body.redfinUrl == NotFound <==> !Search(FullAddress(req), search).Hit?
    ensures r.body.redfinUrl != NotFound ==> StartsWith(r.body.redfinUrl, Host)
    ensures r.body.redfinUrl == SearchRedfinProperty(FullAddress(req), search)
  {
    var redfinUrl := SearchRedfinProperty(FullAddress(req), search);
    Reply200(UrlRecord(req.address, req.city, req.state, req.zip, redfinUrl))
  }

  /** `get_redfin_urls(addresses)`: one record per request, in request order, each the
      record the single-address endpoint returns for that request. */
  method GetRedfinUrls(addresses: seq<Address>, search: SearchUpstream) returns (results: seq<UrlRecord>)
    ensures |results| == |addresses|
    ensures forall i :: 0 <= i < |addresses| ==> results[i] == GetRedfinUrlSingle(addresses[i], search).body
  {
    ghost var recordFor := (req: Address) => GetRedfinUrlSingle(req, search).body;
    results := [];
    for i := 0 to |addresses|
      invariant results == Map(recordFor, addresses[..i])
    {
      var entry := addresses[i];
      var redfinUrl := SearchRedfinProperty(FullAddress(entry), search);
      var rec := UrlRecord(entry.address, entry.city, entry.state, entry.zip, redfinUrl);
      assert rec == recordFor(entry);
      assert addresses[..i + 1][..i] == addresses[..i];
      results := results + [rec];
    }
    assert addresses[..|addresses|] == addresses;
    forall i | 0 <= i < |addresses| ensures results[i] == GetRedfinUrlSingle(addresses[i], search).body {
      MapAt(recordFor, addresses, i);
    }
  }
}
