/** The resolver, `search_redfin_property`: an address becomes a search url, the search
    service's reply loses its `{}&&` guard, is parsed as JSON, and the first row of
    `payload.sections[].rows[]` that carries a `url` names the property page.  Every failure
    on the way becomes the sentinel ("Not Found", or `None` in the CSV script's copy). */
module Resolver {
  import opened Python
  import opened Text
  import opened Json

  const Host := "https://www.redfin.com"
  const SearchEndpoint := "https://www.redfin.com/stingray/do/location-autocomplete?location="
  const SearchSuffix := "&v=2"
  const JsonPrefix := "{}&&"
  const NotFound := "Not Found"

  /** The four address fields every caller of the resolver holds. */
  datatype Address = Address(address: string, city: string, state: string, zip: string)

  /** The search text `"<address>, <city>, <state> <zip>"`. */
  function FullAddress(a: Address): string {
    a.address + ", " + a.city + ", " + a.state + " " + a.zip
  }

  /** The search service as the resolver sees it: what a GET of a search url yields, and
      what `json.loads` makes of a text (`None` when it raises). */
  datatype SearchUpstream = SearchUpstream(fetch: string -> FetchOutcome, parse: string -> Option<Value>)

  /** Where the walk over the payload stopped: at a row's `url` value, at the end without
      one, or at an exception. */
  datatype Walk = Hit(url: Value) | Miss | Fault(exc: Exc)

  /** Python's `for x in v` over a list or a string (a string yields its one-character
      strings); numbers, bools and `None` are not iterable. Dicts are handled by each loop. */
  function Iterate(v: Value): (r: Result<seq<Value>>)
    requires !v.JObj?
    ensures r.Ok? <==> v.JArr? || v.JStr?
    ensures v.JStr? ==> |r.value| == |v.s| && forall i | 0 <= i < |v.s| :: r.value[i] == JStr([v.s[i]])
  {
    match v
    case JArr(xs) => Ok(xs)
    case JStr(s) => Ok(seq(|s|, i requires 0 <= i < |s| => JStr([s[i]])))
    case _ => Raised(TypeError)
  }

  /** The body of the inner loop for one row: `if "url" in item: return ...item['url']`. */
  function ScanItem(item: Value): (w: Walk)
    ensures w.Hit? <==> item.JObj? && "url" in item.fields
    ensures w.Hit? ==> w.url == item.fields["url"]
    ensures w.Fault? ==> w.exc == TypeError
  {
    match Contains(item, "url")
    case Raised(e) => Fault(e)
    case Ok(found) =>
      if !found then Miss
      else match Subscript(item, "url")
        case Ok(u) => Hit(u)
        case Raised(e) => Fault(e)
  }

  /** The inner loop over a list of rows: the first row that stops the walk. */
  function ScanRows(rows: seq<Value>): (w: Walk)
    ensures w.Fault? ==> w.exc == TypeError
  {
    if rows == [] then Miss
    else
      var w := ScanItem(rows[0]);
      if w.Miss? then ScanRows(rows[1..]) else w
  }

  /** `for item in section["rows"]`. A dict iterates over its string keys, and a key
      containing "url" raises on `key['url']`, whatever the order of the keys. */
  function ScanRowsOf(rows: Value): (w: Walk)
    ensures rows.JArr? ==> w == ScanRows(rows.items)
    ensures rows.JStr? ==> w == Miss
    ensures rows.JNull? || rows.JBool? || rows.JInt? ==> w == Fault(TypeError)
    ensures w.Hit? ==> rows.JArr?
    ensures w.Fault? ==> w.exc == TypeError
  {
    match rows
    case JObj(m) => if exists k | k in m :: IsSubstring("url", k) then Fault(TypeError) else Miss
    case _ =>
      match Iterate(rows)
      case Ok(xs) =>
        if rows.JStr? then CharRowsMiss(xs); ScanRows(xs) else ScanRows(xs)
      case Raised(e) => Fault(e)
  }

  /** Rows that are one-character strings never stop the walk: "url" is not a substring
      of a single character. */
  lemma {:induction false} CharRowsMiss(xs: seq<Value>)
    requires forall i | 0 <= i < |xs| :: xs[i].JStr? && |xs[i].s| == 1
    ensures ScanRows(xs) == Miss
  {
    if xs != [] {
      var c := xs[0].s;
      assert !IsSubstring("url", c) by {
        assert !StartsWith(c, "url") && !StartsWith(c[1..], "url");
      }
      CharRowsMiss(xs[1..]);
    }
  }

  /** One step of the outer loop: `section["rows"]`, then its rows. */
  function ScanSection(section: Value): (w: Walk)
    ensures w.Fault? ==> w.exc == TypeError || w.exc == KeyError
  {
    match Subscript(section, "rows")
    case Ok(rows) => ScanRowsOf(rows)
    case Raised(e) => Fault(e)
  }

  /** The outer loop over a list of sections: the first section that stops the walk. */
  function ScanSections(sections: seq<Value>): (w: Walk)
    ensures w.Fault? ==> w.exc == TypeError || w.exc == KeyError
  {
    if sections == [] then Miss
    else
      var w := ScanSection(sections[0]);
      if w.Miss? then ScanSections(sections[1..]) else w
  }

  /** `for section in data["payload"]["sections"]`. A non-empty dict yields a string key
      first, and a string's `["rows"]` raises. */
  function ScanSectionsOf(sections: Value): (w: Walk)
    ensures sections.JArr? ==> w == ScanSections(sections.items)
    ensures sections.JStr? ==> w == if sections.s == "" then Miss else Fault(TypeError)
    ensures sections.JNull? || sections.JBool? || sections.JInt? ==> w == Fault(TypeError)
    ensures w.Hit? ==> sections.JArr?
    ensures w.Fault? ==> w.exc == TypeError || w.exc == KeyError
  {
    match sections
    case JObj(m) => if m == map[] then Miss else Fault(TypeError)
    case _ =>
      match Iterate(sections)
      case Ok(xs) => ScanSections(xs)
      case Raised(e) => Fault(e)
  }

  /** `if data and "payload" in data and "sections" in data["payload"]:` and the loops. */
  function FindUrl(data: Value): (w: Walk)
    ensures !Truthy(data) ==> w == Miss
    ensures Truthy(data) && (data.JBool? || data.JInt?) ==> w == Fault(TypeError)
    ensures data.JObj? && "payload" !in data.fields ==> w == Miss
    ensures data.JObj? && "payload" in data.fields && data.fields["payload"].JObj? ==>
      w == if "sections" in data.fields["payload"].fields
           then ScanSectionsOf(data.fields["payload"].fields["sections"]) else Miss
    ensures data.JObj? && "payload" in data.fields && !data.fields["payload"].JObj? ==>
      w.Miss? || w == Fault(TypeError)
    ensures w.Fault? ==> w.exc == TypeError || w.exc == KeyError
  {
    if !Truthy(data) then Miss
    else match Contains(data, "payload")
      case Raised(e) => Fault(e)
      case Ok(hasPayload) =>
        if !hasPayload then Miss
        else match Subscript(data, "payload")
          case Raised(e) => Fault(e)
          case Ok(payload) =>
            match Contains(payload, "sections")
            case Raised(e) => Fault(e)
            case Ok(hasSections) =>
              if !hasSections then Miss
              else match Subscript(payload, "sections")
                case Raised(e) => Fault(e)
                case Ok(sections) => ScanSectionsOf(sections)
  }

  /** The walk after `json.loads`; a parse failure is a JSONDecodeError. */
  function ResolveParsed(parsed: Option<Value>): (w: Walk)
    ensures w == Fault(JsonDecodeError) <==> parsed.None?
  {
    match parsed
    case None => Fault(JsonDecodeError)
    case Some(data) => FindUrl(data)
  }

  /** The whole `try` block: fetch, strip the `{}&&` guard, parse, walk. */
  function Resolve(reply: FetchOutcome, parse: string -> Option<Value>): (w: Walk)
    ensures w == Fault(FetchError) <==> reply.FetchFailed?
    ensures w == Fault(JsonDecodeError) <==>
      reply.Fetched? && parse(StripPrefix(reply.text, JsonPrefix)).None?
    ensures w.Hit? ==> reply.Fetched? && parse(StripPrefix(reply.text, JsonPrefix)).Some?
  {
    match reply
    case FetchFailed => Fault(FetchError)
    case Fetched(raw) => ResolveParsed(parse(StripPrefix(raw, JsonPrefix)))
  }

  /** The parser sees the reply without its guard, and a reply without the guard as it is. */
  lemma GuardStrippedBeforeParsing(t: string, parse: string -> Option<Value>)
    ensures Resolve(Fetched(JsonPrefix + t), parse) == ResolveParsed(parse(t))
    ensures !StartsWith(t, JsonPrefix) ==> Resolve(Fetched(t), parse) == ResolveParsed(parse(t))
  {
    StripPrefixOnce(JsonPrefix, t);
  }

  /** The search url: the address with every space written `%20`, between the endpoint and `&v=2`. */
  function SearchUrl(fullAddress: string): string {
    SearchEndpoint + EncodeSpaces(fullAddress) + SearchSuffix
  }

  /** The `location` parameter of the search url holds no space, and it reads back as the
      address when the address has no `%` of its own. */
  lemma SearchUrlCarriesAddress(fullAddress: string)
    ensures var u := SearchUrl(fullAddress);
      StartsWith(u, SearchEndpoint) && |SearchEndpoint| + |SearchSuffix| <= |u| &&
      ' ' !in u[|SearchEndpoint|..|u| - |SearchSuffix|] &&
      ('%' !in fullAddress ==> DecodeSpaces(u[|SearchEndpoint|..|u| - |SearchSuffix|]) == fullAddress)
  {
    var u := SearchUrl(fullAddress);
    assert u[|SearchEndpoint|..|u| - |SearchSuffix|] == EncodeSpaces(fullAddress);
    if '%' !in fullAddress {
      DecodeEncodeSpaces(fullAddress);
    }
  }

  /** The outcome of searching for an address. */
  function Search(fullAddress: string, up: SearchUpstream): Walk {
    Resolve(up.fetch(SearchUrl(fullAddress)), up.parse)
  }

  /** `search_redfin_property` of util/user_util.py and of the API endpoints: the absolute
      url of the first row found, and "Not Found" for every other outcome. */
  function SearchRedfinProperty(fullAddress: string, up: SearchUpstream): (r: string)
    ensures r == NotFound <==> !Search(fullAddress, up).Hit?
    ensures r != NotFound ==> StartsWith(r, Host) && r == Host + Str(Search(fullAddress, up).url)
  {
    match Search(fullAddress, up)
    case Hit(u) =>
      assert (Host + Str(u))[0] != NotFound[0];
      Host + Str(u)
    case _ => NotFound
  }

  /** `search_redfin_property` of util/redifinProperty.py: the same url, or `None`. */
  function SearchRedfinPropertyOrNone(fullAddress: string, up: SearchUpstream): (r: Option<string>)
    ensures r.Some? <==> Search(fullAddress, up).Hit?
    ensures r.Some? ==> StartsWith(r.value, Host) && r.value != ""
  {
    match Search(fullAddress, up)
    case Hit(u) => Some(Host + Str(u))
    case _ => None
  }

  /** The two sentinel copies of the resolver agree: `None` stands exactly where the
      others return "Not Found". */
  lemma SentinelCopiesAgree(fullAddress: string, up: SearchUpstream)
    ensures SearchRedfinProperty(fullAddress, up) ==
      match SearchRedfinPropertyOrNone(fullAddress, up)
      case Some(u) => u
      case None => NotFound
  {
  }

  // ---- The payload as the search service sends it -----------------------------------

  /** A dict whose `rows` is a list. */
  predicate HasRows(v: Value) {
    v.JObj? && "rows" in v.fields && v.fields["rows"].JArr?
  }

  /** A section as the service sends it: a dict whose `rows` is a list of dicts. */
  predicate IsSection(v: Value) {
    HasRows(v) && forall k :: 0 <= k < |v.fields["rows"].items| ==> v.fields["rows"].items[k].JObj?
  }

  /** The rows of a section; a value without a `rows` list has none. */
  function RowsOf(section: Value): seq<Value> {
    if HasRows(section) then section.fields["rows"].items else []
  }

  predicate HasUrl(row: Value) {
    row.JObj? && "url" in row.fields
  }

  /** A payload `{"payload": {"sections": sections, ...}, ...}`. */
  predicate CarriesSections(data: Value, sections: seq<Value>) {
    data.JObj? && "payload" in data.fields &&
    data.fields["payload"].JObj? && "sections" in data.fields["payload"].fields &&
    data.fields["payload"].fields["sections"] == JArr(sections)
  }

  /** The inner loop returns at the first row with a `url`; rows after it are never read. */
  lemma {:induction false} ScanRowsFirst(rows: seq<Value>, j: nat)
    requires j < |rows| && HasUrl(rows[j])
    requires forall k :: 0 <= k < j ==> rows[k].JObj? && !HasUrl(rows[k])
    ensures ScanRows(rows) == Hit(rows[j].fields["url"])
  {
    if j > 0 {
      ScanRowsFirst(rows[1..], j - 1);
    }
  }

  lemma {:induction false} ScanRowsNone(rows: seq<Value>)
    requires forall k :: 0 <= k < |rows| ==> rows[k].JObj? && !HasUrl(rows[k])
    ensures ScanRows(rows) == Miss
  {
    if rows != [] {
      ScanRowsNone(rows[1..]);
    }
  }

  /** Sections and rows are visited in order, and the walk stops at the first row, in
      section-then-row order, that carries a `url`: the sections before it are read in
      full, its own section up to that row, and nothing after it is read. */
  predicate FirstUrlAt(sections: seq<Value>, i: nat, j: nat) {
    && i < |sections|
    && (forall k :: 0 <= k < i ==> IsSection(sections[k]))
    && (forall k, j2 :: 0 <= k < i && 0 <= j2 < |RowsOf(sections[k])| ==> !HasUrl(RowsOf(sections[k])[j2]))
    && HasRows(sections[i])
    && j < |RowsOf(sections[i])| && HasUrl(RowsOf(sections[i])[j])
    && (forall j2 :: 0 <= j2 < j ==> RowsOf(sections[i])[j2].JObj? && !HasUrl(RowsOf(sections[i])[j2]))
  }

  /** The walk returns the url of the first url row, whatever follows it. */
  lemma {:induction false} FirstUrlInOrder(sections: seq<Value>, i: nat, j: nat)
    requires FirstUrlAt(sections, i, j)
    ensures ScanSections(sections) == Hit(RowsOf(sections[i])[j].fields["url"])
  {
    if i == 0 {
      ScanRowsFirst(RowsOf(sections[0]), j);
    } else {
      ScanRowsNone(RowsOf(sections[0]));
      var rest := sections[1..];
      forall k | 0 <= k < i - 1 ensures IsSection(rest[k]) {
        assert rest[k] == sections[k + 1];
      }
      forall k, j2 | 0 <= k < i - 1 && 0 <= j2 < |RowsOf(rest[k])| ensures !HasUrl(RowsOf(rest[k])[j2]) {
        assert rest[k] == sections[k + 1];
      }
      assert rest[i - 1] == sections[i];
      FirstUrlInOrder(rest, i - 1, j);
    }
  }

  /** The early stop on a concrete payload: a url row followed by a number, then a section
      without `rows`; neither is read. */
  lemma EarlyStopExample()
    ensures var sections := [JObj(map["rows" := JArr([JObj(map["url" := JStr("/x")]), JInt(5)])]), JObj(map[])];
      ScanSections(sections) == Hit(JStr("/x"))
  {
    var sections := [JObj(map["rows" := JArr([JObj(map["url" := JStr("/x")]), JInt(5)])]), JObj(map[])];
    assert FirstUrlAt(sections, 0, 0);
    FirstUrlInOrder(sections, 0, 0);
  }

  /** A payload in which no row carries a `url` yields nothing. */
  lemma {:induction false} NoUrlNoHit(sections: seq<Value>)
    requires forall k :: 0 <= k < |sections| ==> IsSection(sections[k])
    requires forall i, j :: 0 <= i < |sections| && 0 <= j < |RowsOf(sections[i])| ==>
      !HasUrl(RowsOf(sections[i])[j])
    ensures ScanSections(sections) == Miss
  {
    if sections != [] {
      ScanRowsNone(RowsOf(sections[0]));
      var rest := sections[1..];
      forall i, j | 0 <= i < |rest| && 0 <= j < |RowsOf(rest[i])| ensures !HasUrl(RowsOf(rest[i])[j]) {
        assert rest[i] == sections[i + 1];
      }
      NoUrlNoHit(rest);
    }
  }

  /** A section without `rows` met before any url raises KeyError, so the search ends in
      the sentinel even if a later section holds a url. */
  lemma {:induction false} MissingRowsRaises(sections: seq<Value>, i: nat)
    requires i < |sections|
    requires forall k :: 0 <= k < i ==> IsSection(sections[k])
    requires forall k, j :: 0 <= k < i && 0 <= j < |RowsOf(sections[k])| ==> !HasUrl(RowsOf(sections[k])[j])
    requires sections[i].JObj? && "rows" !in sections[i].fields
    ensures ScanSections(sections) == Fault(KeyError)
  {
    if i > 0 {
      ScanRowsNone(RowsOf(sections[0]));
      var rest := sections[1..];
      forall k, j | 0 <= k < i - 1 && 0 <= j < |RowsOf(rest[k])| ensures !HasUrl(RowsOf(rest[k])[j]) {
        assert rest[k] == sections[k + 1];
      }
      MissingRowsRaises(rest, i - 1);
    }
  }

  /** End to end: when the reply parses to a payload whose first url row is row `j` of
      section `i`, the resolver returns the host followed by that row's url. */
  lemma ResolvesFirstUrl(fullAddress: string, up: SearchUpstream, data: Value,
                         sections: seq<Value>, i: nat, j: nat)
    requires up.fetch(SearchUrl(fullAddress)).Fetched?
    requires up.parse(StripPrefix(up.fetch(SearchUrl(fullAddress)).text, JsonPrefix)) == Some(data)
    requires CarriesSections(data, sections)
    requires FirstUrlAt(sections, i, j)
    ensures SearchRedfinProperty(fullAddress, up) == Host + Str(RowsOf(sections[i])[j].fields["url"])
  {
    FirstUrlInOrder(sections, i, j);
  }

  /** End to end: a fetch failure, unparsable text, or a payload without any url row all
      give "Not Found" and nothing propagates. */
  lemma NotFoundCases(fullAddress: string, up: SearchUpstream, sections: seq<Value>)
    requires var reply := up.fetch(SearchUrl(fullAddress));
      reply.FetchFailed? ||
      up.parse(StripPrefix(reply.text, JsonPrefix)).None? ||
      (CarriesSections(up.parse(StripPrefix(reply.text, JsonPrefix)).value, sections) &&
       (forall k :: 0 <= k < |sections| ==> IsSection(sections[k])) &&
       (forall i, j :: 0 <= i < |sections| && 0 <= j < |RowsOf(sections[i])| ==>
          !HasUrl(RowsOf(sections[i])[j])))
    ensures SearchRedfinProperty(fullAddress, up) == NotFound
  {
    var reply := up.fetch(SearchUrl(fullAddress));
    if !reply.FetchFailed? && !up.parse(StripPrefix(reply.text, JsonPrefix)).None? {
      NoUrlNoHit(sections);
    }
  }
}
