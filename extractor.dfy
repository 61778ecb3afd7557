/** The extractor: four independent lookups on a property page, each keyed by a
    `data-rf-test-id`, and the completeness test `is_data_available`. */
module Extractor {
  import opened Python
  import opened Text

  const PriceId := "abp-price"
  const BedsId := "abp-beds"
  const BathsId := "abp-baths"
  const SqftId := "abp-sqFt"

  const NotAvailable := "Not Available"
  const Error := "Error"

  /** The first `div` carrying a test-id: its text, and the text of its first descendant
      `div` of class `statsValue`, if it has one. */
  datatype Container = Container(text: string, statsValue: Option<string>)

  /** A parsed page, as the lookups see it: each test-id present in the page mapped to the
      first container carrying it. */
  type Page = map<string, Container>

  /** The four fields of a details dict. */
  datatype Details = Details(price: string, beds: string, baths: string, sqft: string)

  const AllError := Details(Error, Error, Error, Error)

  /** The field of `d` that the lookup for `testId` fills. */
  function FieldFor(d: Details, testId: string): string
    requires testId in {PriceId, BedsId, BathsId, SqftId}
  {
    if testId == PriceId then d.price
    else if testId == BedsId then d.beds
    else if testId == BathsId then d.baths
    else d.sqft
  }

  /** `find(test-id).find("statsValue").text.strip() if find(test-id) else "Not Available"`;
      the `.text` of a missing `statsValue` child raises AttributeError. */
  function StatsField(page: Page, testId: string): (r: Result<string>)
    ensures r.Raised? <==> testId in page && page[testId].statsValue.None?
    ensures r.Raised? ==> r.exc == AttributeError
    ensures testId !in page ==> r == Ok(NotAvailable)
    ensures testId in page && page[testId].statsValue.Some? ==> r == Ok(Strip(page[testId].statsValue.value))
  {
    if testId !in page then Ok(NotAvailable)
    else match page[testId].statsValue
      case Some(t) => Ok(Strip(t))
      case None => Raised(AttributeError)
  }

  /** `find(test-id).text.strip() if find(test-id) else "Not Available"`. */
  function TextField(page: Page, testId: string): (r: string)
    ensures testId !in page ==> r == NotAvailable
    ensures testId in page ==> r == Strip(page[testId].text)
  {
    if testId in page then Strip(page[testId].text) else NotAvailable
  }

  /** A stats container (price, beds, baths) is present without its `statsValue` child. */
  predicate LacksStatsValue(page: Page) {
    exists testId | testId in {PriceId, BedsId, BathsId} :: testId in page && page[testId].statsValue.None?
  }

  /** The four lookups in the order the source runs them; the first exception ends the parse. */
  function ParseDetails(page: Page): (r: Result<Details>)
    ensures r.Raised? <==> LacksStatsValue(page)
    ensures r.Raised? ==> r.exc == AttributeError
    ensures r.Ok? ==> forall testId | testId in {PriceId, BedsId, BathsId, SqftId} ::
      testId !in page ==> FieldFor(r.value, testId) == NotAvailable
  {
    match StatsField(page, PriceId)
    case Raised(e) => Raised(e)
    case Ok(price) =>
      match StatsField(page, BedsId)
      case Raised(e) => Raised(e)
      case Ok(beds) =>
        match StatsField(page, BathsId)
        case Raised(e) => Raised(e)
        case Ok(baths) => Ok(Details(price, beds, baths, TextField(page, SqftId)))
  }

  /** `is_data_available`: no field is "Not Available", "Error" or empty. (`None` cannot
      occur: every field is a string.) */
  predicate IsDataAvailable(d: Details) {
    IsValidValue(d.price) && IsValidValue(d.beds) && IsValidValue(d.baths) && IsValidValue(d.sqft)
  }

  /** A field value outside `invalid_values`. */
  predicate IsValidValue(v: string) {
    v != NotAvailable && v != Error && v != ""
  }

  /** `is_data_available` as the source writes it: no value of the dict is among the
      invalid values. */
  lemma DataAvailableIff(d: Details)
    ensures IsDataAvailable(d) <==>
      !exists v | v in [d.price, d.beds, d.baths, d.sqft] :: v in [NotAvailable, Error, ""]
  {
    var values, invalid := [d.price, d.beds, d.baths, d.sqft], [NotAvailable, Error, ""];
    forall v | v in values ensures IsValidValue(v) <==> v !in invalid {
      assert v in invalid <==> v == NotAvailable || v == Error || v == "";
    }
    assert d.price == values[0] && d.beds == values[1] && d.baths == values[2] && d.sqft == values[3];
  }

  /** Each field depends on its own container only: two pages that agree on one test-id
      give the same value for that field, whatever the other containers are. */
  lemma FieldsIndependent(p1: Page, p2: Page, testId: string)
    requires testId in {PriceId, BedsId, BathsId, SqftId}
    requires ParseDetails(p1).Ok? && ParseDetails(p2).Ok?
    requires (testId in p1) == (testId in p2)
    requires testId in p1 ==> p1[testId] == p2[testId]
    ensures FieldFor(ParseDetails(p1).value, testId) == FieldFor(ParseDetails(p2).value, testId)
  {
  }

  /** A present container's field is its stripped value: the `statsValue` child's text for
      price, beds and baths, the container's own text for sqft (its `statsValue` is ignored). */
  lemma PresentFieldValue(page: Page)
    requires ParseDetails(page).Ok?
    ensures var d := ParseDetails(page).value;
      (PriceId in page ==> d.price == Strip(page[PriceId].statsValue.value)) &&
      (BedsId in page ==> d.beds == Strip(page[BedsId].statsValue.value)) &&
      (BathsId in page ==> d.baths == Strip(page[BathsId].statsValue.value)) &&
      (SqftId in page ==> d.sqft == Strip(page[SqftId].text))
  {
  }

  /** A page missing any of the four containers never passes the completeness test. */
  lemma MissingContainerIncomplete(page: Page, testId: string)
    requires testId in {PriceId, BedsId, BathsId, SqftId} && testId !in page
    requires ParseDetails(page).Ok?
    ensures !IsDataAvailable(ParseDetails(page).value)
  {
    var d := ParseDetails(page).value;
    assert FieldFor(d, testId) == NotAvailable;
    assert FieldFor(d, testId) in [d.price, d.beds, d.baths, d.sqft];
  }

  /** The all-"Error" result is incomplete, so it is never cached. */
  lemma AllErrorIncomplete()
    ensures !IsDataAvailable(AllError)
  {
    assert AllError.price in [AllError.price, AllError.beds, AllError.baths, AllError.sqft];
  }
}
