/** util/redifinProperty.py, `main`: one CSV row per address, its "Redfin URL" cell the
    URL the lookup found or "Not Found". */
module RedfinCsv {
  import opened Python
  import opened Resolver

  /** One row written by the `DictWriter`: the columns "Address", "City", "State", "Zip"
      and "Redfin URL", in that order. */
  datatype CsvRow = CsvRow(address: string, city: string, state: string, zip: string, redfinUrl: string)

  /** The row for one address: the `None`-returning lookup, with a falsy result written as
      "Not Found". The cell is exactly what the endpoint's "Not Found"-returning copy of the
      lookup gives, so the two copies report the same URLs. */
  function RowFor(entry: Address, search: SearchUpstream): (r: CsvRow)
    ensures r.address == entry.address && r.city == entry.city && r.state == entry.state && r.zip == entry.zip
    ensures r.redfinUrl == SearchRedfinProperty(FullAddress(entry), search)
  {
    var redfinUrl := SearchRedfinPropertyOrNone(FullAddress(entry), search);
    SentinelCopiesAgree(FullAddress(entry), search);
    CsvRow(entry.address, entry.city, entry.state, entry.zip,
           if redfinUrl.Some? && redfinUrl.value != "" then redfinUrl.value else NotFound)
  }

  /** The loop of `main`: the rows in address order, one per address. */
  method ResultRows(addresses: seq<Address>, search: SearchUpstream) returns (rows: seq<CsvRow>)
    ensures |rows| == |addresses|
    ensures forall i :: 0 <= i < |addresses| ==> rows[i] == RowFor(addresses[i], search)
  {
    ghost var rowFor := (a: Address) => RowFor(a, search);
    rows := [];
    for i := 0 to |addresses|
      invariant rows == Map(rowFor, addresses[..i])
    {
      var entry := addresses[i];
      var redfinUrl := SearchRedfinPropertyOrNone(FullAddress(entry), search);
      var row := CsvRow(entry.address, entry.city, entry.state, entry.zip,
                        if redfinUrl.Some? && redfinUrl.value != "" then redfinUrl.value else NotFound);
      assert row == rowFor(entry);
      assert addresses[..i + 1][..i] == addresses[..i];
      rows := rows + [row];
    }
    assert addresses[..|addresses|] == addresses;
    forall i | 0 <= i < |addresses| ensures rows[i] == RowFor(addresses[i], search) {
      MapAt(rowFor, addresses, i);
    }
  }
}
