/** The quotation record: line items, client details and the aggregate with its derived totals. */
module Types {
  /** The five measuring units a line item may be priced in. */
  datatype Unit = Sqft | Rft | Nos | Set | Ls

  /** The spelling of a unit, as stored in a project file and shown in the document. */
  function UnitName(u: Unit): (r: string)
    ensures 2 <= |r| <= 4
  {
    match u
    case Sqft => "sqft"
    case Rft => "rft"
    case Nos => "nos"
    case Set => "set"
    case Ls => "ls"
  }

  /** Distinct units are spelled differently, so a spelling names exactly one unit. */
  lemma UnitNamesDistinct(u: Unit, v: Unit)
    ensures UnitName(u) == UnitName(v) <==> u == v
  {
  }

  /** JavaScript's `s || fallback` on strings: an empty string falls back. */
  function OrElse(s: string, fallback: string): (r: string)
    ensures s != "" ==> r == s
    ensures s == "" ==> r == fallback
  {
    if s != "" then s else fallback
  }

  /** One priced row. `total` is stored alongside quantity and rate. */
  datatype QuoteItem = QuoteItem(
    id: string,
    description: string,
    quantity: real,
    unit: Unit,
    rate: real,
    total: real)

  datatype ClientDetails = ClientDetails(
    name: string,
    address: string,
    phone: string,
    projectType: string,
    quoteDate: string,
    quoteNumber: string)

  /** The aggregate. The first seven fields are inputs; the last five are derived by the totals
      recompute (see module Totals). `discount` and `gst` are percentages. */
  datatype QuoteData = QuoteData(
    client: ClientDetails,
    items: seq<QuoteItem>,
    discount: real,
    showDiscount: bool,
    gst: real,
    showGST: bool,
    advance: real,
    balance: real,
    subtotal: real,
    taxAmount: real,
    discountAmount: real,
    grandTotal: real)
}
