/** The printable quotation: which lines, rows and blocks the document shows for a quotation, in
    what order and with what text. Styling is not modelled. */
module Preview {
  import opened Types
  import opened Decimal
  import opened Text
  import Company
  import Share

  /** A labelled value, such as `Quote No: INT-2025-042`. */
  datatype Field = Field(caption: string, value: string)

  /** A table cell and the number of columns it spans. */
  datatype Cell = Cell(content: Text, colSpan: nat)

  type Row = seq<Cell>

  /** The lines of the totals block, in the order the block lists them. */
  datatype SummaryKind = SubtotalLine | DiscountLine | GstLine | GrandTotalLine | AdvanceLine | BalanceLine

  datatype SummaryLine = SummaryLine(kind: SummaryKind, caption: Text, value: Text)

  /** An entry of a numbered list. */
  datatype ListItem = ListItem(ordinal: nat, text: string)

  datatype Document = Document(
    issuer: seq<string>,
    title: string,
    meta: seq<Field>,
    client: seq<string>,
    columns: seq<string>,
    rows: seq<Row>,
    summary: seq<SummaryLine>,
    terms: seq<ListItem>,
    bank: seq<Field>,
    disclaimer: string,
    signature: string)

  const Columns: seq<string> := ["S.No", "Description", "Qty", "Rate", "Amount"]

  const NoItems := "No items added yet"

  /** The header block on the left: the issuer's name, tagline, address, GSTIN and phone. */
  function IssuerLines(): (r: seq<string>)
    ensures |r| == 5 && r[0] == Company.Name && r[1] == Company.Tagline && r[2] == Company.Address
    ensures r[3] == "GST: " + Company.Gstin && r[4] == "Ph: " + Company.Phone
  {
    [Company.Name, Company.Tagline, Company.Address, "GST: " + Company.Gstin, "Ph: " + Company.Phone]
  }

  /** The header block on the right, under the title: the quote number and date as entered, and a
      fixed validity of 15 days. */
  function MetaFields(c: ClientDetails): (r: seq<Field>)
    ensures |r| == 3
    ensures r[0] == Field("Quote No:", c.quoteNumber) && r[1] == Field("Date:", c.quoteDate)
    ensures r[2] == Field("Valid Till:", "15 Days")
  {
    [Field("Quote No:", c.quoteNumber), Field("Date:", c.quoteDate), Field("Valid Till:", "15 Days")]
  }

  /** The client block: an empty field shows its placeholder, a filled one shows verbatim. */
  function ClientLines(c: ClientDetails): (r: seq<string>)
    ensures |r| == 4
    ensures r[0] == (if c.name == "" then "Client Name" else c.name)
    ensures r[1] == (if c.address == "" then "Site Address" else c.address)
    ensures r[2] == (if c.phone == "" then "Phone Number" else c.phone)
    ensures r[3] == "Project: " + (if c.projectType == "" then "Project Type" else c.projectType)
  {
    [OrElse(c.name, "Client Name"), OrElse(c.address, "Site Address"), OrElse(c.phone, "Phone Number"),
     "Project: " + OrElse(c.projectType, "Project Type")]
  }

  /** The table row of the item at position `index`. */
  function ItemRow(index: nat, item: QuoteItem): Row
  {
    [Cell([Lit(Digits(index + 1))], 1),
     Cell([Lit(item.description)], 1),
     Cell([Number(item.quantity), Lit(" "), Lit(UnitName(item.unit))], 1),
     Cell([Money(item.rate)], 1),
     Cell([Money(item.total)], 1)]
  }

  /** One row per item, in items order: serial number index + 1, description, "quantity unit", rate
      and total. */
  function ItemRows(items: seq<QuoteItem>): (r: seq<Row>)
    ensures |r| == |items|
    ensures forall i :: 0 <= i < |r| ==>
      && |r[i]| == 5
      && r[i][0].content == [Lit(Digits(i + 1))]
      && r[i][1].content == [Lit(items[i].description)]
      && r[i][2].content == [Number(items[i].quantity), Lit(" "), Lit(UnitName(items[i].unit))]
      && r[i][3].content == [Money(items[i].rate)]
      && r[i][4].content == [Money(items[i].total)]
  {
    seq(|items|, i requires 0 <= i < |items| => ItemRow(i, items[i]))
  }

  /** The single row shown in place of an empty table. */
  function EmptyRow(): Row
  {
    [Cell([Lit(NoItems)], |Columns|)]
  }

  function BodyRows(items: seq<QuoteItem>): seq<Row>
  {
    ItemRows(items) + (if items == [] then [EmptyRow()] else [])
  }

  /** The columns a row occupies. */
  function Span(row: Row): nat
  {
    if row == [] then 0 else row[0].colSpan + Span(row[1..])
  }

  /** Whether some line of the totals block is of kind `k`. */
  predicate HasLine(lines: seq<SummaryLine>, k: SummaryKind)
  {
    exists i :: 0 <= i < |lines| && lines[i].kind == k
  }

  function SubtotalLines(d: QuoteData): (r: seq<SummaryLine>)
    ensures forall k :: HasLine(r, k) <==> k == SubtotalLine
  {
    var r := [SummaryLine(SubtotalLine, [Lit("Subtotal")], [Money(d.subtotal)])];
    assert r[0].kind == SubtotalLine;
    r
  }

  /** The discount line, its amount prefixed with "-", only when shown and positive. */
  function DiscountLines(d: QuoteData): (r: seq<SummaryLine>)
    ensures forall k :: HasLine(r, k) <==> k == DiscountLine && d.showDiscount && d.discount > 0.0
    ensures forall i :: 0 <= i < |r| ==> r[i].value == [Lit("-"), Money(d.discountAmount)]
  {
    if d.showDiscount && d.discount > 0.0 then
      var r := [SummaryLine(DiscountLine, [Lit("Discount ("), Number(d.discount), Lit("%)")],
                            [Lit("-"), Money(d.discountAmount)])];
      assert r[0].kind == DiscountLine;
      r
    else []
  }

  /** The tax line, only when shown and positive. */
  function GstLines(d: QuoteData): (r: seq<SummaryLine>)
    ensures forall k :: HasLine(r, k) <==> k == GstLine && d.showGST && d.gst > 0.0
  {
    if d.showGST && d.gst > 0.0 then
      var r := [SummaryLine(GstLine, [Lit("GST ("), Number(d.gst), Lit("%)")], [Money(d.taxAmount)])];
      assert r[0].kind == GstLine;
      r
    else []
  }

  function GrandTotalLines(d: QuoteData): (r: seq<SummaryLine>)
    ensures forall k :: HasLine(r, k) <==> k == GrandTotalLine
  {
    var r := [SummaryLine(GrandTotalLine, [Lit("Grand Total")], [Money(d.grandTotal)])];
    assert r[0].kind == GrandTotalLine;
    r
  }

  /** The advance line when an advance was paid and, nested inside it, the balance line when the
      balance is not zero. */
  function AdvanceLines(d: QuoteData): (r: seq<SummaryLine>)
    ensures forall k :: HasLine(r, k) <==>
      (k == AdvanceLine && d.advance > 0.0) || (k == BalanceLine && d.advance > 0.0 && d.balance != 0.0)
    ensures |r| <= 2 && forall i :: 0 <= i < |r| ==> r[i].kind == (if i == 0 then AdvanceLine else BalanceLine)
  {
    if d.advance > 0.0 then
      var adv := [SummaryLine(AdvanceLine, [Lit("Advance Received")], [Money(d.advance)])];
      var bal := if d.balance != 0.0
        then [SummaryLine(BalanceLine, [Lit("Balance Due")], [Money(d.balance)])]
        else [];
      assert adv[0].kind == AdvanceLine;
      assert forall k :: HasLine(bal, k) <==> k == BalanceLine && d.balance != 0.0 by {
        if d.balance != 0.0 { assert bal[0].kind == BalanceLine; }
      }
      forall k ensures HasLine(adv + bal, k) <==> HasLine(adv, k) || HasLine(bal, k) {
        HasLineAppend(adv, bal, k);
      }
      assert forall i :: 0 <= i < |adv + bal| && i > 0 ==> (adv + bal)[i] == bal[i - 1];
      adv + bal
    else []
  }

  /** The totals block, in the order subtotal, discount, tax, grand total, advance, balance. */
  function SummaryLines(d: QuoteData): seq<SummaryLine>
  {
    SubtotalLines(d) + DiscountLines(d) + GstLines(d) + GrandTotalLines(d) + AdvanceLines(d)
  }

  lemma {:induction false} HasLineAppend(a: seq<SummaryLine>, b: seq<SummaryLine>, k: SummaryKind)
    ensures HasLine(a + b, k) <==> HasLine(a, k) || HasLine(b, k)
  {
    if HasLine(a + b, k) {
      var i :| 0 <= i < |a + b| && (a + b)[i].kind == k;
      if i >= |a| { assert b[i - |a|].kind == k; } else { assert a[i].kind == k; }
    }
    if HasLine(a, k) {
      var i :| 0 <= i < |a| && a[i].kind == k;
      assert (a + b)[i].kind == k;
    }
    if HasLine(b, k) {
      var i :| 0 <= i < |b| && b[i].kind == k;
      assert (a + b)[i + |a|].kind == k;
    }
  }

  /** The terms as a numbered list. */
  function TermList(terms: seq<string>): (r: seq<ListItem>)
    ensures |r| == |terms|
    ensures forall i :: 0 <= i < |r| ==> r[i].ordinal == i + 1 && r[i].text == terms[i]
  {
    seq(|terms|, i requires 0 <= i < |terms| => ListItem(i + 1, terms[i]))
  }

  /** The payment block: bank, account name and number, IFSC and the two payment handles. */
  function BankFields(): (r: seq<Field>)
    ensures |r| == 6
    ensures r[0] == Field("Bank:", Company.BankName) && r[1] == Field("A/c Name:", Company.AccountName)
    ensures r[2] == Field("A/c No:", Company.AccountNumber) && r[3] == Field("IFSC:", Company.Ifsc)
    ensures r[4] == Field("PhonePe:", Company.PhonePe) && r[5] == Field("G-Pay:", Company.GooglePay)
  {
    [Field("Bank:", Company.BankName), Field("A/c Name:", Company.AccountName),
     Field("A/c No:", Company.AccountNumber), Field("IFSC:", Company.Ifsc),
     Field("PhonePe:", Company.PhonePe), Field("G-Pay:", Company.GooglePay)]
  }

  /** The whole document for a quotation. */
  function Layout(d: QuoteData): Document
  {
    Document(IssuerLines(), "Quotation", MetaFields(d.client), ClientLines(d.client), Columns,
             BodyRows(d.items), SummaryLines(d), TermList(Company.Terms), BankFields(),
             "This is a computer generated quotation", "Authorized Signature")
  }

  /** Whether some row of the table is the empty-table row. */
  predicate ShowsNoItems(rows: seq<Row>)
  {
    exists i :: 0 <= i < |rows| && rows[i] == EmptyRow()
  }

  /** The table body has one row per item and nothing else when there are items, and exactly the
      empty-table row when there are none; every row spans the five header columns. */
  lemma BodyRowsShape(items: seq<QuoteItem>)
    ensures items == [] ==> BodyRows(items) == [EmptyRow()]
    ensures items != [] ==> BodyRows(items) == ItemRows(items)
    ensures ShowsNoItems(BodyRows(items)) <==> items == []
    ensures forall i :: 0 <= i < |BodyRows(items)| ==> Span(BodyRows(items)[i]) == |Columns|
  {
    var rows := BodyRows(items);
    if items == [] {
      assert rows == [EmptyRow()];
      assert rows[0] == EmptyRow();
      assert Span(EmptyRow()) == |Columns| by {
        assert EmptyRow()[1..] == [];
      }
    } else {
      assert rows == ItemRows(items);
      forall i | 0 <= i < |rows| ensures Span(rows[i]) == |Columns| && rows[i] != EmptyRow() {
        var row := rows[i];
        assert row == ItemRow(i, items[i]);
        assert row[4..][1..] == [];
        assert Span(row[4..]) == 1;
        assert row[3..][1..] == row[4..];
        assert Span(row[3..]) == 2;
        assert row[2..][1..] == row[3..];
        assert Span(row[2..]) == 3;
        assert row[1..][1..] == row[2..];
        assert Span(row[1..]) == 4;
      }
    }
  }

  /** Reading a serial-number cell back as a decimal numeral gives the item's position, counted
      from 1. */
  lemma SerialReadsBack(items: seq<QuoteItem>, i: nat)
    requires i < |items|
    ensures var cell := ItemRows(items)[i][0].content;
      cell[0].Lit? && AllDigits(cell[0].s) && Value(cell[0].s) == i + 1
  {
    ValueOfDigits(i + 1);
  }

  function SummaryRank(k: SummaryKind): nat
  {
    match k
    case SubtotalLine => 0
    case DiscountLine => 1
    case GstLine => 2
    case GrandTotalLine => 3
    case AdvanceLine => 4
    case BalanceLine => 5
  }

  /** The totals lines come in the order subtotal, discount, tax, grand total, advance, balance,
      none repeated. */
  lemma SummaryOrder(d: QuoteData)
    ensures var s := SummaryLines(d);
      forall i, j :: 0 <= i < j < |s| ==> SummaryRank(s[i].kind) < SummaryRank(s[j].kind)
  {
  }

  /** Which totals lines appear: subtotal and grand total always, discount exactly when shown with
      a positive percentage, tax likewise, the advance line exactly when an advance was paid, the
      balance line exactly when an advance was paid and the balance is not zero. */
  lemma SummaryPresence(d: QuoteData)
    ensures var s := SummaryLines(d);
      && HasLine(s, SubtotalLine) && HasLine(s, GrandTotalLine)
      && (HasLine(s, DiscountLine) <==> d.showDiscount && d.discount > 0.0)
      && (HasLine(s, GstLine) <==> d.showGST && d.gst > 0.0)
      && (HasLine(s, AdvanceLine) <==> d.advance > 0.0)
      && (HasLine(s, BalanceLine) <==> d.advance > 0.0 && d.balance != 0.0)
  {
    var sub, disc, gst, grand, adv := SubtotalLines(d), DiscountLines(d), GstLines(d), GrandTotalLines(d), AdvanceLines(d);
    forall k ensures HasLine(SummaryLines(d), k) <==>
      HasLine(sub, k) || HasLine(disc, k) || HasLine(gst, k) || HasLine(grand, k) || HasLine(adv, k)
    {
      HasLineAppend(sub + disc + gst + grand, adv, k);
      HasLineAppend(sub + disc + gst, grand, k);
      HasLineAppend(sub + disc, gst, k);
      HasLineAppend(sub, disc, k);
    }
  }

  /** The document lists every term of the conditions of business, numbered from 1, in their
      original order. */
  lemma TermsInOrder(d: QuoteData)
    ensures var t := Layout(d).terms;
      |t| == |Company.Terms| && forall i :: 0 <= i < |t| ==> t[i].ordinal == i + 1 && t[i].text == Company.Terms[i]
  {
  }

  /** The share text and the document disagree on when two lines appear: a shown discount of 0%
      is listed in the share text but not in the document, and a positive balance with no advance
      paid is listed in the share text but not in the document. */
  lemma ShareAndDocumentDiverge(d: QuoteData)
    ensures d.showDiscount && d.discount <= 0.0 ==>
      Share.HasPart(Share.ShareParts(d), Share.DiscountPart) && !HasLine(SummaryLines(d), DiscountLine)
    ensures d.advance <= 0.0 && d.balance > 0.0 ==>
      Share.HasPart(Share.ShareParts(d), Share.BalancePart) && !HasLine(SummaryLines(d), BalanceLine)
  {
    Share.SharePartsShape(d);
    SummaryPresence(d);
  }
}
