/** The project file: what an export writes, the import decision procedure, and the names under which
    the project file and the PDF are offered for download. JSON encoding and decoding are foreign and
    appear as parameters. */
module Project {
  import opened Wrappers
  import opened Types

  /** A decoded project object. `client` and `items` are None when the object lacks them or holds a
      falsy value there (an empty items array is truthy, hence Some([])). */
  datatype ProjectRecord = ProjectRecord(
    client: Option<ClientDetails>,
    items: Option<seq<QuoteItem>>,
    discount: real,
    showDiscount: bool,
    gst: real,
    showGST: bool,
    advance: real,
    balance: real,
    subtotal: real,
    taxAmount: real,
    discountAmount: real,
    grandTotal: real)

  datatype ImportOutcome =
    | Imported(data: QuoteData)  // the whole record is replaced by this one
    | NotAProjectFile            // the content carries the PDF signature
    | Unreadable                 // decoding failed
    | InvalidStructure           // decoded, but `client` or `items` is missing

  /** The leading bytes of a PDF file. */
  predicate HasPdfSignature(content: string)
  {
    |content| >= 4 && content[..4] == "%PDF"
  }

  /** The record a project file holds: every field of the quotation. */
  function ExportRecord(d: QuoteData): (r: ProjectRecord)
    ensures r.client == Some(d.client) && r.items == Some(d.items)
  {
    ProjectRecord(Some(d.client), Some(d.items), d.discount, d.showDiscount, d.gst, d.showGST,
                  d.advance, d.balance, d.subtotal, d.taxAmount, d.discountAmount, d.grandTotal)
  }

  /** The quotation a decoded record with both required fields stands for. */
  function RecordData(r: ProjectRecord): (d: QuoteData)
    requires r.client.Some? && r.items.Some?
    ensures ExportRecord(d) == r
  {
    QuoteData(r.client.value, r.items.value, r.discount, r.showDiscount, r.gst, r.showGST, r.advance,
              r.balance, r.subtotal, r.taxAmount, r.discountAmount, r.grandTotal)
  }

  /** The import decision: the PDF signature first, then decoding, then the two required fields. */
  function Import(content: string, decode: string -> Option<ProjectRecord>): ImportOutcome
  {
    if HasPdfSignature(content) then NotAProjectFile
    else match decode(content)
      case None => Unreadable
      case Some(r) => if r.client.Some? && r.items.Some? then Imported(RecordData(r)) else InvalidStructure
  }

  /** Each outcome happens exactly under its condition, checked in the order the import handler checks them. */
  lemma ImportDecision(content: string, decode: string -> Option<ProjectRecord>)
    ensures Import(content, decode).NotAProjectFile? <==> HasPdfSignature(content)
    ensures Import(content, decode).Unreadable? <==> !HasPdfSignature(content) && decode(content).None?
    ensures Import(content, decode).InvalidStructure? <==>
      && !HasPdfSignature(content) && decode(content).Some?
      && (decode(content).value.client.None? || decode(content).value.items.None?)
    ensures Import(content, decode).Imported? <==>
      && !HasPdfSignature(content) && decode(content).Some?
      && decode(content).value.client.Some? && decode(content).value.items.Some?
    ensures Import(content, decode).Imported? ==>
      ExportRecord(Import(content, decode).data) == decode(content).value
  {
  }

  /** A PDF is rejected before any decoding: the outcome is the same whatever the decoder does. */
  lemma PdfRejectedBeforeDecoding(content: string, d1: string -> Option<ProjectRecord>,
                                  d2: string -> Option<ProjectRecord>)
    requires HasPdfSignature(content)
    ensures Import(content, d1) == Import(content, d2) == NotAProjectFile
  {
  }

  /** A project with no items is accepted. */
  lemma EmptyItemsAccepted(content: string, decode: string -> Option<ProjectRecord>, r: ProjectRecord)
    requires !HasPdfSignature(content) && decode(content) == Some(r)
    requires r.client.Some? && r.items == Some([])
    ensures Import(content, decode).Imported? && Import(content, decode).data.items == []
  {
  }

  /** Exporting then importing gives back the exported quotation, for any encoder and decoder that
      invert each other on it and an encoding that opens an object (as JSON of a record does). */
  lemma ExportImportRoundTrip(d: QuoteData, encode: QuoteData -> string,
                              decode: string -> Option<ProjectRecord>)
    requires decode(encode(d)) == Some(ExportRecord(d))
    requires |encode(d)| > 0 && encode(d)[0] == '{'
    ensures Import(encode(d), decode) == Imported(d)
  {
    if |encode(d)| >= 4 {
      assert encode(d)[..4][0] == encode(d)[0];
    }
  }

  /** The notice shown for each outcome. A decoding failure and a missing field share one notice:
      the structure check throws inside the same try block. */
  function ImportNotice(o: ImportOutcome): (r: string)
    ensures o.Unreadable? || o.InvalidStructure? ==> r == FailedNotice
    ensures o.Imported? ==> r == ImportedNotice
    ensures o.NotAProjectFile? ==> r == PdfNotice
  {
    match o
    case Imported(_) => ImportedNotice
    case NotAProjectFile => PdfNotice
    case _ => FailedNotice
  }

  const ImportedNotice := "Project imported successfully!"
  const PdfNotice :=
    "Error: You are trying to upload a PDF file. \n\nPlease upload the \".luxe\" project file that you saved earlier."
  const FailedNotice := "Failed to import project."

  /** `LuxeQuote_<name or "Project">_<quote number>.luxe`. */
  function ExportFileName(c: ClientDetails): (r: string)
    ensures |r| >= 16
    ensures r[..10] == "LuxeQuote_" && r[|r| - 5..] == ".luxe"
    ensures r[10..|r| - 5] == OrElse(c.name, "Project") + "_" + c.quoteNumber
  {
    "LuxeQuote_" + OrElse(c.name, "Project") + "_" + c.quoteNumber + ".luxe"
  }

  /** `Quotation_<name or "Client">_<quote number>.pdf`. */
  function PdfFileName(c: ClientDetails): (r: string)
    ensures |r| >= 15
    ensures r[..10] == "Quotation_" && r[|r| - 4..] == ".pdf"
    ensures r[10..|r| - 4] == OrElse(c.name, "Client") + "_" + c.quoteNumber
  {
    "Quotation_" + OrElse(c.name, "Client") + "_" + c.quoteNumber + ".pdf"
  }

  /** The project file carries the extension the import picker accepts; the PDF never does. */
  lemma FileNamesAreDistinguishable(c: ClientDetails, e: ClientDetails)
    ensures var x := ExportFileName(c); x[|x| - 5..] == ".luxe"
    ensures var p := PdfFileName(e); p[|p| - 5..] != ".luxe"
    ensures ExportFileName(c) != PdfFileName(e)
  {
    var x, p := ExportFileName(c), PdfFileName(e);
    assert p[|p| - 5..][1] == p[|p| - 4..][0] == '.';
    assert x[|x| - 5..][1] == 'l';
    assert x[|x| - 1] == 'e' && p[|p| - 1] == 'f';
  }
}
