/** The quote builder page: the quotation being edited, the item form, and the handlers that change
    them. Every handler that changes the items, a percentage, a show flag or the advance also runs
    the totals recompute, as the page's effect does after such a change; handlers that change only
    client details leave the derived totals as they were. */
module Generator {
  import opened Wrappers
  import opened Types
  import opened Totals
  import opened Items
  import opened Project
  import opened Pagination
  import Share

  /** The client fields the details form edits, each by its input's name. The quote number's input
      is read-only and the date has no input, so neither is a field here. */
  datatype ClientField = NameField | AddressField | PhoneField | ProjectTypeField

  function ClientValue(c: ClientDetails, f: ClientField): string
  {
    match f
    case NameField => c.name
    case AddressField => c.address
    case PhoneField => c.phone
    case ProjectTypeField => c.projectType
  }

  /** `{ ...client, [name]: value }`: the named field takes the value, every other field keeps its own. */
  function WithClientField(c: ClientDetails, f: ClientField, value: string): (r: ClientDetails)
    ensures forall g :: ClientValue(r, g) == if g == f then value else ClientValue(c, g)
    ensures r.quoteDate == c.quoteDate && r.quoteNumber == c.quoteNumber
  {
    match f
    case NameField => c.(name := value)
    case AddressField => c.(address := value)
    case PhoneField => c.(phone := value)
    case ProjectTypeField => c.(projectType := value)
  }

  /** A number input: an empty field reads as 0, anything else as the number entered. */
  function NumberInput(input: Option<real>): (r: real)
    ensures input.None? ==> r == 0.0
    ensures input.Some? ==> r == input.value
  {
    if input.None? then 0.0 else input.value
  }

  /** The discount input: empty reads as 0, and a number is clamped into [0, 100]. */
  function DiscountInput(input: Option<real>): (r: real)
    ensures 0.0 <= r <= 100.0
    ensures input.None? ==> r == 0.0
    ensures input.Some? && 0.0 <= input.value <= 100.0 ==> r == input.value
    ensures input.Some? && input.value < 0.0 ==> r == 0.0
    ensures input.Some? && input.value > 100.0 ==> r == 100.0
  {
    if input.None? then 0.0
    else if input.value < 0.0 then 0.0
    else if input.value > 100.0 then 100.0
    else input.value
  }

  /** The advance input: empty reads as 0, and a number is raised to 0 when negative. */
  function AdvanceInput(input: Option<real>): (r: real)
    ensures r >= 0.0
    ensures input.None? ==> r == 0.0
    ensures input.Some? && input.value >= 0.0 ==> r == input.value
    ensures input.Some? && input.value < 0.0 ==> r == 0.0
  {
    if input.None? || input.value < 0.0 then 0.0 else input.value
  }

  /** The initial quotation: no items, no discount (0 %, hidden), tax shown at 18 %, no advance, and
      every derived amount 0. */
  function InitialData(client: ClientDetails): QuoteData
  {
    QuoteData(client, [], 0.0, false, 18.0, true, 0.0, 0.0, 0.0, 0.0, 0.0, 0.0)
  }

  /** The initial client: every field empty except the date and number it was created with. */
  function InitialClient(quoteDate: string, quoteNumber: string): ClientDetails
  {
    ClientDetails("", "", "", "", quoteDate, quoteNumber)
  }

  /** The initial quotation's zero totals are already the recomputed ones. */
  lemma InitialDataConsistent(client: ClientDetails)
    ensures Consistent(InitialData(client))
    ensures Recompute(InitialData(client)) == InitialData(client)
  {
    var d := InitialData(client);
    assert Subtotal(d.items) == 0.0;
    RoundUnique(0.0, 0);
    ConsistentIffFixpoint(d);
  }

  /** Duplicating a quotation: a new number and date, and nothing else changed. */
  function Duplicated(d: QuoteData, quoteNumber: string, today: string): (r: QuoteData)
    ensures r.client.quoteNumber == quoteNumber && r.client.quoteDate == today
    ensures r.client.(quoteNumber := d.client.quoteNumber, quoteDate := d.client.quoteDate) == d.client
    ensures r.(client := d.client) == d
  {
    d.(client := d.client.(quoteNumber := quoteNumber, quoteDate := today))
  }

  lemma DuplicatedConsistent(d: QuoteData, quoteNumber: string, today: string)
    requires Consistent(d)
    ensures Consistent(Duplicated(d, quoteNumber, today))
  {
  }

  /** The alerts the PDF and duplicate handlers show. */
  const PdfFailedNotice := "Failed to generate PDF."
  const DuplicatedNotice := "Quote duplicated with new number and date."

  /** The outcome of the rasteriser that captures the document before pagination. */
  datatype Capture =
    | Unmounted                 // the document element is not on the page
    | CaptureFailed             // the rasteriser or the PDF encoder threw
    | Captured(height: real)    // the captured image, scaled to the 210 mm page width

  class QuotationGenerator {
    /** The client details computed once when the page's module is loaded; a reset reuses them. */
    const initialClient: ClientDetails
    var data: QuoteData
    var draft: ItemDraft
    var editing: Option<QuoteItem>
    var isAddingItem: bool
    var isGenerating: bool
    var showSuccess: bool

    /** The class invariant: the derived totals agree with the inputs. */
    ghost predicate Valid()
      reads this
    {
      Consistent(data)
    }

    /** A fresh page with no saved draft, given the date and the quote number generated when the
        page's module was loaded. */
    constructor(loadDate: string, loadQuoteNumber: string)
      ensures initialClient == InitialClient(loadDate, loadQuoteNumber)
      ensures data == InitialData(initialClient)
      ensures draft == EmptyDraft && editing == None
      ensures !isAddingItem && !isGenerating && !showSuccess
      ensures Valid()
    {
      var client := InitialClient(loadDate, loadQuoteNumber);
      initialClient := client;
      data := InitialData(client);
      draft := EmptyDraft;
      editing := None;
      isAddingItem := false;
      isGenerating := false;
      showSuccess := false;
      InitialDataConsistent(client);
    }

    /** An edit in the client details form. */
    method ChangeClient(field: ClientField, value: string)
      requires Valid()
      modifies this
      ensures data == old(data).(client := WithClientField(old(data).client, field, value))
      ensures draft == old(draft) && editing == old(editing) && isAddingItem == old(isAddingItem)
      ensures isGenerating == old(isGenerating) && showSuccess == old(showSuccess)
      ensures Valid()
    {
      data := data.(client := WithClientField(data.client, field, value));
    }

    /** The "Add Item" button and the empty-list placeholder open the item form. */
    method OpenItemForm()
      modifies this
      ensures isAddingItem
      ensures data == old(data) && draft == old(draft) && editing == old(editing)
      ensures isGenerating == old(isGenerating) && showSuccess == old(showSuccess)
    {
      isAddingItem := true;
    }

    /** The backdrop and the close button hide the item form; the item being edited and the draft
        are kept. */
    method CloseItemForm()
      modifies this
      ensures !isAddingItem
      ensures data == old(data) && draft == old(draft) && editing == old(editing)
      ensures isGenerating == old(isGenerating) && showSuccess == old(showSuccess)
    {
      isAddingItem := false;
    }

    method SetDraftDescription(description: string)
      modifies this
      ensures draft == old(draft).(description := description)
      ensures data == old(data) && editing == old(editing) && isAddingItem == old(isAddingItem)
      ensures isGenerating == old(isGenerating) && showSuccess == old(showSuccess)
    {
      draft := draft.(description := description);
    }

    method SetDraftQuantity(input: Option<real>)
      modifies this
      ensures draft == old(draft).(quantity := NumberInput(input))
      ensures data == old(data) && editing == old(editing) && isAddingItem == old(isAddingItem)
      ensures isGenerating == old(isGenerating) && showSuccess == old(showSuccess)
    {
      draft := draft.(quantity := NumberInput(input));
    }

    method SetDraftUnit(unit: Unit)
      modifies this
      ensures draft == old(draft).(unit := Some(unit))
      ensures data == old(data) && editing == old(editing) && isAddingItem == old(isAddingItem)
      ensures isGenerating == old(isGenerating) && showSuccess == old(showSuccess)
    {
      draft := draft.(unit := Some(unit));
    }

    method SetDraftRate(input: Option<real>)
      modifies this
      ensures draft == old(draft).(rate := NumberInput(input))
      ensures data == old(data) && editing == old(editing) && isAddingItem == old(isAddingItem)
      ensures isGenerating == old(isGenerating) && showSuccess == old(showSuccess)
    {
      draft := draft.(rate := NumberInput(input));
    }

    /** Starting to edit an item: the form opens pre-filled with it. */
    method EditItem(item: QuoteItem)
      modifies this
      ensures editing == Some(item) && draft == DraftOf(item) && isAddingItem
      ensures data == old(data) && isGenerating == old(isGenerating) && showSuccess == old(showSuccess)
    {
      editing := Some(item);
      draft := DraftOf(item);
      isAddingItem := true;
    }

    /** Submitting the item form. A draft without a description or with a zero rate changes
        nothing. Otherwise the built item replaces the edited one or is appended, the totals are
        recomputed, and the form is cleared and closed. */
    method SubmitItem(freshId: string)
      modifies this
      ensures !CanSubmit(old(draft)) ==>
        && data == old(data) && draft == old(draft) && editing == old(editing)
        && isAddingItem == old(isAddingItem)
      ensures CanSubmit(old(draft)) ==>
        && data == Recompute(old(data).(items := SubmitItems(old(data).items, old(draft), old(editing), freshId)))
        && draft == EmptyDraft && editing == None && !isAddingItem
      ensures isGenerating == old(isGenerating) && showSuccess == old(showSuccess)
      ensures CanSubmit(old(draft)) ==> Valid()
    {
      if !CanSubmit(draft) {
        return;
      }
      data := Recompute(data.(items := SubmitItems(data.items, draft, editing, freshId)));
      draft := EmptyDraft;
      editing := None;
      isAddingItem := false;
    }

    /** Deleting every item with the given id. */
    method DeleteItem(id: string)
      modifies this
      ensures data == Recompute(old(data).(items := DeleteById(old(data).items, id)))
      ensures draft == old(draft) && editing == old(editing) && isAddingItem == old(isAddingItem)
      ensures isGenerating == old(isGenerating) && showSuccess == old(showSuccess)
      ensures Valid()
    {
      data := Recompute(data.(items := DeleteById(data.items, id)));
    }

    /** Cloning an item: its copy, under a fresh id, goes to the end of the list. */
    method CloneItem(item: QuoteItem, freshId: string)
      modifies this
      ensures data == Recompute(old(data).(items := CloneItems(old(data).items, item, freshId)))
      ensures draft == old(draft) && editing == old(editing) && isAddingItem == old(isAddingItem)
      ensures isGenerating == old(isGenerating) && showSuccess == old(showSuccess)
      ensures Valid()
    {
      data := Recompute(data.(items := CloneItems(data.items, item, freshId)));
    }

    method ToggleDiscount()
      modifies this
      ensures data == Recompute(old(data).(showDiscount := !old(data).showDiscount))
      ensures draft == old(draft) && editing == old(editing) && isAddingItem == old(isAddingItem)
      ensures isGenerating == old(isGenerating) && showSuccess == old(showSuccess)
      ensures Valid()
    {
      data := Recompute(data.(showDiscount := !data.showDiscount));
    }

    method SetDiscount(input: Option<real>)
      modifies this
      ensures data == Recompute(old(data).(discount := DiscountInput(input)))
      ensures draft == old(draft) && editing == old(editing) && isAddingItem == old(isAddingItem)
      ensures isGenerating == old(isGenerating) && showSuccess == old(showSuccess)
      ensures Valid() && 0.0 <= data.discount <= 100.0
    {
      data := Recompute(data.(discount := DiscountInput(input)));
    }

    method ToggleGst()
      modifies this
      ensures data == Recompute(old(data).(showGST := !old(data).showGST))
      ensures draft == old(draft) && editing == old(editing) && isAddingItem == old(isAddingItem)
      ensures isGenerating == old(isGenerating) && showSuccess == old(showSuccess)
      ensures Valid()
    {
      data := Recompute(data.(showGST := !data.showGST));
    }

    /** The tax percentage is not clamped: any number entered is taken as it is. */
    method SetGst(input: Option<real>)
      modifies this
      ensures data == Recompute(old(data).(gst := NumberInput(input)))
      ensures draft == old(draft) && editing == old(editing) && isAddingItem == old(isAddingItem)
      ensures isGenerating == old(isGenerating) && showSuccess == old(showSuccess)
      ensures Valid()
    {
      data := Recompute(data.(gst := NumberInput(input)));
    }

    method SetAdvance(input: Option<real>)
      modifies this
      ensures data == Recompute(old(data).(advance := AdvanceInput(input)))
      ensures draft == old(draft) && editing == old(editing) && isAddingItem == old(isAddingItem)
      ensures isGenerating == old(isGenerating) && showSuccess == old(showSuccess)
      ensures Valid() && data.advance >= 0.0
    {
      data := Recompute(data.(advance := AdvanceInput(input)));
    }

    /** Importing a project file. No file chosen changes nothing and shows nothing. Otherwise the
        outcome's notice is shown, and only a successful import changes the quotation: it is
        replaced as a whole by the imported one, with its totals recomputed. */
    method ImportProject(file: Option<string>, decode: string -> Option<ProjectRecord>)
      returns (notice: Option<string>)
      modifies this
      ensures file.None? ==> notice.None? && data == old(data)
      ensures file.Some? ==> notice == Some(ImportNotice(Import(file.value, decode)))
      ensures file.Some? && Import(file.value, decode).Imported? ==>
        data == Recompute(Import(file.value, decode).data)
      ensures file.Some? && !Import(file.value, decode).Imported? ==> data == old(data)
      ensures draft == old(draft) && editing == old(editing) && isAddingItem == old(isAddingItem)
      ensures isGenerating == old(isGenerating) && showSuccess == old(showSuccess)
      ensures old(Valid()) || (file.Some? && Import(file.value, decode).Imported?) ==> Valid()
    {
      if file.None? {
        return None;
      }
      var outcome := Import(file.value, decode);
      if outcome.Imported? {
        data := Recompute(outcome.data);
      }
      notice := Some(ImportNotice(outcome));
    }

    /** Saving the project: the file name and the serialised quotation; nothing changes. */
    method ExportProject(encode: QuoteData -> string) returns (fileName: string, content: string)
      ensures fileName == ExportFileName(data.client) && content == encode(data)
    {
      fileName := ExportFileName(data.client);
      content := encode(data);
    }

    /** Generating the PDF. An unmounted document changes nothing. A failed capture only ends the
        generating state. A successful one lays the image out on pages, names the file after the
        client and the quote number, shows the success banner and ends the generating state. Only a
        failed capture shows an alert. */
    method DownloadPdf(capture: Capture) returns (offsets: seq<real>, fileName: Option<string>, notice: Option<string>)
      modifies this
      ensures capture.Unmounted? ==> isGenerating == old(isGenerating) && showSuccess == old(showSuccess)
      ensures !capture.Unmounted? ==> !isGenerating
      ensures capture.CaptureFailed? ==> showSuccess == old(showSuccess)
      ensures !capture.Captured? ==> offsets == [] && fileName == None
      ensures capture.CaptureFailed? <==> notice == Some(PdfFailedNotice)
      ensures !capture.CaptureFailed? ==> notice == None
      ensures capture.Captured? ==>
        && |offsets| == PageCount(capture.height)
        && (forall k :: 0 <= k < |offsets| ==> offsets[k] == -PageHeight * k as real)
        && fileName == Some(PdfFileName(data.client))
        && showSuccess
      ensures data == old(data) && draft == old(draft) && editing == old(editing)
      ensures isAddingItem == old(isAddingItem)
    {
      offsets, fileName, notice := [], None, None;
      if capture.Unmounted? {
        return;
      }
      isGenerating := true;
      if capture.Captured? {
        offsets := Paginate(capture.height);
        fileName := Some(PdfFileName(data.client));
        showSuccess := true;
      } else {
        notice := Some(PdfFailedNotice);
      }
      isGenerating := false;
    }

    /** The success banner hides itself after a while. */
    method SuccessTimeout()
      modifies this
      ensures !showSuccess
      ensures data == old(data) && draft == old(draft) && editing == old(editing)
      ensures isAddingItem == old(isAddingItem) && isGenerating == old(isGenerating)
    {
      showSuccess := false;
    }

    /** Sharing on WhatsApp: the recipient's number and the message text; nothing changes. */
    method ShareWhatsApp(money: real -> string, number: real -> string) returns (phone: string, text: string)
      ensures phone == Share.NormalizePhone(data.client.phone)
      ensures text == Share.ShareText(data, money, number)
    {
      phone := Share.NormalizePhone(data.client.phone);
      text := Share.ShareText(data, money, number);
    }

    /** Starting a new quotation, once confirmed: the initial quotation with the load-time client
        details and the newly generated quote number. */
    method Reset(confirmed: bool, quoteNumber: string)
      modifies this
      ensures !confirmed ==> data == old(data)
      ensures confirmed ==> data == InitialData(initialClient.(quoteNumber := quoteNumber))
      ensures draft == old(draft) && editing == old(editing) && isAddingItem == old(isAddingItem)
      ensures isGenerating == old(isGenerating) && showSuccess == old(showSuccess)
      ensures confirmed ==> Valid()
    {
      if confirmed {
        var client := initialClient.(quoteNumber := quoteNumber);
        data := InitialData(client);
        InitialDataConsistent(client);
      }
    }

    /** Duplicating the quotation under a newly generated quote number and today's date, then
        telling the user so. */
    method Duplicate(quoteNumber: string, today: string) returns (notice: string)
      requires Valid()
      modifies this
      ensures notice == DuplicatedNotice
      ensures data == Duplicated(old(data), quoteNumber, today)
      ensures draft == old(draft) && editing == old(editing) && isAddingItem == old(isAddingItem)
      ensures isGenerating == old(isGenerating) && showSuccess == old(showSuccess)
      ensures Valid()
    {
      DuplicatedConsistent(data, quoteNumber, today);
      data := Duplicated(data, quoteNumber, today);
      notice := DuplicatedNotice;
    }
  }
}
