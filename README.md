# Quotation builder — a verified model

This project models the quotation engine of a client-side quotation builder for an interior
contractor. A user enters client details and priced line items. The page then:

- recomputes the totals: subtotal, discount, tax on the discounted base, a rounded grand total, and the balance after an advance;
- renders a printable A4 document and slices it into PDF pages;
- builds a WhatsApp summary for a normalised phone number;
- saves and loads the whole editable state as a `.luxe` project file.

The model has one module per concern:

- `Types`: the record types `QuoteItem`, `ClientDetails` and `QuoteData`. The unit is an enum of five values.
- `Totals`: the totals effect, as a pure `Recompute` with its invariants (`Consistent`).
- `Items`: add or update from the item form, delete by id, and clone to the tail.
- `Project`: export, the import decision procedure, and the two download file names.
- `Pagination`: the page-slicing loop, as an imperative `method` with loop invariants.
- `Share`: the share text, as an ordered selection of template parts, and the phone normaliser.
- `Preview`: the document layout, as a value listing its lines, rows and blocks in order.
- `Utils` and `Decimal`: the quote-number maker, with the decimal spelling and `padStart` it relies on.
- `Generator`: the page component, as the class `QuotationGenerator`. Its fields are the quotation, the item-form draft, the item being edited and the UI flags, and its handlers are methods with `modifies` clauses. Each handler that changes the items, a percentage, a show flag or the advance ends with `Recompute`, which is what the page's effect does after such a change. The invariant `Valid()` says the derived totals agree with the inputs.
- `Text` and `Company`: text is a sequence of pieces, with amounts kept symbolic, and `Company` holds the issuer's fixed details.

Money is `real`. `Math.round` is round-half-toward-+∞: `Round(x)` is the integer `r` with
`r - 0.5 <= x < r + 0.5`. `formatCurrency` and JavaScript's number-to-string conversion are
foreign, so rendered text keeps the amounts symbolic. `Text.Render` takes both formatters as
parameters.

Some behaviour of the code is easy to get wrong, so the model states it explicitly:

- **Pagination.** For an image of height H >= 0, the loop emits floor(H/297) + 1 pages. That is
  one page more than ceil(H/297) when H is a positive multiple of 297, and then the last page is
  blank. `TrailingBlankPage` and `PageCountVersusCeiling` state this exactly.
- **Import messages.** A file that fails to decode and a file that decodes without `client` or
  `items` show the same message, "Failed to import project.". The structure check throws inside the
  same `try` as the decoder. The model keeps the two outcomes apart (`Unreadable`,
  `InvalidStructure`), and `ImportNotice` maps both to that one message.
- **Clone input.** Clone receives the item object itself and appends its copy, so every clone succeeds.
- **Update by id.** Update maps over the items by id, so an id that no item carries leaves the
  list unchanged.
- **Share conditions.** The share text lists the discount and tax lines on their show flags
  alone, and the balance line whenever the balance is positive. The document requires a positive
  percentage, and for the balance line also a positive advance. `Preview.ShareAndDocumentDiverge`
  exhibits both differences.
- **Closing the item form.** Closing the form does not clear the item being edited, or the
  draft. `CloseItemForm` keeps both.

## Model

| member | source | states |
|---|---|---|
| Types.UnitName | src/types.ts:5 | each of the five units is spelled with two to four characters, as stored in a project file |
| Types.UnitNamesDistinct | src/types.ts:5 | two units have the same spelling exactly when they are the same unit, so a spelling names one unit |
| Types.OrElse | src/components/PDFPreview.tsx:65-68 | `s \|\| fallback` on strings: a non-empty string is kept verbatim, the empty string gives the fallback |
| Decimal.Digits | src/utils.ts:19 | a natural number's `toString()` is a non-empty digit string with no leading zero unless the number is 0 |
| Decimal.ValueOfDigits | src/utils.ts:19 | reading the decimal spelling back gives the number |
| Decimal.DigitsBelowThousand | src/utils.ts:19 | a number below 1000 is spelled with at most three digits |
| Decimal.PadStart | src/utils.ts:19 | `padStart(width, c)`: length max(\|s\|, width), ends with `s`, and everything before it is `c` |
| Decimal.ValueIgnoresLeadingZeros | src/utils.ts:19 | left padding with '0' does not change the value of a digit string |
| Utils.QuoteNumber | src/utils.ts:16-21 | the quote number `INT-<year>-<three-digit serial>`; what it reads back as is stated by `QuoteNumberReadBack` |
| Utils.QuoteSerial | src/utils.ts:19 | the serial is floor(random · 1000), an integer in 0..999 for random in [0, 1) |
| Utils.QuoteSuffix | src/utils.ts:19 | the suffix has exactly three decimal digits, and reading it back gives the serial (42 → "042") |
| Utils.QuoteNumberReadBack | src/utils.ts:16-21 | the quote number is "INT-", then the year's digits that read back as the year, then "-" and the three-digit suffix that reads back as the serial; a four-digit year gives 12 characters |
| Text.RenderAppend | src/pages/QuotationGenerator.tsx:269-291 | rendering a concatenated template is the concatenation of the rendered parts |
| Text.RenderDependsOnlyOnAmounts | src/utils.ts:8-14 | the rendered text depends on the currency formatter only through the amounts passed to it: two formatters that agree on those amounts give the same text |
| Text.Render | src/pages/QuotationGenerator.tsx:269-291 | the string a text denotes under given formatters; `RenderAppend` and `RenderDependsOnlyOnAmounts` state its properties |
| Totals.Round | src/pages/QuotationGenerator.tsx:92 | `Math.round`: the result lies within half of the argument, with halves rounded up |
| Totals.RoundUnique | src/pages/QuotationGenerator.tsx:92 | only one integer lies within that half-open distance, so the rounding is determined |
| Totals.Subtotal | src/pages/QuotationGenerator.tsx:88 | the left-to-right sum of the stored totals, as `reduce` computes it; `SubtotalAppend` states how it splits |
| Totals.Consistent | src/pages/QuotationGenerator.tsx:87-103 | the five relations the effect establishes between inputs and derived totals; `Recompute`, `RecomputeUnique` and `ConsistentIffFixpoint` are about it |
| Totals.SubtotalAppend | src/pages/QuotationGenerator.tsx:88 | the subtotal sum splits over concatenated item lists |
| Totals.Recompute | src/pages/QuotationGenerator.tsx:87-103 | the result satisfies the five invariants: subtotal is the sum of totals, the discount and the tax on the discounted base apply only under their flags, the grand total is rounded, and the balance is grand total minus advance; only the five derived fields change |
| Totals.RecomputeUnique | src/pages/QuotationGenerator.tsx:95-102 | any record with the same inputs that satisfies the invariants is the recomputed one |
| Totals.ConsistentIffFixpoint | src/pages/QuotationGenerator.tsx:87-103 | a record satisfies the invariants exactly when recomputing leaves it unchanged |
| Totals.RecomputeIdempotent | src/pages/QuotationGenerator.tsx:95-102 | recomputing twice equals recomputing once |
| Totals.SuppressedDiscount | src/pages/QuotationGenerator.tsx:89 | with the discount flag off there is no discount whatever the stored percentage; with it on, the percentage applies to the subtotal |
| Totals.SuppressedTax | src/pages/QuotationGenerator.tsx:90-91 | with the tax flag off there is no tax; with it on, the rate applies to the discounted subtotal |
| Totals.ZeroPercentagesChargeNothing | src/pages/QuotationGenerator.tsx:89-91 | a 0% discount or tax charges nothing even when its flag is on |
| Totals.EmptyQuotation | src/pages/QuotationGenerator.tsx:88-93 | with no items, every derived amount is 0 except the balance, which is minus the advance |
| Totals.TaxOnlyScenario | src/pages/QuotationGenerator.tsx:88-93 | one item of 10 × 100 at 18% tax, no discount, no advance: subtotal 1000, tax 180, grand total and balance 1180 |
| Totals.DiscountThenTaxScenario | src/pages/QuotationGenerator.tsx:88-93 | 1000 with 10% discount and 18% tax: discount 100, base 900, tax 162, grand total 1062 |
| Totals.OnlyGrandTotalIsRounded | src/pages/QuotationGenerator.tsx:92 | a subtotal of 0.5 is kept, and the grand total rounds it up to 1 |
| Items.DraftOf | src/pages/QuotationGenerator.tsx:194-198 | editing loads the item's description, quantity, unit and rate into the form |
| Items.CanSubmit | src/pages/QuotationGenerator.tsx:159 | the guard: a non-empty description and a non-zero rate; `SubmitRefused` states a refused submission changes nothing |
| Items.BuildItem | src/pages/QuotationGenerator.tsx:161-168 | the stored item keeps the id, description and rate; a zero quantity becomes 1; an unset unit becomes sqft; total = quantity × rate |
| Items.SubmittedId | src/pages/QuotationGenerator.tsx:162 | the edited item's id is kept when it is non-empty, otherwise the fresh id is used |
| Items.ReplaceById | src/pages/QuotationGenerator.tsx:173 | same length; each position holds the new item where the id matched and its old item elsewhere |
| Items.DeleteKeepsOthers | src/pages/QuotationGenerator.tsx:190 | an item remains after a delete exactly when it was present and its id differs from the deleted one; nothing is added |
| Items.CloneOf | src/pages/QuotationGenerator.tsx:201-205 | the copy has the fresh id and the description with " (Copy)" appended, and every other field of the source |
| Items.SubmitItems | src/pages/QuotationGenerator.tsx:158-180 | the item list after a submission; `SubmitRefused`, `SubmitAdds`, `SubmitEdits` and `SubmitKeepsInvariants` state its meaning |
| Items.DeleteById | src/pages/QuotationGenerator.tsx:187-192 | `filter` by a different id; `DeleteKeepsOthers`, `DeleteRemovesOne` and `DeleteLowersSubtotal` state its meaning |
| Items.CloneItems | src/pages/QuotationGenerator.tsx:200-210 | the copy appended at the tail; `CloneAppendsCopy` and `CloneKeepsInvariants` state its meaning |
| Items.SubmitRefused | src/pages/QuotationGenerator.tsx:159 | an empty description or a zero rate leaves the items unchanged |
| Items.SubmitAdds | src/pages/QuotationGenerator.tsx:158-179 | adding appends exactly one item at the tail, keeps the others in place, and raises the subtotal by quantity × rate |
| Items.AddThenTaxScenario | src/pages/QuotationGenerator.tsx:158-179 | adding 10 units at 100 to an empty quotation at 18% tax stores quantity 10, rate 100, total 1000, and the recomputed totals are tax 180 and grand total 1180 |
| Items.SubmitEdits | src/pages/QuotationGenerator.tsx:161-174 | updating keeps the length and every position whose id differs from the edited id, puts the built item where it matches, and keeps every position's id |
| Items.SubmitKeepsInvariants | src/pages/QuotationGenerator.tsx:158-185 | a submission keeps ids unique and every stored total equal to quantity × rate, given a fresh id when adding |
| Items.ReplaceKeepsUnique | src/pages/QuotationGenerator.tsx:173 | replacing by id keeps ids unique when the new item carries the replaced id or an unused one |
| Items.AppendFreshKeepsUnique | src/pages/QuotationGenerator.tsx:178 | appending an item with a new id keeps ids unique |
| Items.DeleteAppend | src/pages/QuotationGenerator.tsx:190 | deleting distributes over concatenated item lists |
| Items.DeleteUnknownIsNoop | src/pages/QuotationGenerator.tsx:190 | deleting an id no item carries changes nothing |
| Items.DeleteRemovesOne | src/pages/QuotationGenerator.tsx:187-192 | with unique ids, deleting the id at position k removes exactly that item and keeps the rest in order |
| Items.DeleteLowersSubtotal | src/pages/QuotationGenerator.tsx:187-192 | that deletion lowers the subtotal by the removed item's total |
| Items.IdOnlyAt | src/pages/QuotationGenerator.tsx:190 | with unique ids, the id at position k occurs nowhere before or after it |
| Items.DeleteKeepsInvariants | src/pages/QuotationGenerator.tsx:187-192 | deleting keeps ids unique and stored totals correct |
| Items.RemoveAtKeepsInvariants | src/pages/QuotationGenerator.tsx:187-192 | removing one position keeps ids unique and stored totals correct |
| Items.CloneAppendsCopy | src/pages/QuotationGenerator.tsx:200-209 | cloning adds exactly one item, last, with the fresh id, the " (Copy)" description and the source's quantity, unit, rate and total; the subtotal grows by the source's total |
| Items.CloneKeepsInvariants | src/pages/QuotationGenerator.tsx:200-209 | with a fresh id the clone never collides with an existing id, and it copies a correct total |
| Project.ExportRecord | src/pages/QuotationGenerator.tsx:111 | the exported record carries the client and the items, present |
| Project.Import | src/pages/QuotationGenerator.tsx:128-144 | the outcome of reading a file; `ImportDecision` states when each outcome happens |
| Project.RecordData | src/pages/QuotationGenerator.tsx:135-136 | a decoded record with both required fields is exactly the export of the quotation it stands for |
| Project.ImportDecision | src/pages/QuotationGenerator.tsx:130-143 | each outcome holds exactly under its condition: the PDF signature first, then a decode failure, then a missing client or items, otherwise the imported record |
| Project.PdfRejectedBeforeDecoding | src/pages/QuotationGenerator.tsx:130-133 | a `%PDF` file is rejected whatever the decoder would do with it |
| Project.EmptyItemsAccepted | src/pages/QuotationGenerator.tsx:135 | an empty items array passes the structure check |
| Project.ExportImportRoundTrip | src/pages/QuotationGenerator.tsx:110-148 | importing what an export wrote gives back the exported quotation, for any encoder and decoder that round-trip |
| Project.ImportNotice | src/pages/QuotationGenerator.tsx:130-144 | a decode failure and an invalid structure show the same failure message; a PDF gets the PDF notice and a success the success message |
| Project.ExportFileName | src/pages/QuotationGenerator.tsx:115 | `LuxeQuote_<name or "Project">_<quote number>.luxe` |
| Project.PdfFileName | src/pages/QuotationGenerator.tsx:252 | `Quotation_<name or "Client">_<quote number>.pdf` |
| Project.FileNamesAreDistinguishable | src/pages/QuotationGenerator.tsx:252 | the PDF name never ends in ".luxe", while the project file name (line 115) always does, so the two names always differ |
| Pagination.PageCount | src/pages/QuotationGenerator.tsx:239-250 | the loop emits at least one page |
| Pagination.Paginate | src/pages/QuotationGenerator.tsx:239-250 | the loop terminates having emitted floor(H/297) + 1 pages, and page k carries the image at offset −297·k |
| Pagination.PagesCoverImage | src/pages/QuotationGenerator.tsx:239-250 | the last page starts at or above the bottom of the image and the pages together reach past it, so consecutive bands meet without gap or overlap |
| Pagination.TrailingBlankPage | src/pages/QuotationGenerator.tsx:245 | for a height of exactly n pages the loop emits n + 1, the last starting at the image's bottom edge |
| Pagination.PageCountVersusCeiling | src/pages/QuotationGenerator.tsx:239-250 | the page count equals ceil(H/297), except when H is a multiple of 297, where it is one more |
| Share.KeepDigits | src/pages/QuotationGenerator.tsx:293 | `replace(/\D/g, '')` leaves only digits and leaves a digit string unchanged; with `KeepDigitsAppend` and `KeepDigitsChar` it keeps exactly the digits, in order |
| Share.KeepDigitsAppend | src/pages/QuotationGenerator.tsx:293 | the digits of a concatenation are the digits of each half, in order |
| Share.KeepDigitsChar | src/pages/QuotationGenerator.tsx:293 | a single character is kept exactly when it is a digit |
| Share.NormalizePhone | src/pages/QuotationGenerator.tsx:293-294 | the recipient number consists of digits only |
| Share.NormalizePhoneCases | src/pages/QuotationGenerator.tsx:294 | "91" is prefixed exactly when the digits do not start with 91 and are ten long; every other input passes through |
| Share.NormalizePhoneIdempotent | src/pages/QuotationGenerator.tsx:293-294 | normalising twice equals normalising once |
| Share.Template | src/pages/QuotationGenerator.tsx:269-291 | the template has eleven terms, each at the position of its rank |
| Share.Select | src/pages/QuotationGenerator.tsx:280-284 | the `cond ? text : ''` terms: the shown terms of the template, in order; `SelectShape` states its meaning |
| Share.SelectShape | src/pages/QuotationGenerator.tsx:269-291 | selecting the shown terms keeps template order, emits only terms of the template, and emits a kind exactly when the template has it and its condition holds |
| Share.SharePartsShape | src/pages/QuotationGenerator.tsx:269-291 | the share text's parts come in template order with none repeated, and a part is present exactly when its condition holds; every emitted part is the template's own term |
| Share.SharePartsPresence | src/pages/QuotationGenerator.tsx:279-284 | heading, client, items, subtotal, grand total, payment and closing are always present; discount iff its flag, tax iff its flag, advance iff advance > 0, balance iff balance > 0 |
| Share.ShareText | src/pages/QuotationGenerator.tsx:264-291 | the message; `ShareTextByParts`, `SharePartsShape` and `SharePartsPresence` state what it holds |
| Share.ShareTextByParts | src/pages/QuotationGenerator.tsx:269-291 | the message is its shown parts rendered one after another, in template order |
| Share.ShareTextNeedsOnlyItsAmounts | src/pages/QuotationGenerator.tsx:266-284 | two currency formatters that agree on the amounts the message formats give the same message |
| Share.ItemsListAmounts | src/pages/QuotationGenerator.tsx:265-267 | the items list formats each item's rate and total, in items order |
| Share.ItemsList | src/pages/QuotationGenerator.tsx:265-267 | the numbered entries joined with a blank line; `ItemsListAmounts` states what it formats |
| Share.ItemsBlockContent | src/pages/QuotationGenerator.tsx:276-277 | the items block shows "_No items added_" exactly when there are no items, and otherwise formats every item's rate and total in order |
| Preview.IssuerLines | src/components/PDFPreview.tsx:43-47 | the header shows the issuer's name, tagline, address, GSTIN and phone, in that order |
| Preview.MetaFields | src/components/PDFPreview.tsx:53-55 | the quote number and date as entered, and a fixed validity of 15 days |
| Preview.ClientLines | src/components/PDFPreview.tsx:65-68 | an empty name, address, phone or project type shows "Client Name", "Site Address", "Phone Number" or "Project Type"; a filled one shows verbatim |
| Preview.ItemRows | src/components/PDFPreview.tsx:91-98 | one five-cell row per item, in items order: serial index + 1, description, "quantity unit", rate, total |
| Preview.ItemRow | src/components/PDFPreview.tsx:92-98 | one item's table row; `ItemRows` states its cells |
| Preview.EmptyRow | src/components/PDFPreview.tsx:100-104 | the single "No items added yet" row over all five columns; `BodyRowsShape` states when it appears |
| Preview.BodyRows | src/components/PDFPreview.tsx:90-105 | the table body; `BodyRowsShape` states its shape |
| Preview.DiscountLines | src/components/PDFPreview.tsx:115-119 | the discount line appears exactly when shown with a positive percentage, and its amount carries a leading "-" |
| Preview.GstLines | src/components/PDFPreview.tsx:120-124 | the tax line appears exactly when shown with a positive percentage |
| Preview.AdvanceLines | src/components/PDFPreview.tsx:130-141 | "Advance Received" appears exactly when advance > 0; "Balance Due" follows it exactly when, in addition, the balance is not 0 |
| Preview.SummaryLines | src/components/PDFPreview.tsx:110-141 | the totals block; `SummaryOrder` and `SummaryPresence` state its order and contents |
| Preview.TermList | src/components/PDFPreview.tsx:150-153 | the numbered list has one entry per term, numbered from 1, in order |
| Preview.BankFields | src/components/PDFPreview.tsx:157-166 | bank, account name, account number, IFSC, PhonePe and G-Pay, in that order |
| Preview.Layout | src/components/PDFPreview.tsx:33-176 | the whole document, block by block; the rows above state each block |
| Preview.BodyRowsShape | src/components/PDFPreview.tsx:91-104 | the body is the item rows when there are items and the single empty-table row otherwise; the "No items added yet" row appears iff there are no items; every row spans the five header columns |
| Preview.SerialReadsBack | src/components/PDFPreview.tsx:93 | an item's serial cell reads back as its position counted from 1 |
| Preview.SummaryOrder | src/components/PDFPreview.tsx:110-141 | the totals lines come in the order subtotal, discount, tax, grand total, advance, balance, none repeated |
| Preview.SummaryPresence | src/components/PDFPreview.tsx:110-141 | subtotal and grand total always; discount iff shown and positive; tax iff shown and positive; advance iff advance > 0; balance iff advance > 0 and balance ≠ 0 |
| Preview.TermsInOrder | src/components/PDFPreview.tsx:150-153 | the document lists every term of business, numbered from 1, in its original order |
| Preview.ShareAndDocumentDiverge | src/pages/QuotationGenerator.tsx:280-284 | a shown 0% discount, or a positive balance with no advance, is listed in the share text but not in the document |
| Generator.WithClientField | src/pages/QuotationGenerator.tsx:150-156 | the named client field (name, phone, address or project type, the inputs at :345-357) takes the new value and every other field, the quote date and number included, keeps its own |
| Generator.NumberInput | src/pages/QuotationGenerator.tsx:417 | an empty number input reads as 0, otherwise as the number entered, unclamped |
| Generator.DiscountInput | src/pages/QuotationGenerator.tsx:408 | the discount is always in [0, 100]: empty gives 0, an in-range value is kept, below 0 gives 0, above 100 gives 100 |
| Generator.AdvanceInput | src/pages/QuotationGenerator.tsx:433 | the advance is never negative: empty or negative gives 0, otherwise the value is kept |
| Generator.InitialClient | src/pages/QuotationGenerator.tsx:27-34 | empty client fields with the load-time date and quote number |
| Generator.InitialData | src/pages/QuotationGenerator.tsx:36-49 | no items, 0% discount hidden, 18% tax shown, every amount 0; `InitialDataConsistent` states it is already consistent |
| Generator.InitialDataConsistent | src/pages/QuotationGenerator.tsx:36-49 | the initial quotation's zero totals are already the recomputed ones |
| Generator.Duplicated | src/pages/QuotationGenerator.tsx:308-312 | a duplicate has the new quote number and date, and every other field of the client and the quotation unchanged |
| Generator.DuplicatedConsistent | src/pages/QuotationGenerator.tsx:308-312 | duplicating keeps the totals consistent |
| Generator.QuotationGenerator.constructor | src/pages/QuotationGenerator.tsx:27-49 | the page starts from the initial quotation: no items, discount 0% hidden, tax 18% shown, no advance, the empty draft, and the form closed |
| Generator.QuotationGenerator.ChangeClient | src/pages/QuotationGenerator.tsx:150-156 | only the named client field changes, and the invariant is kept |
| Generator.QuotationGenerator.OpenItemForm | src/pages/QuotationGenerator.tsx:373 | opens the item form (also from the empty-list placeholder at line 385) and changes nothing else |
| Generator.QuotationGenerator.CloseItemForm | src/pages/QuotationGenerator.tsx:503 | closes the item form (backdrop, or the close button at line 507) and keeps the draft and the item being edited |
| Generator.QuotationGenerator.SetDraftDescription | src/pages/QuotationGenerator.tsx:512 | sets the draft's description |
| Generator.QuotationGenerator.SetDraftQuantity | src/pages/QuotationGenerator.tsx:517 | sets the draft's quantity; empty reads as 0 |
| Generator.QuotationGenerator.SetDraftUnit | src/pages/QuotationGenerator.tsx:521 | sets the draft's unit |
| Generator.QuotationGenerator.SetDraftRate | src/pages/QuotationGenerator.tsx:526 | sets the draft's rate; empty reads as 0 |
| Generator.QuotationGenerator.EditItem | src/pages/QuotationGenerator.tsx:194-198 | remembers the item, loads it into the draft and opens the form |
| Generator.QuotationGenerator.SubmitItem | src/pages/QuotationGenerator.tsx:158-185 | a refused draft changes nothing; otherwise the items become the added or updated list, the totals are recomputed, and the form is reset and closed |
| Generator.QuotationGenerator.DeleteItem | src/pages/QuotationGenerator.tsx:187-192 | the items become those with another id, then the totals are recomputed |
| Generator.QuotationGenerator.CloneItem | src/pages/QuotationGenerator.tsx:200-210 | the copy is appended, then the totals are recomputed |
| Generator.QuotationGenerator.ToggleDiscount | src/pages/QuotationGenerator.tsx:405 | flips the discount flag and recomputes |
| Generator.QuotationGenerator.SetDiscount | src/pages/QuotationGenerator.tsx:408 | stores the clamped discount and recomputes; the stored discount is in [0, 100] |
| Generator.QuotationGenerator.ToggleGst | src/pages/QuotationGenerator.tsx:414 | flips the tax flag and recomputes |
| Generator.QuotationGenerator.SetGst | src/pages/QuotationGenerator.tsx:417 | stores the tax percentage unclamped and recomputes |
| Generator.QuotationGenerator.SetAdvance | src/pages/QuotationGenerator.tsx:433 | stores the non-negative advance and recomputes |
| Generator.QuotationGenerator.ImportProject | src/pages/QuotationGenerator.tsx:122-148 | no file changes nothing; every rejection leaves the quotation unchanged and shows its notice; a success replaces the whole quotation and recomputes it |
| Generator.QuotationGenerator.ExportProject | src/pages/QuotationGenerator.tsx:110-120 | offers the serialised quotation under the project file name, changing nothing |
| Generator.QuotationGenerator.DownloadPdf | src/pages/QuotationGenerator.tsx:212-262 | an unmounted document changes nothing; otherwise the generating flag is off afterwards on success and failure alike; a capture is sliced into floor(H/297) + 1 pages at offsets −297·k, saved under the PDF name, and turns the success banner on; the alert "Failed to generate PDF." is returned exactly when the capture fails, and no alert otherwise |
| Generator.QuotationGenerator.SuccessTimeout | src/pages/QuotationGenerator.tsx:254 | hides the success banner |
| Generator.QuotationGenerator.ShareWhatsApp | src/pages/QuotationGenerator.tsx:264-296 | the recipient is the normalised client phone and the message is the share text, changing nothing |
| Generator.QuotationGenerator.Reset | src/pages/QuotationGenerator.tsx:298-306 | once confirmed, the quotation becomes the initial one with the load-time client details and the new quote number; otherwise nothing changes |
| Generator.QuotationGenerator.Duplicate | src/pages/QuotationGenerator.tsx:308-314 | only the quote number and the date change, the invariant is kept, and the alert "Quote duplicated with new number and date." is returned |

## Left out

- Loading and saving the draft in local storage is not modelled: the page always starts from the initial quotation. The same applies to clearing the draft on reset. This is browser storage.
- Blob/URL/anchor downloads, the FileReader, clearing the file input, `window.open`, `encodeURIComponent`, `alert`, `confirm` and `setTimeout` are browser I/O. The model returns the file name, the file content, the recipient, the text and the text of every `alert` (the import notices, the failed-PDF alert and the duplicate alert) instead of acting on them. The confirmation and the timer are method parameters or calls of their own (`Reset`'s flag, `SuccessTimeout`).
- html2canvas and jsPDF are foreign. A capture is a parameter: unmounted, failed, or the image height. The image height `canvas.height * 210 / canvas.width` is taken as given.
- JSON encoding and decoding are parameters. The export/import round trip is proved for any encoder/decoder pair that round-trips.
- The internals of `Intl.NumberFormat` in `formatCurrency` are not modelled: amounts are kept symbolic.
- JavaScript's number-to-string conversion is not modelled: numbers are kept symbolic.
- IEEE floating point is not modelled: money is exact `real`. `NaN` from a non-numeric input, and `|| 0` on `NaN`, are not modelled.
- `generateQuoteNumber()` leaves the class. Its result is a parameter of the constructor, `Reset` and `Duplicate`. `Utils.QuoteNumber` models it, given the year and the value of `Math.random()`, and the model does not require the parameter to come from it.
- Only a non-negative year is modelled.
- Fresh item ids from `Math.random().toString(36)` are parameters. Uniqueness is proved under the hypothesis that the id is new.
- The preview modal, its zoom and fit-to-screen clamps, `cn`, and the disabled buttons that guard against re-entrant export are presentation or UI concurrency.
- Styling, the logo image and the fixed section captions of the document ("Client Details", "Terms & Conditions", "Bank Details") are not modelled. They are presentation and depend on no data.
- The marketing pages, the navigation bar, the footer, the item card, the WhatsApp widget and the routing are not part of this model.
- Generator.QuotationGenerator.DownloadPdf: the handler is asynchronous. The generating flag is on while the capture runs, and that intermediate state is not observable in this sequential model. Only the final state is stated.
- Generator.QuotationGenerator.ImportProject: the structure check tests `client` and `items` for truthiness. The decoded record carries them as options, and the model does not type-check the decoded fields.
