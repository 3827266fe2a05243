# easygen document tools — a Dafny model

easygen is a Next.js application of browser-side document generators. Its
tools are invoices, quotations, CVs, contracts, cover letters, business cards
and QR codes. Each tool has an editor page with a form and a live preview.

- The form rebuilds the document record on every edit.
- The preview draws the record with one of several templates, chosen by name.
- The page exports the rendered preview as a PDF (or a PNG). It captures the
  preview with `html2canvas` and lays the capture out with `jsPDF`.

This project models the rules underneath that markup:

- **Forms.** The form handlers are functions from the old record to the new
  one, over id-keyed lists of items, experience entries and education
  entries. This covers update-where-the-id-matches, append-a-blank-entry,
  remove-by-id and the skills parser.
- **Invoice templates.** The professional, modern and simple templates become
  views computed from an invoice. They compute the subtotal, tax and total
  (with exact reals), the table body with its empty-list placeholder, the
  quotation/invoice labels and the placeholder text for empty fields.
- **Previews.** Each preview component is a lookup from template name to
  template, with its fallback. It passes its colour through into a CSS custom
  property.
- **Text clean-up.** This covers the AI-suggestion parser and the CV template's
  description-to-bullets rule.
- **Editor pages.** Each editor is a class whose fields are the page's React
  state. Its methods are the effects and buttons:
  - the template whitelist, the colour parameter and the logo or
    profile-image switch;
  - the resize rule;
  - the download dispatch, which first shows a hidden preview and then asks
    for exactly one generation.

  The export helpers are pure functions: the A4 image height, the download
  file names and the PDF the business card writes. A `PdfDocument` class
  records what is placed on which page.
- **Small builders.** These are the QR-code request address with its blank
  check, and the home page's category filter.

Modules follow the source files. Shared modules:

- `Wrappers` (Option);
- `Text` (JavaScript `split`/`join`/`trim`/`replace` and the `\s` class);
- `Seqs` (`filter`/`map`);
- `Records` (the types of `src/lib/types.ts`);
- `Export` (what the editors share when they export);
- `InvoiceLayout` (what the three invoice templates share).

## Model

| member | source | states |
|---|---|---|
| Text.Split | src/components/cv-form.tsx:82 | `split` on one character gives one piece per separator plus one. No piece contains the separator, and the pieces joined with it give the input back. |
| Text.SplitJoin | src/components/cv-form.tsx:82 | Splitting undoes joining, for pieces that do not contain the separator. |
| Text.SplitConcat | src/lib/actions.ts:9 | Splitting text made of two parts around a separator gives the pieces of the first part, then the pieces of the second, in order. |
| Text.Trim | src/lib/actions.ts:10 | `trim` returns a stretch of the input with only whitespace before and after it and none at either of its own ends. It is empty exactly when the input is all whitespace. |
| Text.TrimUnique | src/lib/actions.ts:10 | A stretch of the input with no whitespace at its own ends and only whitespace around it is what `trim` returns, so the contract of `Trim` determines its result. |
| Text.TrimOfTrimmed | src/components/cv-form.tsx:82 | Trimming text that is already trimmed changes nothing. |
| Text.StripListMarker | src/lib/actions.ts:10 | `replace(/^- /, '')` removes one leading "- " when the text starts with one, and otherwise changes nothing. |
| Text.Underscore | src/app/cv/editor/page.tsx:118 | `replace(/\s/g, '_')` keeps the length and turns every whitespace character, and only those, into `_`. |
| Text.NatToStringInjective | src/components/invoice-form.tsx:41 | Different clock readings give different `toString()` ids, because the decimal digits read back to the number. |
| Seqs.Filter | src/components/invoice-form.tsx:50 | `filter` keeps exactly the elements that pass the test, and nothing else. |
| Seqs.FilterConcat | src/components/invoice-form.tsx:50 | Filtering a concatenation filters each part, so the kept elements stay in their original order. |
| Seqs.FilterIsSubsequence | src/app/page.tsx:100 | The result of `filter` is a subsequence of its input. |
| Seqs.FilterIdempotent | src/components/invoice-form.tsx:49-51 | Filtering twice with the same test is the same as filtering once. |
| Seqs.UpdateWhere | src/components/invoice-form.tsx:30-35 | The conditional `map` keeps the length. Each position holds the updated element where the test holds and the old element elsewhere. |
| InvoiceForm.HandleInputChange | src/components/invoice-form.tsx:24-27 | The named input's field takes the value. Every other form field, and every field the form cannot reach, keeps its value. |
| InvoiceForm.OrZero | src/components/invoice-form.tsx:120-123 | `parsed \|\| 0` stores 0 exactly when the parse gave NaN or 0, and otherwise keeps the parsed number. |
| InvoiceForm.ApplyItemEdit | src/components/invoice-form.tsx:32 | `{...item, [field]: value}` sets the one field, with the `\|\| 0` fallback for numbers, and keeps the id. |
| InvoiceForm.HandleItemChange | src/components/invoice-form.tsx:29-37 | Same length and order. Every item with the id is edited, every other item is unchanged, and nothing outside the items changes. |
| InvoiceForm.HandleTaxRateChange | src/components/invoice-form.tsx:142 | Only the tax rate changes, and it becomes 0 exactly when the input parses to NaN or 0. |
| InvoiceForm.SelectDate | src/components/invoice-form.tsx:77 | Clearing the calendar selection leaves the invoice unchanged. Picking a date changes only the date. |
| InvoiceForm.AddItem | src/components/invoice-form.tsx:39-47 | Appends exactly one item `{id: now, name: '', quantity: 1, price: 0}`. The old items are a prefix, and nothing else changes. |
| InvoiceForm.RemoveItem | src/components/invoice-form.tsx:49-51 | No item with the id remains, and every item with another id remains, in original order. Nothing outside the items changes. |
| InvoiceForm.RemoveItemIdempotent | src/components/invoice-form.tsx:49-51 | Removing the same id twice is the same as removing it once. |
| InvoiceForm.RemoveAbsentItem | src/components/invoice-form.tsx:49-51 | Removing an id that no item carries leaves the invoice unchanged. |
| InvoiceForm.RemoveItemSplits | src/components/invoice-form.tsx:50 | Removal acts on each item by itself: removing from two halves and concatenating gives the same list. |
| InvoiceForm.AddItemKeepsIdsUnique | src/components/invoice-form.tsx:40-46 | If the existing ids are distinct earlier clock readings, the ids stay distinct after an add. |
| InvoiceForm.Apply | src/components/invoice-form.tsx:24-142 | No form edit touches the company fields, the logo or the currency. |
| CvForm.HandlePersonalInfoChange | src/components/cv-form.tsx:22-28 | One key of `personalInfo` takes the value. The other keys, the image and the rest of the CV are unchanged. |
| CvForm.HandleProfileImageLoaded | src/components/cv-form.tsx:30-43 | An empty read result changes nothing. Otherwise it becomes the profile image and nothing else changes. |
| CvForm.HandleSummaryChange | src/components/cv-form.tsx:45-47 | Only the summary changes. |
| CvForm.SetExperienceField | src/components/cv-form.tsx:52 | The chosen field takes the value. Every other field and the id are unchanged. |
| CvForm.ExperienceByFields | src/components/cv-form.tsx:52 | An entry is determined by its id and its fields, so the setter's contract fixes the entry it returns. |
| CvForm.HandleExperienceChange | src/components/cv-form.tsx:49-54 | Same length and order. The field is set on every entry with the id and on no other, and the rest of the CV is unchanged. |
| CvForm.AddExperience | src/components/cv-form.tsx:56-59 | Appends one entry whose text fields are all empty. The old entries are a prefix. |
| CvForm.RemoveExperience | src/components/cv-form.tsx:61-63 | Keeps exactly the entries with another id, in order. The rest of the CV is unchanged. |
| CvForm.RemoveExperienceIdempotent | src/components/cv-form.tsx:61-63 | Removing twice is the same as removing once. |
| CvForm.SetEducationField | src/components/cv-form.tsx:68 | The chosen field takes the value. Every other field and the id are unchanged. |
| CvForm.EducationByFields | src/components/cv-form.tsx:68 | An entry is determined by its id and its fields, so the setter's contract fixes the entry it returns. |
| CvForm.HandleEducationChange | src/components/cv-form.tsx:65-70 | Same length and order. The field is set exactly on the entries with the id. |
| CvForm.AddEducation | src/components/cv-form.tsx:72-75 | Appends one entry whose text fields are all empty. The old entries are a prefix. |
| CvForm.RemoveEducation | src/components/cv-form.tsx:77-79 | Keeps exactly the entries with another id, in order. |
| CvForm.RemoveEducationIdempotent | src/components/cv-form.tsx:77-79 | Removing twice is the same as removing once. |
| CvForm.ParseSkills | src/components/cv-form.tsx:82 | One skill per comma plus one. The i-th skill is the i-th comma-separated piece, trimmed. |
| CvForm.HandleSkillsChange | src/components/cv-form.tsx:81-84 | Only the skills change, and they become the parse of the input. |
| CvForm.ParseEmptySkills | src/components/cv-form.tsx:82 | An empty input gives `[""]`, not `[]`. |
| CvForm.Spaced | src/components/cv-form.tsx:209 | The pieces of the `join(', ')` text: the first skill, then each later skill with the separator's space in front. |
| CvForm.JoinSpaced | src/components/cv-form.tsx:209 | Joining with ", " is the same as joining the spaced pieces with ",". |
| CvForm.SkillsRoundTrip | src/components/cv-form.tsx:209 | For a non-empty list of trimmed skills without commas, parsing the displayed `join(', ')` gives the list back. |
| InvoiceLayout.RowAmounts | src/components/invoice-templates/professional.tsx:74 | One amount per item, in order, each being quantity times price. |
| InvoiceLayout.ReduceIsSum | src/components/invoice-templates/professional.tsx:19 | The `reduce` fold started at `acc` is `acc` plus the sum of the row amounts. |
| InvoiceLayout.SumConcat | src/components/invoice-templates/professional.tsx:19 | The sum of a concatenation is the sum of the two sums. |
| InvoiceLayout.ComputeTotals | src/components/invoice-templates/professional.tsx:19-21 | Subtotal = Σ quantity·price, tax = subtotal·rate/100, and total = subtotal + tax = subtotal·(1 + rate/100). |
| InvoiceLayout.EmptyTotals | src/components/invoice-templates/professional.tsx:19-21 | With no items every figure is 0, whatever the rate. |
| InvoiceLayout.AppendItemTotals | src/components/invoice-templates/modern.tsx:26 | Appending an item adds its quantity·price to the subtotal. |
| InvoiceLayout.AddItemKeepsTotals | src/components/invoice-form.tsx:39-47 | The blank row `addItem` appends (quantity 1, price 0) leaves every figure unchanged. |
| InvoiceLayout.TotalsNonNegative | src/components/invoice-templates/simple.tsx:25-27 | With no negative quantity, price or rate, 0 ≤ subtotal ≤ total. |
| InvoiceLayout.SumNonNegative | src/components/invoice-templates/simple.tsx:25 | A sum of non-negative amounts is non-negative. |
| InvoiceLayout.BodyRows | src/components/invoice-templates/professional.tsx:68-83 | With no items, exactly one "No items added yet." row. Otherwise one row per item, in order, each showing its item and quantity·price. |
| InvoiceLayout.RowsAddUpToSubtotal | src/components/invoice-templates/professional.tsx:68-83 | The amounts shown in the table add up to the subtotal shown below it. |
| InvoiceLayout.ShownAmountsOfItems | src/components/invoice-templates/modern.tsx:85-100 | The amount column of the item rows is the list of row amounts. |
| InvoiceLayout.DocType | src/components/invoice-templates/modern.tsx:29 | The heading is "QUOTATION" exactly in quotation mode, and "INVOICE" exactly otherwise. |
| InvoiceLayout.ClientParty | src/components/invoice-templates/professional.tsx:44-48 | An empty client name, email or address shows its fixed placeholder, so no line is blank. |
| InvoiceLayout.CompanyParty | src/components/invoice-templates/simple.tsx:41-43 | An empty company name, email or address shows its fixed placeholder. |
| InvoiceLayout.NotesBlock | src/components/invoice-templates/simple.tsx:108-113 | The notes block is there exactly when the notes are non-empty, and it shows them. |
| InvoiceLayout.ValidUntilLine | src/components/invoice-templates/modern.tsx:67-70 | Valid Until is shown exactly in quotation mode with a date, and it shows that date. |
| ProfessionalInvoice.Render | src/components/invoice-templates/professional.tsx:18-118 | The logo is shown exactly when there is one, else the company name. The heading is always INVOICE. The number, date and tax rate are the invoice's own. Parties, rows, totals and the notes block follow the shared rules. The footer is the company name, the footer address and the email. |
| ProfessionalInvoice.NoEscapeBefore | src/components/invoice-templates/professional.tsx:118 | The two-character pattern `\n` cannot start before the first backslash. |
| ProfessionalInvoice.FooterKeepsPlainAddress | src/components/invoice-templates/professional.tsx:118 | The footer's `replace('\\n', ', ')` leaves an address with real line breaks (and no backslash) unchanged. |
| ProfessionalInvoice.FooterReplacesFirstOnly | src/components/invoice-templates/professional.tsx:118 | Only the first escaped `\n` becomes ", ". Later ones are kept. |
| ProfessionalInvoice.PlainFooter | src/components/invoice-templates/professional.tsx:118 | For an address with no backslash, the rendered footer is the name, the address as it is and the email, joined by " \| ". |
| ModernInvoice.NumberLabel | src/components/invoice-templates/modern.tsx:30 | "Quotation No." exactly in quotation mode, "Invoice No." otherwise. |
| ModernInvoice.BilledToLabel | src/components/invoice-templates/modern.tsx:32 | "Quote To" exactly in quotation mode, "Billed To" otherwise. |
| ModernInvoice.DateLabel | src/components/invoice-templates/modern.tsx:31 | "Date of Issue" in both modes. |
| ModernInvoice.AddressLines | src/components/invoice-templates/modern.tsx:43 | One line per newline-separated piece, with no line break inside a line. Joined with line breaks, the lines give the address. |
| ModernInvoice.Render | src/components/invoice-templates/modern.tsx:25-112 | The type, number and client labels are those of `DocType`, `NumberLabel` and `BilledToLabel` for the mode, and read as a quotation exactly when `isQuotation` holds (false by default). The address lines are `AddressLines` of the address. Valid Until appears under its condition, and the logo, when present, is the company logo. The date and tax rate are the invoice's own. Rows, totals and the notes block follow the shared rules. |
| ModernInvoice.ModeChangesOnlyLabels | src/components/invoice-templates/modern.tsx:29-32 | Quotation mode changes the three labels and the Valid Until line, and nothing else. |
| SimpleInvoice.NumberLabel | src/components/invoice-templates/simple.tsx:29 | "Quotation #:" exactly in quotation mode. |
| SimpleInvoice.BillToLabel | src/components/invoice-templates/simple.tsx:30 | "Quote To:" exactly in quotation mode. |
| SimpleInvoice.Render | src/components/invoice-templates/simple.tsx:24-113 | The type, number and client labels are those of `DocType`, `NumberLabel` and `BillToLabel` for the mode, and read as a quotation exactly when `isQuotation` holds. Valid Until appears only for a quotation with the date. The logo, when present, is the company logo, and the date and tax rate are the invoice's own. Empty company and client fields show placeholders. The notes block is `NotesBlock` of the notes. |
| InvoicePreview.Lookup | src/components/invoice-preview.tsx:17-21 | The table is defined exactly for the three names, and each name finds its own template. |
| InvoicePreview.Select | src/components/invoice-preview.tsx:23 | A known name selects its template. Any other key selects Professional. Keys inherited from `Object.prototype` are the exception (see Left out). |
| InvoicePreview.SelectByName | src/components/invoice-preview.tsx:17-23 | Every template is reached by its own name. |
| InvoicePreview.Draw | src/components/invoice-preview.tsx:31 | The page is the chosen template's rendering of this invoice: the professional one takes the invoice alone, the modern and simple ones also take the quotation flag and the Valid Until date. |
| InvoicePreview.Preview | src/components/invoice-preview.tsx:16-34 | The invoice goes to the template unchanged, without quotation mode. The colour goes unchanged into `--primary-invoice`. |
| InvoicePreview.PreviewIsAnInvoice | src/components/invoice-preview.tsx:31 | Whatever the key, the invoice preview is headed INVOICE and shows no Valid Until. |
| QuotationPreview.Adapt | src/components/quotation-preview.tsx:29-34 | The quotation number becomes the document number, and an empty currency becomes USD. Every other field is carried over. |
| QuotationPreview.Preview | src/components/quotation-preview.tsx:15-41 | The selected template (Professional for an unknown key) draws the adapted data with `isQuotation` set and the quotation's Valid Until. The colour goes into `--primary-invoice`. |
| QuotationPreview.QuotationHeading | src/components/quotation-preview.tsx:38 | The modern and simple templates read QUOTATION and show Valid Until. The professional template, also the fallback, reads INVOICE and shows none. |
| CoverLetterPreview.Lookup | src/components/cover-letter-preview.tsx:16-20 | The table is defined exactly for classic, modern and simple. |
| CoverLetterPreview.Select | src/components/cover-letter-preview.tsx:22 | Any other key selects Classic. Keys inherited from `Object.prototype` are the exception (see Left out). |
| CoverLetterPreview.SelectByName | src/components/cover-letter-preview.tsx:16-22 | Every template is reached by its own name. |
| CoverLetterPreview.Preview | src/components/cover-letter-preview.tsx:15-33 | The letter goes to the selected template unchanged. The colour goes unchanged into `--primary-cover-letter`. |
| ContractPreview.Lookup | src/components/contract-preview.tsx:189-193 | The table is defined exactly for formal, modern and simple. |
| ContractPreview.Select | src/components/contract-preview.tsx:195 | Any other or missing key selects Formal. Keys inherited from `Object.prototype` are the exception (see Left out). |
| ContractPreview.SelectByName | src/components/contract-preview.tsx:189-195 | Every template is reached by its own name. |
| ContractPreview.LogoBlock | src/components/contract-preview.tsx:12-16 | The logo block is there exactly when `companyLogo` is non-empty. |
| ContractPreview.RenderFormal | src/components/contract-preview.tsx:10-71 | An empty title shows "Contract Agreement". Empty party names show "Client Name" and "Contractor Name". The signature lines show the names as they are. The logo is `LogoBlock`. The sections are headed "1. Scope of Work", "2. Payment Terms" and "3. Terms and Conditions" and hold the three clause texts in that order. |
| ContractPreview.RenderModern | src/components/contract-preview.tsx:73-129 | Title, parties and signature lines are shown as they are, with no placeholders. The logo is `LogoBlock`. The headings are numbered, with "3. Terms & Conditions", over the three clause texts in order. |
| ContractPreview.RenderSimple | src/components/contract-preview.tsx:131-185 | Title, parties and signature lines are shown as they are, with no placeholders. The logo is `LogoBlock`. The headings are unnumbered, over the three clause texts in order. |
| ContractPreview.HeadingsTellTemplatesApart | src/components/contract-preview.tsx:39-157 | Two different templates never show the same list of section headings. |
| ContractPreview.Bodies | src/components/contract-preview.tsx:38-51 | The clause texts, one per section, in the order shown. |
| ContractPreview.EveryTemplateSameClauses | src/components/contract-preview.tsx:10-185 | Every template shows the logo exactly when there is one, and lists scope of work, then payment terms, then terms and conditions. |
| ContractPreview.Preview | src/components/contract-preview.tsx:187-204 | The selected template draws the contract. The colour goes unchanged into `--primary-contract`. |
| BusinessCardPreview.Lookup | src/components/business-card-preview.tsx:97-101 | The table is defined exactly for sleek, minimal and bold. |
| BusinessCardPreview.Select | src/components/business-card-preview.tsx:113 | Any other key selects the sleek pair. Keys inherited from `Object.prototype` are the exception (see Left out). |
| BusinessCardPreview.SelectByName | src/components/business-card-preview.tsx:97-113 | Every pair is reached by its own name. |
| BusinessCardPreview.CharAt0 | src/components/business-card-preview.tsx:31 | `charAt(0)` gives the first character, or "" for an empty name. |
| BusinessCardPreview.MarkOf | src/components/business-card-preview.tsx:25-84 | Fronts show no mark, and a back with a logo shows the logo. Without a logo, the sleek back shows the initial, the minimal back nothing, and the bold back the company name. |
| BusinessCardPreview.Render | src/components/business-card-preview.tsx:112-128 | Outside the pane exactly one face is drawn, the back iff `isBack`. In the pane (the default) both faces are drawn and `isBack` only sets the rotation. Every face drawn is of the selected template and carries the mark `MarkOf` gives for its side. |
| BusinessCardPreview.PaneFlipKeepsFaces | src/components/business-card-preview.tsx:120-128 | Flipping in the pane changes only the rotation. Both faces stay mounted. |
| BusinessCardPreview.SingleFaceMountsOneSide | src/components/business-card-preview.tsx:115-117 | A face drawn on its own leaves the other side's ref unattached. |
| CvPreview.Named | src/app/cv/editor/page.tsx:42 | The five template names the editor accepts, each finding its own template. |
| CvPreview.Lookup | src/components/cv-preview.tsx:14-19 | As written: defined exactly for classic and modern, with no fallback. |
| CvPreview.Preview | src/components/cv-preview.tsx:13-26 | As written: classic and modern draw the CV unchanged. For any other key the component is `undefined` and the render throws (`None`), and no colour is taken. |
| CvPreview.OfferedTemplatesMissing | src/components/cv-preview.tsx:19 | Minimalist, creative and professional, all offered by the editor, have no component, so their render throws. |
| CvPreview.ColourIgnored | src/components/cv-preview.tsx:8-11 | The colour has no effect on the preview. |
| CvPreview.PreviewCorrected | src/components/cv-preview.tsx:13-26 | Corrected: all five templates, with a classic fallback. The colour goes into `--primary-cv`. |
| CvPreview.CorrectedDrawsEveryTemplate | src/components/cv-preview.tsx:14-19 | Corrected: every template the editor can select draws the CV with that template. |
| CvPreview.CorrectedAgreesWhereDefined | src/components/cv-preview.tsx:19 | Where the preview as written draws something, the corrected one draws the same page. |
| ClassicCv.Bullets | src/components/cv-templates/classic.tsx:58-59 | One bullet per line, that is newlines plus one, in line order. Each bullet is its line with at most one leading "- " removed. |
| ClassicCv.OneMarkerRemoved | src/components/cv-templates/classic.tsx:59 | Only one marker is removed: "- - x" becomes "- x". |
| ClassicCv.UnmarkedDescription | src/components/cv-templates/classic.tsx:58 | A description with no marked line gives its lines, which join back to the description. |
| ClassicCv.Render | src/components/cv-templates/classic.tsx:5-93 | Name, email, phone, address and summary are shown as they are. Photo and website appear exactly when set, each with its own value. Experience and education keep list order. Each entry shows its own title or degree, company or school, and "start - end" dates, and each experience shows its description's bullets. Skills are joined with " · ". |
| Suggestions.CleanLine | src/lib/actions.ts:10 | The result is the trimmed line less the one leading "- " it starts with, and the trimmed line itself when it does not start with one. |
| Suggestions.CleanLines | src/lib/actions.ts:8-10 | One cleaned line per reply line, in order. |
| Suggestions.ParseSuggestions | src/lib/actions.ts:8-11 | No empty suggestion, and no more suggestions than lines. Each suggestion is a cleaned line, and every non-empty cleaned line is kept. |
| Suggestions.GetSuggestions | src/lib/actions.ts:5-16 | A failed call gives `[]`. Otherwise the parsed reply. |
| Suggestions.BlankLineDropped | src/lib/actions.ts:10-11 | A blank or whitespace-only line gives no suggestion. |
| Suggestions.OneLine | src/lib/actions.ts:8-11 | A single line gives its cleaned form, unless that is empty. |
| Suggestions.LinesInOrder | src/lib/actions.ts:8-11 | Line order is kept: two blocks of lines give the first block's suggestions, then the second's. |
| Suggestions.CleanLinesConcat | src/lib/actions.ts:9-10 | Cleaning two blocks joined by a newline is cleaning each block. |
| Suggestions.MarkedLines | src/lib/actions.ts:8-11 | A two-line "- a", "- b" reply gives `[a, b]`. |
| Suggestions.MarkedLine | src/lib/actions.ts:10-11 | One marked line gives the text after its marker. |
| Suggestions.CleanMarked | src/lib/actions.ts:10 | Cleaning "- a" gives a, for trimmed non-empty a. |
| Suggestions.MarkedIsTrimmed | src/lib/actions.ts:10 | "- a" is already trimmed when a is. |
| Export.A4IsIsoA4 | src/app/invoice/editor/page.tsx:88-89 | The A4 width and height that the PDF writer reports in millimetres are within 0.01 mm of ISO 216's 210 × 297. |
| Export.ImageHeight | src/app/invoice/editor/page.tsx:90 | Height · canvas width = canvas height · page width, so proportions are kept. A zero-width canvas has no height. |
| Export.ScaleDoesNotMatter | src/app/invoice/editor/page.tsx:81-90 | The capture scale does not change the placed image's height. |
| Export.Extension | src/app/invoice/editor/page.tsx:92-112 | ".pdf" for a PDF and ".png" for a PNG. |
| Export.A4Pdf | src/app/invoice/editor/page.tsx:86-92 | One A4 page holding the capture at the top left, full width, at the proportional height, under the given name. It fails for a zero-width capture. |
| Export.PngDownload | src/app/invoice/editor/page.tsx:110-114 | The PNG is the capture itself under the given name. |
| Export.ImageToggle | src/app/invoice/editor/page.tsx:69-75 | Off clears the image. On keeps a non-empty image and otherwise inserts the placeholder. |
| Export.ImageToggleIdempotent | src/app/invoice/editor/page.tsx:69-75 | Applying the switch twice is the same as applying it once. |
| Export.ImageToggleShows | src/app/quotation/editor/page.tsx:85-91 | With a non-empty placeholder, there is an image exactly when the switch is on. |
| Export.SwitchParam | src/app/invoice/editor/page.tsx:57 | The switch is on exactly when the parameter is the text "true". |
| Export.ColourParam | src/app/invoice/editor/page.tsx:64-66 | A non-empty colour parameter replaces the colour. An absent or empty one keeps it. |
| Export.DownloadName | src/app/invoice/editor/page.tsx:92 | `prefix${token \|\| fallback}ext`: the fallback is used exactly when the token is empty. |
| Export.UnderscoredNameHasNoWhitespace | src/app/cv/editor/page.tsx:118 | A name built from underscored text has no whitespace. |
| Export.UnderscoredFallback | src/app/cv/editor/page.tsx:118 | After underscoring, the fallback applies exactly when the text is empty. |
| Export.DownloadNameToken | src/app/invoice/editor/page.tsx:92 | The token can be read back between the prefix and the extension. |
| Export.PdfDocument.constructor | src/app/invoice/editor/page.tsx:88 | A new document has the page size and one empty page. |
| Export.PdfDocument.AddImage | src/app/business-card/editor/page.tsx:77 | The image goes at the end of the last page. Other pages are unchanged. |
| Export.PdfDocument.AddPage | src/app/business-card/editor/page.tsx:80 | One new empty page after the others. |
| Export.PdfDocument.Save | src/app/business-card/editor/page.tsx:85 | The saved file has the name, the page size and exactly the pages written. |
| InvoiceEditor.TemplateParam | src/app/invoice/editor/page.tsx:61-63 | Only "professional", "modern" or "simple" changes the template. Anything else keeps it. |
| InvoiceEditor.TemplateParamByName | src/app/invoice/editor/page.tsx:61-63 | Each template can be chosen by its name from any current template. |
| InvoiceEditor.TemplateParamUnknown | src/app/invoice/editor/page.tsx:61 | An unknown name changes nothing. |
| InvoiceEditor.FileName | src/app/invoice/editor/page.tsx:92 | `invoice-<number>` plus the format's extension, or `invoice-draft` for an empty number. |
| InvoiceEditor.FileNamesAgree | src/app/invoice/editor/page.tsx:112 | The PDF and PNG names differ only in the extension. Different non-empty numbers give different names. |
| InvoiceEditor.InitialTotals | src/app/invoice/editor/page.tsx:41-45 | The sample invoice totals 135 before an 8.5% tax of 11.475, for 146.475. |
| InvoiceEditor.Generate | src/app/invoice/editor/page.tsx:78-122 | Nothing without a mounted preview. Otherwise the A4 PDF or the PNG of the capture under the invoice's name. |
| InvoiceEditor.InvoiceEditorPage.constructor | src/app/invoice/editor/page.tsx:29-52 | The page opens with the preview shown, Professional, the default colour, the logo on and the sample invoice. |
| InvoiceEditor.InvoiceEditorPage.ReadSearchParams | src/app/invoice/editor/page.tsx:54-67 | The logo switch follows its parameter. The template and colour change only for acceptable values, and nothing else changes. |
| InvoiceEditor.InvoiceEditorPage.SyncLogo | src/app/invoice/editor/page.tsx:69-75 | The logo follows the keep-or-placeholder / clear rule. Only the logo changes. |
| InvoiceEditor.InvoiceEditorPage.SetInvoice | src/components/invoice-form.tsx:26 | A form edit replaces the invoice and nothing else. |
| InvoiceEditor.InvoiceEditorPage.TogglePreview | src/app/invoice/editor/page.tsx:186 | The show/hide button flips preview visibility only. |
| InvoiceEditor.InvoiceEditorPage.HandleDownload | src/app/invoice/editor/page.tsx:125-136 | Exactly one generation is requested. It is deferred exactly when the preview was hidden, and the preview is visible afterwards. |
| InvoiceEditor.InvoiceEditorPage.Preview | src/app/invoice/editor/page.tsx:200 | The pane draws the invoice with the chosen template, not in quotation mode. |
| QuotationEditor.FileName | src/app/quotation/editor/page.tsx:107 | `quotation-<number>` plus the extension, with `draft` for an empty number. |
| QuotationEditor.NeverAnInvoiceName | src/app/quotation/editor/page.tsx:127 | A quotation's download never has an invoice's name. |
| QuotationEditor.Generate | src/app/quotation/editor/page.tsx:93-137 | Nothing without a mounted preview. Otherwise the A4 PDF or the PNG under the quotation's name. |
| QuotationEditor.QuotationEditorPage.constructor | src/app/quotation/editor/page.tsx:31-55 | The page opens with the preview shown, Professional, the default colour, the logo on and the sample quotation. |
| QuotationEditor.QuotationEditorPage.ReadSearchParams | src/app/quotation/editor/page.tsx:57-70 | The three-name whitelist, the colour rule and the logo switch. Nothing else changes. |
| QuotationEditor.QuotationEditorPage.Resize | src/app/quotation/editor/page.tsx:72-79 | The preview is visible exactly when the width is at least 1024. |
| QuotationEditor.QuotationEditorPage.SyncLogo | src/app/quotation/editor/page.tsx:85-91 | The keep-or-placeholder / clear rule on the quotation's logo. |
| QuotationEditor.QuotationEditorPage.TogglePreview | src/app/quotation/editor/page.tsx:203 | Flips preview visibility only. |
| QuotationEditor.QuotationEditorPage.HandleDownload | src/app/quotation/editor/page.tsx:139-150 | Exactly one generation, deferred exactly when the preview was hidden. The preview is visible afterwards. |
| QuotationEditor.QuotationEditorPage.Preview | src/app/quotation/editor/page.tsx:210 | The pane draws the adapted quotation in quotation mode with its Valid Until. |
| CvEditor.TemplateParam | src/app/cv/editor/page.tsx:42-44 | Only the five CV names change the template. |
| CvEditor.TemplateParamByName | src/app/cv/editor/page.tsx:42-44 | Each of the five can be chosen by its name. |
| CvEditor.ColourParamOrDefault | src/app/cv/editor/page.tsx:45-49 | A non-empty colour parameter is used. Otherwise the colour goes back to "221 83% 53%". |
| CvEditor.FileName | src/app/cv/editor/page.tsx:118 | `cv-` plus the underscored name plus `.pdf`, with `draft` exactly when the name is empty. The name has no whitespace. |
| CvEditor.Generate | src/app/cv/editor/page.tsx:104-126 | Nothing without a mounted preview. Otherwise the A4 PDF under the CV's name. |
| CvEditor.CvEditorPage.constructor | src/app/cv/editor/page.tsx:29-33 | Preview shown, classic, default colour and the profile-image switch off. |
| CvEditor.CvEditorPage.ReadSearchParams | src/app/cv/editor/page.tsx:35-50 | The five-name whitelist, the colour reset and the image switch. |
| CvEditor.CvEditorPage.ChooseTemplate | src/app/cv/editor/page.tsx:191-195 | The menu sets the template directly, to any of the five. |
| CvEditor.CvEditorPage.SyncProfileImage | src/app/cv/editor/page.tsx:95-101 | The keep-or-placeholder / clear rule on the profile image. |
| CvEditor.CvEditorPage.TogglePreview | src/app/cv/editor/page.tsx:169 | Flips preview visibility only. |
| CvEditor.CvEditorPage.ShowPreview | src/app/cv/editor/page.tsx:141-142 | `handlePreview` shows the preview. |
| CvEditor.CvEditorPage.HandleGeneratePdf | src/app/cv/editor/page.tsx:128-139 | Exactly one PDF generation, deferred exactly when the preview was hidden. |
| CvEditor.CvEditorPage.Preview | src/app/cv/editor/page.tsx:180 | As written: the pane draws the CV exactly for classic and modern. For the other three the render throws and, with no error boundary, the editor page fails. |
| CvEditor.CvEditorPage.CorrectedPreview | src/app/cv/editor/page.tsx:180 | Corrected: the pane draws the chosen template, in the page's colour. |
| ContractEditor.TemplateParam | src/app/contract/editor/page.tsx:49-51 | Only formal, modern or simple changes the template. |
| ContractEditor.TemplateParamByName | src/app/contract/editor/page.tsx:49-51 | Each template can be chosen by its name. |
| ContractEditor.FileName | src/app/contract/editor/page.tsx:105 | The underscored title plus `.pdf` with no prefix, or `contract.pdf` for an empty title. There is no whitespace. |
| ContractEditor.WhitespaceKindIsLost | src/app/contract/editor/page.tsx:105 | Titles that differ only in the kind of whitespace get the same file name. |
| ContractEditor.Generate | src/app/contract/editor/page.tsx:91-113 | Nothing without a mounted preview. Otherwise the A4 PDF under the title's name. |
| ContractEditor.ContractEditorPage.constructor | src/app/contract/editor/page.tsx:24-40 | Preview shown, formal, default colour, logo on and the sample contract. |
| ContractEditor.ContractEditorPage.ReadSearchParams | src/app/contract/editor/page.tsx:42-55 | The whitelist, the colour rule and the logo switch. |
| ContractEditor.ContractEditorPage.Resize | src/app/contract/editor/page.tsx:57-68 | The preview is visible exactly when the width is at least 1024. |
| ContractEditor.ContractEditorPage.SyncLogo | src/app/contract/editor/page.tsx:70-76 | The keep-or-placeholder / clear rule on the contract's logo. |
| ContractEditor.ContractEditorPage.TogglePreview | src/app/contract/editor/page.tsx:165 | Flips preview visibility only. |
| ContractEditor.ContractEditorPage.HandleGeneratePdf | src/app/contract/editor/page.tsx:78-89 | Exactly one PDF generation, deferred exactly when the preview was hidden. |
| ContractEditor.ContractEditorPage.Preview | src/app/contract/editor/page.tsx:172 | The pane shows the logo block exactly when the switch has left a logo. |
| CoverLetterEditor.TemplateParam | src/app/cover-letter/editor/page.tsx:40-42 | Only classic, modern or simple changes the template. |
| CoverLetterEditor.TemplateParamByName | src/app/cover-letter/editor/page.tsx:40-42 | Each template can be chosen by its name. |
| CoverLetterEditor.FileName | src/app/cover-letter/editor/page.tsx:105 | `cover-letter-` plus the underscored name plus `.pdf`, with `draft` for an empty name. There is no whitespace. |
| CoverLetterEditor.Generate | src/app/cover-letter/editor/page.tsx:91-113 | Nothing without a mounted preview. Otherwise the A4 PDF under the letter's name. |
| CoverLetterEditor.OneColumnAlwaysShown | src/app/cover-letter/editor/page.tsx:145-149 | The wide layout shows both columns, and the mobile layout exactly one. |
| CoverLetterEditor.CoverLetterEditorPage.constructor | src/app/cover-letter/editor/page.tsx:26-31 | Edit mode, not mobile, classic, default colour, image on and the sample letter. |
| CoverLetterEditor.CoverLetterEditorPage.ReadSearchParams | src/app/cover-letter/editor/page.tsx:33-46 | The whitelist, the colour rule and the image switch. |
| CoverLetterEditor.CoverLetterEditorPage.Resize | src/app/cover-letter/editor/page.tsx:48-59 | Mobile exactly when the width is below 1024. A wide window forces edit mode. |
| CoverLetterEditor.CoverLetterEditorPage.SetViewMode | src/app/cover-letter/editor/page.tsx:200 | The switch sets preview or edit mode. |
| CoverLetterEditor.CoverLetterEditorPage.SyncProfileImage | src/app/cover-letter/editor/page.tsx:82-88 | The keep-or-placeholder / clear rule on the profile image. |
| CoverLetterEditor.CoverLetterEditorPage.HandleGeneratePdf | src/app/cover-letter/editor/page.tsx:115-126 | Exactly one generation, deferred exactly when mobile and not in preview mode, which then switches to preview. The preview column is in view afterwards. |
| CoverLetterEditor.CoverLetterEditorPage.PreviewPane | src/app/cover-letter/editor/page.tsx:152 | The chosen template with the letter as it is, in the page's colour. |
| BusinessCardEditor.TemplateParam | src/app/business-card/editor/page.tsx:47-49 | Only sleek, minimal or bold changes the template. |
| BusinessCardEditor.TemplateParamByName | src/app/business-card/editor/page.tsx:47-49 | Each template can be chosen by its name. |
| BusinessCardEditor.FileName | src/app/business-card/editor/page.tsx:85 | The underscored name plus `_BusinessCard.pdf`, with no fallback: an empty name gives `_BusinessCard.pdf`. There is no whitespace. |
| BusinessCardEditor.LandscapeWidth | src/app/business-card/editor/page.tsx:68-72 | A landscape page's width is the longer of the two sides. |
| BusinessCardEditor.LandscapeHeight | src/app/business-card/editor/page.tsx:68-72 | A landscape page's height is the shorter of the two sides. |
| BusinessCardEditor.CardPdf | src/app/business-card/editor/page.tsx:68-85 | Two pages of the front face's size: the front capture, then the back capture, each at its own face's size. |
| BusinessCardEditor.GeneratePdf | src/app/business-card/editor/page.tsx:64-93 | No-op unless both faces are mounted. The back is captured only after the front capture succeeds. A failed capture saves nothing, and otherwise the saved file is the two-page card PDF. |
| BusinessCardEditor.BusinessCardEditorPage.constructor | src/app/business-card/editor/page.tsx:23-38 | The front is showing, sleek, the logo on and the sample card. |
| BusinessCardEditor.BusinessCardEditorPage.ReadSearchParams | src/app/business-card/editor/page.tsx:40-53 | The whitelist, and a non-empty colour that overwrites only the card's accent colour. |
| BusinessCardEditor.BusinessCardEditorPage.SyncLogo | src/app/business-card/editor/page.tsx:55-61 | The keep-or-placeholder / clear rule on `logoUrl`. |
| BusinessCardEditor.BusinessCardEditorPage.Flip | src/app/business-card/editor/page.tsx:128 | Turns the card over. Both faces stay mounted. |
| BusinessCardEditor.BusinessCardEditorPage.Preview | src/app/business-card/editor/page.tsx:125 | The flip pane of the chosen template, rotated exactly when the back is showing. |
| BusinessCardEditor.BusinessCardEditorPage.Download | src/app/business-card/editor/page.tsx:64-93 | From this page the PDF is saved exactly when both captures succeed, whichever side is showing. |
| QrCode.QrUrl | src/app/qr-code/page.tsx:29-31 | The base, then the encoded text, then `&` and the size query. |
| QrCode.UrlAfterBase | src/app/qr-code/page.tsx:30 | After the base come the encoded text, `&`, and `size=SxS`. |
| QrCode.SizeQueryInjective | src/app/qr-code/page.tsx:30 | The size can be read back from `size=SxS`. |
| QrCode.QrUrlInjective | src/app/qr-code/page.tsx:29-31 | The address determines the text and the size when the text holds no `&`, which encoded text never does. |
| QrCode.DefaultSizeSpelled | src/app/qr-code/page.tsx:16 | The default size 250 is spelled "250". |
| QrCode.InitialUrlIsRaw | src/app/qr-code/page.tsx:15-17 | The starting address is the request for the raw, unencoded default text at size 250. |
| QrCode.InitialUrlNotGenerated | src/app/qr-code/page.tsx:17-31 | No Generate ever reproduces the starting address, because encoding escapes the `:` of "https:" and any `&`. |
| QrCode.QrCodePage.constructor | src/app/qr-code/page.tsx:15-17 | The default text, size 250 and the starting address. |
| QrCode.QrCodePage.SetData | src/app/qr-code/page.tsx:80 | Typing changes only the text. |
| QrCode.QrCodePage.SetSize | src/app/qr-code/page.tsx:86-93 | The slider sets the size, which stays within 100..1000 in steps of 10. |
| QrCode.QrCodePage.HandleGenerate | src/app/qr-code/page.tsx:20-32 | Blank text is an error and leaves the address as it was. Otherwise the address becomes the request for the encoded text at the slider's size. |
| Home.ToolCategories | src/app/page.tsx:23-72 | Every tool's category is document, graphic or productive. |
| Home.FilteredTools | src/app/page.tsx:100 | Exactly the tools whose category matches, or all of them for "all", in the list's order. |
| Home.AllShowsEveryTool | src/app/page.tsx:100 | The "all" tab shows every tool. |
| Home.UnknownCategoryShowsNothing | src/app/page.tsx:100 | A filter matching no category shows nothing. |

## Left out

- `html2canvas` and `jsPDF` are foreign libraries. A capture is a `Canvas` value, or `None` when the ref is not mounted. The PDF is the record of the pages and placements written to it. Compression, image decoding and the byte format are not modelled.
- The business card's landscape page swap is modelled. The rest of jsPDF's page-format handling is not.
- A zero-width capture is modelled as a failed export. In the browser it would give an infinite height.
- Toast notifications, `console.error`, the `<a>.click()` download trigger and the `setTimeout(…, 500)` deferral are left out. A generation request carries a `deferred` flag in place of the timer.
- The event loop and promise ordering are left out. The business card's capture order is modelled as the list of captures started.
- Resize listeners are reduced to the width rule applied once per resize.
- The CSS 3D flip and all layout classes are left out.
- The `localStorage` handoff (`handlePreview`) and the preview pages under `src/app/*/preview/` are storage I/O and are left out. The CV editor's `handlePreview` is modelled only as showing the preview.
- The AI flow in `src/ai/flows/suggest-invoice-item.ts` is an LLM call. Its reply is an `Option<string>` input, and `None` stands for a thrown error.
- `parseInt`/`parseFloat` are not modelled. Their result is an `Option<real>`, and `None` stands for NaN.
- Currency formatting (`Intl.NumberFormat`), date formatting (`format(…, 'PPP')`) and IEEE-754 rounding are left out. Amounts are exact reals, and dates are opaque values.
- `encodeURIComponent` is a function parameter. Its output alphabet is stated as the predicate `QrCode.Encoded`.
- The QR code's download (`fetch` of the image, blob and object URL) is network I/O and is left out.
- The image itself is drawn by an external service and is not part of this model.
- `Date.now()` is an input (`now`). The quotation's "today plus 14 days" is an input (`validUntil`).
- The cover-letter templates, the contract form, the business-card form and the cover-letter form are markup with single-field setters. They are not part of this model. `InvoiceForm.HandleInputChange` shows the setter pattern.
- The modern, minimalist, creative and professional CV templates repeat the classic template's bullet rule. `ClassicCv.SkillsLine` takes the skills separator as a parameter in their place. The creative template's first-letter avatar is not part of this model.
- The cover-letter editor's narrow layout renders the preview markup twice. Which copy the capture ref attaches to is not modelled. The preview is modelled as one pane.
- `src/lib/types.ts` declares no cover-letter record, and its `ContractData` lacks `companyName` and `companyLogo`. `Records.CoverLetterData` and the two extra contract fields follow the editors that build them.
- The template-picker pages, navigation, layout, blog and logo components are static or routing only, and are left out.
- `src/app/invoice/page.tsx`, an older copy of the invoice editor's export path, is not part of this model.
- CvPreview.Preview: `None` stands for the error that rendering an `undefined` component throws. What the page shows after that error is not modelled.
- BusinessCardPreview.CharAt0: strings are modelled as sequences of Unicode scalar values, not UTF-16 code units. For a company name that starts with a character outside the Basic Multilingual Plane, such as an emoji, `charAt(0)` gives a lone surrogate, while the model gives the whole character. The same holds for every string length in the model.
- InvoicePreview.Select: a key that names a property inherited from `Object.prototype` (`constructor`, `toString`, …) finds that property and does not fall back. The model treats such keys like any other unknown key. The editors pass only the names their own parameter checks admit.
- CoverLetterPreview.Select: the same holds for keys inherited from `Object.prototype`.
- ContractPreview.Select: the same holds for keys inherited from `Object.prototype`.
- BusinessCardPreview.Select: the same holds for keys inherited from `Object.prototype`.
- CvPreview.Lookup: the same holds for keys inherited from `Object.prototype`. Such a key finds a function, not a template.
- InvoiceEditor.InvoiceEditorPage.SetInvoice: the form's handlers are separate functions (`InvoiceForm`). This method only states that a form edit replaces the invoice.

## Findings

| source | as written | input that shows it | evidently intended | confidence | as-written member | corrected member |
|---|---|---|---|---|---|---|
| src/components/cv-preview.tsx:14-19 | The template table holds only `classic` and `modern` and has no fallback. The editor offers five templates (src/app/cv/editor/page.tsx:42, 191-195). For the other three, `<undefined …/>` throws during render, and with no error boundary the editor page fails. | template `minimalist`, `creative` or `professional` | every template the editor offers draws the CV, with classic as the fallback | not executed | CvPreview.OfferedTemplatesMissing | CvPreview.CorrectedDrawsEveryTemplate |
| src/components/cv-preview.tsx:8-11 | The props take no colour, so the `--primary-cv` variable the templates read is never set by the colour the editor passes (src/app/cv/editor/page.tsx:180). | any two different colours | the colour goes into `--primary-cv`, as the other previews do | not executed | CvPreview.ColourIgnored | CvPreview.PreviewCorrected |
