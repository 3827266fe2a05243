/** The modern invoice template (src/components/invoice-templates/modern.tsx),
    which the quotation editor also uses in quotation mode. */
module ModernInvoice {
  import opened Wrappers
  import opened Records
  import Text
  import opened InvoiceLayout

  /** What the template shows, top to bottom. */
  datatype View = View(
    companyHeading: string,
    logo: Option<string>,
    addressLines: seq<string>,
    docType: string,
    billedToLabel: string,
    client: Party,
    numberLabel: string,
    number: string,
    dateLabel: string,
    date: Date,
    validUntil: Option<Date>,
    rows: seq<BodyRow>,
    notes: Option<string>,
    taxRate: real,
    totals: Totals)

  /** `docNumberLabel`. */
  function NumberLabel(isQuotation: bool): (r: string)
    ensures r == "Quotation No." <==> isQuotation
    ensures r == "Invoice No." <==> !isQuotation
  {
    if isQuotation then "Quotation No." else "Invoice No."
  }

  /** `billedToLabel`. */
  function BilledToLabel(isQuotation: bool): (r: string)
    ensures r == "Quote To" <==> isQuotation
    ensures r == "Billed To" <==> !isQuotation
  {
    if isQuotation then "Quote To" else "Billed To"
  }

  /** `dateLabel`: both arms of the conditional are the same text. */
  function DateLabel(isQuotation: bool): (r: string)
    ensures r == "Date of Issue"
  {
    if isQuotation then "Date of Issue" else "Date of Issue"
  }

  /** The address column: `companyAddress.split('\n')`, one line per piece,
      so the lines joined with line breaks give the address back. */
  function AddressLines(address: string): (lines: seq<string>)
    ensures |lines| == Text.Count(address, '\n') + 1
    ensures forall i :: 0 <= i < |lines| ==> '\n' !in lines[i]
    ensures Text.Join(lines, "\n") == address
  {
    Text.Split(address, '\n')
  }

  /** The rendered document. Its type, number and client labels read as a
      quotation exactly when `isQuotation` holds (false when not given); the
      Valid Until date is shown exactly for a quotation that has one. */
  function Render(inv: Invoice, isQuotation: bool := false, validUntil: Option<Date> := None): (v: View)
    ensures v.docType == DocType(isQuotation)
    ensures v.numberLabel == NumberLabel(isQuotation) && v.billedToLabel == BilledToLabel(isQuotation)
    ensures v.docType == "QUOTATION" <==> isQuotation
    ensures v.numberLabel == "Quotation No." <==> isQuotation
    ensures v.billedToLabel == "Quote To" <==> isQuotation
    ensures v.dateLabel == "Date of Issue"
    ensures v.validUntil.Some? <==> isQuotation && validUntil.Some?
    ensures v.validUntil.Some? ==> v.validUntil == validUntil
    ensures v.logo.Some? <==> inv.companyLogo != []
    ensures v.logo.Some? ==> v.logo.value == inv.companyLogo
    ensures v.date == inv.date && v.taxRate == inv.taxRate
    ensures v.companyHeading == inv.companyName && v.number == inv.invoiceNumber
    ensures v.addressLines == AddressLines(inv.companyAddress)
    ensures Text.Join(v.addressLines, "\n") == inv.companyAddress
    ensures v.client == ClientParty(inv)
    ensures v.rows == BodyRows(inv.items)
    ensures v.totals == ComputeTotals(inv.items, inv.taxRate)
    ensures v.notes == NotesBlock(inv.notes)
  {
    View(
      inv.companyName,
      if inv.companyLogo != [] then Some(inv.companyLogo) else None,
      AddressLines(inv.companyAddress),
      DocType(isQuotation),
      BilledToLabel(isQuotation),
      ClientParty(inv),
      NumberLabel(isQuotation),
      inv.invoiceNumber,
      DateLabel(isQuotation),
      inv.date,
      ValidUntilLine(isQuotation, validUntil),
      BodyRows(inv.items),
      NotesBlock(inv.notes),
      inv.taxRate,
      ComputeTotals(inv.items, inv.taxRate))
  }

  /** The mode changes the labels and the Valid Until line and nothing else. */
  lemma ModeChangesOnlyLabels(inv: Invoice, validUntil: Option<Date>)
    ensures Render(inv, true, validUntil).(docType := "", numberLabel := "", billedToLabel := "", validUntil := None)
         == Render(inv, false, validUntil).(docType := "", numberLabel := "", billedToLabel := "", validUntil := None)
  {
  }
}
