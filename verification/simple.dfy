/** The simple invoice template (src/components/invoice-templates/simple.tsx),
    which the quotation editor also uses in quotation mode. */
module SimpleInvoice {
  import opened Wrappers
  import opened Records
  import opened InvoiceLayout

  /** What the template shows, top to bottom. */
  datatype View = View(
    docType: string,
    logo: Option<string>,
    company: Party,
    numberLabel: string,
    number: string,
    date: Date,
    validUntil: Option<Date>,
    billToLabel: string,
    client: Party,
    rows: seq<BodyRow>,
    taxRate: real,
    totals: Totals,
    notes: Option<string>)

  /** `docNumberLabel`. */
  function NumberLabel(isQuotation: bool): (r: string)
    ensures r == "Quotation #:" <==> isQuotation
    ensures r == "Invoice #:" <==> !isQuotation
  {
    if isQuotation then "Quotation #:" else "Invoice #:"
  }

  /** `billToLabel`. */
  function BillToLabel(isQuotation: bool): (r: string)
    ensures r == "Quote To:" <==> isQuotation
    ensures r == "Bill To:" <==> !isQuotation
  {
    if isQuotation then "Quote To:" else "Bill To:"
  }

  /** The rendered document: labels read as a quotation exactly when
      `isQuotation` holds (false when not given); Valid Until only for a
      quotation with the date; every empty company or client field shows its
      placeholder; the notes block only when there are notes. */
  function Render(inv: Invoice, isQuotation: bool := false, validUntil: Option<Date> := None): (v: View)
    ensures v.docType == DocType(isQuotation)
    ensures v.numberLabel == NumberLabel(isQuotation) && v.billToLabel == BillToLabel(isQuotation)
    ensures v.docType == "QUOTATION" <==> isQuotation
    ensures v.numberLabel == "Quotation #:" <==> isQuotation
    ensures v.billToLabel == "Quote To:" <==> isQuotation
    ensures v.validUntil.Some? <==> isQuotation && validUntil.Some?
    ensures v.validUntil.Some? ==> v.validUntil == validUntil
    ensures v.logo.Some? <==> inv.companyLogo != []
    ensures v.logo.Some? ==> v.logo.value == inv.companyLogo
    ensures v.date == inv.date && v.taxRate == inv.taxRate
    ensures v.company == CompanyParty(inv) && v.client == ClientParty(inv)
    ensures v.number == inv.invoiceNumber
    ensures v.rows == BodyRows(inv.items)
    ensures v.totals == ComputeTotals(inv.items, inv.taxRate)
    ensures v.notes == NotesBlock(inv.notes)
  {
    View(
      DocType(isQuotation),
      if inv.companyLogo != [] then Some(inv.companyLogo) else None,
      CompanyParty(inv),
      NumberLabel(isQuotation),
      inv.invoiceNumber,
      inv.date,
      ValidUntilLine(isQuotation, validUntil),
      BillToLabel(isQuotation),
      ClientParty(inv),
      BodyRows(inv.items),
      inv.taxRate,
      ComputeTotals(inv.items, inv.taxRate),
      NotesBlock(inv.notes))
  }
}
