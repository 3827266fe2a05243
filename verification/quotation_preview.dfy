/** The quotation preview (src/components/quotation-preview.tsx): the same
    three invoice templates, drawn in quotation mode from an invoice that is
    adapted from the quotation. */
module QuotationPreview {
  import opened Wrappers
  import opened Records
  import InvoicePreview

  /** `{ ...quotation, invoiceNumber: quotation.quotationNumber, currency:
      quotation.currency || 'USD' }`: the quotation number becomes the
      document number, an empty currency becomes USD, and every other field
      is carried over. */
  function Adapt(q: Quotation): (inv: Invoice)
    ensures inv.invoiceNumber == q.quotationNumber
    ensures inv.currency == (if q.base.currency == [] then "USD" else q.base.currency)
    ensures inv.(invoiceNumber := q.base.invoiceNumber, currency := q.base.currency) == q.base
  {
    q.base.(invoiceNumber := q.quotationNumber,
            currency := if q.base.currency == [] then "USD" else q.base.currency)
  }

  /** The preview: the selected template (professional for an unknown key)
      draws the adapted quotation with `isQuotation` set and the quotation's
      own Valid Until date; the colour goes into `--primary-invoice`. */
  function Preview(q: Quotation, key: string, primaryColor: string): (s: InvoicePreview.Styled)
    ensures s.cssVariable == "--primary-invoice" && s.cssValue == primaryColor
    ensures s.page == InvoicePreview.Draw(InvoicePreview.Select(key), Adapt(q), true, Some(q.validUntil))
  {
    InvoicePreview.Styled("--primary-invoice", primaryColor,
      InvoicePreview.Draw(InvoicePreview.Select(key), Adapt(q), true, Some(q.validUntil)))
  }

  /** With the modern or simple template the page reads QUOTATION and shows
      the quotation's Valid Until date. The professional template, which is
      also the fallback, has no quotation mode: the page reads INVOICE and
      shows no Valid Until date. */
  lemma QuotationHeading(q: Quotation, key: string, primaryColor: string)
    ensures var p := Preview(q, key, primaryColor).page;
      InvoicePreview.Select(key) != InvoicePreview.Professional ==>
        InvoicePreview.DocTypeOf(p) == "QUOTATION" && InvoicePreview.ValidUntilOf(p) == Some(q.validUntil)
    ensures var p := Preview(q, key, primaryColor).page;
      InvoicePreview.Select(key) == InvoicePreview.Professional ==>
        InvoicePreview.DocTypeOf(p) == "INVOICE" && InvoicePreview.ValidUntilOf(p) == None
  {
  }
}
