/** The invoice preview (src/components/invoice-preview.tsx): a table from
    template name to invoice template, with the professional template as the
    fallback, inside a container that sets the `--primary-invoice` colour. */
module InvoicePreview {
  import opened Wrappers
  import opened Records
  import ProfessionalInvoice
  import ModernInvoice
  import SimpleInvoice

  datatype Template = Professional | Modern | Simple

  function Name(t: Template): string
  {
    match t
    case Professional => "professional"
    case Modern => "modern"
    case Simple => "simple"
  }

  /** `templates[template]`: defined exactly for the three names. */
  function Lookup(key: string): (r: Option<Template>)
    ensures r.Some? <==> key == "professional" || key == "modern" || key == "simple"
    ensures r.Some? ==> Name(r.value) == key
  {
    if key == "professional" then Some(Professional)
    else if key == "modern" then Some(Modern)
    else if key == "simple" then Some(Simple)
    else None
  }

  /** `templates[template] || ProfessionalInvoice`: the named template, and
      the professional one for any other key (keys inherited from
      `Object.prototype` aside). */
  function Select(key: string): (t: Template)
    ensures Lookup(key).Some? ==> t == Lookup(key).value
    ensures Lookup(key).None? ==> t == Professional
  {
    Lookup(key).GetOr(Professional)
  }

  /** Every template is reached by its own name. */
  lemma SelectByName(t: Template)
    ensures Select(Name(t)) == t
  {
  }

  /** A page drawn by one of the three invoice templates. */
  datatype Page =
    | ProfessionalPage(professional: ProfessionalInvoice.View)
    | ModernPage(modern: ModernInvoice.View)
    | SimplePage(simple: SimpleInvoice.View)

  /** Draws `inv` with template `t`. The professional template has no
      quotation mode and ignores the last two arguments. */
  function Draw(t: Template, inv: Invoice, isQuotation: bool, validUntil: Option<Date>): (p: Page)
    ensures p.ProfessionalPage? <==> t == Professional
    ensures p.ModernPage? <==> t == Modern
    ensures p.SimplePage? <==> t == Simple
    ensures t == Professional ==> p == ProfessionalPage(ProfessionalInvoice.Render(inv))
    ensures t == Modern ==> p == ModernPage(ModernInvoice.Render(inv, isQuotation, validUntil))
    ensures t == Simple ==> p == SimplePage(SimpleInvoice.Render(inv, isQuotation, validUntil))
  {
    match t
    case Professional => ProfessionalPage(ProfessionalInvoice.Render(inv))
    case Modern => ModernPage(ModernInvoice.Render(inv, isQuotation, validUntil))
    case Simple => SimplePage(SimpleInvoice.Render(inv, isQuotation, validUntil))
  }

  /** The heading word a page shows. */
  function DocTypeOf(p: Page): string
  {
    match p
    case ProfessionalPage(v) => v.docType
    case ModernPage(v) => v.docType
    case SimplePage(v) => v.docType
  }

  /** The Valid Until date a page shows, if any. */
  function ValidUntilOf(p: Page): Option<Date>
  {
    match p
    case ProfessionalPage(_) => None
    case ModernPage(v) => v.validUntil
    case SimplePage(v) => v.validUntil
  }

  /** A page inside a container that sets one CSS custom property. */
  datatype Styled = Styled(cssVariable: string, cssValue: string, page: Page)

  /** The preview: the selected template draws the invoice as it is, without
      quotation mode, and the colour goes unchanged into `--primary-invoice`. */
  function Preview(inv: Invoice, key: string, primaryColor: string): (s: Styled)
    ensures s.cssVariable == "--primary-invoice" && s.cssValue == primaryColor
    ensures s.page == Draw(Select(key), inv, false, None)
  {
    Styled("--primary-invoice", primaryColor, Draw(Select(key), inv, false, None))
  }

  /** Whatever the key, the invoice preview is headed INVOICE and shows no
      Valid Until line. */
  lemma PreviewIsAnInvoice(inv: Invoice, key: string, primaryColor: string)
    ensures DocTypeOf(Preview(inv, key, primaryColor).page) == "INVOICE"
    ensures ValidUntilOf(Preview(inv, key, primaryColor).page) == None
  {
  }
}
