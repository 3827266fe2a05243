/** The invoice editor page (src/app/invoice/editor/page.tsx): its React
    state as the fields of a class, the effects and buttons that update that
    state as methods, and the export rules (the template whitelist, the logo
    switch, the download names and the generation dispatch) as functions. */
module InvoiceEditor {
  import opened Wrappers
  import opened Records
  import opened Export
  import InvoicePreview
  import InvoiceLayout

  const DefaultColour := "221 83% 53%"

  /** The `template` search parameter: a template name selects that
      template; anything else, or no parameter, keeps the current one. */
  function TemplateParam(param: Option<string>, current: InvoicePreview.Template): (t: InvoicePreview.Template)
    ensures param.Some? && InvoicePreview.Lookup(param.value).Some? ==> t == InvoicePreview.Lookup(param.value).value
    ensures param.None? || InvoicePreview.Lookup(param.value).None? ==> t == current
  {
    if param.Some? && InvoicePreview.Lookup(param.value).Some? then InvoicePreview.Lookup(param.value).value else current
  }

  /** Every template can be chosen by its name, from any current template. */
  lemma TemplateParamByName(t: InvoicePreview.Template, current: InvoicePreview.Template)
    ensures TemplateParam(Some(InvoicePreview.Name(t)), current) == t
  {
    var r := InvoicePreview.Lookup(InvoicePreview.Name(t));
    assert r.Some? by {
      match t
      case Professional =>
      case Modern =>
      case Simple =>
    }
    assert InvoicePreview.Name(r.value) == InvoicePreview.Name(t);
    match t
    case Professional =>
    case Modern =>
    case Simple =>
  }

  /** A parameter that names no template changes nothing. */
  lemma TemplateParamUnknown(param: string, current: InvoicePreview.Template)
    requires param != "professional" && param != "modern" && param != "simple"
    ensures TemplateParam(Some(param), current) == current
  {
  }

  /** `invoice-${invoice.invoiceNumber || "draft"}` with the extension of
      the format. */
  function FileName(invoiceNumber: string, format: Format): (name: string)
    ensures invoiceNumber != [] ==> name == "invoice-" + invoiceNumber + Extension(format)
    ensures invoiceNumber == [] ==> name == "invoice-draft" + Extension(format)
  {
    DownloadName("invoice-", invoiceNumber, "draft", Extension(format))
  }

  /** The PDF and the PNG of one invoice carry the same name and differ in
      the extension only, and different invoice numbers give different
      names. */
  lemma FileNamesAgree(invoiceNumber: string, other: string)
    ensures FileName(invoiceNumber, Pdf)[..|FileName(invoiceNumber, Pdf)| - 4]
         == FileName(invoiceNumber, Png)[..|FileName(invoiceNumber, Png)| - 4]
    ensures invoiceNumber != [] && other != [] && invoiceNumber != other ==>
            FileName(invoiceNumber, Pdf) != FileName(other, Pdf)
  {
    var pdf := FileName(invoiceNumber, Pdf);
    var png := FileName(invoiceNumber, Png);
    var stem := if invoiceNumber == [] then "invoice-draft" else "invoice-" + invoiceNumber;
    assert pdf == stem + ".pdf" && png == stem + ".png";
    assert pdf[..|pdf| - 4] == stem;
    assert png[..|png| - 4] == stem;
    if invoiceNumber != [] && other != [] && invoiceNumber != other {
      var a := FileName(invoiceNumber, Pdf);
      var b := FileName(other, Pdf);
      if |a| == |b| {
        assert a[8..|a| - 4] == invoiceNumber;
        assert b[8..|b| - 4] == other;
      }
    }
  }

  /** The invoice the page opens with, dated `today`, with the logo
      placeholder in place because the logo switch starts on. */
  function InitialInvoice(today: Date): Invoice
  {
    Invoice(
      "INV-001",
      today,
      "Acme Inc.",
      "contact@acme.com",
      "123 Main Street\nAnytown, USA 12345",
      [InvoiceItem("1", "Premium Website Hosting", 1.0, 120.0),
       InvoiceItem("2", "Domain Name Registration", 1.0, 15.0)],
      8.5,
      "Payment is due within 30 days. Thank you for your business!",
      LogoPlaceholder,
      "Your Company Inc.",
      "your-email@company.com",
      "123 Business Rd, Suite 100\nBusiness City, 12345",
      "USD")
  }

  /** The sample invoice totals 135 before an 8.5% tax of 11.475. */
  lemma InitialTotals(today: Date)
    ensures InvoiceLayout.ComputeTotals(InitialInvoice(today).items, InitialInvoice(today).taxRate)
         == InvoiceLayout.Totals(135.0, 11.475, 146.475)
  {
    var items := InitialInvoice(today).items;
    var amounts := InvoiceLayout.RowAmounts(items);
    assert amounts == [120.0, 15.0];
    assert InvoiceLayout.Sum(amounts) == 120.0 + InvoiceLayout.Sum([15.0]);
    assert amounts[1..] == [15.0];
  }

  /** What generation produces from the capture of the preview: nothing
      when the preview is not mounted; otherwise the A4 PDF or the PNG of
      the capture under the invoice's file name. */
  function Generate(inv: Invoice, format: Format, capture: Option<Canvas>): (d: Option<Download>)
    ensures capture.None? ==> d.None?
    ensures capture.Some? && format == Pdf ==> d == A4Pdf(capture.value, FileName(inv.invoiceNumber, Pdf))
    ensures capture.Some? && format == Png ==> d == Some(PngFile(FileName(inv.invoiceNumber, Png), capture.value.dataUrl))
  {
    match capture
    case None => None
    case Some(canvas) =>
      if format == Pdf then A4Pdf(canvas, FileName(inv.invoiceNumber, Pdf))
      else Some(PngDownload(canvas, FileName(inv.invoiceNumber, Png)))
  }

  /** The page's state. */
  class InvoiceEditorPage {
    var isPreviewVisible: bool
    var template: InvoicePreview.Template
    var primaryColor: string
    var withCompanyLogo: bool
    var invoice: Invoice
    /** The generations asked for so far, oldest first. */
    var requests: seq<Request>

    constructor(today: Date)
      ensures isPreviewVisible && template == InvoicePreview.Professional
      ensures primaryColor == DefaultColour && withCompanyLogo
      ensures invoice == InitialInvoice(today) && requests == []
    {
      isPreviewVisible := true;
      template := InvoicePreview.Professional;
      primaryColor := DefaultColour;
      withCompanyLogo := true;
      invoice := InitialInvoice(today);
      requests := [];
    }

    /** The search-parameter effect: the logo switch follows its parameter,
        the template and the colour change only for an acceptable value. */
    method ReadSearchParams(templateParam: Option<string>, colorParam: Option<string>, logoParam: Option<string>)
      modifies this
      ensures withCompanyLogo == SwitchParam(logoParam)
      ensures template == TemplateParam(templateParam, old(template))
      ensures primaryColor == ColourParam(colorParam, old(primaryColor))
      ensures isPreviewVisible == old(isPreviewVisible) && invoice == old(invoice) && requests == old(requests)
    {
      withCompanyLogo := SwitchParam(logoParam);
      template := TemplateParam(templateParam, template);
      primaryColor := ColourParam(colorParam, primaryColor);
    }

    /** The effect that runs when the logo switch changes. */
    method SyncLogo()
      modifies this
      ensures invoice == old(invoice).(companyLogo := ImageToggle(withCompanyLogo, old(invoice.companyLogo), LogoPlaceholder))
      ensures withCompanyLogo ==> invoice.companyLogo != []
      ensures !withCompanyLogo ==> invoice.companyLogo == []
      ensures isPreviewVisible == old(isPreviewVisible) && template == old(template)
      ensures primaryColor == old(primaryColor) && withCompanyLogo == old(withCompanyLogo) && requests == old(requests)
    {
      invoice := invoice.(companyLogo := ImageToggle(withCompanyLogo, invoice.companyLogo, LogoPlaceholder));
    }

    /** A form edit, handed over by `setInvoice`. */
    method SetInvoice(inv: Invoice)
      modifies this
      ensures invoice == inv
      ensures isPreviewVisible == old(isPreviewVisible) && template == old(template)
      ensures primaryColor == old(primaryColor) && withCompanyLogo == old(withCompanyLogo) && requests == old(requests)
    {
      invoice := inv;
    }

    /** The button beside the preview shows or hides it. */
    method TogglePreview()
      modifies this
      ensures isPreviewVisible == !old(isPreviewVisible)
      ensures template == old(template) && primaryColor == old(primaryColor)
      ensures withCompanyLogo == old(withCompanyLogo) && invoice == old(invoice) && requests == old(requests)
    {
      isPreviewVisible := !isPreviewVisible;
    }

    /** `handleDownload`: exactly one generation is asked for; when the
        preview was hidden it is shown first and the generation waits for
        it, otherwise it runs at once. Either way the preview is visible
        afterwards, so there is something to capture. */
    method HandleDownload(format: Format)
      modifies this
      ensures isPreviewVisible
      ensures requests == old(requests) + [Request(format, !old(isPreviewVisible))]
      ensures template == old(template) && primaryColor == old(primaryColor)
      ensures withCompanyLogo == old(withCompanyLogo) && invoice == old(invoice)
    {
      requests := requests + [Request(format, !isPreviewVisible)];
      isPreviewVisible := true;
    }

    /** What the preview pane shows. */
    function Preview(): (s: InvoicePreview.Styled)
      reads this
      ensures s == InvoicePreview.Preview(invoice, InvoicePreview.Name(template), primaryColor)
      ensures s.page == InvoicePreview.Draw(template, invoice, false, None)
    {
      InvoicePreview.SelectByName(template);
      InvoicePreview.Preview(invoice, InvoicePreview.Name(template), primaryColor)
    }
  }
}
