/** The quotation editor page (src/app/quotation/editor/page.tsx). It is the
    invoice editor with a quotation for data and one more rule: the preview
    follows the window width. */
module QuotationEditor {
  import opened Wrappers
  import opened Records
  import opened Export
  import InvoicePreview
  import InvoiceEditor
  import QuotationPreview

  const DefaultColour := "221 83% 53%"

  /** Below this window width the preview is hidden. */
  const WideWidth := 1024

  /** `quotation-${quotation.quotationNumber || "draft"}` with the extension
      of the format. */
  function FileName(quotationNumber: string, format: Format): (name: string)
    ensures quotationNumber != [] ==> name == "quotation-" + quotationNumber + Extension(format)
    ensures quotationNumber == [] ==> name == "quotation-draft" + Extension(format)
  {
    DownloadName("quotation-", quotationNumber, "draft", Extension(format))
  }

  /** A quotation's download is never named like an invoice's, whatever
      the two numbers are. */
  lemma NeverAnInvoiceName(quotationNumber: string, invoiceNumber: string, format: Format)
    ensures FileName(quotationNumber, format) != InvoiceEditor.FileName(invoiceNumber, format)
  {
    var q := FileName(quotationNumber, format);
    var i := InvoiceEditor.FileName(invoiceNumber, format);
    assert q[0] == 'q' && i[0] == 'i';
  }

  /** The quotation the page opens with: dated `today`, valid until
      `validUntil` (the page adds 14 days), with no invoice number, and with
      the logo placeholder because the logo switch starts on. */
  function InitialQuotation(today: Date, validUntil: Date): Quotation
  {
    Quotation(
      Invoice(
        "",
        today,
        "Future Client",
        "contact@futureclient.com",
        "456 Prospect Ave\nSomecity, USA 67890",
        [InvoiceItem("1", "Initial Project Consultation", 2.0, 150.0),
         InvoiceItem("2", "Website Design Mockup", 1.0, 750.0)],
        0.0,
        "This quotation is valid for 14 days. Prices are subject to change afterwards.",
        LogoPlaceholder,
        "Your Company Inc.",
        "your-email@company.com",
        "123 Business Rd, Suite 100\nBusiness City, 12345",
        "USD"),
      "QUO-001",
      validUntil)
  }

  /** Generation from the capture of the preview: nothing when the preview
      is not mounted, else the A4 PDF or the PNG under the quotation's name. */
  function Generate(q: Quotation, format: Format, capture: Option<Canvas>): (d: Option<Download>)
    ensures capture.None? ==> d.None?
    ensures capture.Some? && format == Pdf ==> d == A4Pdf(capture.value, FileName(q.quotationNumber, Pdf))
    ensures capture.Some? && format == Png ==> d == Some(PngFile(FileName(q.quotationNumber, Png), capture.value.dataUrl))
  {
    match capture
    case None => None
    case Some(canvas) =>
      if format == Pdf then A4Pdf(canvas, FileName(q.quotationNumber, Pdf))
      else Some(PngDownload(canvas, FileName(q.quotationNumber, Png)))
  }

  class QuotationEditorPage {
    var isPreviewVisible: bool
    var template: InvoicePreview.Template
    var primaryColor: string
    var withCompanyLogo: bool
    var quotation: Quotation
    var requests: seq<Request>

    constructor(today: Date, validUntil: Date)
      ensures isPreviewVisible && template == InvoicePreview.Professional
      ensures primaryColor == DefaultColour && withCompanyLogo
      ensures quotation == InitialQuotation(today, validUntil) && requests == []
    {
      isPreviewVisible := true;
      template := InvoicePreview.Professional;
      primaryColor := DefaultColour;
      withCompanyLogo := true;
      quotation := InitialQuotation(today, validUntil);
      requests := [];
    }

    /** The search-parameter effect, with the invoice editor's whitelist. */
    method ReadSearchParams(templateParam: Option<string>, colorParam: Option<string>, logoParam: Option<string>)
      modifies this
      ensures withCompanyLogo == SwitchParam(logoParam)
      ensures template == InvoiceEditor.TemplateParam(templateParam, old(template))
      ensures primaryColor == ColourParam(colorParam, old(primaryColor))
      ensures isPreviewVisible == old(isPreviewVisible) && quotation == old(quotation) && requests == old(requests)
    {
      withCompanyLogo := SwitchParam(logoParam);
      template := InvoiceEditor.TemplateParam(templateParam, template);
      primaryColor := ColourParam(colorParam, primaryColor);
    }

    /** The resize handler, also run once on mount: the preview is shown
        exactly on a window at least 1024 pixels wide. */
    method Resize(innerWidth: int)
      modifies this
      ensures isPreviewVisible <==> innerWidth >= WideWidth
      ensures template == old(template) && primaryColor == old(primaryColor)
      ensures withCompanyLogo == old(withCompanyLogo) && quotation == old(quotation) && requests == old(requests)
    {
      if innerWidth < WideWidth {
        isPreviewVisible := false;
      } else {
        isPreviewVisible := true;
      }
    }

    /** The effect that runs when the logo switch changes. */
    method SyncLogo()
      modifies this
      ensures quotation == old(quotation).(base := old(quotation.base).(companyLogo :=
                ImageToggle(withCompanyLogo, old(quotation.base.companyLogo), LogoPlaceholder)))
      ensures withCompanyLogo ==> quotation.base.companyLogo != []
      ensures !withCompanyLogo ==> quotation.base.companyLogo == []
      ensures isPreviewVisible == old(isPreviewVisible) && template == old(template)
      ensures primaryColor == old(primaryColor) && withCompanyLogo == old(withCompanyLogo) && requests == old(requests)
    {
      quotation := quotation.(base := quotation.base.(companyLogo :=
        ImageToggle(withCompanyLogo, quotation.base.companyLogo, LogoPlaceholder)));
    }

    /** The show/hide button. */
    method TogglePreview()
      modifies this
      ensures isPreviewVisible == !old(isPreviewVisible)
      ensures template == old(template) && primaryColor == old(primaryColor)
      ensures withCompanyLogo == old(withCompanyLogo) && quotation == old(quotation) && requests == old(requests)
    {
      isPreviewVisible := !isPreviewVisible;
    }

    /** `handleDownload`: exactly one generation, deferred exactly when the
        preview had to be shown first. */
    method HandleDownload(format: Format)
      modifies this
      ensures isPreviewVisible
      ensures requests == old(requests) + [Request(format, !old(isPreviewVisible))]
      ensures template == old(template) && primaryColor == old(primaryColor)
      ensures withCompanyLogo == old(withCompanyLogo) && quotation == old(quotation)
    {
      requests := requests + [Request(format, !isPreviewVisible)];
      isPreviewVisible := true;
    }

    /** What the preview pane shows: the chosen template in quotation mode. */
    function Preview(): (s: InvoicePreview.Styled)
      reads this
      ensures s == QuotationPreview.Preview(quotation, InvoicePreview.Name(template), primaryColor)
      ensures s.page == InvoicePreview.Draw(template, QuotationPreview.Adapt(quotation), true, Some(quotation.validUntil))
    {
      InvoicePreview.SelectByName(template);
      QuotationPreview.Preview(quotation, InvoicePreview.Name(template), primaryColor)
    }
  }
}
