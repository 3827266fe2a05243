/** The contract editor page (src/app/contract/editor/page.tsx): the formal,
    modern and simple templates, a logo switch, a preview that follows the
    window width, and a PDF named after the contract's title. */
module ContractEditor {
  import opened Wrappers
  import opened Records
  import opened Export
  import Text
  import ContractPreview

  const DefaultColour := "221 83% 53%"
  const WideWidth := 1024

  /** The `template` parameter: a template name selects that template,
      anything else keeps the current one. */
  function TemplateParam(param: Option<string>, current: ContractPreview.Template): (t: ContractPreview.Template)
    ensures param.Some? && ContractPreview.Lookup(param.value).Some? ==> t == ContractPreview.Lookup(param.value).value
    ensures param.None? || ContractPreview.Lookup(param.value).None? ==> t == current
  {
    if param.Some? && ContractPreview.Lookup(param.value).Some? then ContractPreview.Lookup(param.value).value else current
  }

  lemma TemplateParamByName(t: ContractPreview.Template, current: ContractPreview.Template)
    ensures TemplateParam(Some(ContractPreview.Name(t)), current) == t
  {
    match t
    case Formal =>
    case Modern =>
    case Simple =>
  }

  /** `${contract.title.replace(/\s/g, '_') || "contract"}.pdf`: the title
      with its whitespace underscored, or "contract" for an empty title, and
      no prefix. */
  function FileName(title: string): (fileName: string)
    ensures title == [] ==> fileName == "contract.pdf"
    ensures title != [] ==> fileName == Text.Underscore(title) + ".pdf"
    ensures NoWhitespace(fileName)
  {
    UnderscoredFallback("", title, "contract", ".pdf");
    UnderscoredNameHasNoWhitespace("", title, "contract", ".pdf");
    DownloadName("", Text.Underscore(title), "contract", ".pdf")
  }

  /** A title that differs from another only in its kind of whitespace gets
      the same file name: "Service Agreement" and "Service\tAgreement" are
      both saved as "Service_Agreement.pdf". */
  lemma WhitespaceKindIsLost(a: string, b: string)
    requires |a| == |b|
    requires forall i :: 0 <= i < |a| ==>
      (Text.IsWhitespace(a[i]) && Text.IsWhitespace(b[i])) || a[i] == b[i]
    ensures FileName(a) == FileName(b)
  {
    var ua := Text.Underscore(a);
    var ub := Text.Underscore(b);
    assert ua == ub;
  }

  /** The contract the page opens with, dated `today`, with the logo
      placeholder because the logo switch starts on. */
  function InitialContract(today: Date): ContractData
  {
    ContractData(
      "Service Agreement",
      "Client Name",
      "Your Name / Company",
      today,
      "- Development of a new website.\n- Deployment and testing.\n- Basic SEO setup.",
      "- 50% upfront.\n- 50% upon completion.",
      "1. All work will be completed within the agreed-upon timeframe...\n2. Any changes to the scope of work must be submitted in writing...",
      "Your Company Inc.",
      LogoPlaceholder)
  }

  /** Generation from the capture of the preview: nothing when it is not
      mounted, else the A4 PDF under the contract's file name. */
  function Generate(c: ContractData, capture: Option<Canvas>): (d: Option<Download>)
    ensures capture.None? ==> d.None?
    ensures capture.Some? ==> d == A4Pdf(capture.value, FileName(c.title))
  {
    match capture
    case None => None
    case Some(canvas) => A4Pdf(canvas, FileName(c.title))
  }

  class ContractEditorPage {
    var isPreviewVisible: bool
    var template: ContractPreview.Template
    var primaryColor: string
    var withCompanyLogo: bool
    var contract: ContractData
    var requests: seq<Request>

    constructor(today: Date)
      ensures isPreviewVisible && template == ContractPreview.Formal
      ensures primaryColor == DefaultColour && withCompanyLogo
      ensures contract == InitialContract(today) && requests == []
    {
      isPreviewVisible := true;
      template := ContractPreview.Formal;
      primaryColor := DefaultColour;
      withCompanyLogo := true;
      contract := InitialContract(today);
      requests := [];
    }

    method ReadSearchParams(templateParam: Option<string>, colorParam: Option<string>, logoParam: Option<string>)
      modifies this
      ensures withCompanyLogo == SwitchParam(logoParam)
      ensures template == TemplateParam(templateParam, old(template))
      ensures primaryColor == ColourParam(colorParam, old(primaryColor))
      ensures isPreviewVisible == old(isPreviewVisible) && contract == old(contract) && requests == old(requests)
    {
      withCompanyLogo := SwitchParam(logoParam);
      template := TemplateParam(templateParam, template);
      primaryColor := ColourParam(colorParam, primaryColor);
    }

    /** The resize handler, also run once on mount. */
    method Resize(innerWidth: int)
      modifies this
      ensures isPreviewVisible <==> innerWidth >= WideWidth
      ensures template == old(template) && primaryColor == old(primaryColor)
      ensures withCompanyLogo == old(withCompanyLogo) && contract == old(contract) && requests == old(requests)
    {
      if innerWidth < WideWidth {
        isPreviewVisible := false;
      } else {
        isPreviewVisible := true;
      }
    }

    /** The effect that runs when the logo switch changes. */
    method SyncLogo()
      modifies this
      ensures contract == old(contract).(companyLogo := ImageToggle(withCompanyLogo, old(contract.companyLogo), LogoPlaceholder))
      ensures withCompanyLogo <==> contract.companyLogo != []
      ensures isPreviewVisible == old(isPreviewVisible) && template == old(template)
      ensures primaryColor == old(primaryColor) && withCompanyLogo == old(withCompanyLogo) && requests == old(requests)
    {
      contract := contract.(companyLogo := ImageToggle(withCompanyLogo, contract.companyLogo, LogoPlaceholder));
    }

    /** The show/hide button. */
    method TogglePreview()
      modifies this
      ensures isPreviewVisible == !old(isPreviewVisible)
      ensures template == old(template) && primaryColor == old(primaryColor)
      ensures withCompanyLogo == old(withCompanyLogo) && contract == old(contract) && requests == old(requests)
    {
      isPreviewVisible := !isPreviewVisible;
    }

    /** `handleGeneratePDF`: exactly one PDF generation, deferred exactly
        when the preview had to be shown first. */
    method HandleGeneratePdf()
      modifies this
      ensures isPreviewVisible
      ensures requests == old(requests) + [Request(Pdf, !old(isPreviewVisible))]
      ensures template == old(template) && primaryColor == old(primaryColor)
      ensures withCompanyLogo == old(withCompanyLogo) && contract == old(contract)
    {
      requests := requests + [Request(Pdf, !isPreviewVisible)];
      isPreviewVisible := true;
    }

    /** What the preview pane shows: the chosen template, with the logo
        block exactly when the logo switch has left a logo. */
    function Preview(): (s: ContractPreview.Styled)
      reads this
      ensures s == ContractPreview.Preview(contract, ContractPreview.Name(template), primaryColor)
      ensures s.view == ContractPreview.Render(template, contract)
      ensures s.view.logo.Some? <==> contract.companyLogo != []
    {
      ContractPreview.SelectByName(template);
      ContractPreview.EveryTemplateSameClauses(template, contract);
      ContractPreview.Preview(contract, ContractPreview.Name(template), primaryColor)
    }
  }
}
