/** The business-card editor page (src/app/business-card/editor/page.tsx): a
    card whose accent colour comes from the URL, a logo switch, a flip
    button, and a two-page PDF holding the front and then the back. */
module BusinessCardEditor {
  import opened Wrappers
  import opened Records
  import opened Export
  import Text
  import BusinessCardPreview

  /** The `template` parameter: a template name selects that template,
      anything else keeps the current one. */
  function TemplateParam(param: Option<string>, current: BusinessCardPreview.Template): (t: BusinessCardPreview.Template)
    ensures param.Some? && BusinessCardPreview.Lookup(param.value).Some? ==> t == BusinessCardPreview.Lookup(param.value).value
    ensures param.None? || BusinessCardPreview.Lookup(param.value).None? ==> t == current
  {
    if param.Some? && BusinessCardPreview.Lookup(param.value).Some? then BusinessCardPreview.Lookup(param.value).value else current
  }

  lemma TemplateParamByName(t: BusinessCardPreview.Template, current: BusinessCardPreview.Template)
    ensures TemplateParam(Some(BusinessCardPreview.Name(t)), current) == t
  {
    match t
    case Sleek =>
    case Minimal =>
    case Bold =>
  }

  const Suffix := "_BusinessCard.pdf"

  /** `${cardData.name.replace(/\s/g, '_')}_BusinessCard.pdf`. There is no
      fallback here: an empty name gives "_BusinessCard.pdf". */
  function FileName(name: string): (fileName: string)
    ensures fileName == Text.Underscore(name) + Suffix
    ensures name == [] ==> fileName == "_BusinessCard.pdf"
    ensures |fileName| == |name| + |Suffix|
    ensures NoWhitespace(fileName)
  {
    var token := Text.Underscore(name);
    var r := token + Suffix;
    forall i | 0 <= i < |r|
      ensures !Text.IsWhitespace(r[i])
    {
      if i < |token| {
        assert r[i] == token[i];
      } else {
        assert r[i] == Suffix[i - |token|];
      }
    }
    r
  }

  /** The card the page opens with, with the logo placeholder because the
      logo switch starts on. */
  const InitialCard: BusinessCardData :=
    BusinessCardData(
      "John Doe",
      "CEO & Founder",
      "Creative Solutions",
      "john.doe@creativesolutions.com",
      "+1 234 567 890",
      "www.creativesolutions.com",
      "123 Design Lane, Art City, 54321",
      LogoPlaceholder,
      "#3b82f6")

  /** A mounted card face as the page measures it: `offsetWidth` and
      `offsetHeight`, in pixels. */
  datatype Element = Element(width: real, height: real)

  /** A landscape page of the given format: the PDF writer turns the format
      so that its longer side is the width. */
  function LandscapeWidth(width: real, height: real): (w: real)
    ensures w >= width && w >= height && (w == width || w == height)
  {
    if height > width then height else width
  }

  function LandscapeHeight(width: real, height: real): (h: real)
    ensures h <= width && h <= height && (h == width || h == height)
  {
    if height > width then width else height
  }

  /** The PDF a successful `generatePdf` saves: a landscape page the size of
      the front face, the front capture on the first page and the back
      capture on the second, each at the top left at its face's size. */
  function CardPdf(name: string, front: Element, back: Element, frontUrl: string, backUrl: string): (d: Download)
    ensures d.PdfFile? && d.name == FileName(name) && |d.pages| == 2
    ensures d.pageWidth == LandscapeWidth(front.width, front.height)
    ensures d.pageHeight == LandscapeHeight(front.width, front.height)
    ensures d.pages[0] == [Placement(frontUrl, 0.0, 0.0, front.width, front.height)]
    ensures d.pages[1] == [Placement(backUrl, 0.0, 0.0, back.width, back.height)]
  {
    PdfFile(FileName(name), LandscapeWidth(front.width, front.height), LandscapeHeight(front.width, front.height),
            [[Placement(frontUrl, 0.0, 0.0, front.width, front.height)],
             [Placement(backUrl, 0.0, 0.0, back.width, back.height)]])
  }

  /** `generatePdf`. Nothing happens unless both faces are mounted. Then the
      document is written front first; `capture` stands for the rendering of
      a face to a PNG data URL, which may fail, and a failed capture ends the
      generation with the error message and no download. `captured` lists
      the captures started, in order: the back is captured only once the
      front capture has succeeded. */
  method GeneratePdf(card: BusinessCardData, front: Option<Element>, back: Option<Element>,
                     capture: BusinessCardPreview.Side -> Option<string>)
    returns (saved: Option<Download>, failed: bool, captured: seq<BusinessCardPreview.Side>)
    ensures front.None? || back.None? ==> saved.None? && !failed && captured == []
    ensures front.Some? && back.Some? && capture(BusinessCardPreview.Front).None? ==>
      captured == [BusinessCardPreview.Front]
    ensures front.Some? && back.Some? && capture(BusinessCardPreview.Front).Some? ==>
      captured == [BusinessCardPreview.Front, BusinessCardPreview.Back]
    ensures front.Some? && back.Some? ==>
      (failed <==> capture(BusinessCardPreview.Front).None? || capture(BusinessCardPreview.Back).None?)
    ensures saved.Some? <==> front.Some? && back.Some? && !failed
    ensures saved.Some? ==>
      saved.value == CardPdf(card.name, front.value, back.value,
                             capture(BusinessCardPreview.Front).value, capture(BusinessCardPreview.Back).value)
  {
    saved, failed, captured := None, false, [];
    if front.None? || back.None? {
      return;
    }
    var f := front.value;
    var b := back.value;
    var pdf := new PdfDocument(LandscapeWidth(f.width, f.height), LandscapeHeight(f.width, f.height));
    var frontUrl := capture(BusinessCardPreview.Front);
    captured := captured + [BusinessCardPreview.Front];
    if frontUrl.None? {
      failed := true;
      return;
    }
    var first := Placement(frontUrl.value, 0.0, 0.0, f.width, f.height);
    pdf.AddImage(first);
    assert pdf.pages[0] == [first];
    assert pdf.pages == [[first]];
    pdf.AddPage();
    var backUrl := capture(BusinessCardPreview.Back);
    captured := captured + [BusinessCardPreview.Back];
    if backUrl.None? {
      failed := true;
      return;
    }
    var second := Placement(backUrl.value, 0.0, 0.0, b.width, b.height);
    pdf.AddImage(second);
    assert pdf.pages[0] == [first] && pdf.pages[1] == [second];
    assert pdf.pages == [[first], [second]];
    saved := Some(pdf.Save(FileName(card.name)));
  }

  class BusinessCardEditorPage {
    var isBack: bool
    var template: BusinessCardPreview.Template
    var withLogo: bool
    var cardData: BusinessCardData

    constructor()
      ensures !isBack && template == BusinessCardPreview.Sleek && withLogo && cardData == InitialCard
    {
      isBack := false;
      template := BusinessCardPreview.Sleek;
      withLogo := true;
      cardData := InitialCard;
    }

    /** The search-parameter effect. The colour parameter sets the card's
        accent colour; there is no separate page colour. */
    method ReadSearchParams(templateParam: Option<string>, colorParam: Option<string>, logoParam: Option<string>)
      modifies this
      ensures withLogo == SwitchParam(logoParam)
      ensures template == TemplateParam(templateParam, old(template))
      ensures cardData == old(cardData).(accentColor := ColourParam(colorParam, old(cardData.accentColor)))
      ensures isBack == old(isBack)
    {
      withLogo := SwitchParam(logoParam);
      template := TemplateParam(templateParam, template);
      cardData := cardData.(accentColor := ColourParam(colorParam, cardData.accentColor));
    }

    /** The effect that runs when the logo switch changes. */
    method SyncLogo()
      modifies this
      ensures cardData == old(cardData).(logoUrl := ImageToggle(withLogo, old(cardData.logoUrl), LogoPlaceholder))
      ensures withLogo <==> cardData.logoUrl != []
      ensures isBack == old(isBack) && template == old(template) && withLogo == old(withLogo)
    {
      cardData := cardData.(logoUrl := ImageToggle(withLogo, cardData.logoUrl, LogoPlaceholder));
    }

    /** The flip button turns the card over; both faces stay mounted. */
    method Flip()
      modifies this
      ensures isBack == !old(isBack)
      ensures template == old(template) && withLogo == old(withLogo) && cardData == old(cardData)
      ensures BusinessCardPreview.MountedSides(Preview()) == {BusinessCardPreview.Front, BusinessCardPreview.Back}
    {
      isBack := !isBack;
    }

    /** What the preview shows: the flip pane of the chosen template. */
    function Preview(): (r: BusinessCardPreview.Rendered)
      reads this
      ensures r == BusinessCardPreview.Render(cardData, isBack, BusinessCardPreview.Name(template))
      ensures r.Pane? && r.rotated == isBack && r.front.template == template && r.back.template == template
      ensures BusinessCardPreview.MountedSides(r) == {BusinessCardPreview.Front, BusinessCardPreview.Back}
    {
      BusinessCardPreview.SelectByName(template);
      BusinessCardPreview.Render(cardData, isBack, BusinessCardPreview.Name(template))
    }

    /** The download button on this page: the pane keeps both faces
        mounted, so the download is saved exactly when both captures
        succeed, whichever side is showing. */
    method Download(size: BusinessCardPreview.Side -> Element, capture: BusinessCardPreview.Side -> Option<string>)
      returns (saved: Option<Download>)
      ensures saved.Some? <==> capture(BusinessCardPreview.Front).Some? && capture(BusinessCardPreview.Back).Some?
      ensures saved.Some? ==>
        saved.value == CardPdf(cardData.name, size(BusinessCardPreview.Front), size(BusinessCardPreview.Back),
                               capture(BusinessCardPreview.Front).value, capture(BusinessCardPreview.Back).value)
    {
      var mounted := BusinessCardPreview.MountedSides(Preview());
      var front := if BusinessCardPreview.Front in mounted then Some(size(BusinessCardPreview.Front)) else None;
      var back := if BusinessCardPreview.Back in mounted then Some(size(BusinessCardPreview.Back)) else None;
      var failed, captured;
      saved, failed, captured := GeneratePdf(cardData, front, back, capture);
    }
  }
}
