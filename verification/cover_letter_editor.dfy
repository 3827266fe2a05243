/** The cover-letter editor page (src/app/cover-letter/editor/page.tsx). Like
    the invoice and CV editors, and unlike the quotation and contract
    editors, it keeps its preview mounted and hides it with CSS: on a narrow
    window the page shows either the form or the preview, chosen by an
    edit/preview switch, and on a wide window it shows both. */
module CoverLetterEditor {
  import opened Wrappers
  import opened Records
  import opened Export
  import Text
  import CoverLetterPreview

  const DefaultColour := "221 83% 53%"

  /** Below this window width the page is in its mobile layout. */
  const WideWidth := 1024

  datatype ViewMode = Edit | Preview

  /** The `template` parameter: a template name selects that template,
      anything else keeps the current one. */
  function TemplateParam(param: Option<string>, current: CoverLetterPreview.Template): (t: CoverLetterPreview.Template)
    ensures param.Some? && CoverLetterPreview.Lookup(param.value).Some? ==> t == CoverLetterPreview.Lookup(param.value).value
    ensures param.None? || CoverLetterPreview.Lookup(param.value).None? ==> t == current
  {
    if param.Some? && CoverLetterPreview.Lookup(param.value).Some? then CoverLetterPreview.Lookup(param.value).value else current
  }

  lemma TemplateParamByName(t: CoverLetterPreview.Template, current: CoverLetterPreview.Template)
    ensures TemplateParam(Some(CoverLetterPreview.Name(t)), current) == t
  {
    match t
    case Classic =>
    case Modern =>
    case Simple =>
  }

  /** `cover-letter-${name.replace(/\s/g, '_') || "draft"}.pdf`. */
  function FileName(name: string): (fileName: string)
    ensures name == [] ==> fileName == "cover-letter-draft.pdf"
    ensures name != [] ==> fileName == "cover-letter-" + Text.Underscore(name) + ".pdf"
    ensures NoWhitespace(fileName)
  {
    UnderscoredFallback("cover-letter-", name, "draft", ".pdf");
    UnderscoredNameHasNoWhitespace("cover-letter-", name, "draft", ".pdf");
    DownloadName("cover-letter-", Text.Underscore(name), "draft", ".pdf")
  }

  const LetterBody :=
    "Dear Ms. Smith,\n\nI am writing to express my keen interest in the Senior Software Engineer position at Tech Solutions Inc., which I saw advertised on [Platform]. With my extensive experience in developing scalable web applications and my passion for innovative technologies, I am confident I would be a valuable asset to your team.\n\nIn my previous role at Web Innovators, I was instrumental in [mention a key achievement]. I am particularly drawn to [mention something specific about Tech Solutions Inc.], and I am excited about the opportunity to contribute to your [mention a project or company goal].\n\nMy resume provides further detail on my qualifications and accomplishments. Thank you for your time and consideration. I look forward to the possibility of discussing this exciting opportunity with you."

  /** The letter the page opens with, dated `today`, with the profile-image
      placeholder because the image switch starts on. */
  function InitialLetter(today: Date): CoverLetterData
  {
    CoverLetterData(
      PersonalInfo("John Doe", "john.doe@example.com", "123-456-7890", "123 Main St, Anytown USA", "johndoe.com",
                   ProfileImagePlaceholder),
      RecipientInfo("Jane Smith", "Hiring Manager", "Tech Solutions Inc.", "456 Corporate Blvd, Business City, USA"),
      today,
      "Application for Senior Software Engineer Position",
      LetterBody,
      "Sincerely,")
  }

  /** Generation from the capture of the preview: nothing when there is no
      element to capture, else the A4 PDF under the letter's file name. */
  function Generate(data: CoverLetterData, capture: Option<Canvas>): (d: Option<Download>)
    ensures capture.None? ==> d.None?
    ensures capture.Some? ==> d == A4Pdf(capture.value, FileName(data.personalInfo.name))
  {
    match capture
    case None => None
    case Some(canvas) => A4Pdf(canvas, FileName(data.personalInfo.name))
  }

  /** The form column is hidden in the mobile layout's preview mode. */
  predicate FormHidden(isMobile: bool, viewMode: ViewMode)
  {
    isMobile && viewMode == Preview
  }

  /** The preview column is hidden in the mobile layout's edit mode. */
  predicate PreviewHidden(isMobile: bool, viewMode: ViewMode)
  {
    isMobile && viewMode == Edit
  }

  /** The wide layout shows both columns; the mobile layout shows exactly
      one of them; so one column is always in view. */
  lemma OneColumnAlwaysShown(isMobile: bool, viewMode: ViewMode)
    ensures !isMobile ==> !FormHidden(isMobile, viewMode) && !PreviewHidden(isMobile, viewMode)
    ensures isMobile ==> (FormHidden(isMobile, viewMode) <==> !PreviewHidden(isMobile, viewMode))
    ensures !(FormHidden(isMobile, viewMode) && PreviewHidden(isMobile, viewMode))
  {
  }

  class CoverLetterEditorPage {
    var viewMode: ViewMode
    var isMobile: bool
    var template: CoverLetterPreview.Template
    var primaryColor: string
    var withProfileImage: bool
    var letter: CoverLetterData
    var requests: seq<Request>

    constructor(today: Date)
      ensures viewMode == Edit && !isMobile && template == CoverLetterPreview.Classic
      ensures primaryColor == DefaultColour && withProfileImage
      ensures letter == InitialLetter(today) && requests == []
    {
      viewMode := Edit;
      isMobile := false;
      template := CoverLetterPreview.Classic;
      primaryColor := DefaultColour;
      withProfileImage := true;
      letter := InitialLetter(today);
      requests := [];
    }

    method ReadSearchParams(templateParam: Option<string>, colorParam: Option<string>, imageParam: Option<string>)
      modifies this
      ensures withProfileImage == SwitchParam(imageParam)
      ensures template == TemplateParam(templateParam, old(template))
      ensures primaryColor == ColourParam(colorParam, old(primaryColor))
      ensures viewMode == old(viewMode) && isMobile == old(isMobile)
      ensures letter == old(letter) && requests == old(requests)
    {
      withProfileImage := SwitchParam(imageParam);
      template := TemplateParam(templateParam, template);
      primaryColor := ColourParam(colorParam, primaryColor);
    }

    /** The resize handler, also run once on mount: a narrow window is the
        mobile layout, and a wide one goes back to edit mode, so the wide
        layout never hides the form. */
    method Resize(innerWidth: int)
      modifies this
      ensures isMobile <==> innerWidth < WideWidth
      ensures !isMobile ==> viewMode == Edit
      ensures isMobile ==> viewMode == old(viewMode)
      ensures !FormHidden(isMobile, viewMode) || old(viewMode) == Preview
      ensures template == old(template) && primaryColor == old(primaryColor)
      ensures withProfileImage == old(withProfileImage) && letter == old(letter) && requests == old(requests)
    {
      var mobile := innerWidth < WideWidth;
      isMobile := mobile;
      if !mobile {
        viewMode := Edit;
      }
    }

    /** The edit/preview switch of the mobile layout. */
    method SetViewMode(checked: bool)
      modifies this
      ensures viewMode == (if checked then Preview else Edit)
      ensures isMobile == old(isMobile) && template == old(template) && primaryColor == old(primaryColor)
      ensures withProfileImage == old(withProfileImage) && letter == old(letter) && requests == old(requests)
    {
      viewMode := if checked then Preview else Edit;
    }

    /** The effect that runs when the profile-image switch changes. */
    method SyncProfileImage()
      modifies this
      ensures letter == old(letter).(personalInfo := old(letter.personalInfo).(profileImage :=
                ImageToggle(withProfileImage, old(letter.personalInfo.profileImage), ProfileImagePlaceholder)))
      ensures withProfileImage <==> letter.personalInfo.profileImage != []
      ensures viewMode == old(viewMode) && isMobile == old(isMobile) && template == old(template)
      ensures primaryColor == old(primaryColor) && withProfileImage == old(withProfileImage) && requests == old(requests)
    {
      letter := letter.(personalInfo := letter.personalInfo.(profileImage :=
        ImageToggle(withProfileImage, letter.personalInfo.profileImage, ProfileImagePlaceholder)));
    }

    /** `handleGeneratePDF`: exactly one PDF generation. In the mobile
        layout outside preview mode the page first switches to preview mode
        and the generation waits; otherwise it runs at once. Either way the
        preview column is in view afterwards. */
    method HandleGeneratePdf()
      modifies this
      ensures requests == old(requests) + [Request(Pdf, old(isMobile) && old(viewMode) != Preview)]
      ensures !PreviewHidden(isMobile, viewMode)
      ensures old(isMobile) && old(viewMode) != Preview ==> viewMode == Preview
      ensures !(old(isMobile) && old(viewMode) != Preview) ==> viewMode == old(viewMode)
      ensures isMobile == old(isMobile) && template == old(template) && primaryColor == old(primaryColor)
      ensures withProfileImage == old(withProfileImage) && letter == old(letter)
    {
      var deferred := isMobile && viewMode != Preview;
      requests := requests + [Request(Pdf, deferred)];
      if deferred {
        viewMode := Preview;
      }
    }

    /** What the preview column shows: the chosen template with the letter
        as it is, in the page's colour. */
    function PreviewPane(): (s: CoverLetterPreview.Styled)
      reads this
      ensures s == CoverLetterPreview.Preview(letter, CoverLetterPreview.Name(template), primaryColor)
      ensures s.template == template && s.data == letter && s.cssValue == primaryColor
    {
      CoverLetterPreview.SelectByName(template);
      CoverLetterPreview.Preview(letter, CoverLetterPreview.Name(template), primaryColor)
    }
  }
}
