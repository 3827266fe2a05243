/** The CV editor page (src/app/cv/editor/page.tsx): five templates, a colour
    that falls back to the default whenever the URL has none, a profile-image
    switch that starts off, and a PDF-only export. */
module CvEditor {
  import opened Wrappers
  import opened Records
  import opened Export
  import Text
  import CvPreview

  const DefaultColour := "221 83% 53%"

  /** The `template` parameter: one of the five names selects that
      template, anything else keeps the current one. */
  function TemplateParam(param: Option<string>, current: CvPreview.Template): (t: CvPreview.Template)
    ensures param.Some? && CvPreview.Named(param.value).Some? ==> t == CvPreview.Named(param.value).value
    ensures param.None? || CvPreview.Named(param.value).None? ==> t == current
  {
    if param.Some? && CvPreview.Named(param.value).Some? then CvPreview.Named(param.value).value else current
  }

  /** Every one of the five templates can be chosen by its name. */
  lemma TemplateParamByName(t: CvPreview.Template, current: CvPreview.Template)
    ensures TemplateParam(Some(CvPreview.Name(t)), current) == t
  {
    match t
    case Classic =>
    case Modern =>
    case Minimalist =>
    case Creative =>
    case Professional =>
  }

  /** The `color` parameter here does not keep the current colour: without
      one (or with an empty one) the colour goes back to the default. */
  function ColourParamOrDefault(param: Option<string>): (r: string)
    ensures param.Some? && param.value != [] ==> r == param.value
    ensures param.None? || param.value == [] ==> r == DefaultColour
    ensures r != []
  {
    ColourParam(param, DefaultColour)
  }

  /** `cv-${name.replace(/\s/g, '_') || "draft"}.pdf`. */
  function FileName(name: string): (fileName: string)
    ensures name == [] ==> fileName == "cv-draft.pdf"
    ensures name != [] ==> fileName == "cv-" + Text.Underscore(name) + ".pdf"
    ensures NoWhitespace(fileName)
  {
    UnderscoredFallback("cv-", name, "draft", ".pdf");
    UnderscoredNameHasNoWhitespace("cv-", name, "draft", ".pdf");
    DownloadName("cv-", Text.Underscore(name), "draft", ".pdf")
  }

  /** The CV the page opens with. The profile-image switch starts off, so
      there is no image. */
  const InitialCv: CvData :=
    CvData(
      PersonalInfo("John Doe", "john.doe@example.com", "123-456-7890", "123 Main St, Anytown USA", "johndoe.com", ""),
      "A highly motivated and results-oriented professional with a proven track record of success in fast-paced environments. Seeking a challenging role to leverage my skills in project management and software development.",
      [Experience("1", "Tech Solutions Inc.", "Senior Software Engineer", "Jan 2020", "Present",
         "- Led the development of a new client-facing web application, resulting in a 20% increase in user engagement.\n- Mentored junior engineers and conducted code reviews to ensure code quality and best practices."),
       Experience("2", "Web Innovators", "Software Engineer", "Jun 2017", "Dec 2019",
         "- Contributed to the development of a large-scale e-commerce platform.\n- Implemented new features and resolved bugs to improve application performance and user experience.")],
      [Education("1", "State University", "B.S. in Computer Science", "2013", "2017")],
      ["JavaScript", "React", "Node.js", "TypeScript", "SQL"])

  /** Generation from the capture of the preview: nothing when it is not
      mounted, else the A4 PDF under the CV's file name. */
  function Generate(cv: CvData, capture: Option<Canvas>): (d: Option<Download>)
    ensures capture.None? ==> d.None?
    ensures capture.Some? ==> d == A4Pdf(capture.value, FileName(cv.personalInfo.name))
  {
    match capture
    case None => None
    case Some(canvas) => A4Pdf(canvas, FileName(cv.personalInfo.name))
  }

  class CvEditorPage {
    var isPreviewVisible: bool
    var template: CvPreview.Template
    var primaryColor: string
    var withProfileImage: bool
    var cvData: CvData
    var requests: seq<Request>

    constructor()
      ensures isPreviewVisible && template == CvPreview.Classic
      ensures primaryColor == DefaultColour && !withProfileImage
      ensures cvData == InitialCv && requests == []
    {
      isPreviewVisible := true;
      template := CvPreview.Classic;
      primaryColor := DefaultColour;
      withProfileImage := false;
      cvData := InitialCv;
      requests := [];
    }

    /** The search-parameter effect: the five-name whitelist, and a colour
        that is reset when the URL has none. */
    method ReadSearchParams(templateParam: Option<string>, colorParam: Option<string>, imageParam: Option<string>)
      modifies this
      ensures withProfileImage == SwitchParam(imageParam)
      ensures template == TemplateParam(templateParam, old(template))
      ensures primaryColor == ColourParamOrDefault(colorParam)
      ensures isPreviewVisible == old(isPreviewVisible) && cvData == old(cvData) && requests == old(requests)
    {
      withProfileImage := SwitchParam(imageParam);
      template := TemplateParam(templateParam, template);
      primaryColor := ColourParamOrDefault(colorParam);
    }

    /** The Template menu sets the template directly, any of the five. */
    method ChooseTemplate(t: CvPreview.Template)
      modifies this
      ensures template == t
      ensures isPreviewVisible == old(isPreviewVisible) && primaryColor == old(primaryColor)
      ensures withProfileImage == old(withProfileImage) && cvData == old(cvData) && requests == old(requests)
    {
      template := t;
    }

    /** The effect that runs when the profile-image switch changes. */
    method SyncProfileImage()
      modifies this
      ensures cvData == old(cvData).(personalInfo := old(cvData.personalInfo).(profileImage :=
                ImageToggle(withProfileImage, old(cvData.personalInfo.profileImage), ProfileImagePlaceholder)))
      ensures withProfileImage <==> cvData.personalInfo.profileImage != []
      ensures isPreviewVisible == old(isPreviewVisible) && template == old(template)
      ensures primaryColor == old(primaryColor) && withProfileImage == old(withProfileImage) && requests == old(requests)
    {
      cvData := cvData.(personalInfo := cvData.personalInfo.(profileImage :=
        ImageToggle(withProfileImage, cvData.personalInfo.profileImage, ProfileImagePlaceholder)));
    }

    /** The show/hide button. */
    method TogglePreview()
      modifies this
      ensures isPreviewVisible == !old(isPreviewVisible)
      ensures template == old(template) && primaryColor == old(primaryColor)
      ensures withProfileImage == old(withProfileImage) && cvData == old(cvData) && requests == old(requests)
    {
      isPreviewVisible := !isPreviewVisible;
    }

    /** `handlePreview` on this page only shows the preview. */
    method ShowPreview()
      modifies this
      ensures isPreviewVisible
      ensures template == old(template) && primaryColor == old(primaryColor)
      ensures withProfileImage == old(withProfileImage) && cvData == old(cvData) && requests == old(requests)
    {
      isPreviewVisible := true;
    }

    /** `handleGeneratePDF`: exactly one PDF generation, deferred exactly
        when the preview had to be shown first. */
    method HandleGeneratePdf()
      modifies this
      ensures isPreviewVisible
      ensures requests == old(requests) + [Request(Pdf, !old(isPreviewVisible))]
      ensures template == old(template) && primaryColor == old(primaryColor)
      ensures withProfileImage == old(withProfileImage) && cvData == old(cvData)
    {
      requests := requests + [Request(Pdf, !isPreviewVisible)];
      isPreviewVisible := true;
    }

    /** What the preview pane shows, as the preview is written: the CV for
        the classic and modern templates, and nothing for the other three
        the menu offers. The colour is not passed on. */
    function Preview(): (p: Option<CvPreview.Page>)
      reads this
      ensures p == CvPreview.Preview(cvData, CvPreview.Name(template), primaryColor)
      ensures p.None? <==> template in {CvPreview.Minimalist, CvPreview.Creative, CvPreview.Professional}
      ensures p.Some? ==> p.value == CvPreview.Page(template, cvData)
    {
      CvPreview.Preview(cvData, CvPreview.Name(template), primaryColor)
    }

    /** What the pane would show with the corrected preview: every template
        draws, in the page's colour. */
    function CorrectedPreview(): (s: CvPreview.Styled)
      reads this
      ensures s.page == CvPreview.Page(template, cvData)
      ensures s.cssVariable == "--primary-cv" && s.cssValue == primaryColor
    {
      CvPreview.CorrectedDrawsEveryTemplate(cvData, template, primaryColor);
      CvPreview.PreviewCorrected(cvData, CvPreview.Name(template), primaryColor)
    }
  }
}
