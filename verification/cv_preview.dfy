/** The CV preview (src/components/cv-preview.tsx) and the five CV templates
    the CV editor offers. The preview's table holds only two of the five and
    has no fallback, and the preview takes no colour; both are modelled as
    written, next to the corrected preview that the CV editor's page is held
    to. */
module CvPreview {
  import opened Wrappers
  import opened Records

  /** The templates the CV editor offers in its menu and accepts from the
      URL. */
  datatype Template = Classic | Modern | Minimalist | Creative | Professional

  function Name(t: Template): string
  {
    match t
    case Classic => "classic"
    case Modern => "modern"
    case Minimalist => "minimalist"
    case Creative => "creative"
    case Professional => "professional"
  }

  /** The template with this name, if it is one of the five. */
  function Named(key: string): (r: Option<Template>)
    ensures r.Some? <==> key in {"classic", "modern", "minimalist", "creative", "professional"}
    ensures r.Some? ==> Name(r.value) == key
  {
    if key == "classic" then Some(Classic)
    else if key == "modern" then Some(Modern)
    else if key == "minimalist" then Some(Minimalist)
    else if key == "creative" then Some(Creative)
    else if key == "professional" then Some(Professional)
    else None
  }

  /** A CV template drawing a CV. */
  datatype Page = Page(template: Template, data: CvData)

  /** As written: `templates[template]` over a table with only `classic`
      and `modern`, and no fallback. */
  function Lookup(key: string): (r: Option<Template>)
    ensures r.Some? <==> key == "classic" || key == "modern"
    ensures r.Some? ==> Name(r.value) == key
  {
    if key == "classic" then Some(Classic)
    else if key == "modern" then Some(Modern)
    else None
  }

  /** As written: the looked-up template draws the CV unchanged. When the
      lookup finds nothing the element type is `undefined`, so rendering it
      throws, and with no error boundary around the editor the whole page
      fails; `None` stands for that failed render. The colour the editor
      hands over is not among the props and goes nowhere. */
  function Preview(cv: CvData, key: string, primaryColor: string): (r: Option<Page>)
    ensures r.Some? <==> key == "classic" || key == "modern"
    ensures r.Some? ==> r.value.data == cv && Name(r.value.template) == key
  {
    match Lookup(key)
    case None => None
    case Some(t) => Some(Page(t, cv))
  }

  /** Three of the five templates the editor offers have no component, so
      their render fails. */
  lemma OfferedTemplatesMissing(cv: CvData, primaryColor: string)
    ensures Preview(cv, "minimalist", primaryColor) == None
    ensures Preview(cv, "creative", primaryColor) == None
    ensures Preview(cv, "professional", primaryColor) == None
  {
  }

  /** The colour has no effect on what the preview draws, so the
      `--primary-cv` variable the templates read is never set by it. */
  lemma ColourIgnored(cv: CvData, key: string, colour1: string, colour2: string)
    ensures Preview(cv, key, colour1) == Preview(cv, key, colour2)
  {
  }

  /** The preview as the other previews are built: a page inside a container
      that sets one CSS custom property. */
  datatype Styled = Styled(cssVariable: string, cssValue: string, page: Page)

  /** Corrected: a table of all five templates with the classic one as the
      fallback, and the colour passed into `--primary-cv`. */
  function PreviewCorrected(cv: CvData, key: string, primaryColor: string): (s: Styled)
    ensures s.cssVariable == "--primary-cv" && s.cssValue == primaryColor
    ensures s.page.data == cv
    ensures Named(key).Some? ==> s.page.template == Named(key).value
    ensures Named(key).None? ==> s.page.template == Classic
  {
    Styled("--primary-cv", primaryColor, Page(Named(key).GetOr(Classic), cv))
  }

  /** Corrected: every template the editor can select draws the CV, and it
      is the template selected. */
  lemma CorrectedDrawsEveryTemplate(cv: CvData, t: Template, primaryColor: string)
    ensures PreviewCorrected(cv, Name(t), primaryColor).page == Page(t, cv)
  {
  }

  /** Corrected: where the preview as written draws something, the corrected
      one draws the same page. */
  lemma CorrectedAgreesWhereDefined(cv: CvData, key: string, primaryColor: string)
    requires Preview(cv, key, primaryColor).Some?
    ensures PreviewCorrected(cv, key, primaryColor).page == Preview(cv, key, primaryColor).value
  {
  }
}
