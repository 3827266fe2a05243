/** The cover-letter preview (src/components/cover-letter-preview.tsx): a
    table from template name to cover-letter template, with the classic
    template as the fallback, inside a container that sets the
    `--primary-cover-letter` colour. The cover-letter templates themselves
    are markup and are not part of this model. */
module CoverLetterPreview {
  import opened Wrappers
  import opened Records

  datatype Template = Classic | Modern | Simple

  function Name(t: Template): string
  {
    match t
    case Classic => "classic"
    case Modern => "modern"
    case Simple => "simple"
  }

  /** `templates[template]`: defined exactly for the three names. */
  function Lookup(key: string): (r: Option<Template>)
    ensures r.Some? <==> key == "classic" || key == "modern" || key == "simple"
    ensures r.Some? ==> Name(r.value) == key
  {
    if key == "classic" then Some(Classic)
    else if key == "modern" then Some(Modern)
    else if key == "simple" then Some(Simple)
    else None
  }

  /** `templates[template] || ClassicCoverLetter`. */
  function Select(key: string): (t: Template)
    ensures Lookup(key).Some? ==> t == Lookup(key).value
    ensures Lookup(key).None? ==> t == Classic
  {
    Lookup(key).GetOr(Classic)
  }

  lemma SelectByName(t: Template)
    ensures Select(Name(t)) == t
  {
  }

  /** The selected template drawing the letter, inside its container. */
  datatype Styled = Styled(cssVariable: string, cssValue: string, template: Template, data: CoverLetterData)

  /** The preview: the selected template receives the letter unchanged, and
      the colour goes unchanged into `--primary-cover-letter`. */
  function Preview(data: CoverLetterData, key: string, primaryColor: string): (s: Styled)
    ensures s.cssVariable == "--primary-cover-letter" && s.cssValue == primaryColor
    ensures s.template == Select(key) && s.data == data
  {
    Styled("--primary-cover-letter", primaryColor, Select(key), data)
  }
}
