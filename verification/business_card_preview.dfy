/** The business-card preview (src/components/business-card-preview.tsx):
    three front/back pairs, a lookup with the sleek pair as the fallback, and
    two ways of drawing the card: one face on its own, or both faces in a
    flip pane whose rotation shows the back. */
module BusinessCardPreview {
  import opened Wrappers
  import opened Records

  datatype Template = Sleek | Minimal | Bold

  function Name(t: Template): string
  {
    match t
    case Sleek => "sleek"
    case Minimal => "minimal"
    case Bold => "bold"
  }

  /** `templates[template]`: defined exactly for the three names. */
  function Lookup(key: string): (r: Option<Template>)
    ensures r.Some? <==> key == "sleek" || key == "minimal" || key == "bold"
    ensures r.Some? ==> Name(r.value) == key
  {
    if key == "sleek" then Some(Sleek)
    else if key == "minimal" then Some(Minimal)
    else if key == "bold" then Some(Bold)
    else None
  }

  /** `templates[template] || templates.sleek`. */
  function Select(key: string): (t: Template)
    ensures Lookup(key).Some? ==> t == Lookup(key).value
    ensures Lookup(key).None? ==> t == Sleek
  {
    Lookup(key).GetOr(Sleek)
  }

  lemma SelectByName(t: Template)
    ensures Select(Name(t)) == t
  {
  }

  datatype Side = Front | Back

  /** The company mark a face shows: the logo image, the first character of
      the company name in a circle, the company name as a heading, or none. */
  datatype Mark = LogoImage(url: string) | Initial(letter: string) | CompanyTitle(name: string) | NoMark

  datatype Face = Face(template: Template, side: Side, mark: Mark)

  /** `companyName.charAt(0)`: the first character, or "" for an empty name. */
  function CharAt0(s: string): (r: string)
    ensures |r| <= 1 && (r == [] <==> s == [])
    ensures s != [] ==> r == s[..1]
  {
    if s == [] then "" else [s[0]]
  }

  /** The mark on a face. Fronts show none. The sleek back shows the logo,
      else the company initial; the minimal back shows the logo if there is
      one (its company name is printed either way); the bold back shows the
      logo, else the company name as its heading. */
  function MarkOf(t: Template, side: Side, card: BusinessCardData): (m: Mark)
    ensures side == Front ==> m == NoMark
    ensures side == Back && card.logoUrl != [] ==> m == LogoImage(card.logoUrl)
    ensures side == Back && card.logoUrl == [] ==>
      m == match t
        case Sleek => Initial(CharAt0(card.companyName))
        case Minimal => NoMark
        case Bold => CompanyTitle(card.companyName)
  {
    if side == Front then NoMark
    else if card.logoUrl != [] then LogoImage(card.logoUrl)
    else match t
      case Sleek => Initial(CharAt0(card.companyName))
      case Minimal => NoMark
      case Bold => CompanyTitle(card.companyName)
  }

  function FaceOf(t: Template, side: Side, card: BusinessCardData): Face
  {
    Face(t, side, MarkOf(t, side, card))
  }

  /** One face on its own, or the flip pane holding both. */
  datatype Rendered = Single(face: Face) | Pane(front: Face, back: Face, rotated: bool)

  /** The preview. Outside the pane it draws exactly one face, the back iff
      `isBack`. In the pane (the default) it draws both faces whatever
      `isBack` is, and `isBack` only turns the pane around. */
  function Render(card: BusinessCardData, isBack: bool, key: string, inPreviewPane: bool := true): (r: Rendered)
    ensures !inPreviewPane ==> r.Single? && (r.face.side == Back <==> isBack)
    ensures inPreviewPane ==> r.Pane? && r.rotated == isBack
    ensures inPreviewPane ==> r.front.side == Front && r.back.side == Back
    ensures r.Single? ==> r.face.template == Select(key)
    ensures r.Pane? ==> r.front.template == Select(key) && r.back.template == Select(key)
    ensures r.Single? ==> r.face.mark == MarkOf(Select(key), r.face.side, card)
    ensures r.Pane? ==> r.front.mark == MarkOf(Select(key), Front, card) && r.back.mark == MarkOf(Select(key), Back, card)
  {
    var t := Select(key);
    if !inPreviewPane then
      Single(FaceOf(t, if isBack then Back else Front, card))
    else
      Pane(FaceOf(t, Front, card), FaceOf(t, Back, card), isBack)
  }

  /** The faces whose ref is attached, i.e. which can be captured. */
  function MountedSides(r: Rendered): set<Side>
  {
    match r
    case Single(f) => {f.side}
    case Pane(_, _, _) => {Front, Back}
  }

  /** Flipping the card in the pane changes only the rotation. */
  lemma PaneFlipKeepsFaces(card: BusinessCardData, key: string)
    ensures Render(card, true, key).Pane?
    ensures Render(card, true, key).(rotated := false) == Render(card, false, key)
    ensures MountedSides(Render(card, true, key)) == MountedSides(Render(card, false, key)) == {Front, Back}
  {
  }

  /** Drawn on its own, a face leaves the other side's ref unattached. */
  lemma SingleFaceMountsOneSide(card: BusinessCardData, isBack: bool, key: string)
    ensures MountedSides(Render(card, isBack, key, false)) == {if isBack then Back else Front}
  {
  }
}
