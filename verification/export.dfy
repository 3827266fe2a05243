/** What the editor pages share when they export a document: the size of an
    A4 page, the height that keeps a captured image's proportions, the
    keep-or-placeholder toggle for an optional image, the download file
    names, and a PDF document built page by page.

    The captured image (`html2canvas`) and the PDF writer (`jsPDF`) are
    foreign code: a capture is a `Canvas` value handed in, and a PDF is the
    record of what was placed on which page. */
module Export {
  import opened Wrappers
  import Text

  /** The width of an A4 page (ISO 216: 210 mm) as the PDF writer reports it
      for a document in millimetres: its page table stores A4 as 595.28 pt
      wide and 841.89 pt high, and a point is 1/72 inch of 25.4 mm. */
  const A4WidthMm: real := 595.28 * 25.4 / 72.0
  const A4HeightMm: real := 841.89 * 25.4 / 72.0

  /** The reported A4 size is within 0.01 mm of ISO 216's 210 x 297 mm. */
  lemma A4IsIsoA4()
    ensures 209.99 < A4WidthMm < 210.01
    ensures 296.99 < A4HeightMm < 297.01
  {
  }

  /** A rendered capture: the PNG data URL and the pixel size. */
  datatype Canvas = Canvas(dataUrl: string, width: real, height: real)

  /** `(canvas.height * pdfWidth) / canvas.width`. A zero-width canvas has no
      finite height. Otherwise the image keeps the canvas's proportions:
      height : width is canvas height : canvas width. */
  function ImageHeight(canvas: Canvas, pdfWidth: real): (h: Option<real>)
    ensures h.None? <==> canvas.width == 0.0
    ensures h.Some? ==> h.value * canvas.width == canvas.height * pdfWidth
  {
    if canvas.width == 0.0 then None else Some(canvas.height * pdfWidth / canvas.width)
  }

  /** The capture scale (2 for a PDF, 3 for a PNG) multiplies both sides of
      the canvas, so it does not change the height of the placed image. */
  lemma ScaleDoesNotMatter(canvas: Canvas, scaled: Canvas, scale: real, pdfWidth: real)
    requires scale != 0.0
    requires scaled.width == scale * canvas.width && scaled.height == scale * canvas.height
    ensures ImageHeight(scaled, pdfWidth) == ImageHeight(canvas, pdfWidth)
  {
    if canvas.width != 0.0 {
      var h := ImageHeight(canvas, pdfWidth).value;
      var g := ImageHeight(scaled, pdfWidth).value;
      assert scale * (g * canvas.width) == scale * (canvas.height * pdfWidth);
      assert g * canvas.width == h * canvas.width;
      assert (g - h) * canvas.width == 0.0;
    } else {
      assert scaled.width == 0.0;
    }
  }

  /** An image placed on a page, at (x, y) with the given size. */
  datatype Placement = Placement(dataUrl: string, x: real, y: real, width: real, height: real)

  /** What a download hands to the browser: a PDF with its page size and the
      images on each page, or a PNG. */
  datatype Download =
    | PdfFile(name: string, pageWidth: real, pageHeight: real, pages: seq<seq<Placement>>)
    | PngFile(name: string, dataUrl: string)

  datatype Format = Pdf | Png

  function Extension(f: Format): (r: string)
    ensures r == (if f == Pdf then ".pdf" else ".png")
  {
    match f
    case Pdf => ".pdf"
    case Png => ".png"
  }

  /** `generatePdfFromRef` on a mounted capture: one A4 page holding the
      whole capture at the top left, full page width, at the height that
      keeps its proportions, saved under `name`. A capture without a finite
      height fails, which the page reports as an error. */
  function A4Pdf(canvas: Canvas, name: string): (d: Option<Download>)
    ensures d.Some? <==> canvas.width != 0.0
    ensures d.Some? ==> d.value.PdfFile? && d.value.name == name
                        && d.value.pageWidth == A4WidthMm && d.value.pageHeight == A4HeightMm
                        && |d.value.pages| == 1 && |d.value.pages[0]| == 1
    ensures d.Some? ==> var p := d.value.pages[0][0];
                        p.dataUrl == canvas.dataUrl && p.x == 0.0 && p.y == 0.0 && p.width == A4WidthMm
                        && p.height * canvas.width == canvas.height * A4WidthMm
  {
    match ImageHeight(canvas, A4WidthMm)
    case None => None
    case Some(h) => Some(PdfFile(name, A4WidthMm, A4HeightMm, [[Placement(canvas.dataUrl, 0.0, 0.0, A4WidthMm, h)]]))
  }

  /** `generatePngFromRef`: the capture itself, under `name`. */
  function PngDownload(canvas: Canvas, name: string): (d: Download)
    ensures d == PngFile(name, canvas.dataUrl)
  {
    PngFile(name, canvas.dataUrl)
  }

  /** A request to generate a download, made by a download button: the
      format, and whether the page first had to show its hidden preview and
      so generates after a pause instead of at once. */
  datatype Request = Request(format: Format, deferred: bool)

  /** The effect of the logo or profile-image switch on the stored image:
      on keeps an existing image and otherwise inserts the placeholder; off
      clears it. */
  function ImageToggle(on: bool, current: string, placeholder: string): (r: string)
    ensures !on ==> r == []
    ensures on && current != [] ==> r == current
    ensures on && current == [] ==> r == placeholder
  {
    if on then Text.OrElse(current, placeholder) else ""
  }

  /** Applying the switch twice is applying it once. */
  lemma ImageToggleIdempotent(on: bool, current: string, placeholder: string)
    ensures ImageToggle(on, ImageToggle(on, current, placeholder), placeholder)
         == ImageToggle(on, current, placeholder)
  {
  }

  /** With the switch on and a non-empty placeholder, there is always an
      image; with it off there never is. */
  lemma ImageToggleShows(on: bool, current: string, placeholder: string)
    requires placeholder != []
    ensures ImageToggle(on, current, placeholder) != [] <==> on
  {
  }

  const LogoPlaceholder := "https://placehold.co/150x50.png"
  const ProfileImagePlaceholder := "https://placehold.co/150x150.png"

  /** The `withCompanyLogo`, `withProfileImage` and `withLogo` parameters:
      only the exact text "true" turns the switch on. */
  function SwitchParam(param: Option<string>): (on: bool)
    ensures on <==> param == Some("true")
  {
    param.Some? && param.value == "true"
  }

  /** The `color` parameter: absent or empty keeps the current colour. */
  function ColourParam(param: Option<string>, current: string): (r: string)
    ensures param.Some? && param.value != [] ==> r == param.value
    ensures param.None? || param.value == [] ==> r == current
  {
    match param
    case None => current
    case Some(c) => Text.OrElse(c, current)
  }

  /** A download name `prefix${token || fallback}ext`. */
  function DownloadName(prefix: string, token: string, fallback: string, ext: string): (name: string)
    ensures token != [] ==> name == prefix + token + ext
    ensures token == [] ==> name == prefix + fallback + ext
  {
    prefix + Text.OrElse(token, fallback) + ext
  }

  predicate NoWhitespace(s: string)
  {
    forall i :: 0 <= i < |s| ==> !Text.IsWhitespace(s[i])
  }

  /** A name built from an underscored token has no whitespace when the
      fixed parts have none, so the download name is a single word. */
  lemma UnderscoredNameHasNoWhitespace(prefix: string, text: string, fallback: string, ext: string)
    requires NoWhitespace(prefix) && NoWhitespace(fallback) && NoWhitespace(ext)
    ensures NoWhitespace(DownloadName(prefix, Text.Underscore(text), fallback, ext))
  {
    var token := Text.OrElse(Text.Underscore(text), fallback);
    assert NoWhitespace(token);
    var name := DownloadName(prefix, Text.Underscore(text), fallback, ext);
    assert name == prefix + token + ext;
    forall i | 0 <= i < |name|
      ensures !Text.IsWhitespace(name[i])
    {
      if i < |prefix| {
        assert name[i] == prefix[i];
      } else if i < |prefix| + |token| {
        assert name[i] == token[i - |prefix|];
      } else {
        assert name[i] == ext[i - |prefix| - |token|];
      }
    }
  }

  /** The fallback is used exactly when the text is empty: underscoring
      keeps the length, so only an empty text gives an empty token. */
  lemma UnderscoredFallback(prefix: string, text: string, fallback: string, ext: string)
    ensures text == [] ==> DownloadName(prefix, Text.Underscore(text), fallback, ext) == prefix + fallback + ext
    ensures text != [] ==> DownloadName(prefix, Text.Underscore(text), fallback, ext) == prefix + Text.Underscore(text) + ext
  {
  }

  /** The token can be read back from the name: it sits between the prefix
      and the extension. */
  lemma DownloadNameToken(prefix: string, token: string, fallback: string, ext: string)
    requires token != []
    ensures var name := DownloadName(prefix, token, fallback, ext);
            |name| == |prefix| + |token| + |ext|
            && name[..|prefix|] == prefix
            && name[|prefix|..|prefix| + |token|] == token
            && name[|prefix| + |token|..] == ext
  {
  }

  /** A PDF document written page by page: a fixed page size, and the
      images placed on each page so far. A new document has one empty page. */
  class PdfDocument {
    const pageWidth: real
    const pageHeight: real
    var pages: seq<seq<Placement>>

    predicate Valid()
      reads this
    {
      pages != []
    }

    constructor(pageWidth: real, pageHeight: real)
      ensures Valid()
      ensures this.pageWidth == pageWidth && this.pageHeight == pageHeight
      ensures pages == [[]]
    {
      this.pageWidth := pageWidth;
      this.pageHeight := pageHeight;
      pages := [[]];
    }

    /** `addImage`: the image goes on the last page, after what is there. */
    method AddImage(p: Placement)
      requires Valid()
      modifies this
      ensures Valid()
      ensures |pages| == |old(pages)|
      ensures pages[..|pages| - 1] == old(pages)[..|old(pages)| - 1]
      ensures pages[|pages| - 1] == old(pages)[|old(pages)| - 1] + [p]
    {
      var last := |pages| - 1;
      pages := pages[..last] + [pages[last] + [p]];
    }

    /** `addPage`: a new empty page after the others. */
    method AddPage()
      requires Valid()
      modifies this
      ensures Valid()
      ensures pages == old(pages) + [[]]
    {
      pages := pages + [[]];
    }

    /** `save`: the document as downloaded under `name`. */
    function Save(name: string): (d: Download)
      reads this
      ensures d.PdfFile? && d.name == name && d.pages == pages
      ensures d.pageWidth == pageWidth && d.pageHeight == pageHeight
    {
      PdfFile(name, pageWidth, pageHeight, pages)
    }
  }
}
