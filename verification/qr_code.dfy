/** The QR-code generator page (src/app/qr-code/page.tsx): the text to
    encode, a size slider, and the address of the QR image, which the
    Generate button rebuilds from the two. The image itself comes from an
    external service. */
module QrCode {
  import Text

  const Base := "https://api.qrserver.com/v1/create-qr-code/?data="
  const DefaultData := "https://www.example.com"
  const DefaultSize := 250

  /** The address the page starts with. It embeds the default text as it
      is, not percent-encoded. */
  const InitialUrl := "https://api.qrserver.com/v1/create-qr-code/?data=https://www.example.com&size=250x250"

  /** The slider's values: 100 to 1000 in steps of 10. */
  predicate OnSlider(size: int)
  {
    100 <= size <= 1000 && size % 10 == 0
  }

  /** The characters `encodeURIComponent` can leave in its output: the
      unreserved characters it does not escape, and the `%` and hex digits
      of its escapes. `&`, `=`, `:` and `/` are all escaped. */
  predicate EncodedChar(c: char)
  {
    || ('A' <= c <= 'Z') || ('a' <= c <= 'z') || ('0' <= c <= '9')
    || c == '-' || c == '_' || c == '.' || c == '!' || c == '~'
    || c == '*' || c == '\'' || c == '(' || c == ')' || c == '%'
  }

  predicate Encoded(s: string)
  {
    forall i :: 0 <= i < |s| ==> EncodedChar(s[i])
  }

  /** The request address for encoded text and a size: the text is the
      `data` query value and the size is given twice, as width x height. */
  function QrUrl(encoded: string, size: nat): (url: string)
    ensures |url| > |Base| + |encoded|
    ensures url[..|Base|] == Base
    ensures url[|Base|..|Base| + |encoded|] == encoded
    ensures url[|Base| + |encoded|] == '&'
  {
    Base + encoded + "&size=" + Text.NatToString(size) + "x" + Text.NatToString(size)
  }

  /** What follows the `&`: `size=` and the size twice. */
  function SizeQuery(size: nat): string
  {
    "size=" + Text.NatToString(size) + "x" + Text.NatToString(size)
  }

  lemma UrlAfterBase(encoded: string, size: nat)
    ensures QrUrl(encoded, size)[|Base|..] == encoded + ['&'] + SizeQuery(size)
  {
    assert QrUrl(encoded, size) == Base + (encoded + ['&'] + SizeQuery(size));
  }

  /** The size can be read back from the query: the digits end at `x`. */
  lemma SizeQueryInjective(s1: nat, s2: nat)
    requires SizeQuery(s1) == SizeQuery(s2)
    ensures s1 == s2
  {
    var n1 := Text.NatToString(s1);
    var n2 := Text.NatToString(s2);
    assert n1 + ['x'] + n1 == SizeQuery(s1)[5..];
    assert n2 + ['x'] + n2 == SizeQuery(s2)[5..];
    assert 'x' !in n1 && 'x' !in n2;
    Text.SplitAtFirst(n1, n1, n2, n2, 'x');
    Text.NatToStringInjective(s1, s2);
  }

  /** The address determines the text and the size: it can be read back as
      long as the text holds no `&`, which encoded text never does. */
  lemma QrUrlInjective(e1: string, s1: nat, e2: string, s2: nat)
    requires '&' !in e1 && '&' !in e2
    requires QrUrl(e1, s1) == QrUrl(e2, s2)
    ensures e1 == e2 && s1 == s2
  {
    UrlAfterBase(e1, s1);
    UrlAfterBase(e2, s2);
    Text.SplitAtFirst(e1, SizeQuery(s1), e2, SizeQuery(s2), '&');
    SizeQueryInjective(s1, s2);
  }

  /** The size as the address spells it. */
  lemma DefaultSizeSpelled()
    ensures Text.NatToString(DefaultSize) == "250"
  {
    calc {
      Text.NatToString(250);
      Text.NatToString(25) + [Text.DigitChar(0)];
      Text.NatToString(2) + [Text.DigitChar(5)] + [Text.DigitChar(0)];
      [Text.DigitChar(2)] + [Text.DigitChar(5)] + [Text.DigitChar(0)];
    }
  }

  /** The starting address, piece by piece. */
  lemma InitialUrlPieces()
    ensures InitialUrl == Base + DefaultData + "&size=" + "250" + "x" + "250"
  {
  }

  /** The starting address is the request for the raw default text at the
      default size. */
  lemma InitialUrlIsRaw()
    ensures InitialUrl == QrUrl(DefaultData, DefaultSize)
  {
    DefaultSizeSpelled();
    InitialUrlPieces();
  }

  /** Generate never reproduces the starting address: whatever the size
      and the encoded text, the two differ, because encoding escapes the
      `:` of "https:" and the `&` that ends the text. */
  lemma InitialUrlNotGenerated(encoded: string, size: nat)
    requires Encoded(encoded)
    ensures QrUrl(encoded, size) != InitialUrl
  {
    var u := QrUrl(encoded, size);
    var k := |Base| + 5;
    assert InitialUrl[k] == ':';
    if |encoded| > 5 {
      assert u[k] == u[|Base|..|Base| + |encoded|][5] == encoded[5];
      assert EncodedChar(encoded[5]);
      assert u[k] != InitialUrl[k];
    } else {
      var j := |Base| + |encoded|;
      assert u[j] == '&';
      assert InitialUrl[j] != '&';
    }
  }

  class QrCodePage {
    var data: string
    var size: int
    var qrCodeUrl: string

    predicate Valid()
      reads this
    {
      OnSlider(size)
    }

    constructor()
      ensures Valid()
      ensures data == DefaultData && size == DefaultSize && qrCodeUrl == InitialUrl
    {
      data := DefaultData;
      size := DefaultSize;
      qrCodeUrl := InitialUrl;
    }

    /** Typing in the text field. */
    method SetData(text: string)
      requires Valid()
      modifies this
      ensures Valid()
      ensures data == text && size == old(size) && qrCodeUrl == old(qrCodeUrl)
    {
      data := text;
    }

    /** Moving the slider, which only delivers its own values. */
    method SetSize(value: int)
      requires Valid() && OnSlider(value)
      modifies this
      ensures Valid()
      ensures size == value && data == old(data) && qrCodeUrl == old(qrCodeUrl)
    {
      size := value;
    }

    /** `handleGenerate`, with `encode` standing for `encodeURIComponent`.
        Text that is empty or all whitespace is an error and leaves the
        address as it was; otherwise the address becomes the request for
        the encoded text at the slider's size. */
    method HandleGenerate(encode: string -> string) returns (error: bool)
      requires Valid()
      modifies this
      ensures Valid()
      ensures error <==> Text.Trim(data) == []
      ensures error ==> qrCodeUrl == old(qrCodeUrl)
      ensures !error ==> qrCodeUrl == QrUrl(encode(data), size)
      ensures data == old(data) && size == old(size)
    {
      if Text.Trim(data) == [] {
        error := true;
        return;
      }
      var encodedData := encode(data);
      qrCodeUrl := QrUrl(encodedData, size);
      error := false;
    }
  }
}
