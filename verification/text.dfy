/** The JavaScript string operations the document tools rely on, stated over
    Dafny strings: `split` and `join` with a one-character separator, `trim`,
    `replace` with a string pattern, the `\s` character class, and decimal
    rendering of a number inside a template literal. */
module Text {
  import opened Wrappers

  /** The code points that `String.prototype.trim` removes and that the
      regular-expression class `\s` matches: the WhiteSpace and LineTerminator
      productions of ECMA-262. */
  predicate IsWhitespace(c: char)
  {
    || c == ' ' || c == '\t' || c == '\n' || c == '\r'
    || c == '\U{B}' || c == '\U{C}' || c == '\U{A0}' || c == '\U{FEFF}'
    || c == '\U{1680}' || ('\U{2000}' <= c <= '\U{200A}')
    || c == '\U{2028}' || c == '\U{2029}' || c == '\U{202F}'
    || c == '\U{205F}' || c == '\U{3000}'
  }

  /** Number of occurrences of `c` in `s`. */
  function Count(s: string, c: char): nat
  {
    if s == [] then 0 else (if s[0] == c then 1 else 0) + Count(s[1..], c)
  }

  lemma {:induction false} CountConcat(a: string, b: string, c: char)
    ensures Count(a + b, c) == Count(a, c) + Count(b, c)
  {
    if a == [] {
      assert a + b == b;
    } else {
      assert (a + b)[1..] == a[1..] + b;
      CountConcat(a[1..], b, c);
    }
  }

  lemma {:induction false} CountAbsent(s: string, c: char)
    requires c !in s
    ensures Count(s, c) == 0
  {
    if s != [] {
      assert s == [s[0]] + s[1..];
      CountAbsent(s[1..], c);
    }
  }

  /** Index of the first occurrence of `c`, for a string that contains it. */
  function FirstIndex(s: string, c: char): (i: nat)
    requires c in s
    ensures i < |s| && s[i] == c && c !in s[..i]
  {
    if s[0] == c then 0
    else
      assert c in s[1..] by {
        var k :| 0 <= k < |s| && s[k] == c;
        assert s[1..][k - 1] == c;
      }
      var j := FirstIndex(s[1..], c);
      assert s[..j + 1] == [s[0]] + s[1..][..j];
      1 + j
  }

  lemma FirstIndexUnique(s: string, c: char, k: nat)
    requires k < |s| && s[k] == c && c !in s[..k]
    ensures FirstIndex(s, c) == k
  {
    var i := FirstIndex(s, c);
    assert forall j :: 0 <= j < k ==> s[..k][j] == s[j];
    assert forall j :: 0 <= j < i ==> s[..i][j] == s[j];
  }

  /** Text before the first `c` is determined: if `c` does not occur in
      either head, the two ways of writing the string agree on both halves. */
  lemma SplitAtFirst(a1: string, b1: string, a2: string, b2: string, c: char)
    requires c !in a1 && c !in a2
    requires a1 + [c] + b1 == a2 + [c] + b2
    ensures a1 == a2 && b1 == b2
  {
    var s := a1 + [c] + b1;
    assert s[..|a1|] == a1;
    assert s[..|a2|] == a2;
    FirstIndexUnique(s, c, |a1|);
    FirstIndexUnique(s, c, |a2|);
    assert s[|a1| + 1..] == b1;
    assert s[|a2| + 1..] == b2;
  }

  /** `Array.prototype.join`: the pieces with `glue` between neighbours. */
  function Join(parts: seq<string>, glue: string): string
  {
    if |parts| == 0 then ""
    else if |parts| == 1 then parts[0]
    else parts[0] + glue + Join(parts[1..], glue)
  }

  /** `String.prototype.split` with a one-character separator: the maximal
      separator-free pieces, one more than there are separators, which join
      back to the input. */
  function Split(s: string, sep: char): (r: seq<string>)
    ensures |r| == Count(s, sep) + 1
    ensures forall i :: 0 <= i < |r| ==> sep !in r[i]
    ensures Join(r, [sep]) == s
    decreases |s|
  {
    if sep !in s then
      CountAbsent(s, sep);
      [s]
    else
      var i := FirstIndex(s, sep);
      var rest := Split(s[i + 1..], sep);
      assert s == s[..i] + [sep] + s[i + 1..];
      CountAbsent(s[..i], sep);
      CountConcat(s[..i] + [sep], s[i + 1..], sep);
      CountConcat(s[..i], [sep], sep);
      assert ([s[..i]] + rest)[1..] == rest;
      [s[..i]] + rest
  }

  /** Splitting is the inverse of joining separator-free pieces. */
  lemma {:induction false} SplitJoin(parts: seq<string>, sep: char)
    requires |parts| >= 1
    requires forall i :: 0 <= i < |parts| ==> sep !in parts[i]
    ensures Split(Join(parts, [sep]), sep) == parts
  {
    if |parts| > 1 {
      var p := parts[0];
      var rest := Join(parts[1..], [sep]);
      var s := p + ([sep] + rest);
      assert Join(parts, [sep]) == s;
      assert s[..|p|] == p;
      assert s[|p|] == sep;
      FirstIndexUnique(s, sep, |p|);
      assert s[|p| + 1..] == rest;
      SplitJoin(parts[1..], sep);
      assert Split(s, sep) == [p] + Split(rest, sep);
      assert parts == [p] + parts[1..];
    }
  }

  /** Joining a concatenation of two non-empty lists puts one glue between
      the two joins. */
  lemma {:induction false} JoinConcat(a: seq<string>, b: seq<string>, glue: string)
    requires |a| >= 1 && |b| >= 1
    ensures Join(a + b, glue) == Join(a, glue) + glue + Join(b, glue)
    decreases |a|
  {
    if |a| > 1 {
      assert (a + b)[1..] == a[1..] + b;
      JoinConcat(a[1..], b, glue);
    } else {
      assert (a + b)[1..] == b;
    }
  }

  /** Splitting at a separator placed between two texts splits each text on
      its own: the pieces of the first come first, in order. */
  lemma SplitConcat(x: string, y: string, sep: char)
    ensures Split(x + [sep] + y, sep) == Split(x, sep) + Split(y, sep)
  {
    var px := Split(x, sep);
    var py := Split(y, sep);
    JoinConcat(px, py, [sep]);
    assert forall i :: 0 <= i < |px + py| ==> sep !in (px + py)[i];
    SplitJoin(px + py, sep);
  }

  /** `trimStart`: drops the leading whitespace. */
  function TrimStart(s: string): (r: string)
    ensures |r| <= |s| && r == s[|s| - |r|..]
    ensures r == [] || !IsWhitespace(r[0])
    ensures forall i :: 0 <= i < |s| - |r| ==> IsWhitespace(s[i])
  {
    if s != [] && IsWhitespace(s[0]) then TrimStart(s[1..]) else s
  }

  /** `trimEnd`: drops the trailing whitespace. */
  function TrimEnd(s: string): (r: string)
    ensures |r| <= |s| && r == s[..|r|]
    ensures r == [] || !IsWhitespace(r[|r| - 1])
    ensures forall i :: |r| <= i < |s| ==> IsWhitespace(s[i])
  {
    if s != [] && IsWhitespace(s[|s| - 1]) then TrimEnd(s[..|s| - 1]) else s
  }

  /** Neither starts nor ends with whitespace. */
  predicate IsTrimmed(s: string)
  {
    s == [] || (!IsWhitespace(s[0]) && !IsWhitespace(s[|s| - 1]))
  }

  /** `String.prototype.trim`: the result is a stretch of the input with
      only whitespace before and after it, it has no whitespace at either
      end, and it is empty exactly when the input is all whitespace. */
  function Trim(s: string): (r: string)
    ensures |r| <= |s|
    ensures IsTrimmed(r)
    ensures r == [] <==> forall i :: 0 <= i < |s| ==> IsWhitespace(s[i])
    ensures exists a :: TrimmedAt(s, a, r)
  {
    TrimBothEnds(s);
    TrimEnd(TrimStart(s))
  }

  /** Where `trimStart` then `trimEnd` leave the text. */
  lemma TrimBothEnds(s: string)
    ensures TrimmedAt(s, |s| - |TrimStart(s)|, TrimEnd(TrimStart(s)))
  {
    TrimmedSlice(s, TrimStart(s), TrimEnd(TrimStart(s)));
  }

  /** A suffix `t` of `s` after whitespace, cut to a prefix `r` before
      whitespace, sits in `s` with only whitespace around it. */
  lemma TrimmedSlice(s: string, t: string, r: string)
    requires |t| <= |s| && t == s[|s| - |t|..]
    requires forall i :: 0 <= i < |s| - |t| ==> IsWhitespace(s[i])
    requires |r| <= |t| && r == t[..|r|]
    requires forall i :: |r| <= i < |t| ==> IsWhitespace(t[i])
    ensures TrimmedAt(s, |s| - |t|, r)
  {
    var a := |s| - |t|;
    assert s[a..a + |r|] == t[..|r|];
    forall i | a + |r| <= i < |s|
      ensures IsWhitespace(s[i])
    {
      assert s[i] == t[i - a];
    }
  }

  /** `r` sits in `s` at index `a` with nothing but whitespace around it. */
  predicate TrimmedAt(s: string, a: int, r: string)
  {
    && 0 <= a <= a + |r| <= |s|
    && s[a..a + |r|] == r
    && (forall i :: 0 <= i < a ==> IsWhitespace(s[i]))
    && (forall i :: a + |r| <= i < |s| ==> IsWhitespace(s[i]))
  }

  /** `trim` is determined by its contract: any trimmed stretch of the input
      with only whitespace around it is what `trim` returns. */
  lemma TrimUnique(s: string, a: nat, r: string)
    requires IsTrimmed(r) && TrimmedAt(s, a, r)
    ensures Trim(s) == r
  {
    var t := Trim(s);
    if r == [] {
      assert forall i :: 0 <= i < |s| ==> IsWhitespace(s[i]);
    } else {
      assert s[a..a + |r|][0] == s[a];
      var b :| TrimmedAt(s, b, t);
      SameTrimmedStretch(s, a, r, b, t);
    }
  }

  /** Two stretches of `s` with no whitespace at their ends and only
      whitespace around them are the same stretch. */
  lemma SameTrimmedStretch(s: string, a: nat, r: string, b: nat, t: string)
    requires r != [] && IsTrimmed(r) && TrimmedAt(s, a, r)
    requires IsTrimmed(t) && TrimmedAt(s, b, t)
    ensures t == r
  {
    var e := a + |r|;
    assert s[a] == s[a..e][0] && s[e - 1] == s[a..e][|r| - 1];
    assert !IsWhitespace(s[a]) && !IsWhitespace(s[e - 1]);
    var f := b + |t|;
    assert t != [];
    assert s[b] == s[b..f][0] && s[f - 1] == s[b..f][|t| - 1];
    assert !IsWhitespace(s[b]) && !IsWhitespace(s[f - 1]);
    assert b == a && f == e;
  }


  /** A trimmed string is its own trim, so `trim` is idempotent. */
  lemma TrimOfTrimmed(s: string)
    requires IsTrimmed(s)
    ensures Trim(s) == s
  {
  }

  /** One space in front of a trimmed string is removed again by `trim`. */
  lemma {:induction false} TrimAfterSpace(s: string)
    requires IsTrimmed(s)
    ensures Trim(" " + s) == s
  {
    assert (" " + s)[1..] == s;
    assert TrimStart(" " + s) == TrimStart(s);
    TrimOfTrimmed(s);
  }

  /** `s || fallback` on strings: the empty string is the only falsy one. */
  function OrElse(s: string, fallback: string): (r: string)
    ensures s != [] ==> r == s
    ensures s == [] ==> r == fallback
  {
    if s == [] then fallback else s
  }

  /** `replace(/^- /, '')`: one leading list marker "- " removed, if there. */
  function StripListMarker(s: string): (r: string)
    ensures |s| >= 2 && s[..2] == "- " ==> "- " + r == s
    ensures !(|s| >= 2 && s[..2] == "- ") ==> r == s
  {
    if |s| >= 2 && s[..2] == "- " then s[2..] else s
  }

  /** The marker in front of a text is removed, and only that marker. */
  lemma StripListMarkerOf(a: string)
    ensures StripListMarker("- " + a) == a
  {
    var s := "- " + a;
    assert s[..2] == "- ";
  }

  /** `replace(/\s/g, '_')`: every whitespace character becomes an underscore,
      everything else stays where it was. */
  function Underscore(s: string): (r: string)
    ensures |r| == |s|
    ensures forall i :: 0 <= i < |s| ==> r[i] == (if IsWhitespace(s[i]) then '_' else s[i])
  {
    if s == [] then [] else [if IsWhitespace(s[0]) then '_' else s[0]] + Underscore(s[1..])
  }

  /** `pat` occurs in `s` starting at index `i`. */
  predicate OccursAt(s: string, pat: string, i: nat)
  {
    i + |pat| <= |s| && s[i..i + |pat|] == pat
  }

  /** The first index at or after `from` where `pat` occurs. */
  function FindFrom(s: string, pat: string, from: nat): (r: Option<nat>)
    ensures r.Some? ==> from <= r.value && OccursAt(s, pat, r.value)
                        && forall j :: from <= j < r.value ==> !OccursAt(s, pat, j)
    ensures r.None? ==> forall j :: from <= j ==> !OccursAt(s, pat, j)
    decreases |s| - from
  {
    if from + |pat| > |s| then None
    else if s[from..from + |pat|] == pat then Some(from)
    else FindFrom(s, pat, from + 1)
  }

  /** `s.replace(pat, rep)` with a string pattern: only the first occurrence
      is replaced; without one the string is returned as it is. */
  function ReplaceFirst(s: string, pat: string, rep: string): string
  {
    match FindFrom(s, pat, 0)
    case None => s
    case Some(i) => s[..i] + rep + s[i + |pat|..]
  }

  function DigitChar(d: nat): (c: char)
    requires d < 10
    ensures '0' <= c <= '9'
  {
    (d + '0' as int) as char
  }

  function DigitValue(c: char): nat
  {
    if '0' <= c <= '9' then (c as int - '0' as int) as nat else 0
  }

  /** Decimal rendering of a non-negative integer, as `${n}` prints it. */
  function NatToString(n: nat): (r: string)
    ensures |r| >= 1
    ensures forall i :: 0 <= i < |r| ==> '0' <= r[i] <= '9'
    decreases n
  {
    if n < 10 then [DigitChar(n)] else NatToString(n / 10) + [DigitChar(n % 10)]
  }

  /** The value of a string of decimal digits. */
  function DecimalValue(s: string): nat
  {
    if s == [] then 0 else DecimalValue(s[..|s| - 1]) * 10 + DigitValue(s[|s| - 1])
  }

  /** Reading the digits back gives the number, so the rendering is injective. */
  lemma {:induction false} DecimalRoundTrip(n: nat)
    ensures DecimalValue(NatToString(n)) == n
    decreases n
  {
    var r := NatToString(n);
    if n >= 10 {
      var q := NatToString(n / 10);
      assert r == q + [DigitChar(n % 10)];
      assert r[..|r| - 1] == q;
      assert DigitValue(r[|r| - 1]) == n % 10;
      DecimalRoundTrip(n / 10);
      assert DecimalValue(r) == (n / 10) * 10 + n % 10;
    }
  }

  lemma NatToStringInjective(a: nat, b: nat)
    requires NatToString(a) == NatToString(b)
    ensures a == b
  {
    DecimalRoundTrip(a);
    DecimalRoundTrip(b);
  }
}
