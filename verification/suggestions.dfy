/** `getSuggestions` (src/lib/actions.ts): the model's reply is one
    suggestion per line, possibly as a `- ` list; the reply is cut into lines,
    each line trimmed and stripped of one list marker, and the empty results
    dropped. The model call itself is a parameter: `None` when it throws. */
module Suggestions {
  import opened Wrappers
  import Seqs
  import Text

  /** `s.trim().replace(/^- /, '')`: the trimmed line, less the one "- "
      it starts with, if it starts with one. */
  function CleanLine(line: string): (r: string)
    ensures var t := Text.Trim(line); |t| >= 2 && t[..2] == "- " ==> t == "- " + r
    ensures var t := Text.Trim(line); !(|t| >= 2 && t[..2] == "- ") ==> r == t
    ensures |r| <= |line|
  {
    Text.StripListMarker(Text.Trim(line))
  }

  /** `filter(Boolean)` on strings: only the empty string is dropped. */
  function NonEmpty(s: string): bool
  {
    s != []
  }

  /** The cleaned lines of a reply, one per line of the reply, in order. */
  function CleanLines(reply: string): (r: seq<string>)
    ensures |r| == Text.Count(reply, '\n') + 1
    ensures forall i :: 0 <= i < |r| ==> r[i] == CleanLine(Text.Split(reply, '\n')[i])
  {
    CleanEach(Text.Split(reply, '\n'))
  }

  /** `map(s => s.trim().replace(/^- /, ''))`. */
  function CleanEach(lines: seq<string>): (r: seq<string>)
    ensures |r| == |lines|
    ensures forall i :: 0 <= i < |lines| ==> r[i] == CleanLine(lines[i])
  {
    Seqs.Map((line: string) => CleanLine(line), lines)
  }

  /** The suggestions read off one reply: never an empty suggestion, never
      more suggestions than lines, and each one the cleaned form of a line. */
  function ParseSuggestions(reply: string): (r: seq<string>)
    ensures forall i :: 0 <= i < |r| ==> r[i] != []
    ensures |r| <= Text.Count(reply, '\n') + 1
    ensures forall i :: 0 <= i < |r| ==> r[i] in CleanLines(reply)
    ensures forall i :: 0 <= i < |CleanLines(reply)| && CleanLines(reply)[i] != [] ==> CleanLines(reply)[i] in r
  {
    KeepNonEmpty(CleanLines(reply))
  }

  /** `filter(Boolean)`: the non-empty lines, and only those. */
  function KeepNonEmpty(cleaned: seq<string>): (r: seq<string>)
    ensures forall i :: 0 <= i < |r| ==> r[i] != []
    ensures |r| <= |cleaned|
    ensures forall i :: 0 <= i < |r| ==> r[i] in cleaned
    ensures forall i :: 0 <= i < |cleaned| && cleaned[i] != [] ==> cleaned[i] in r
  {
    var r := Seqs.Filter(NonEmpty, cleaned);
    assert forall i :: 0 <= i < |r| ==> NonEmpty(r[i]);
    r
  }

  /** `getSuggestions`: the parsed reply, or no suggestion at all when the
      call failed. */
  function GetSuggestions(reply: Option<string>): (r: seq<string>)
    ensures reply.None? ==> r == []
    ensures reply.Some? ==> r == ParseSuggestions(reply.value)
  {
    match reply
    case None => []
    case Some(text) => ParseSuggestions(text)
  }

  /** A blank or whitespace-only line cleans to nothing, so it is dropped. */
  lemma BlankLineDropped(line: string)
    requires forall i :: 0 <= i < |line| ==> Text.IsWhitespace(line[i])
    requires '\n' !in line
    ensures ParseSuggestions(line) == []
  {
    OneLine(line);
    assert Text.Trim(line) == [];
  }

  /** A single line gives its cleaned form, unless that is empty. */
  lemma OneLine(line: string)
    requires '\n' !in line
    ensures ParseSuggestions(line) == if CleanLine(line) == [] then [] else [CleanLine(line)]
  {
    Text.CountAbsent(line, '\n');
    var lines := Text.Split(line, '\n');
    assert |lines| == 1;
    assert lines[0] == line;
    var cleaned := CleanLines(line);
    assert cleaned == [CleanLine(line)];
    assert Seqs.Filter(NonEmpty, cleaned) == (if NonEmpty(cleaned[0]) then [cleaned[0]] else []) + Seqs.Filter(NonEmpty, []);
  }

  /** Line order is kept: the suggestions of two blocks of lines are those of
      the first block followed by those of the second. */
  lemma LinesInOrder(first: string, second: string)
    ensures ParseSuggestions(first + "\n" + second)
         == ParseSuggestions(first) + ParseSuggestions(second)
  {
    CleanLinesConcat(first, second);
    Seqs.FilterConcat(NonEmpty, CleanLines(first), CleanLines(second));
  }

  lemma CleanLinesConcat(first: string, second: string)
    ensures CleanLines(first + "\n" + second) == CleanLines(first) + CleanLines(second)
  {
    Text.SplitConcat(first, second, '\n');
    assert first + "\n" + second == first + ['\n'] + second;
    Seqs.MapConcat((line: string) => CleanLine(line), Text.Split(first, '\n'), Text.Split(second, '\n'));
  }

  /** A marked list reply: each line's text after the marker is a suggestion,
      in the reply's order. */
  lemma MarkedLines(a: string, b: string)
    requires Text.IsTrimmed(a) && Text.IsTrimmed(b) && a != [] && b != []
    requires '\n' !in a && '\n' !in b
    ensures GetSuggestions(Some("- " + a + "\n- " + b)) == [a, b]
  {
    assert "- " + a + "\n- " + b == ("- " + a) + "\n" + ("- " + b);
    LinesInOrder("- " + a, "- " + b);
    MarkedLine(a);
    MarkedLine(b);
  }

  /** One marked line gives the text after its marker. */
  lemma MarkedLine(a: string)
    requires Text.IsTrimmed(a) && a != [] && '\n' !in a
    ensures ParseSuggestions("- " + a) == [a]
  {
    var line := "- " + a;
    assert '\n' !in line;
    OneLine(line);
    CleanMarked(a);
  }

  lemma CleanMarked(a: string)
    requires Text.IsTrimmed(a) && a != []
    ensures CleanLine("- " + a) == a
  {
    var line := "- " + a;
    MarkedIsTrimmed(a);
    Text.TrimOfTrimmed(line);
    Text.StripListMarkerOf(a);
  }

  lemma MarkedIsTrimmed(a: string)
    requires Text.IsTrimmed(a) && a != []
    ensures Text.IsTrimmed("- " + a)
  {
    var line := "- " + a;
    assert line[0] == '-' && line[|line| - 1] == a[|a| - 1];
  }
}
