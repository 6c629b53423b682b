/// The reStructuredText source a demo view renders from its holder class's
/// docstring: the docstring's lines, un-indented by the smallest indentation
/// of a non-empty line, then the view's extra documentation, then a
/// transition line.
module Docstring {
  import opened Values

  /// The line boundaries at which Python's `str.splitlines` splits.
  predicate IsLineBreak(c: char) {
    || c == '\n' || c == '\r' || c == '\U{000B}' || c == '\U{000C}'
    || c == '\U{001C}' || c == '\U{001D}' || c == '\U{001E}'
    || c == '\U{0085}' || c == '\U{2028}' || c == '\U{2029}'
  }

  predicate NoLineBreak(s: string) {
    forall j :: 0 <= j < |s| ==> !IsLineBreak(s[j])
  }

  /// The length of the first line: the position of the first boundary.
  function LineEnd(s: string): (k: nat)
    ensures k <= |s| && NoLineBreak(s[..k])
    ensures k < |s| ==> IsLineBreak(s[k])
  {
    if s == [] || IsLineBreak(s[0]) then 0
    else
      assert s[1..][..LineEnd(s[1..])] == s[1..1 + LineEnd(s[1..])];
      1 + LineEnd(s[1..])
  }

  /// `s.splitlines()`: the lines without their boundaries; "\r\n" is one
  /// boundary, and a boundary at the very end starts no further line.
  function SplitLines(s: string): (lines: seq<string>)
    ensures forall i :: 0 <= i < |lines| ==> NoLineBreak(lines[i])
    ensures s != [] ==> |lines| >= 1
    decreases |s|
  {
    if s == [] then []
    else
      var k := LineEnd(s);
      if k == |s| then [s]
      else
        var width := if s[k] == '\r' && k + 1 < |s| && s[k + 1] == '\n' then 2 else 1;
        [s[..k]] + SplitLines(s[k + width..])
  }

  /// `'\n'.join(lines)`
  function JoinLines(lines: seq<string>): string {
    if lines == [] then ""
    else if |lines| == 1 then lines[0]
    else lines[0] + "\n" + JoinLines(lines[1..])
  }

  /// For text whose only boundaries are "\n" and that does not end with one,
  /// joining its lines with "\n" gives it back.
  lemma {:induction false} JoinSplitLines(s: string)
    requires forall j :: 0 <= j < |s| && IsLineBreak(s[j]) ==> s[j] == '\n'
    requires s == [] || s[|s| - 1] != '\n'
    ensures JoinLines(SplitLines(s)) == s
    decreases |s|
  {
    if s != [] {
      var k := LineEnd(s);
      if k < |s| {
        var rest := s[k + 1..];
        assert rest != [];
        assert rest[|rest| - 1] == s[|s| - 1];
        JoinSplitLines(rest);
        var lines := SplitLines(s);
        assert lines == [s[..k]] + SplitLines(rest);
        assert lines[1..] == SplitLines(rest);
        assert s == s[..k] + "\n" + rest;
      }
    }
  }

  /// The smallest indentation among the non-empty lines (a line of
  /// whitespace only counts with its full length); `None` when every line is
  /// empty.
  function MinIndent(lines: seq<string>): (m: Option<nat>)
    ensures m.None? <==> forall i :: 0 <= i < |lines| ==> lines[i] == ""
    ensures m.Some? ==> forall i :: 0 <= i < |lines| && lines[i] != "" ==> m.value <= LeadingSpace(lines[i])
    ensures m.Some? ==> exists i :: 0 <= i < |lines| && lines[i] != "" && LeadingSpace(lines[i]) == m.value
  {
    if lines == [] then None
    else
      var rest := MinIndent(lines[1..]);
      assert forall i :: 1 <= i < |lines| ==> lines[i] == lines[1..][i - 1];
      if lines[0] == "" then
        rest
      else
        var here := LeadingSpace(lines[0]);
        if rest.None? || here <= rest.value then Some(here) else rest
  }

  /// `[l[n:] for l in lines]`: a line shorter than `n` becomes ''.
  function Dedent(lines: seq<string>, n: nat): (r: seq<string>)
    ensures |r| == |lines|
  {
    seq(|lines|, i requires 0 <= i < |lines| => if n <= |lines[i]| then lines[i][n..] else "")
  }

  /// Un-indenting by the smallest indentation removes, from every non-empty
  /// line, exactly that many leading characters, all of them whitespace.
  lemma DedentRemovesIndentOnly(lines: seq<string>)
    requires MinIndent(lines).Some?
    ensures var n := MinIndent(lines).value; var r := Dedent(lines, n);
      forall i :: 0 <= i < |lines| && lines[i] != "" ==>
        && n <= |lines[i]|
        && lines[i] == lines[i][..n] + r[i]
        && forall j :: 0 <= j < n ==> IsSpace(lines[i][j])
  {
  }

  /// Some non-empty line ends up flush left: either it starts with a
  /// non-whitespace character, or it held whitespace only and is now empty.
  lemma DedentLeavesAFlushLine(lines: seq<string>)
    requires MinIndent(lines).Some?
    ensures var r := Dedent(lines, MinIndent(lines).value);
      exists i :: 0 <= i < |lines| && lines[i] != "" && (r[i] == "" || !IsSpace(r[i][0]))
  {
    var n := MinIndent(lines).value;
    var i :| 0 <= i < |lines| && lines[i] != "" && LeadingSpace(lines[i]) == n;
    var r := Dedent(lines, n);
    assert r[i] == "" || r[i][0] == lines[i][n];
  }

  /// When no line is whitespace only, some line keeps text and loses all its
  /// leading whitespace.
  lemma DedentLeavesAFlushTextLine(lines: seq<string>)
    requires MinIndent(lines).Some?
    requires forall i :: 0 <= i < |lines| && lines[i] != "" ==> LeadingSpace(lines[i]) < |lines[i]|
    ensures var r := Dedent(lines, MinIndent(lines).value);
      exists i :: 0 <= i < |lines| && r[i] != "" && !IsSpace(r[i][0])
  {
    var n := MinIndent(lines).value;
    var i :| 0 <= i < |lines| && lines[i] != "" && LeadingSpace(lines[i]) == n;
    var r := Dedent(lines, n);
    assert r[i][0] == lines[i][n];
  }

  /// What the docstring preparation produces: nothing when the class has no
  /// docstring, the lines handed to the parser, or the `ValueError` of `min()`
  /// over no non-empty line.
  datatype Prepared = NoDocstring | Lines(lines: seq<string>) | Raised(exc: Exc)

  /// The preparation in `get_context_data`, up to `parser.parse`.
  method PrepareDocstring(doc: Option<string>, extraDoc: Option<string>) returns (r: Prepared)
    ensures r.NoDocstring? <==> doc.None? || doc.value == ""
    ensures r.Raised? <==> doc.Some? && doc.value != "" && MinIndent(SplitLines(doc.value)).None?
    ensures r.Raised? ==> r.exc == ValueError
    ensures r.Lines? ==>
              var own := SplitLines(doc.value);
              var extra := if extraDoc.Some? && extraDoc.value != "" then ["\n"] + SplitLines(extraDoc.value) else [];
              && MinIndent(own).Some?
              && r.lines == Dedent(own, MinIndent(own).value) + extra + ["", "------"]
  {
    if doc.None? || doc.value == "" {
      return NoDocstring;
    }
    var own := SplitLines(doc.value);
    var unindent := MinIndent(own);
    if unindent.None? {
      return Raised(ValueError);
    }
    var docstring := Dedent(own, unindent.value);
    ghost var dedented := docstring;
    if extraDoc.Some? && extraDoc.value != "" {
      docstring := docstring + ["\n"];
      docstring := docstring + SplitLines(extraDoc.value);
      assert docstring == dedented + (["\n"] + SplitLines(extraDoc.value));
    } else {
      assert docstring == dedented + [];
    }
    docstring := docstring + ["", "------"];
    r := Lines(docstring);
  }

  /// The text handed to the parser always ends with an empty line and the
  /// transition line.
  lemma ParserInputEndsWithTransition(lines: seq<string>)
    requires |lines| >= 3 && lines[|lines| - 2..] == ["", "------"]
    ensures var text := JoinLines(lines);
      |text| >= 8 && text[|text| - 8..] == "\n\n------"
  {
    var n := |lines|;
    assert lines[n - 2] == lines[n - 2..][0] == "";
    assert lines[n - 1] == lines[n - 2..][1] == "------";
    JoinLastTwo(lines);
    var head := JoinLines(lines[..n - 2]);
    var tail := "\n\n------";
    var text := JoinLines(lines);
    assert text == head + "\n" + "" + "\n" + "------";
    assert text == head + tail;
    assert text[|text| - 8..] == tail;
  }

  lemma {:induction false} JoinLastTwo(lines: seq<string>)
    requires |lines| >= 2
    ensures JoinLines(lines) == JoinLines(lines[..|lines| - 2]) + (if |lines| > 2 then "\n" else "")
                                + lines[|lines| - 2] + "\n" + lines[|lines| - 1]
  {
    if |lines| > 2 {
      JoinLastTwo(lines[1..]);
      assert lines[1..][..|lines| - 3] == lines[1..|lines| - 2];
      assert lines[..|lines| - 2] == [lines[0]] + lines[1..|lines| - 2];
      if |lines| > 3 {
        assert lines[..|lines| - 2][1..] == lines[1..|lines| - 2];
      }
    }
  }

  /// A line followed by a boundary ends where the line ends.
  lemma {:induction false} LineEndAfterLine(line: string, rest: string)
    requires NoLineBreak(line) && rest != [] && IsLineBreak(rest[0])
    ensures LineEnd(line + rest) == |line|
  {
    if line != [] {
      assert (line + rest)[1..] == line[1..] + rest;
      LineEndAfterLine(line[1..], rest);
    }
  }

  /// Splitting a line, a boundary and more text gives that line, then the
  /// lines of the text after the boundary.
  lemma SplitLinesCons(line: string, sep: string, rest: string)
    requires NoLineBreak(line)
    requires sep == "\n" || sep == "\r\n"
    ensures SplitLines(line + sep + rest) == [line] + SplitLines(rest)
  {
    var s := line + sep + rest;
    LineEndAfterLine(line, sep + rest);
    assert s == line + (sep + rest);
    assert s[..|line|] == line;
    assert s[|line| + |sep|..] == rest;
  }
}
