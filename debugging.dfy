/**
  `MyLogger`, the `TextOutputStream` of the Debugging page: it drops text
  that is blank once whitespace and newlines are trimmed, and prints
  everything else once, prefixed with "MyLogger ".
 */
module Debugging {
  import opened Wrappers

  /** Membership in `CharacterSet.whitespacesAndNewlines`: Unicode general
      category Z*, U+0009...U+000D and U+0085. */
  predicate IsWhitespaceOrNewline(c: char) {
    || ('\U{9}' <= c <= '\U{D}')
    || c == ' ' || c == '\U{85}' || c == '\U{A0}' || c == '\U{1680}'
    || ('\U{2000}' <= c <= '\U{200A}')
    || c == '\U{2028}' || c == '\U{2029}' || c == '\U{202F}' || c == '\U{205F}' || c == '\U{3000}'
  }

  predicate IsBlank(s: string) {
    forall i :: 0 <= i < |s| ==> IsWhitespaceOrNewline(s[i])
  }

  const Prefix: string := "MyLogger "

  // ---------------------------------------------------------------------------
  // `trimmingCharacters(in: .whitespacesAndNewlines)`

  function TrimLeading(s: string): (r: string)
    ensures |r| <= |s| && r == s[|s| - |r|..]
    ensures r == [] || !IsWhitespaceOrNewline(r[0])
    ensures forall i :: 0 <= i < |s| - |r| ==> IsWhitespaceOrNewline(s[i])
  {
    if s != [] && IsWhitespaceOrNewline(s[0]) then TrimLeading(s[1..]) else s
  }

  function TrimTrailing(s: string): (r: string)
    ensures |r| <= |s| && r == s[..|r|]
    ensures r == [] || !IsWhitespaceOrNewline(r[|r| - 1])
    ensures forall i :: |r| <= i < |s| ==> IsWhitespaceOrNewline(s[i])
  {
    if s != [] && IsWhitespaceOrNewline(s[|s| - 1]) then TrimTrailing(s[..|s| - 1]) else s
  }

  /** The text with its leading and trailing whitespace and newlines removed:
      empty exactly when the text is blank, and otherwise starting and ending
      with a character that is neither. */
  function Trimmed(s: string): (r: string)
    ensures r == [] <==> IsBlank(s)
    ensures r != [] ==> !IsWhitespaceOrNewline(r[0]) && !IsWhitespaceOrNewline(r[|r| - 1])
  {
    var lead := TrimLeading(s);
    var r := TrimTrailing(lead);
    assert r != [] ==> r[0] == lead[0];
    assert r == [] ==> lead == [];
    assert r != [] ==> s[|s| - |lead|] == r[0];
    r
  }

  // ---------------------------------------------------------------------------
  // MyLogger.write

  /** `MyLogger().write(string)`: nothing for blank text; otherwise the one
      line "MyLogger " followed by the text as it was given, untrimmed. */
  function Write(s: string): (out: Option<string>)
    ensures out.None? <==> IsBlank(s)
    ensures out.Some? ==> out.value == Prefix + s
  {
    if Trimmed(s) == [] then None else Some(Prefix + s)
  }

  /** The lines printed for a stream of `write` calls, in order. */
  function Emitted(pieces: seq<string>): (lines: seq<string>)
    ensures |lines| <= |pieces|
    ensures forall i :: 0 <= i < |lines| ==>
              |Prefix| <= |lines[i]| && lines[i][..|Prefix|] == Prefix && !IsBlank(lines[i][|Prefix|..])
  {
    if pieces == [] then []
    else
      match Write(pieces[0])
      case None => Emitted(pieces[1..])
      case Some(line) => [line] + Emitted(pieces[1..])
  }

  /** `print(text, to: &logger)` makes three writes: the empty separator
      prefix written before its one item, the text, and the "\n" terminator.
      The empty and newline-only writes are dropped and each text line is kept. */
  lemma {:induction false} PrintedLinesKeepText(texts: seq<string>)
    requires forall i :: 0 <= i < |texts| ==> !IsBlank(texts[i])
    ensures Emitted(Interleave(texts)) == PrefixEach(texts)
  {
    if texts != [] {
      PrintedLinesKeepText(texts[1..]);
      assert !IsBlank(texts[0]);
      OnePrintEmitsOneLine(texts[0], Interleave(texts[1..]));
    }
  }

  /** One `print` of non-blank text, followed by any further writes, emits
      the one prefixed line and then whatever the further writes emit. */
  lemma OnePrintEmitsOneLine(t: string, rest: seq<string>)
    requires !IsBlank(t)
    ensures Emitted(["", t, "\n"] + rest) == [Prefix + t] + Emitted(rest)
  {
    var pieces := ["", t, "\n"] + rest;
    assert IsBlank("\n");
    assert pieces[1..] == [t, "\n"] + rest;
    assert pieces[1..][1..] == ["\n"] + rest;
    assert (["\n"] + rest)[1..] == rest;
    assert Write("") == None && Write("\n") == None && Write(t) == Some(Prefix + t);
    assert Emitted(["\n"] + rest) == Emitted(rest);
    assert Emitted(pieces[1..]) == [Prefix + t] + Emitted(rest);
  }

  /** The writes `print` makes for each text: "", the text, then "\n". */
  function Interleave(texts: seq<string>): (pieces: seq<string>)
    ensures |pieces| == 3 * |texts|
  {
    if texts == [] then [] else ["", texts[0], "\n"] + Interleave(texts[1..])
  }

  function PrefixEach(texts: seq<string>): (lines: seq<string>)
    ensures |lines| == |texts|
    ensures forall i :: 0 <= i < |texts| ==> lines[i] == Prefix + texts[i]
  {
    if texts == [] then [] else [Prefix + texts[0]] + PrefixEach(texts[1..])
  }
}
