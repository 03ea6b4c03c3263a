/** Strings as Python reads them: whitespace, line boundaries, stripping and splitting. */
module Text {
  /** `str.isspace`. */
  predicate IsSpace(c: char) {
    || ('\U{9}' <= c <= '\U{d}') || ('\U{1c}' <= c <= '\U{20}') || c == '\U{85}' || c == '\U{a0}' || c == '\U{1680}'
    || ('\U{2000}' <= c <= '\U{200a}') || c == '\U{2028}' || c == '\U{2029}' || c == '\U{202f}' || c ==
      '\U{205f}' || c == '\U{3000}'
  }

  /** A character of `str.isdigit`, in Unicode 14. */
  predicate IsDigit(c: char) {
    || ('0' <= c <= '9') || ('\U{b2}' <= c <= '\U{b3}') || c == '\U{b9}' || ('\U{660}' <= c <= '\U{669}')
    || ('\U{6f0}' <= c <= '\U{6f9}') || ('\U{7c0}' <= c <= '\U{7c9}') || ('\U{966}' <= c <= '\U{96f}')
    || ('\U{9e6}' <= c <= '\U{9ef}') || ('\U{a66}' <= c <= '\U{a6f}') || ('\U{ae6}' <= c <= '\U{aef}')
    || ('\U{b66}' <= c <= '\U{b6f}') || ('\U{be6}' <= c <= '\U{bef}') || ('\U{c66}' <= c <= '\U{c6f}')
    || ('\U{ce6}' <= c <= '\U{cef}') || ('\U{d66}' <= c <= '\U{d6f}') || ('\U{de6}' <= c <= '\U{def}')
    || ('\U{e50}' <= c <= '\U{e59}') || ('\U{ed0}' <= c <= '\U{ed9}') || ('\U{f20}' <= c <= '\U{f29}')
    || ('\U{1040}' <= c <= '\U{1049}') || ('\U{1090}' <= c <= '\U{1099}') || ('\U{1369}' <= c <= '\U{1371}')
    || ('\U{17e0}' <= c <= '\U{17e9}') || ('\U{1810}' <= c <= '\U{1819}') || ('\U{1946}' <= c <= '\U{194f}')
    || ('\U{19d0}' <= c <= '\U{19da}') || ('\U{1a80}' <= c <= '\U{1a89}') || ('\U{1a90}' <= c <= '\U{1a99}')
    || ('\U{1b50}' <= c <= '\U{1b59}') || ('\U{1bb0}' <= c <= '\U{1bb9}') || ('\U{1c40}' <= c <= '\U{1c49}')
    || ('\U{1c50}' <= c <= '\U{1c59}') || c == '\U{2070}' || ('\U{2074}' <= c <= '\U{2079}')
    || ('\U{2080}' <= c <= '\U{2089}') || ('\U{2460}' <= c <= '\U{2468}') || ('\U{2474}' <= c <= '\U{247c}')
    || ('\U{2488}' <= c <= '\U{2490}') || c == '\U{24ea}' || ('\U{24f5}' <= c <= '\U{24fd}')
    || c == '\U{24ff}' || ('\U{2776}' <= c <= '\U{277e}') || ('\U{2780}' <= c <= '\U{2788}')
    || ('\U{278a}' <= c <= '\U{2792}') || ('\U{a620}' <= c <= '\U{a629}') || ('\U{a8d0}' <= c <= '\U{a8d9}')
    || ('\U{a900}' <= c <= '\U{a909}') || ('\U{a9d0}' <= c <= '\U{a9d9}') || ('\U{a9f0}' <= c <= '\U{a9f9}')
    || ('\U{aa50}' <= c <= '\U{aa59}') || ('\U{abf0}' <= c <= '\U{abf9}') || ('\U{ff10}' <= c <= '\U{ff19}')
    || ('\U{104a0}' <= c <= '\U{104a9}') || ('\U{10a40}' <= c <= '\U{10a43}')
    || ('\U{10d30}' <= c <= '\U{10d39}') || ('\U{10e60}' <= c <= '\U{10e68}')
    || ('\U{11052}' <= c <= '\U{1105a}') || ('\U{11066}' <= c <= '\U{1106f}')
    || ('\U{110f0}' <= c <= '\U{110f9}') || ('\U{11136}' <= c <= '\U{1113f}')
    || ('\U{111d0}' <= c <= '\U{111d9}') || ('\U{112f0}' <= c <= '\U{112f9}')
    || ('\U{11450}' <= c <= '\U{11459}') || ('\U{114d0}' <= c <= '\U{114d9}')
    || ('\U{11650}' <= c <= '\U{11659}') || ('\U{116c0}' <= c <= '\U{116c9}')
    || ('\U{11730}' <= c <= '\U{11739}') || ('\U{118e0}' <= c <= '\U{118e9}')
    || ('\U{11950}' <= c <= '\U{11959}') || ('\U{11c50}' <= c <= '\U{11c59}')
    || ('\U{11d50}' <= c <= '\U{11d59}') || ('\U{11da0}' <= c <= '\U{11da9}')
    || ('\U{16a60}' <= c <= '\U{16a69}') || ('\U{16ac0}' <= c <= '\U{16ac9}')
    || ('\U{16b50}' <= c <= '\U{16b59}') || ('\U{1d7ce}' <= c <= '\U{1d7ff}')
    || ('\U{1e140}' <= c <= '\U{1e149}') || ('\U{1e2f0}' <= c <= '\U{1e2f9}')
    || ('\U{1e950}' <= c <= '\U{1e959}') || ('\U{1f100}' <= c <= '\U{1f10a}')
    || ('\U{1fbf0}' <= c <= '\U{1fbf9}')
  }

  /** The boundaries of `str.splitlines`. */
  predicate IsBreak(c: char) {
    ('\U{a}' <= c <= '\U{d}') || ('\U{1c}' <= c <= '\U{1e}') || c == '\U{85}' || c == '\U{2028}' || c == '\U{2029}'
  }

  /** What a name says after a drive letter. */
  function AfterDrive(name: string): string { if |name| >= 2 && name[1] == ':' then name[2..] else name }

  /** A name that leads out of its directory: one with a separator, or a step to the parent. */
  predicate PathSyntax(name: string) { '/' in name || '\\' in name || AfterDrive(name) == ".." }

  lemma PathSyntaxIff(name: string)
    ensures PathSyntax(name) <==>
              || (exists i :: 0 <= i < |name| && (name[i] == '/' || name[i] == '\\'))
              || name == ['.', '.'] || (|name| == 4 && name[1] == ':' && name[2] == '.' && name[3] == '.')
  {}

  /** The characters of `string.whitespace` and the other spaces of Unicode, one by one. */
  const SPACES := "\t\n\U{b}\U{c}\r\U{1c}\U{1d}\U{1e}\U{1f} \U{85}\U{a0}\U{1680}"
    + "\U{2000}\U{2001}\U{2002}\U{2003}\U{2004}\U{2005}\U{2006}\U{2007}\U{2008}\U{2009}\U{200a}"
    + "\U{2028}\U{2029}\U{202f}\U{205f}\U{3000}"

  lemma SpacesAre(c: char)
    ensures IsSpace(c) <==> c in SPACES
  {}

  lemma BreaksAre(c: char)
    ensures IsBreak(c) <==> c in "\n\U{b}\U{c}\r\U{1c}\U{1d}\U{1e}\U{85}\U{2028}\U{2029}"
  {}

  predicate Blank(t: string) { forall i :: 0 <= i < |t| ==> IsSpace(t[i]) }

  predicate OneLine(t: string) { forall i :: 0 <= i < |t| ==> !IsBreak(t[i]) }

  function LStrip(t: string): (r: string)
    ensures r == "" || !IsSpace(r[0])
    ensures |r| <= |t| && r == t[|t| - |r|..]
  {
    if t != "" && IsSpace(t[0]) then LStrip(t[1..]) else t
  }

  function RStrip(t: string): (r: string)
    ensures r == "" || !IsSpace(r[|r| - 1])
    ensures r <= t && Blank(t[|r|..])
  {
    if t != "" && IsSpace(t[|t| - 1]) then
      var r := RStrip(t[..|t| - 1]);
      assert t[|r|..] == t[..|t| - 1][|r|..] + [t[|t| - 1]];
      r
    else t
  }

  /** `str.strip`. */
  function Strip(t: string): string { RStrip(LStrip(t)) }

  /** No whitespace at either end. */
  predicate Tight(t: string) { t == "" || (!IsSpace(t[0]) && !IsSpace(t[|t| - 1])) }

  lemma StripIsTight(t: string)
    ensures Tight(Strip(t))
  {
    hide IsSpace, LStrip, RStrip;
    assert Strip(t) != "" ==> Strip(t)[0] == LStrip(t)[0];
  }

  lemma BreaksAreSpaces(c: char)
    ensures IsBreak(c) ==> IsSpace(c)
  {}

  lemma {:induction false} LStripDropsBlank(t: string)
    ensures Blank(t[..|t| - |LStrip(t)|])
  {
    if t != "" && IsSpace(t[0]) {
      LStripDropsBlank(t[1..]);
      var n := |t[1..]| - |LStrip(t[1..])|;
      assert t[..n + 1] == [t[0]] + t[1..][..n];
    }
  }

  lemma LStripIsSuffix(t: string) returns (left: string)
    ensures t == left + LStrip(t) && Blank(left)
  {
    hide IsSpace, LStrip, Blank;
    LStripDropsBlank(t);
    left := t[..|t| - |LStrip(t)|];
  }

  /** Stripping keeps a piece of the text, and what it drops is blank. */
  lemma StripIsPiece(t: string) returns (left: string, right: string)
    ensures t == left + Strip(t) + right && Blank(left) && Blank(right)
  {
    hide IsSpace, LStrip, RStrip, Blank;
    left := LStripIsSuffix(t);
    right := LStrip(t)[|Strip(t)|..];
    assert LStrip(t) == Strip(t) + right;
  }

  lemma {:induction false} LStripBlank(pad: string, t: string)
    requires Blank(pad) && (t == "" || !IsSpace(t[0]))
    ensures LStrip(pad + t) == t
    decreases |pad|
  {
    if pad == "" {
      assert pad + t == t;
    } else {
      assert (pad + t)[1..] == pad[1..] + t;
      LStripBlank(pad[1..], t);
    }
  }

  lemma {:induction false} RStripBlank(t: string, pad: string)
    requires Blank(pad) && (t == "" || !IsSpace(t[|t| - 1]))
    ensures RStrip(t + pad) == t
    decreases |pad|
  {
    if pad == "" {
      assert t + pad == t;
    } else {
      var whole, last := t + pad, |pad| - 1;
      assert whole[..|whole| - 1] == t + pad[..last] && whole[|whole| - 1] == pad[last];
      RStripBlank(t, pad[..last]);
    }
  }

  /** Padding on either side is what stripping removes. */
  lemma StripPadded(left: string, t: string, right: string)
    requires Blank(left) && Blank(right) && Tight(t)
    ensures Strip(left + t + right) == t
  {
    if t == "" {
      assert left + t + right == (left + right) + "";
      LStripBlank(left + right, "");
    } else {
      assert left + t + right == left + (t + right);
      LStripBlank(left, t + right);
      RStripBlank(t, right);
    }
  }

  lemma TightIsStripped(t: string)
    ensures Strip(t) == t <==> Tight(t)
  {
    hide IsSpace, LStrip, RStrip, Strip;
    StripIsTight(t);
    if Tight(t) {
      StripPadded("", t, "");
      assert "" + t + "" == t;
    }
  }

  /** The index of the first line boundary, or the length. */
  function FirstBreak(t: string): (r: nat)
    ensures r <= |t| && (forall k :: 0 <= k < r ==> !IsBreak(t[k])) && (r < |t| ==> IsBreak(t[r]))
  {
    if t == "" || IsBreak(t[0]) then 0 else 1 + FirstBreak(t[1..])
  }

  /** Where the text goes on after its first boundary. */
  function AfterBreak(t: string): (r: nat)
    requires FirstBreak(t) < |t|
    ensures FirstBreak(t) < r <= |t|
  {
    var n := FirstBreak(t);
    if t[n] == '\r' && n + 1 < |t| && t[n + 1] == '\n' then n + 2 else n + 1
  }

  /** `str.splitlines`; CRLF is one boundary. */
  function SplitLines(t: string): (r: seq<string>)
    ensures forall i :: 0 <= i < |r| ==> OneLine(r[i])
    ensures t != "" ==> r != []
    decreases |t|
  {
    if t == "" then []
    else
      var n := FirstBreak(t);
      if n == |t| then assert t[..n] == t; [t] else [t[..n]] + SplitLines(t[AfterBreak(t)..])
  }

  lemma NewlineBreaks()
    ensures IsBreak('\n') && IsBreak('\r')
  {}

  lemma {:induction false} SplitStep(t: string)
    requires t != ""
    ensures SplitLines(t) == if FirstBreak(t) == |t| then [t] else [t[..FirstBreak(t)]] + SplitLines(t[AfterBreak(t)..])
  {
    hide IsBreak, FirstBreak;
  }

  lemma {:induction false} BreakBeforeEnd(t: string)
    requires t != "" && !IsBreak(t[|t| - 1])
    ensures FirstBreak(t) < |t| ==> AfterBreak(t) < |t|
  {
    NewlineBreaks();
    hide IsBreak, FirstBreak;
  }

  /** A text that does not end in a boundary ends with its last line. */
  lemma {:induction false} LastLine(t: string)
    requires t != "" && !IsBreak(t[|t| - 1])
    ensures var lines := SplitLines(t);
            lines[|lines| - 1] != "" && lines[|lines| - 1][|lines[|lines| - 1]| - 1] == t[|t| - 1]
    decreases |t|
  {
    hide IsBreak, FirstBreak, SplitLines, AfterBreak;
    SplitStep(t);
    BreakBeforeEnd(t);
    if FirstBreak(t) < |t| {
      LastLine(t[AfterBreak(t)..]);
    }
  }

  function JoinLines(lines: seq<string>): string {
    if lines == [] then ""
    else if |lines| == 1 then lines[0]
    else lines[0] + "\n" + JoinLines(lines[1..])
  }

  lemma {:induction false} FirstBreakOf(line: string, rest: string)
    requires OneLine(line)
    ensures FirstBreak(line + "\n" + rest) == |line|
  {
    var t := line + "\n" + rest;
    assert t[|line|] == '\n' && IsBreak('\n');
    assert forall k :: 0 <= k < |line| ==> t[k] == line[k];
    hide IsBreak;
  }

  lemma SplitNothing()
    ensures SplitLines("") == []
  {}

  lemma {:induction false} SplitOne(line: string)
    requires OneLine(line) && line != ""
    ensures SplitLines(line) == [line]
  {
    hide IsBreak, FirstBreak;
    assert FirstBreak(line) == |line|;
  }

  /** What ends a line: a carriage return with its newline, or one of the boundaries. */
  predicate EndsLine(ending: string, rest: string) {
    || ending == "\r\n"
    || (|ending| == 1 && IsBreak(ending[0]) && (ending == "\r" ==> rest == "" || rest[0] != '\n'))
  }

  /** A line, however it ends, is split off. */
  lemma {:induction false} SplitAtEnding(line: string, ending: string, rest: string)
    requires OneLine(line) && EndsLine(ending, rest)
    ensures SplitLines(line + (ending + rest)) == [line] + SplitLines(rest)
  {
    hide IsBreak, FirstBreak, EndsLine;
    BreakAfter(line, ending, rest);
    var t := line + (ending + rest);
    assert t[..|line|] == line && t[|line|..] == ending + rest && t[|line| + |ending|..] == rest;
    EndingIs(ending, rest);
    assert |line| + 1 < |t| ==> t[|line| + 1] == (ending + rest)[1];
  }

  lemma BreakAfter(line: string, ending: string, rest: string)
    requires OneLine(line) && EndsLine(ending, rest)
    ensures FirstBreak(line + (ending + rest)) == |line|
  {
    var t := line + (ending + rest);
    assert forall k :: 0 <= k < |line| ==> t[k] == line[k];
    NewlineBreaks();
    assert t[|line|] == ending[0] && IsBreak(t[|line|]);
    hide IsBreak, FirstBreak;
  }

  lemma EndingIs(ending: string, rest: string)
    requires EndsLine(ending, rest)
    ensures ending == "\r\n" || (|ending| == 1 && !(ending[0] == '\r' && rest != "" && rest[0] == '\n'))
  {
    hide IsBreak;
    assert |ending| == 1 && ending[0] == '\r' ==> ending == "\r";
  }

  lemma {:induction false} SplitFirst(line: string, rest: string)
    requires OneLine(line)
    ensures SplitLines(line + "\n" + rest) == [line] + SplitLines(rest)
  {
    NewlineBreaks();
    hide IsBreak, SplitLines;
    SplitAtEnding(line, "\n", rest);
    assert line + "\n" + rest == line + ("\n" + rest);
  }

  /** Splitting undoes joining, for lines that are lines. */
  lemma {:induction false} SplitJoined(lines: seq<string>)
    requires forall i :: 0 <= i < |lines| ==> OneLine(lines[i]) && lines[i] != ""
    ensures SplitLines(JoinLines(lines)) == lines
    decreases |lines|
  {
    hide IsBreak, SplitLines;
    if |lines| == 0 {
      SplitNothing();
    } else if |lines| == 1 {
      SplitOne(lines[0]);
    } else {
      SplitFirst(lines[0], JoinLines(lines[1..]));
      SplitJoined(lines[1..]);
      assert lines == [lines[0]] + lines[1..];
    }
  }
}
