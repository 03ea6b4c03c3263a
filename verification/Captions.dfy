/** Caption files: the parser, the two renderings, and why each undoes the other. */
module Captions {
  import opened Domain
  import opened Text

  /** A cue, as the parser returns it: times with decimal points, and its text lines. */
  datatype Cue = Cue(start: string, end: string, lines: seq<string>)

  // ------------------------------------------------------------ blocks

  /** The last newline of the whitespace that runs on from `i`, after `last`. */
  function LastNewline(t: string, i: nat, last: Option<nat>): Option<nat>
    requires i <= |t|
    decreases |t| - i
  {
    if i == |t| || !IsSpace(t[i]) then last
    else LastNewline(t, i + 1, if t[i] == '\n' then Some(i) else last)
  }

  /** The end of the match of `\n\s*\n` that starts at `i`. */
  function GapAt(t: string, i: nat): Option<nat>
    requires i < |t|
  {
    if t[i] != '\n' then None
    else
      match LastNewline(t, i + 1, None)
      case None => None
      case Some(j) => Some(j + 1)
  }

  predicate IsGap(t: string, i: nat, end: nat) {
    && i + 2 <= end <= |t| && t[i] == '\n' && t[end - 1] == '\n'
    && forall k :: i < k < end ==> IsSpace(t[k])
  }

  lemma {:induction false} LastNewlineMeaning(t: string, i: nat, last: Option<nat>)
    requires i <= |t|
    ensures var r := LastNewline(t, i, last);
            || (r == last && forall j :: i <= j < |t| && t[j] == '\n' ==> exists k :: i <= k <= j && !IsSpace(t[k]))
            || (r.Some? && i <= r.value < |t| && t[r.value] == '\n' && (forall k :: i <= k <= r.value ==> IsSpace(t[k]))
                && forall j :: r.value < j < |t| && t[j] == '\n' ==> exists k :: i <= k <= j && !IsSpace(t[k]))
    decreases |t| - i
  {
    assert IsSpace('\n');
    hide IsSpace;
    if i < |t| && IsSpace(t[i]) {
      LastNewlineMeaning(t, i + 1, if t[i] == '\n' then Some(i) else last);
    }
  }

  /** The match at a position is the longest there, as a greedy pattern finds it. */
  lemma GapIsLongest(t: string, i: nat)
    requires i < |t|
    ensures GapAt(t, i).Some? ==> IsGap(t, i, GapAt(t, i).value)
    ensures forall end: nat :: IsGap(t, i, end) ==> GapAt(t, i).Some? && end <= GapAt(t, i).value
  {
    hide IsSpace;
    if t[i] == '\n' {
      LastNewlineMeaning(t, i + 1, None);
    }
  }

  /** The leftmost match at or after `i`. */
  function FirstGap(t: string, i: nat): (r: Option<(nat, nat)>)
    requires i <= |t|
    ensures r.Some? ==> i <= r.value.0 < r.value.1 <= |t|
    decreases |t| - i
  {
    if i == |t| then None
    else
      GapIsLongest(t, i);
      if GapAt(t, i).Some? then Some((i, GapAt(t, i).value)) else FirstGap(t, i + 1)
  }

  /** `re.split(r"\n\s*\n", t)`. */
  function Blocks(t: string): seq<string>
    decreases |t|
  {
    match FirstGap(t, 0)
    case None => [t]
    case Some(gap) => [t[..gap.0]] + Blocks(t[gap.1..])
  }

  /** From `i` on, spaces within the line and then something visible. */
  predicate Leads(t: string, i: nat)
    requires i <= |t|
    decreases |t| - i
  {
    i < |t| && (!IsSpace(t[i]) || (t[i] != '\n' && Leads(t, i + 1)))
  }

  /** No blank line within, before or after. */
  predicate Solid(t: string) {
    Leads(t, 0) && forall i :: 0 <= i < |t| && t[i] == '\n' ==> Leads(t, i + 1)
  }

  lemma {:induction false} LeadsStops(t: string, i: nat, last: Option<nat>)
    requires i <= |t| && Leads(t, i)
    ensures LastNewline(t, i, last) == last
    decreases |t| - i
  {
    if IsSpace(t[i]) {
      LeadsStops(t, i + 1, last);
    }
  }

  lemma {:induction false} LeadsIn(before: string, t: string, after: string, i: nat)
    requires i <= |t| && Leads(t, i)
    ensures Leads(before + t + after, |before| + i)
    decreases |t| - i
  {
    hide IsSpace;
    assert (before + t + after)[|before| + i] == t[i];
    if IsSpace(t[i]) {
      LeadsIn(before, t, after, i + 1);
    }
  }

  predicate Newlines(t: string) { forall i :: 0 <= i < |t| ==> t[i] == '\n' }

  lemma {:induction false} RunEndsLast(t: string, i: nat, end: nat, last: Option<nat>)
    requires i < end <= |t| && (forall k :: i <= k < end ==> t[k] == '\n') && Leads(t, end)
    ensures LastNewline(t, i, last) == Some(end - 1)
    decreases end - i
  {
    if i + 1 < end {
      RunEndsLast(t, i + 1, end, Some(i));
    } else {
      LeadsStops(t, end, Some(i));
    }
  }

  /** In a solid block followed by blank lines and more, the first gap is those blank lines. */
  lemma {:induction false} FirstGapIsSeparator(block: string, gap: string, rest: string, i: nat)
    requires Solid(block) && |gap| >= 2 && Newlines(gap) && Leads(rest, 0) && i <= |block|
    ensures FirstGap(block + gap + rest, i) == Some((|block|, |block| + |gap|))
    decreases |block| - i
  {
    hide IsSpace;
    var t := block + gap + rest;
    if i < |block| {
      assert t[i] == block[i];
      if t[i] == '\n' {
        assert "" + block + (gap + rest) == t;
        LeadsIn("", block, gap + rest, i + 1);
        LeadsStops(t, i + 1, None);
      }
      FirstGapIsSeparator(block, gap, rest, i + 1);
    } else {
      assert forall k :: |block| <= k < |block| + |gap| ==> t[k] == gap[k - |block|];
      assert (block + gap) + rest + "" == t;
      LeadsIn(block + gap, rest, "", 0);
      RunEndsLast(t, |block| + 1, |block| + |gap|, None);
    }
  }

  lemma {:induction false} NoGapInSolid(block: string, i: nat)
    requires Solid(block) && i <= |block|
    ensures FirstGap(block, i) == None
    decreases |block| - i
  {
    hide IsSpace;
    if i < |block| {
      if block[i] == '\n' {
        LeadsStops(block, i + 1, None);
      }
      NoGapInSolid(block, i + 1);
    }
  }

  predicate AllSolid(blocks: seq<string>) { forall i :: 0 <= i < |blocks| ==> Solid(blocks[i]) }

  /** Blocks with blank lines between them, one more after a block that asks for it. */
  function Glue(cores: seq<string>, pads: seq<string>): string
    requires |cores| == |pads|
  {
    if cores == [] then ""
    else if |cores| == 1 then cores[0]
    else cores[0] + (pads[0] + "\n\n") + Glue(cores[1..], pads[1..])
  }

  predicate AllNewlines(pads: seq<string>) { forall i :: 0 <= i < |pads| ==> Newlines(pads[i]) }

  lemma {:induction false} GlueLeads(cores: seq<string>, pads: seq<string>)
    requires cores != [] && |cores| == |pads| && AllSolid(cores)
    ensures Leads(Glue(cores, pads), 0)
  {
    if |cores| > 1 {
      var rest := pads[0] + "\n\n" + Glue(cores[1..], pads[1..]);
      LeadsIn("", cores[0], rest, 0);
      assert "" + cores[0] + rest == Glue(cores, pads);
    }
  }

  /** Splitting undoes gluing, for solid blocks. */
  lemma {:induction false} BlocksGlued(cores: seq<string>, pads: seq<string>)
    requires cores != [] && |cores| == |pads| && AllSolid(cores) && AllNewlines(pads)
    ensures Blocks(Glue(cores, pads)) == cores
    decreases |cores|
  {
    hide IsSpace, Solid;
    if |cores| == 1 {
      NoGapInSolid(cores[0], 0);
    } else {
      var rest, gap := Glue(cores[1..], pads[1..]), pads[0] + "\n\n";
      var t := Glue(cores, pads);
      GlueLeads(cores[1..], pads[1..]);
      hide Glue, Leads;
      FirstGapIsSeparator(cores[0], gap, rest, 0);
      assert t[..|cores[0]|] == cores[0] && t[|cores[0]| + |gap|..] == rest;
      BlocksGlued(cores[1..], pads[1..]);
      assert cores == [cores[0]] + cores[1..];
    }
  }

  // ------------------------------------------------------------ lines of a block

  /** A line with something on it. */
  predicate Visible(line: string) { OneLine(line) && !Blank(line) }

  predicate AllVisible(lines: seq<string>) { forall i :: 0 <= i < |lines| ==> Visible(lines[i]) }

  lemma {:induction false} VisibleLeads(line: string, i: nat)
    requires OneLine(line) && i <= |line| && exists k :: i <= k < |line| && !IsSpace(line[k])
    ensures Leads(line, i)
    decreases |line| - i
  {
    assert IsBreak('\n');
    hide IsSpace, IsBreak;
    if IsSpace(line[i]) {
      VisibleLeads(line, i + 1);
    }
  }

  /** A line without newlines over a solid block keeps its newlines led. */
  lemma SolidBelow(line: string, rest: string)
    requires Solid(rest) && forall k :: 0 <= k < |line| ==> line[k] != '\n'
    ensures var t := line + "\n" + rest; forall i :: 0 <= i < |t| && t[i] == '\n' ==> Leads(t, i + 1)
  {
    hide IsSpace, Leads;
    var t, above := line + "\n" + rest, line + "\n";
    assert t == above + rest + "" && forall k :: 0 <= k < |line| ==> t[k] == line[k];
    forall i | 0 <= i < |t| && t[i] == '\n' ensures Leads(t, i + 1) {
      if i == |line| {
        LeadsIn(above, rest, "", 0);
      } else {
        assert t[i] == rest[i - |above|];
        LeadsIn(above, rest, "", i - |line|);
      }
    }
  }

  /** Visible lines make a solid block. */
  lemma {:induction false} LinesSolid(lines: seq<string>)
    requires lines != [] && AllVisible(lines)
    ensures Solid(JoinLines(lines))
    decreases |lines|
  {
    assert IsBreak('\n');
    hide IsSpace, IsBreak;
    var t := JoinLines(lines);
    VisibleLeads(lines[0], 0);
    if |lines| > 1 {
      var rest := JoinLines(lines[1..]);
      assert t == "" + lines[0] + ("\n" + rest);
      LeadsIn("", lines[0], "\n" + rest, 0);
      LinesSolid(lines[1..]);
      SolidBelow(lines[0], rest);
    } else {
      assert forall i :: 0 <= i < |t| ==> t[i] != '\n';
    }
  }

  // ------------------------------------------------------------ parsing

  function Swap(t: string, from: char, to: char): (r: string)
    ensures |r| == |t| && forall i :: 0 <= i < |t| ==> r[i] == if t[i] == from then to else t[i]
  {
    if t == "" then "" else [if t[0] == from then to else t[0]] + Swap(t[1..], from, to)
  }

  /** The start of the first "-->". */
  function FindArrow(t: string): (r: Option<nat>)
    ensures r.Some? ==> r.value + 3 <= |t| && ArrowAt(t, r.value)
    ensures forall i :: 0 <= i < |t| && ArrowAt(t, i) ==> r.Some? && r.value <= i
  {
    if |t| < 3 then None
    else if ArrowAt(t, 0) then Some(0)
    else
      assert forall i :: 0 < i < |t| && ArrowAt(t, i) ==> ArrowAt(t[1..], i - 1);
      assert forall i :: 0 <= i < |t[1..]| && ArrowAt(t[1..], i) ==> ArrowAt(t, i + 1);
      match FindArrow(t[1..])
      case None => None
      case Some(i) => Some(i + 1)
  }

  predicate ArrowAt(t: string, i: nat) {
    i + 3 <= |t| && t[i] == '-' && t[i + 1] == '-' && t[i + 2] == '>'
  }

  lemma ArrowIff(t: string, i: nat)
    ensures ArrowAt(t, i) <==> i + 3 <= |t| && t[i..i + 3] == "-->"
  {
    if i + 3 <= |t| {
      assert t[i..i + 3] == [t[i], t[i + 1], t[i + 2]];
    }
  }

  /** `str.isdigit`. */
  predicate IsDigits(t: string) { t != "" && forall i :: 0 <= i < |t| ==> IsDigit(t[i]) }

  function VisibleOnly(lines: seq<string>): seq<string> {
    if lines == [] then []
    else if Blank(lines[0]) then VisibleOnly(lines[1..])
    else [lines[0]] + VisibleOnly(lines[1..])
  }

  function Time(part: string): string { Swap(Strip(part), ',', '.') }

  /** One block: an optional number, a timing line, the text. `None` is the malformed cue. */
  function ParseLines(lines: seq<string>): Option<Cue> {
    var rest := if lines != [] && IsDigits(Strip(lines[0])) then lines[1..] else lines;
    if rest == [] || FindArrow(rest[0]).None? then None
    else
      var i := FindArrow(rest[0]).value;
      Some(Cue(Time(rest[0][..i]), Time(rest[0][i + 3..]), rest[1..]))
  }

  function ParseBlock(block: string): Option<Cue> { ParseLines(VisibleOnly(SplitLines(block))) }

  function ParseBlocks(blocks: seq<string>): Option<seq<Cue>> {
    if blocks == [] then Some([])
    else
      match (ParseBlock(blocks[0]), ParseBlocks(blocks[1..]))
      case (Some(cue), Some(rest)) => Some([cue] + rest)
      case _ => None
  }

  /** `replace("\r\n", "\n")`. */
  function DropCr(t: string): string {
    if t == "" then ""
    else if |t| > 1 && t[0] == '\r' && t[1] == '\n' then "\n" + DropCr(t[2..])
    else [t[0]] + DropCr(t[1..])
  }

  /** Only a carriage return that precedes a newline is dropped. */
  lemma {:induction false} DropCrIs(left: string, right: string)
    ensures DropCr(left + ("\r\n" + right)) == DropCr(left) + ("\n" + DropCr(right))
    ensures right == "" || right[0] != '\n' ==> DropCr(left + ("\r" + right)) == DropCr(left) + ("\r" + DropCr(right))
    decreases |left|
  {
    hide DropCr;
    var crlf, cr := "\r\n" + right, "\r" + right;
    if left == "" {
      DropCrStep(crlf);
      DropCrStep(cr);
      DropCrNothing();
      assert "" + crlf == crlf && crlf[2..] == right && "" + cr == cr && cr[1..] == right;
    } else {
      var n := CrStep(left);
      DropCrIs(left[n..], right);
      DropCrStep(left);
      DropCrStep(left + crlf);
      DropCrStep(left + cr);
      assert (left + crlf)[n..] == left[n..] + crlf && (left + cr)[n..] == left[n..] + cr;
      assert CrStep(left + crlf) == n && CrStep(left + cr) == n;
    }
  }

  function CrStep(t: string): nat
    requires t != ""
  {
    if t[0] == '\r' && |t| > 1 && t[1] == '\n' then 2 else 1
  }

  lemma {:induction false} DropCrStep(t: string)
    requires t != ""
    ensures DropCr(t) == [if CrStep(t) == 2 then '\n' else t[0]] + DropCr(t[CrStep(t)..])
  {}

  lemma DropCrNothing()
    ensures DropCr("") == ""
  {}

  function DropNewlines(t: string): (r: string)
    ensures |r| <= |t| && r == t[|t| - |r|..]
  {
    if t != "" && t[0] == '\n' then DropNewlines(t[1..]) else t
  }

  /** `Path.read_text`: the file as decoded, with every line end, CRLF or a lone carriage return,
      translated to a newline. */
  function ReadText(content: string): string { Swap(DropCr(content), '\r', '\n') }

  /** The text that is split into blocks: stripped, without the WebVTT header. */
  function Body(text: string): string {
    var t := Strip(DropCr(text));
    if "WEBVTT" <= t then DropNewlines(t[6..]) else t
  }

  /** `_caption_cues` on the content of a file; `None` is its error. */
  function Parse(content: string): Option<seq<Cue>> { ParseBlocks(Blocks(Body(ReadText(content)))) }

  // ------------------------------------------------------------ what the parser returns

  predicate GoodTime(t: string) { Tight(t) && OneLine(t) && (forall i :: 0 <= i < |t| ==> t[i] != ',') }

  predicate CueOk(cue: Cue) {
    && GoodTime(cue.start) && GoodTime(cue.end) && FindArrow(cue.start) == None
    && AllVisible(cue.lines)
  }

  /** The text of the last cue does not end in whitespace. */
  predicate EndsVisibly(cues: seq<Cue>) {
    cues != [] && var lines := cues[|cues| - 1].lines;
      lines != [] ==> EndsTight(lines[|lines| - 1])
  }

  predicate EndsTight(line: string) { line != "" && !IsSpace(line[|line| - 1]) }

  lemma {:induction false} SwapKeepsTight(t: string)
    requires Tight(t) && OneLine(t)
    ensures GoodTime(Swap(t, ',', '.'))
  {
    assert !IsSpace('.') && !IsBreak('.');
    hide IsSpace, IsBreak;
  }

  /** Stripping and changing commas make no arrow. */
  lemma {:induction false} TimeHasNoArrow(part: string)
    requires FindArrow(part) == None
    ensures FindArrow(Time(part)) == None
  {
    hide IsSpace, Strip, FindArrow, Swap;
    var left, right := StripIsPiece(part);
    var s, t := Strip(part), Time(part);
    forall i: nat | ArrowAt(t, i) ensures ArrowAt(part, |left| + i) {
      assert part[|left| + i] == s[i] && part[|left| + i + 1] == s[i + 1] && part[|left| + i + 2] == s[i + 2];
    }
  }

  lemma TimeIsGood(part: string)
    requires OneLine(part)
    ensures GoodTime(Time(part))
  {
    hide IsSpace, IsBreak, Strip, Swap;
    StripIsTight(part);
    var left, right := StripIsPiece(part);
    var s := Strip(part);
    forall i | 0 <= i < |s| ensures !IsBreak(s[i]) {
      assert s[i] == part[|left| + i];
    }
    SwapKeepsTight(s);
  }

  lemma {:induction false} VisibleOnlyMeaning(lines: seq<string>)
    requires forall i :: 0 <= i < |lines| ==> OneLine(lines[i])
    ensures AllVisible(VisibleOnly(lines))
    ensures lines != [] && !Blank(lines[|lines| - 1]) ==>
              VisibleOnly(lines) != [] && VisibleOnly(lines)[|VisibleOnly(lines)| - 1] == lines[|lines| - 1]
  {
    hide IsSpace, IsBreak, Blank, OneLine;
    if lines != [] {
      VisibleOnlyMeaning(lines[1..]);
      if |lines| > 1 {
        assert lines[1..][|lines| - 2] == lines[|lines| - 1];
      }
    }
  }

  lemma ParsedLinesOk(lines: seq<string>)
    requires AllVisible(lines) && ParseLines(lines).Some?
    ensures CueOk(ParseLines(lines).value)
    ensures ParseLines(lines).value.lines != [] ==>
              ParseLines(lines).value.lines[|ParseLines(lines).value.lines| - 1] == lines[|lines| - 1]
  {
    hide IsSpace, IsBreak, Strip, FindArrow, Swap, IsDigits;
    var rest := if lines != [] && IsDigits(Strip(lines[0])) then lines[1..] else lines;
    var i := FindArrow(rest[0]).value;
    assert Visible(rest[0]);
    NoArrowBefore(rest[0], i);
    TimeIsGood(rest[0][..i]);
    TimeHasNoArrow(rest[0][..i]);
    TimeIsGood(rest[0][i + 3..]);
  }

  lemma ParsedCueOk(block: string)
    requires ParseBlock(block).Some?
    ensures CueOk(ParseBlock(block).value)
    ensures EndsTight(block) ==> EndsVisibly([ParseBlock(block).value])
  {
    hide IsSpace, IsBreak, ParseLines, CueOk, SplitLines, VisibleOnly;
    var all := SplitLines(block);
    VisibleOnlyMeaning(all);
    ParsedLinesOk(VisibleOnly(all));
    if EndsTight(block) {
      BreaksAreSpaces(block[|block| - 1]);
      LastLine(block);
    }
  }

  lemma {:induction false} NoArrowBefore(line: string, i: nat)
    requires FindArrow(line) == Some(i)
    ensures FindArrow(line[..i]) == None
  {
    assert FindArrow(line[..i]).Some? ==> ArrowAt(line, FindArrow(line[..i]).value);
  }

  lemma {:induction false} BlocksEnd(t: string)
    requires EndsTight(t)
    ensures var blocks := Blocks(t); blocks != [] && (blocks[|blocks| - 1] == "" || EndsTight(blocks[|blocks| - 1]))
    decreases |t|
  {
    hide IsSpace;
    if FirstGap(t, 0).Some? {
      var rest := t[FirstGap(t, 0).value.1..];
      if rest != "" {
        assert rest[|rest| - 1] == t[|t| - 1];
        BlocksEnd(rest);
      } else {
        assert Blocks(rest) == [""] by { assert FirstGap("", 0) == None; }
      }
    }
  }

  lemma {:induction false} ParsedBlocksOk(blocks: seq<string>)
    requires ParseBlocks(blocks).Some?
    ensures |ParseBlocks(blocks).value| == |blocks|
    ensures forall i :: 0 <= i < |blocks| ==>
      ParseBlock(blocks[i]).Some? && ParseBlocks(blocks).value[i] == ParseBlock(blocks[i]).value
  {
    hide ParseBlock;
    if blocks != [] {
      ParsedBlocksOk(blocks[1..]);
    }
  }

  /** What every returned cue list satisfies. */
  predicate Returned(cues: seq<Cue>) {
    EndsVisibly(cues) && forall i :: 0 <= i < |cues| ==> CueOk(cues[i])
  }

  lemma BodyEnds(text: string)
    ensures Body(text) == "" || EndsTight(Body(text))
  {
    hide IsSpace, Strip, DropCr;
    StripIsTight(DropCr(text));
  }

  lemma ParsedIsReturned(content: string)
    requires Parse(content).Some?
    ensures Returned(Parse(content).value)
  {
    hide CueOk, ParseLines, Body, ParseBlock, IsSpace, ReadText;
    var text := ReadText(content);
    var blocks := Blocks(Body(text));
    BodyEnds(text);
    ParsedBlocksOk(blocks);
    assert ParseBlock("").None? by { EmptyBlockFails(); }
    assert FirstGap("", 0) == None && Blocks("") == [""];
    if Body(text) != "" {
      BlocksEnd(Body(text));
    }
    forall i | 0 <= i < |blocks| ensures CueOk(ParseBlock(blocks[i]).value) {
      ParsedCueOk(blocks[i]);
    }
    ParsedCueOk(blocks[|blocks| - 1]);
  }

  lemma EmptyBlockFails()
    ensures ParseBlock("").None?
  {
    assert SplitLines("") == [] && VisibleOnly([]) == [];
  }

  /** The characters the format itself is made of. */
  lemma CharFacts()
    ensures IsSpace(' ') && IsSpace('\n') && !IsSpace('>') && !IsSpace('W')
    ensures IsBreak('\n') && IsBreak('\r') && !IsBreak(' ') && !IsBreak('-') && !IsBreak('>')
  {}

  // ------------------------------------------------------------ rendering

  function Timing(start: string, end: string): string { start + " --> " + end }

  function Digits(n: nat): (r: string)
    ensures r != "" && forall i :: 0 <= i < |r| ==> '0' <= r[i] <= '9'
  {
    var last := ['0' + (n % 10) as char];
    if n < 10 then last else Digits(n / 10) + last
  }

  datatype Format = Srt | WebVtt

  /** One block: `f"{start} --> {end}\n" + "\n".join(lines)`, numbered for SRT. */
  function RenderBlock(format: Format, index: nat, cue: Cue): string {
    match format
    case WebVtt => Timing(cue.start, cue.end) + "\n" + JoinLines(cue.lines)
    case Srt => Digits(index) + "\n" + Timing(Swap(cue.start, '.', ','),
      Swap(cue.end, '.', ',')) + "\n" + JoinLines(cue.lines)
  }

  function RenderBlocks(format: Format, index: nat, cues: seq<Cue>): (r: seq<string>)
    ensures |r| == |cues|
    decreases |cues|
  {
    if cues == [] then [] else [RenderBlock(format, index, cues[0])] + RenderBlocks(format, index + 1, cues[1..])
  }

  /** The number a string of digits stands for. */
  function NumberOf(t: string): nat
    requires forall i :: 0 <= i < |t| ==> '0' <= t[i] <= '9'
  {
    if t == "" then 0 else 10 * NumberOf(t[..|t| - 1]) + (t[|t| - 1] as nat - '0' as nat)
  }

  /** A cue's number is written in decimal, without leading zeros. */
  lemma {:induction false} DigitsNumber(n: nat)
    ensures NumberOf(Digits(n)) == n && (n > 0 ==> Digits(n)[0] != '0')
  {
    var text := Digits(n);
    if n < 10 {
      assert text[..0] == "";
    } else {
      DigitsNumber(n / 10);
      assert text[..|text| - 1] == Digits(n / 10);
    }
  }

  function JoinBlocks(blocks: seq<string>): string {
    if blocks == [] then ""
    else if |blocks| == 1 then blocks[0]
    else blocks[0] + "\n\n" + JoinBlocks(blocks[1..])
  }

  /** What `_convert_captions` writes. */
  function Render(format: Format, cues: seq<Cue>): string {
    (if format.WebVtt? then "WEBVTT\n\n" else "") + JoinBlocks(RenderBlocks(format, 1, cues)) + "\n"
  }

  // ------------------------------------------------------------ a rendered cue parses back

  lemma {:induction false} SwapBack(t: string)
    requires forall i :: 0 <= i < |t| ==> t[i] != ','
    ensures Swap(Swap(t, '.', ','), ',', '.') == t
    ensures Swap(t, ',', '.') == t
  {}

  lemma {:induction false} SwapKeeps(t: string)
    requires Tight(t) && OneLine(t)
    ensures Tight(Swap(t, '.', ',')) && OneLine(Swap(t, '.', ','))
    ensures FindArrow(t) == None ==> FindArrow(Swap(t, '.', ',')) == None
  {
    assert !IsSpace(',') && !IsBreak(',');
    hide IsSpace, IsBreak;
    var s := Swap(t, '.', ',');
    forall i: nat | ArrowAt(s, i) ensures ArrowAt(t, i) {}
  }

  /** The first arrow of a timing line is the one between the times. */
  lemma {:induction false} ArrowOfTiming(start: string, rest: string)
    requires FindArrow(start) == None
    ensures FindArrow(start + " -->" + rest) == Some(|start| + 1)
  {
    var t := start + " -->" + rest;
    assert t[|start|] == ' ' && t[|start| + 1] == '-' && t[|start| + 2] == '-' && t[|start| + 3] == '>';
    assert ArrowAt(t, |start| + 1);
    forall i: nat | ArrowAt(t, i) ensures i >= |start| + 1 {
      if i < |start| + 1 {
        assert i + 2 < |start|;
        assert ArrowAt(start, i);
        assert false;
      }
    }
  }

  /** A timing line, with or without the space before an empty end, gives the times back. */
  lemma {:induction false} TimingParses(start: string, end: string, pad: string)
    requires Tight(start) && Tight(end) && FindArrow(start) == None && Blank(pad)
    ensures var line := start + " -->" + pad + end;
            && FindArrow(line) == Some(|start| + 1)
            && Time(line[..|start| + 1]) == Swap(start, ',', '.') && Time(line[|start| + 4..]) == Swap(end, ',', '.')
  {
    var line := start + " -->" + pad + end;
    assert IsSpace(' ');
    hide IsSpace, Swap, Strip, FindArrow;
    ArrowOfTiming(start, pad + end);
    assert start + " -->" + (pad + end) == line;
    assert line[..|start| + 1] == "" + start + " " && line[|start| + 4..] == pad + end + "";
    StripPadded("", start, " ");
    StripPadded(pad, end, "");
  }

  lemma DigitChar(c: char)
    ensures '0' <= c <= '9' ==> IsDigit(c) && !IsSpace(c) && !IsBreak(c)
  {}

  lemma ArrowHasNoDigit()
    ensures !IsDigit('>') && !IsDigit('-') && !IsSpace('>')
  {}

  lemma {:induction false} DigitsAreNumber(n: nat)
    ensures IsDigits(Strip(Digits(n))) && Visible(Digits(n)) && Digits(n) != ""
  {
    hide IsSpace, IsBreak, IsDigit, Digits, Strip;
    var d := Digits(n);
    forall i | 0 <= i < |d| ensures IsDigit(d[i]) && !IsSpace(d[i]) && !IsBreak(d[i]) {
      DigitChar(d[i]);
    }
    assert "" + d + "" == d;
    StripPadded("", d, "");
    assert d[0] == d[0];
  }

  /** Stripping drops whitespace only. */
  lemma StripChars(t: string)
    ensures forall i :: 0 <= i < |t| ==> IsSpace(t[i]) || t[i] in Strip(t)
  {
    hide IsSpace, Strip;
    var left, right := StripIsPiece(t);
    var s := Strip(t);
    forall i | 0 <= i < |t| ensures IsSpace(t[i]) || t[i] in s {
      if i < |left| {
        assert t[i] == left[i];
      } else if i < |left| + |s| {
        assert t[i] == s[i - |left|];
      } else {
        assert t[i] == right[i - |left| - |s|];
      }
    }
  }

  /** A timing line is no number. */
  lemma TimingIsNoNumber(start: string, rest: string)
    ensures !IsDigits(Strip(start + " -->" + rest))
    ensures !Blank(start + " -->" + rest)
  {
    hide IsSpace, IsDigit, Strip;
    var t := start + " -->" + rest;
    ArrowHasNoDigit();
    assert t[|start| + 3] == '>';
    StripChars(t);
    assert '>' in Strip(t);
  }

  /** The lines of a cue, numbered or not, with its times in either spelling. */
  lemma {:induction false} LinesParse(lines: seq<string>, start: string, end: string, pad: string, text: seq<string>)
    requires Tight(start) && Tight(end) && FindArrow(start) == None && Blank(pad)
    requires lines == [start + " -->" + pad + end] + text
    ensures ParseLines(lines) == Some(Cue(Swap(start, ',', '.'), Swap(end, ',', '.'), text))
  {
    var line := start + " -->" + pad + end;
    hide IsSpace, Strip, FindArrow, Swap, IsDigits;
    assert start + " -->" + (pad + end) == line;
    TimingIsNoNumber(start, pad + end);
    TimingParses(start, end, pad);
    assert lines[1..] == text;
  }

  lemma NumberedParse(number: string, lines: seq<string>)
    requires IsDigits(Strip(number)) && lines != [] && !IsDigits(Strip(lines[0]))
    ensures ParseLines([number] + lines) == ParseLines(lines)
  {
    hide IsDigits, Strip, FindArrow, Time;
    assert ([number] + lines)[1..] == lines;
  }

  lemma {:induction false} VisibleStay(lines: seq<string>)
    requires AllVisible(lines)
    ensures VisibleOnly(lines) == lines
  {
    hide IsSpace, IsBreak;
    if lines != [] {
      assert Visible(lines[0]);
      VisibleStay(lines[1..]);
    }
  }

  /** A block joined from visible lines is parsed as those lines. */
  lemma {:induction false} JoinedParses(lines: seq<string>)
    requires AllVisible(lines)
    ensures ParseBlock(JoinLines(lines)) == ParseLines(lines)
  {
    hide IsSpace, IsBreak, ParseLines, SplitLines, JoinLines;
    assert forall i :: 0 <= i < |lines| ==> Visible(lines[i]) && lines[i] != "";
    SplitJoined(lines);
    VisibleStay(lines);
  }

  // ------------------------------------------------------------ a rendered file parses back

  /** The lines of one block as they reach the parser: a timing line at the very end has lost
      the space before an empty end time. */
  function TimingLine(start: string, end: string, bare: bool): string {
    start + " -->" + (if bare && end == "" then "" else " ") + end
  }

  function BlockLines(format: Format, index: nat, cue: Cue, last: bool): seq<string> {
    var bare := last && cue.lines == [];
    match format
    case WebVtt => [TimingLine(cue.start, cue.end, bare)] + cue.lines
    case Srt => [Digits(index), TimingLine(Swap(cue.start, '.', ','), Swap(cue.end, '.', ','), bare)] + cue.lines
  }

  lemma TimingLineVisible(start: string, end: string, bare: bool)
    requires OneLine(start) && OneLine(end)
    ensures Visible(TimingLine(start, end, bare))
  {
    hide IsSpace, IsBreak, Strip, IsDigits;
    CharFacts();
    var rest := (if bare && end == "" then "" else " ") + end;
    TimingIsNoNumber(start, rest);
    assert TimingLine(start, end, bare) == start + " -->" + rest;
  }

  lemma BlockLinesVisible(format: Format, index: nat, cue: Cue, last: bool)
    requires CueOk(cue)
    ensures AllVisible(BlockLines(format, index, cue, last))
  {
    hide IsSpace, IsBreak, Swap, TimingLine, Visible, Tight, FindArrow, Strip, IsDigits;
    SwapKeeps(cue.start);
    SwapKeeps(cue.end);
    TimingLineVisible(cue.start, cue.end, last && cue.lines == []);
    TimingLineVisible(Swap(cue.start, '.', ','), Swap(cue.end, '.', ','), last && cue.lines == []);
    DigitsAreNumber(index);
  }

  /** One block gives its cue back. */
  lemma BlockParses(format: Format, index: nat, cue: Cue, last: bool)
    requires CueOk(cue)
    ensures ParseBlock(JoinLines(BlockLines(format, index, cue, last))) == Some(cue)
  {
    hide IsSpace, IsBreak, Swap, Strip, FindArrow, IsDigits, ParseLines, ParseBlock, Tight, OneLine, AllVisible;
    CharFacts();
    BlockLinesVisible(format, index, cue, last);
    JoinedParses(BlockLines(format, index, cue, last));
    SwapKeeps(cue.start);
    SwapKeeps(cue.end);
    SwapBack(cue.start);
    SwapBack(cue.end);
    var bare := last && cue.lines == [];
    var pad := if bare && cue.end == "" then "" else " ";
    if format.WebVtt? {
      LinesParse(BlockLines(format, index, cue, last), cue.start, cue.end, pad, cue.lines);
    } else {
      var start, end := Swap(cue.start, '.', ','), Swap(cue.end, '.', ',');
      var rest := [TimingLine(start, end, bare)] + cue.lines;
      assert TimingLine(start, end, bare) == start + " -->" + (pad + end) == start + " -->" + pad + end;
      TimingIsNoNumber(start, pad + end);
      LinesParse(rest, start, end, pad, cue.lines);
      DigitsAreNumber(index);
      NumberedParse(Digits(index), rest);
      assert BlockLines(format, index, cue, last) == [Digits(index)] + rest;
    }
  }

  function Cores(format: Format, index: nat, cues: seq<Cue>): (r: seq<string>)
    ensures |r| == |cues|
    decreases |cues|
  {
    if cues == [] then []
    else [JoinLines(BlockLines(format, index, cues[0], |cues| == 1))] + Cores(format, index + 1, cues[1..])
  }

  function Pads(cues: seq<Cue>): (r: seq<string>)
    ensures |r| == |cues| && AllNewlines(r)
    decreases |cues|
  {
    if cues == [] then [] else [if cues[0].lines == [] then "\n" else ""] + Pads(cues[1..])
  }

  predicate AllCuesOk(cues: seq<Cue>) { forall i :: 0 <= i < |cues| ==> CueOk(cues[i]) }

  lemma {:induction false} CoresParse(format: Format, index: nat, cues: seq<Cue>)
    requires AllCuesOk(cues)
    ensures AllSolid(Cores(format, index, cues)) && ParseBlocks(Cores(format, index, cues)) == Some(cues)
    decreases |cues|
  {
    hide CueOk, ParseBlock, Solid, JoinLines;
    if cues != [] {
      var lines := BlockLines(format, index, cues[0], |cues| == 1);
      BlockLinesVisible(format, index, cues[0], |cues| == 1);
      LinesSolid(lines);
      BlockParses(format, index, cues[0], |cues| == 1);
      CoresParse(format, index + 1, cues[1..]);
      assert cues == [cues[0]] + cues[1..];
    }
  }

  /** A block as rendered, and as the parser will see it: they differ in trailing whitespace. */
  lemma RenderedBlock(format: Format, index: nat, cue: Cue, last: bool)
    ensures RenderBlock(format, index, cue) ==
            JoinLines(BlockLines(format, index, cue, last))
            + (if last && cue.lines == [] && cue.end == "" then " " else "") + (if cue.lines == [] then "\n" else "")
  {
    hide Digits, Swap, Timing;
    var lines, bare := BlockLines(format, index, cue, last), last && cue.lines == [];
    SwapNothing(cue.end);
    if format.Srt? {
      var start, end := Swap(cue.start, '.', ','), Swap(cue.end, '.', ',');
      TimedJoined(start, end, cue.lines, bare);
      assert lines == [Digits(index)] + ([TimingLine(start, end, bare)] + cue.lines);
      assert lines[1..] == [TimingLine(start, end, bare)] + cue.lines;
      assert RenderBlock(format, index, cue) ==
        (Digits(index) + "\n") + (Timing(start, end) + "\n" + JoinLines(cue.lines));
      assert JoinLines(lines) == Digits(index) + "\n" + JoinLines(lines[1..]);
    } else {
      TimedJoined(cue.start, cue.end, cue.lines, bare);
    }
  }

  lemma {:induction false} SwapNothing(end: string)
    ensures Swap(end, '.', ',') == "" <==> end == ""
  {}

  /** A timing line over its text, as it is joined and as it is rendered. */
  lemma {:induction false} TimedJoined(start: string, end: string, text: seq<string>, bare: bool)
    requires bare ==> text == []
    ensures Timing(start, end) + "\n" + JoinLines(text) ==
            JoinLines([TimingLine(start, end, bare)] + text) + (if bare && end == "" then " "
              else "") + (if text == [] then "\n" else "")
  {
    var lines := [TimingLine(start, end, bare)] + text;
    assert lines[1..] == text;
  }

  predicate Padding(t: string) { forall i :: 0 <= i < |t| ==> t[i] == ' ' || t[i] == '\n' }

  lemma RenderedMore(format: Format, index: nat, cues: seq<Cue>, core: string, pad: string, tail: string)
    requires |cues| > 1 && RenderBlock(format, index, cues[0]) == core + "" + pad
    requires core == JoinLines(BlockLines(format, index, cues[0], false))
      && pad == (if cues[0].lines == [] then "\n" else "")
    requires JoinBlocks(RenderBlocks(format, index + 1, cues[1..])) ==
             Glue(Cores(format, index + 1, cues[1..]), Pads(cues[1..])) + tail
    ensures JoinBlocks(RenderBlocks(format, index, cues)) == Glue(Cores(format, index, cues), Pads(cues)) + tail
  {
    hide RenderBlock, JoinLines, BlockLines;
    var blocks, cores, pads := RenderBlocks(format, index, cues), Cores(format, index, cues), Pads(cues);
    assert blocks[1..] == RenderBlocks(format, index + 1, cues[1..]) && blocks[0] == core + pad;
    assert cores[1..] == Cores(format, index + 1, cues[1..]) && cores[0] == core;
    assert pads[1..] == Pads(cues[1..]) && pads[0] == pad;
    var glued := Glue(cores[1..], pads[1..]);
    assert JoinBlocks(blocks) == (core + pad) + "\n\n" + (glued + tail);
    assert Glue(cores, pads) == core + (pad + "\n\n") + glued;
    assert (core + pad) + "\n\n" + (glued + tail) == (core + (pad + "\n\n") + glued) + tail;
  }

  /** The blocks joined are the cores glued, and some padding. */
  lemma {:induction false} RenderedGlue(format: Format, index: nat, cues: seq<Cue>) returns (tail: string)
    requires cues != []
    ensures JoinBlocks(RenderBlocks(format, index, cues)) == Glue(Cores(format, index, cues), Pads(cues)) + tail
    ensures Padding(tail)
    decreases |cues|
  {
    hide RenderBlock, JoinLines, BlockLines;
    RenderedBlock(format, index, cues[0], |cues| == 1);
    var core := JoinLines(BlockLines(format, index, cues[0], |cues| == 1));
    var pad := if cues[0].lines == [] then "\n" else "";
    if |cues| == 1 {
      tail := (if cues[0].lines == [] && cues[0].end == "" then " " else "") + pad;
      assert cues[1..] == [];
      assert RenderBlocks(format, index, cues) == [RenderBlock(format, index, cues[0])];
    } else {
      tail := RenderedGlue(format, index + 1, cues[1..]);
      hide Glue, Cores, Pads, JoinBlocks;
      RenderedMore(format, index, cues, core, pad, tail);
    }
  }

  lemma {:induction false} GlueEnds(format: Format, index: nat, cues: seq<Cue>)
    requires cues != [] && AllCuesOk(cues) && EndsVisibly(cues)
    ensures EndsTight(Glue(Cores(format, index, cues), Pads(cues)))
    decreases |cues|
  {
    hide IsSpace, CueOk;
    if |cues| == 1 {
      BlockEnds(format, index, cues[0]);
    } else {
      assert cues[1..][|cues| - 2] == cues[|cues| - 1];
      GlueEnds(format, index + 1, cues[1..]);
    }
  }

  lemma {:induction false} JoinEnds(lines: seq<string>)
    requires lines != [] && EndsTight(lines[|lines| - 1])
    ensures EndsTight(JoinLines(lines))
  {
    hide IsSpace;
    if |lines| > 1 {
      assert lines[1..][|lines| - 2] == lines[|lines| - 1];
      JoinEnds(lines[1..]);
    }
  }

  lemma TimingLineEnds(start: string, end: string)
    requires Tight(end)
    ensures EndsTight(TimingLine(start, end, true))
  {
    assert !IsSpace('>');
    hide IsSpace;
  }

  lemma BlockEnds(format: Format, index: nat, cue: Cue)
    requires CueOk(cue) && EndsVisibly([cue])
    ensures EndsTight(JoinLines(BlockLines(format, index, cue, true)))
  {
    SwapKeeps(cue.end);
    TimingLineEnds(cue.start, cue.end);
    TimingLineEnds(Swap(cue.start, '.', ','), Swap(cue.end, '.', ','));
    hide IsSpace, TimingLine, Swap;
    JoinEnds(BlockLines(format, index, cue, true));
  }

  predicate NoCr(t: string) { forall i :: 0 <= i < |t| ==> t[i] != '\r' }

  lemma {:induction false} DropCrSame(t: string)
    requires NoCr(t)
    ensures DropCr(t) == t
  {
    if t != "" {
      DropCrSame(t[1..]);
    }
  }

  /** What is read has no carriage return, and a file without one is read as it is. */
  lemma ReadHasNoCr(content: string)
    ensures NoCr(ReadText(content))
    ensures NoCr(content) ==> ReadText(content) == content
  {
    hide DropCr;
    if NoCr(content) {
      DropCrSame(content);
    }
  }

  lemma {:induction false} JoinNoCr(lines: seq<string>)
    requires AllVisible(lines)
    ensures NoCr(JoinLines(lines))
  {
    assert IsBreak('\r');
    hide IsBreak, IsSpace;
    if lines != [] {
      assert Visible(lines[0]);
      JoinNoCr(lines[1..]);
    }
  }

  lemma {:induction false} GlueNoCr(format: Format, index: nat, cues: seq<Cue>)
    requires AllCuesOk(cues)
    ensures NoCr(Glue(Cores(format, index, cues), Pads(cues)))
    decreases |cues|
  {
    hide CueOk, JoinLines, BlockLines;
    if cues != [] {
      BlockLinesVisible(format, index, cues[0], |cues| == 1);
      JoinNoCr(BlockLines(format, index, cues[0], |cues| == 1));
      GlueNoCr(format, index + 1, cues[1..]);
    }
  }

  lemma {:induction false} GlueStarts(index: nat, cues: seq<Cue>)
    requires cues != []
    ensures var t := Glue(Cores(Srt, index, cues), Pads(cues)); t != "" && '0' <= t[0] <= '9'
  {
    var lines := BlockLines(Srt, index, cues[0], |cues| == 1);
    assert Digits(index)[0] == Digits(index)[0];
    assert JoinLines(lines)[0] == Digits(index)[0];
  }

  lemma {:induction false} StripRendered(inner: string, rest: string)
    requires EndsTight(inner) && !IsSpace(inner[0]) && NoCr(inner) && Padding(rest)
    ensures Strip(DropCr(inner + rest)) == inner
  {
    hide IsSpace, IsBreak, Strip, DropCr;
    CharFacts();
    assert inner + rest == "" + inner + rest;
    DropCrSame(inner + rest);
    StripPadded("", inner, rest);
  }

  /** What stripping and dropping the header leave of a rendered text. */
  lemma {:induction false} BodyOfSrt(glued: string, rest: string)
    requires EndsTight(glued) && NoCr(glued) && '0' <= glued[0] <= '9' && Padding(rest)
    ensures Body(glued + rest) == glued && !("WEBVTT" <= Strip(DropCr(glued + rest)))
  {
    hide IsSpace, IsBreak, Strip, DropCr;
    DigitChar(glued[0]);
    StripRendered(glued, rest);
    assert "WEBVTT"[0] == 'W';
  }

  lemma HeaderDropped(glued: string)
    requires glued != "" && glued[0] != '\n'
    ensures var inner := "WEBVTT\n\n" + glued; "WEBVTT" <= inner && DropNewlines(inner[6..]) == glued
  {
    var inner := "WEBVTT\n\n" + glued;
    assert inner[6..] == "\n\n" + glued;
    assert ("\n\n" + glued)[1..] == "\n" + glued && ("\n" + glued)[1..] == glued;
    assert DropNewlines(glued) == glued;
    assert DropNewlines("\n" + glued) == glued;
  }

  lemma HeaderKeepsEnd(glued: string)
    requires EndsTight(glued) && NoCr(glued)
    ensures var inner := "WEBVTT\n\n" + glued; EndsTight(inner) && NoCr(inner) && !IsSpace(inner[0])
  {
    hide IsSpace;
    CharFacts();
    var inner := "WEBVTT\n\n" + glued;
    assert inner[|inner| - 1] == glued[|glued| - 1] && inner[0] == 'W';
  }

  lemma {:induction false} BodyOfVtt(glued: string, rest: string)
    requires EndsTight(glued) && NoCr(glued) && glued[0] != '\n' && Padding(rest)
    ensures Body("WEBVTT\n\n" + glued + rest) == glued && "WEBVTT" <= Strip(DropCr("WEBVTT\n\n" + glued + rest))
  {
    HeaderDropped(glued);
    hide IsSpace, IsBreak, Strip, DropCr, DropNewlines, EndsTight, NoCr, Padding;
    HeaderKeepsEnd(glued);
    StripRendered("WEBVTT\n\n" + glued, rest);
  }

  lemma {:induction false} LeadsNoNewline(t: string)
    requires Leads(t, 0)
    ensures t[0] != '\n'
  {
    CharFacts();
    hide IsSpace;
  }

  lemma {:induction false} BodyOfRendered(format: Format, cues: seq<Cue>)
    requires cues != [] && AllCuesOk(cues) && EndsVisibly(cues)
    ensures Body(Render(format, cues)) == Glue(Cores(format, 1, cues), Pads(cues))
    ensures "WEBVTT" <= Strip(DropCr(Render(format, cues))) <==> format.WebVtt?
    ensures NoCr(Render(format, cues))
  {
    hide IsSpace, Strip, DropCr, Glue, Cores, CueOk, RenderBlocks, JoinBlocks, Pads, ParseBlocks, AllSolid, Body,
         EndsTight, Leads;
    var glued := Glue(Cores(format, 1, cues), Pads(cues));
    var tail := RenderedGlue(format, 1, cues);
    GlueEnds(format, 1, cues);
    GlueNoCr(format, 1, cues);
    CoresParse(format, 1, cues);
    GlueLeads(Cores(format, 1, cues), Pads(cues));
    LeadsNoNewline(glued);
    if format.Srt? {
      GlueStarts(1, cues);
      assert "" + (glued + tail) + "\n" == glued + (tail + "\n");
      BodyOfSrt(glued, tail + "\n");
    } else {
      assert "WEBVTT\n\n" + (glued + tail) + "\n" == "WEBVTT\n\n" + glued + (tail + "\n");
      BodyOfVtt(glued, tail + "\n");
    }
  }

  /** A rendering of any list the parser can return parses to that list. */
  lemma RenderedParses(format: Format, cues: seq<Cue>)
    requires Returned(cues)
    ensures Parse(Render(format, cues)) == Some(cues)
  {
    hide CueOk, Body, Render, Glue, Cores, Pads, IsSpace, ReadText, NoCr;
    assert AllCuesOk(cues);
    BodyOfRendered(format, cues);
    ReadHasNoCr(Render(format, cues));
    CoresParse(format, 1, cues);
    BlocksGlued(Cores(format, 1, cues), Pads(cues));
  }

  // ------------------------------------------------------------ conversion

  /** `_convert_captions`, content to content; `None` is its error. */
  function Convert(content: string, format: Format): Option<string> {
    match Parse(content)
    case None => None
    case Some(cues) => Some(Render(format, cues))
  }

  /** A conversion always passes its own check: the cues of the output are the cues of the
      input. */
  lemma ConversionPassesItsCheck(content: string, format: Format)
    ensures Convert(content, format).Some? <==> Parse(content).Some?
    ensures Convert(content, format).Some? ==> Parse(Convert(content, format).value) == Parse(content)
  {
    if Parse(content).Some? {
      ParsedIsReturned(content);
      RenderedParses(format, Parse(content).value);
    }
  }

  /** There and back again: converting to the other format and back keeps every cue, and a
      second round changes nothing at all. */
  lemma ConversionRoundTrip(content: string, there: Format, back: Format)
    requires Parse(content).Some?
    ensures Convert(content, there).Some? && Convert(Convert(content, there).value, back).Some?
    ensures var result := Convert(Convert(content, there).value, back).value;
            Parse(result) == Parse(content) && Convert(result, back) == Some(result)
  {
    ConversionPassesItsCheck(content, there);
    ConversionPassesItsCheck(Convert(content, there).value, back);
    ConversionPassesItsCheck(Convert(Convert(content, there).value, back).value, back);
  }

  /** The parser's loop, block by block. */
  method CaptionCues(content: string) returns (r: Option<seq<Cue>>)
    ensures r == Parse(content)
  {
    hide ParseBlock, ParseBlocks, Blocks, Body;
    var blocks := Blocks(Body(ReadText(content)));
    var cues: seq<Cue> := [];
    NoBlocks(blocks);
    for i := 0 to |blocks|
      invariant |cues| == i && ParseBlocks(blocks[..i]) == Some(cues)
    {
      var cue := ParseBlock(blocks[i]);
      if cue.None? {
        ParseBlocksFail(blocks, i);
        return None;
      }
      ParseBlocksAppend(blocks[..i], blocks[i]);
      assert blocks[..i + 1] == blocks[..i] + [blocks[i]];
      cues := cues + [cue.value];
    }
    assert blocks[..|blocks|] == blocks;
    return Some(cues);
  }

  lemma NoBlocks(blocks: seq<string>)
    ensures ParseBlocks(blocks[..0]) == Some([])
  {}

  lemma {:induction false} ParseBlocksFail(blocks: seq<string>, i: nat)
    requires i < |blocks| && ParseBlock(blocks[i]).None?
    ensures ParseBlocks(blocks).None?
    decreases i
  {
    hide ParseBlock;
    if i > 0 {
      ParseBlocksFail(blocks[1..], i - 1);
    }
  }

  lemma {:induction false} ParseBlocksAppend(blocks: seq<string>, block: string)
    requires ParseBlocks(blocks).Some? && ParseBlock(block).Some?
    ensures ParseBlocks(blocks + [block]) == Some(ParseBlocks(blocks).value + [ParseBlock(block).value])
  {
    hide ParseBlock;
    if blocks == [] {
      var last: Cue, none: seq<Cue> := ParseBlock(block).value, [];
      assert blocks + [block] == [block] && [block][1..] == [] && none + [last] == [last] + none;
    } else {
      assert (blocks + [block])[1..] == blocks[1..] + [block];
      ParseBlocksAppend(blocks[1..], block);
      var first, rest, last := ParseBlock(blocks[0]).value, ParseBlocks(blocks[1..]).value, ParseBlock(block).value;
      assert ([first] + rest) + [last] == [first] + (rest + [last]);
    }
  }
}
