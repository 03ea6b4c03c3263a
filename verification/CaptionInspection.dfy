/** The caption inspection on the text of a file: which format it reports, which times it reads,
    and what a conversion does to both. */
module CaptionInspection {
  import opened Domain
  import opened Text
  import opened Captions
  import opened CaptionTiming

  // ------------------------------------------------------------ one timing line

  predicate AsciiDigit(c: char) { '0' <= c <= '9' }

  /** `[0-9]{2}:[0-9]{2}:[0-9]{2}[,.][0-9]{3}`. */
  predicate IsStamp(t: string) {
    && |t| == 12 && t[2] == ':' && t[5] == ':' && (t[8] == ',' || t[8] == '.')
    && AsciiDigit(t[0]) && AsciiDigit(t[1]) && AsciiDigit(t[3]) && AsciiDigit(t[4]) && AsciiDigit(t[6])
    && AsciiDigit(t[7]) && AsciiDigit(t[9]) && AsciiDigit(t[10]) && AsciiDigit(t[11])
  }

  function DigitAt(t: string, i: nat): nat
    requires i < |t| && AsciiDigit(t[i])
  {
    t[i] as int - '0' as int
  }

  /** `_timestamp`, in milliseconds. */
  function Millis(t: string): nat
    requires IsStamp(t)
  {
    var hours, minutes, seconds := 10 * DigitAt(t, 0) + DigitAt(t, 1), 10 * DigitAt(t, 3) + DigitAt(t, 4),
      10 * DigitAt(t, 6) + DigitAt(t, 7);
    3600000 * hours + 60000 * minutes + 1000 * seconds + 100 * DigitAt(t, 9) + 10 * DigitAt(t, 10) + DigitAt(t, 11)
  }

  /** A time stamp counts hours, minutes and seconds in sixties, and thousandths. */
  lemma MillisIs(t: string, digits: seq<nat>)
    requires IsStamp(t) && |digits| == 12
    requires forall i :: 0 <= i < 12 && i != 2 && i != 5 && i != 8 ==> digits[i] < 10 && t[i] == "0123456789"[digits[i]]
    ensures Millis(t) ==
            ((10 * digits[0] + digits[1]) * 60 + 10 * digits[3] + digits[4]) * 60 * 1000
            + (10 * digits[6] + digits[7]) * 1000 + 100 * digits[9] + 10 * digits[10] + digits[11]
  {
    forall i | 0 <= i < 12 && i != 2 && i != 5 && i != 8 ensures AsciiDigit(t[i]) && DigitAt(t, i) == digits[i] {
      DigitIs(t[i], digits[i]);
    }
  }

  lemma DigitIs(c: char, digit: nat)
    requires digit < 10 && c == "0123456789"[digit]
    ensures AsciiDigit(c) && c as int - '0' as int == digit
  {}

  lemma AsciiDigits(c: char)
    ensures AsciiDigit(c) <==> c in "0123456789"
  {}

  /** A time, and after it nothing, or white space and anything. */
  predicate OpensWithStamp(t: string) { |t| >= 12 && IsStamp(t[..12]) && (|t| == 12 || IsSpace(t[12])) }

  /** `_TIMING.fullmatch(line)`: a time, an arrow with white space on both sides, a time, and
      perhaps settings. */
  function MatchTiming(line: string): Option<TimedCue> {
    if |line| <= 12 || !IsStamp(line[..12]) || !IsSpace(line[12]) then None
    else
      var arrow := LStrip(line[12..]);
      if |arrow| <= 3 || !ArrowAt(arrow, 0) || !IsSpace(arrow[3]) then None
      else
        var end := LStrip(arrow[3..]);
        if OpensWithStamp(end) then Some(TimedCue(Millis(line[..12]), Millis(end[..12]))) else None
  }

  // ------------------------------------------------------------ a file

  /** The first line with an arrow, stripped. */
  function FirstTiming(lines: seq<string>): Option<string> {
    if lines == [] then None
    else if FindArrow(Strip(lines[0])).Some? then Some(Strip(lines[0]))
    else FirstTiming(lines[1..])
  }

  /** One block; `None` is CAPTION_TIMING_UNPARSEABLE. */
  function TimeBlock(block: string): (r: Option<TimedCue>)
    ensures r.Some? ==> r.value.start <= r.value.end
  {
    match FirstTiming(VisibleOnly(SplitLines(block)))
    case None => None
    case Some(line) =>
      match MatchTiming(line)
      case None => None
      case Some(cue) => if cue.end < cue.start then None else Some(cue)
  }

  function TimeBlocks(blocks: seq<string>): (r: Option<seq<TimedCue>>)
    ensures r.Some? ==> |r.value| == |blocks|
  {
    if blocks == [] then Some([])
    else
      match (TimeBlock(blocks[0]), TimeBlocks(blocks[1..]))
      case (Some(cue), Some(rest)) => Some([cue] + rest)
      case _ => None
  }

  /** What is read, with every line end replaced once more, and stripped. */
  function Normalized(content: string): string { Strip(Swap(DropCr(ReadText(content)), '\r', '\n')) }

  predicate HasHeader(t: string) { "WEBVTT" <= t }

  function BlocksOf(normalized: string): seq<string> {
    Blocks(if HasHeader(normalized) then DropNewlines(normalized[6..]) else normalized)
  }

  datatype Reading = FormatUnknown | Unparseable | Timed(format: Format, cues: seq<TimedCue>)

  /** What the inspection reads in a file, which may or may not be named `.srt`. */
  function Read(content: string, srt: bool): Reading {
    var t := Normalized(content);
    if !HasHeader(t) && !srt then FormatUnknown
    else
      match TimeBlocks(BlocksOf(t))
      case None => Unparseable
      case Some(cues) => Timed(if HasHeader(t) then WebVtt else Srt, cues)
  }

  lemma {:induction false} TimedAll(blocks: seq<string>)
    requires TimeBlocks(blocks).Some?
    ensures AllTimed(TimeBlocks(blocks).value)
  {
    hide TimeBlock;
    if blocks != [] {
      TimedAll(blocks[1..]);
    }
  }

  lemma {:induction false} TimeBlocksSplit(before: seq<string>, block: string, after: seq<string>)
    ensures TimeBlocks(before + [block]) ==
            match (TimeBlocks(before), TimeBlock(block))
            case (Some(cues), Some(cue)) => Some(cues + [cue])
            case _ => None
    ensures TimeBlock(block).None? ==> TimeBlocks(before + [block] + after).None?
    decreases |before|
  {
    hide TimeBlock;
    var blocks, all := before + [block], before + [block] + after;
    if before == [] {
      assert blocks == [block] && [block][1..] == [] && all[0] == block;
      assert TimeBlock(block).Some? ==> [TimeBlock(block).value] + [] == [] + [TimeBlock(block).value];
    } else {
      TimeBlocksSplit(before[1..], block, after);
      assert blocks[0] == before[0] && blocks[1..] == before[1..] + [block];
      assert all[0] == before[0] && all[1..] == before[1..] + [block] + after;
      if TimeBlocks(before).Some? && TimeBlock(block).Some? {
        var first, rest, last := TimeBlock(before[0]).value, TimeBlocks(before[1..]).value, TimeBlock(block).value;
        assert [first] + (rest + [last]) == ([first] + rest) + [last];
      }
    }
  }

  /** `inspect_captions`. */
  method InspectCaptions(content: string, srt: bool, duration: Option<real>)
    returns (reading: Reading, facts: Option<CueFacts>)
    ensures reading == Read(content, srt)
    ensures facts.Some? <==> reading.Timed?
    ensures reading.Timed? ==> Measures(facts.value, reading.cues, duration)
  {
    hide Measures, TimeBlock, TimeBlocks, Normalized, HasHeader, BlocksOf, AllTimed;
    var t := Normalized(content);
    if !HasHeader(t) && !srt {
      return FormatUnknown, None;
    }
    var blocks := BlocksOf(t);
    var cues: seq<TimedCue> := [];
    NoTimes();
    assert blocks[..0] == [];
    for i := 0 to |blocks|
      invariant |cues| == i && TimeBlocks(blocks[..i]) == Some(cues)
    {
      var cue := TimeBlock(blocks[i]);
      OneMoreBlock(blocks, i);
      if cue.None? {
        return Unparseable, None;
      }
      cues := cues + [cue.value];
    }
    assert blocks[..|blocks|] == blocks;
    TimedAll(blocks);
    SomeBlock(t);
    var measured := MeasureCues(cues, duration);
    return Timed(if HasHeader(t) then WebVtt else Srt, cues), Some(measured);
  }

  lemma {:induction false} OneMoreBlock(blocks: seq<string>, i: nat)
    requires i < |blocks|
    ensures TimeBlocks(blocks[..i + 1]) ==
            match (TimeBlocks(blocks[..i]), TimeBlock(blocks[i]))
            case (Some(cues), Some(cue)) => Some(cues + [cue])
            case _ => None
    ensures TimeBlock(blocks[i]).None? ==> TimeBlocks(blocks).None?
  {
    hide TimeBlock, TimeBlocks;
    TimeBlocksSplit(blocks[..i], blocks[i], blocks[i + 1..]);
    assert blocks == blocks[..i] + [blocks[i]] + blocks[i + 1..] && blocks[..i + 1] == blocks[..i] + [blocks[i]];
  }

  lemma NoTimes()
    ensures TimeBlocks([]) == Some([])
  {}

  lemma SomeBlock(t: string)
    ensures BlocksOf(t) != []
  {
    hide FirstGap, HasHeader, DropNewlines;
  }

  // ------------------------------------------------------------ both parsers see the same times

  /** What the inspection makes of the times the converter has read. */
  function TimesOf(cue: Cue): (r: Option<TimedCue>)
    ensures r.Some? ==> r.value.start <= r.value.end
  {
    if !IsStamp(cue.start) || !OpensWithStamp(cue.end) || Millis(cue.end[..12]) < Millis(cue.start) then None
    else Some(TimedCue(Millis(cue.start), Millis(cue.end[..12])))
  }

  function AllTimes(cues: seq<Cue>): Option<seq<TimedCue>> {
    if cues == [] then Some([])
    else
      match (TimesOf(cues[0]), AllTimes(cues[1..]))
      case (Some(cue), Some(rest)) => Some([cue] + rest)
      case _ => None
  }

  lemma StampChars(t: string)
    requires IsStamp(t)
    ensures forall i :: 0 <= i < |t| ==> !IsSpace(t[i]) && t[i] != '-'
  {
    forall i | 0 <= i < |t| ensures !IsSpace(t[i]) && t[i] != '-' {
      assert AsciiDigit(t[i]) || t[i] == ':' || t[i] == ',' || t[i] == '.';
    }
  }

  lemma SpaceIsNoDash(c: char)
    ensures IsSpace(c) ==> c != '-' && c != '>' && c != ',' && c != '.'
  {}

  /** The spelling of the decimal sign does not matter. */
  lemma {:induction false} SwapStamp(t: string, from: char, to: char)
    requires OpensWithStamp(t) && (from == ',' || from == '.') && (to == ',' || to == '.')
    ensures OpensWithStamp(Swap(t, from, to)) && Millis(Swap(t, from, to)[..12]) == Millis(t[..12])
  {
    if |t| > 12 {
      SpaceIsNoDash(t[12]);
    }
    hide IsSpace, Swap;
    var s := Swap(t, from, to);
    assert forall i :: 0 <= i < 12 ==> AsciiDigit(t[i]) || t[i] == ':' ==> s[i] == t[i];
  }

  /** A matched line, taken apart. */
  lemma MatchParts(line: string) returns (start: string, gap: string, pad: string, end: string)
    requires MatchTiming(line).Some?
    ensures IsStamp(start) && OpensWithStamp(end) && Blank(gap) && Blank(pad)
    ensures line == start + gap + "-->" + pad + end
    ensures MatchTiming(line) == Some(TimedCue(Millis(start), Millis(end[..12])))
  {
    hide IsSpace, IsStamp, LStrip, Blank, Millis, OpensWithStamp;
    start := line[..12];
    var arrow := LStrip(line[12..]);
    gap := LStripIsSuffix(line[12..]);
    end := LStrip(arrow[3..]);
    pad := LStripIsSuffix(arrow[3..]);
    ArrowFirst(arrow);
    Reassembled(line, gap, arrow, pad, end);
  }

  lemma ArrowFirst(t: string)
    requires ArrowAt(t, 0)
    ensures t == "-->" + t[3..]
  {}

  lemma Reassembled(line: string, gap: string, arrow: string, pad: string, end: string)
    requires |line| > 12 && line[12..] == gap + arrow
    requires |arrow| > 3 && arrow == "-->" + arrow[3..] && arrow[3..] == pad + end
    ensures line == line[..12] + gap + "-->" + pad + end
  {
    assert line == line[..12] + line[12..];
  }

  lemma {:induction false} ArrowAfter(before: string, after: string)
    requires forall i :: 0 <= i < |before| ==> before[i] != '-'
    ensures FindArrow(before + "-->" + after) == Some(|before|)
  {
    var t := before + "-->" + after;
    assert t[|before|] == '-' && t[|before| + 1] == '-' && t[|before| + 2] == '>';
    assert ArrowAt(t, |before|);
    forall i: nat | i < |before| ensures !ArrowAt(t, i) {
      assert t[i] == before[i];
    }
  }

  lemma BlankHasNoDash(t: string)
    requires Blank(t)
    ensures forall i :: 0 <= i < |t| ==> t[i] != '-'
  {
    forall i | 0 <= i < |t| ensures t[i] != '-' {
      SpaceIsNoDash(t[i]);
    }
  }

  /** Stripping at the right keeps everything up to the last visible character. */
  lemma {:induction false} RStripKeeps(t: string, n: nat)
    requires 0 < n <= |t| && !IsSpace(t[n - 1])
    ensures |RStrip(t)| >= n && RStrip(t) == t[..|RStrip(t)|]
  {
    hide IsSpace, RStrip;
    var r := RStrip(t);
    forall i | |r| <= i < |t| ensures IsSpace(t[i]) {
      assert t[|r|..][i - |r|] == t[i];
    }
  }

  lemma EndContinues(end: string, right: string)
    requires Blank(right) && OpensWithStamp(end)
    ensures var rest := end + right;
            && |rest| >= 12 && rest[..12] == end[..12] && !IsSpace(rest[0]) && !IsSpace(rest[11])
            && (|rest| > 12 ==> IsSpace(rest[12]))
  {
    StampChars(end[..12]);
    hide IsSpace, IsStamp;
    var rest := end + right;
    assert rest[0] == end[..12][0] && rest[11] == end[..12][11];
    if |end| > 12 {
      assert rest[12] == end[12];
    } else if right != "" {
      assert rest[12] == right[0];
    }
  }

  /** What follows the arrow, stripped, still opens with the time. */
  lemma EndStripped(pad: string, end: string, right: string)
    requires Blank(pad) && Blank(right) && OpensWithStamp(end)
    ensures var t := Strip(pad + end + right); OpensWithStamp(t) && t[..12] == end[..12]
  {
    hide IsSpace, IsStamp, LStrip, RStrip, Blank;
    var rest := end + right;
    EndContinues(end, right);
    assert pad + end + right == pad + rest;
    LStripBlank(pad, rest);
    RStripKeeps(rest, 12);
    var t := RStrip(rest);
    assert Strip(pad + rest) == t && t[..12] == rest[..12] && (|t| > 12 ==> t[12] == rest[12]);
  }

  /** A timing line that the inspection matches is split at the same arrow by the converter,
      into the same two times. */
  lemma {:induction false} TimingAgrees(line: string)
    requires MatchTiming(Strip(line)).Some?
    ensures FindArrow(line).Some? && TimesMatch(line, FindArrow(line).value, MatchTiming(Strip(line)).value)
  {
    hide IsSpace, IsStamp, Strip, FindArrow, MatchTiming, Millis, OpensWithStamp, Blank, Time, Tight;
    var left, right := StripIsPiece(line);
    var start, gap, pad, end := MatchParts(Strip(line));
    StampChars(start);
    BlankHasNoDash(left);
    BlankHasNoDash(gap);
    var before, after := left + start + gap, pad + end + right;
    assert line == before + "-->" + after;
    ArrowAfter(before, after);
    assert line[..|before|] == before && line[|before| + 3..] == after;
    StampTight(start);
    StripPadded(left, start, gap);
    EndStripped(pad, end, right);
    SwappedTimes(before, after, start, end);
  }

  lemma StampTight(t: string)
    requires IsStamp(t)
    ensures Tight(t) && OpensWithStamp(t) && t[..12] == t
  {
    StampChars(t);
  }

  /** The parts on the two sides of the arrow have these times. */
  predicate TimesMatch(line: string, i: nat, cue: TimedCue)
    requires i + 3 <= |line|
  {
    var start, end := Time(line[..i]), Time(line[i + 3..]);
    IsStamp(start) && OpensWithStamp(end) && Millis(start) == cue.start && Millis(end[..12]) == cue.end
  }

  lemma StampExact(t: string, s: string)
    requires IsStamp(t) && |s| == |t| && OpensWithStamp(s)
    ensures s[..12] == s && IsStamp(s)
  {
    assert s[..12] == s;
  }

  lemma SwappedTimes(before: string, after: string, start: string, end: string)
    requires IsStamp(start) && Strip(before) == start
    requires OpensWithStamp(end) && OpensWithStamp(Strip(after)) && Strip(after)[..12] == end[..12]
    ensures IsStamp(Time(before)) && Millis(Time(before)) == Millis(start)
    ensures OpensWithStamp(Time(after)) && Millis(Time(after)[..12]) == Millis(end[..12])
  {
    hide IsSpace, IsStamp, OpensWithStamp, Strip, Millis;
    StampTight(start);
    SwapStamp(start, ',', '.');
    SwapStamp(Strip(after), ',', '.');
    StampExact(start, Time(before));
    assert Time(before)[..12] == Time(before);
  }

  // ------------------------------------------------------------ blocks

  lemma {:induction false} StripKeepsArrow(line: string)
    requires FindArrow(line).Some?
    ensures FindArrow(Strip(line)).Some?
  {
    hide IsSpace, Strip, FindArrow;
    var left, right := StripIsPiece(line);
    var s, i := Strip(line), FindArrow(line).value;
    ArrowHasNoDigit();
    SpaceIsNoDash(line[i]);
    SpaceIsNoDash(line[i + 2]);
    forall j | 0 <= j < |left| ensures IsSpace(line[j]) {
      assert line[j] == left[j];
    }
    forall j | |left| + |s| <= j < |line| ensures IsSpace(line[j]) {
      assert line[j] == right[j - |left| - |s|];
    }
    var k := i - |left|;
    assert s[k] == line[i] && s[k + 1] == line[i + 1] && s[k + 2] == line[i + 2];
    assert ArrowAt(s, k);
  }

  lemma {:induction false} NumberHasNoArrow(t: string)
    requires IsDigits(t)
    ensures FindArrow(t) == None
  {
    ArrowHasNoDigit();
    hide IsDigit;
  }

  function TimingOf(lines: seq<string>): string {
    if |lines| > 1 && IsDigits(Strip(lines[0])) then lines[1] else if lines != [] then lines[0] else ""
  }

  /** The converter's timing line is the first line with an arrow. */
  lemma {:induction false} FirstTimingIs(lines: seq<string>)
    requires ParseLines(lines).Some?
    ensures FirstTiming(lines) == Some(Strip(TimingOf(lines))) && FindArrow(TimingOf(lines)).Some?
  {
    hide IsSpace, IsDigits, Strip, FindArrow, Time;
    StripKeepsArrow(TimingOf(lines));
    if IsDigits(Strip(lines[0])) {
      NumberHasNoArrow(Strip(lines[0]));
      assert lines[1..][0] == lines[1];
    }
  }

  lemma CueOfTiming(lines: seq<string>)
    requires ParseLines(lines).Some?
    ensures var line, cue := TimingOf(lines), ParseLines(lines).value;
            && FindArrow(line).Some? && cue.start == Time(line[..FindArrow(line).value])
            && cue.end == Time(line[FindArrow(line).value + 3..])
  {
    hide IsSpace, IsDigits, Strip, FindArrow, Time;
  }

  /** Where both parsers read a block, they read the same times. */
  lemma BlockAgrees(block: string)
    requires ParseBlock(block).Some? && TimeBlock(block).Some?
    ensures TimesOf(ParseBlock(block).value) == TimeBlock(block)
  {
    hide IsSpace, Strip, FindArrow, Time, ParseLines, TimingOf, IsStamp, OpensWithStamp, Millis, MatchTiming,
         FirstTiming, VisibleOnly, SplitLines;
    var lines := VisibleOnly(SplitLines(block));
    FirstTimingIs(lines);
    CueOfTiming(lines);
    TimingAgrees(TimingOf(lines));
  }

  lemma {:induction false} BlocksAgree(blocks: seq<string>)
    requires ParseBlocks(blocks).Some? && TimeBlocks(blocks).Some?
    ensures AllTimes(ParseBlocks(blocks).value) == TimeBlocks(blocks)
  {
    hide ParseBlock, TimeBlock, TimesOf;
    if blocks != [] {
      BlockAgrees(blocks[0]);
      BlocksAgree(blocks[1..]);
      assert ParseBlocks(blocks).value[1..] == ParseBlocks(blocks[1..]).value;
    }
  }

  // ------------------------------------------------------------ a rendered file

  /** A rendered timing line is matched, with its times. */
  lemma TimingLineMatches(start: string, end: string, bare: bool)
    requires IsStamp(start) && OpensWithStamp(end) && Tight(end)
    ensures MatchTiming(Strip(TimingLine(start, end, bare))) == Some(TimedCue(Millis(start), Millis(end[..12])))
  {
    hide IsSpace, IsStamp, LStrip, RStrip, Strip, Millis, MatchTiming, OpensWithStamp, Tight;
    var line := start + " --> " + end;
    assert TimingLine(start, end, bare) == line by { OpensNotEmpty(end); }
    TimingIsTight(start, end);
    assert "" + line + "" == line;
    StripPadded("", line, "");
    SpacedMatches(start, end);
  }

  lemma OpensNotEmpty(end: string)
    requires OpensWithStamp(end)
    ensures |end| >= 12 && !IsSpace(end[0])
  {
    StampChars(end[..12]);
    assert end[0] == end[..12][0];
  }

  lemma TimingIsTight(start: string, end: string)
    requires IsStamp(start) && OpensWithStamp(end) && Tight(end)
    ensures Tight(start + " --> " + end)
  {
    StampChars(start);
    hide IsSpace, IsStamp;
    var line := start + " --> " + end;
    assert line[0] == start[0] && line[|line| - 1] == end[|end| - 1];
  }

  lemma SpacedMatches(start: string, end: string)
    requires IsStamp(start) && OpensWithStamp(end)
    ensures MatchTiming(start + " --> " + end) == Some(TimedCue(Millis(start), Millis(end[..12])))
  {
    OpensNotEmpty(end);
    CharFacts();
    SpaceIsNoDash('-');
    SpacedPieces(start, end);
    hide IsSpace, IsStamp, LStrip, Millis, OpensWithStamp;
    var arrow := "--> " + end;
    LStripBlank(" ", arrow);
    LStripBlank(" ", end);
  }

  lemma SpacedPieces(start: string, end: string)
    requires IsStamp(start) && end != ""
    ensures var line, arrow := start + " --> " + end, "--> " + end;
            && |line| > 12 && line[..12] == start && line[12..] == " " + arrow && line[12] == ' '
            && |arrow| > 3 && ArrowAt(arrow, 0) && arrow[3..] == " " + end && arrow[3] == ' '
  {
    hide IsSpace;
  }

  /** The inspection reads a rendered cue as its times, in either format. */
  lemma RenderedBlockTimes(format: Format, index: nat, cue: Cue, last: bool)
    requires CueOk(cue)
    ensures TimeBlock(JoinLines(BlockLines(format, index, cue, last))) == TimesOf(cue)
  {
    hide IsSpace, IsBreak, Strip, FindArrow, Time, ParseLines, IsStamp, OpensWithStamp, Millis, MatchTiming,
         FirstTiming, VisibleOnly, SplitLines, JoinLines, TimingLine, Swap, TimingOf, BlockLines, ParseBlock, CueOk,
         AllVisible;
    var lines := BlockLines(format, index, cue, last);
    BlockParses(format, index, cue, last);
    if TimeBlock(JoinLines(lines)).Some? {
      BlockAgrees(JoinLines(lines));
    }
    if TimesOf(cue).Some? {
      BlockLinesVisible(format, index, cue, last);
      JoinedLines(lines);
      JoinedParses(lines);
      RenderedLine(format, index, cue, last);
      FirstTimingIs(lines);
    }
  }

  lemma {:induction false} JoinedLines(lines: seq<string>)
    requires AllVisible(lines)
    ensures VisibleOnly(SplitLines(JoinLines(lines))) == lines
  {
    hide IsSpace, IsBreak, SplitLines, JoinLines;
    assert forall i :: 0 <= i < |lines| ==> Visible(lines[i]) && lines[i] != "";
    SplitJoined(lines);
    VisibleStay(lines);
  }

  lemma RenderedLine(format: Format, index: nat, cue: Cue, last: bool)
    requires CueOk(cue) && TimesOf(cue).Some? && ParseLines(BlockLines(format, index, cue, last)).Some?
    ensures MatchTiming(Strip(TimingOf(BlockLines(format, index, cue, last)))) == TimesOf(cue)
  {
    hide IsSpace, IsBreak, IsDigits, Strip, FindArrow, Time, ParseLines, IsStamp, OpensWithStamp, Millis, MatchTiming,
         TimingLine, Swap, Tight, OneLine, AllVisible, Digits;
    var bare := last && cue.lines == [];
    SwapExact(cue.start);
    SwapStamp(cue.end, '.', ',');
    SwapKeeps(cue.end);
    var start, end := Swap(cue.start, '.', ','), Swap(cue.end, '.', ',');
    DigitsAreNumber(index);
    if format.WebVtt? {
      TimingLineMatches(cue.start, cue.end, bare);
      LineIsNoNumber(cue.start, cue.end, bare);
    } else {
      TimingLineMatches(start, end, bare);
    }
  }

  lemma {:induction false} SwapExact(t: string)
    requires IsStamp(t)
    ensures IsStamp(Swap(t, '.', ',')) && Millis(Swap(t, '.', ',')) == Millis(t)
  {
    StampTight(t);
    SwapStamp(t, '.', ',');
    assert Swap(t, '.', ',')[..12] == Swap(t, '.', ',');
  }

  lemma LineIsNoNumber(start: string, end: string, bare: bool)
    ensures !IsDigits(Strip(TimingLine(start, end, bare)))
  {
    hide IsSpace, IsDigits, Strip;
    var rest := (if bare && end == "" then "" else " ") + end;
    TimingIsNoNumber(start, rest);
    assert TimingLine(start, end, bare) == start + " -->" + rest;
  }

  lemma {:induction false} RenderedTimes(format: Format, index: nat, cues: seq<Cue>)
    requires AllCuesOk(cues)
    ensures TimeBlocks(Cores(format, index, cues)) == AllTimes(cues)
    decreases |cues|
  {
    hide CueOk, TimeBlock, TimesOf, JoinLines, BlockLines;
    if cues != [] {
      RenderedBlockTimes(format, index, cues[0], |cues| == 1);
      RenderedTimes(format, index + 1, cues[1..]);
    }
  }

  // ------------------------------------------------------------ a whole file

  lemma {:induction false} NoCrSwap(t: string)
    requires NoCr(t)
    ensures Swap(t, '\r', '\n') == t
  {}

  /** Both parsers see the same blocks of any file: reading has dealt with the carriage returns,
      so that neither parser's own replacement finds any. */
  lemma SameBlocks(content: string)
    ensures Normalized(content) == Strip(DropCr(ReadText(content)))
    ensures BlocksOf(Normalized(content)) == Blocks(Body(ReadText(content)))
  {
    hide Strip, DropCr, Blocks, ReadText;
    ReadHasNoCr(content);
    DropCrSame(ReadText(content));
    NoCrSwap(ReadText(content));
  }

  /** What the inspection reads in a rendered file is the format asked for and the times of the
      cues, whatever the format. */
  lemma {:induction false} RenderedIsRead(target: Format, cues: seq<Cue>)
    requires Returned(cues)
    ensures Read(Render(target, cues), target.Srt?) ==
            match AllTimes(cues) case None => Unparseable case Some(times) => Timed(target, times)
  {
    hide CueOk, Body, Render, Glue, Cores, Pads, IsSpace, Strip, DropCr, TimeBlocks, AllTimes, Normalized, BlocksOf,
         ReadText, NoCr;
    var content := Render(target, cues);
    assert AllCuesOk(cues);
    BodyOfRendered(target, cues);
    ReadHasNoCr(content);
    SameBlocks(content);
    CoresParse(target, 1, cues);
    BlocksGlued(Cores(target, 1, cues), Pads(cues));
    RenderedTimes(target, 1, cues);
  }

  /** A conversion changes no measured time: what the inspection reads in the converted file is
      the format asked for and exactly the times it read in the original. */
  lemma ConversionKeepsTimes(content: string, srt: bool, target: Format)
    requires Parse(content).Some? && Read(content, srt).Timed?
    ensures Read(Convert(content, target).value, target.Srt?) == Timed(target, Read(content, srt).cues)
  {
    hide Strip, DropCr, Blocks, Body, TimeBlocks, ParseBlocks, AllTimes, Render, Returned, Normalized, BlocksOf,
         ReadText;
    SameBlocks(content);
    BlocksAgree(Blocks(Body(ReadText(content))));
    ParsedIsReturned(content);
    RenderedIsRead(target, Parse(content).value);
  }
}
