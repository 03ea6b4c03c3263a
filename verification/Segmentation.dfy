/** Source documents cut into sentences, losslessly, and the spans that cite them. */
module Segmentation {
  import opened Domain
  import opened Text

  // ------------------------------------------------------------ stored strings

  /** What `strip_whitespace` removes: Unicode white space, which leaves out the four
      information separators that `str.isspace` counts. */
  predicate IsTrimmed(c: char) { IsSpace(c) && !('\U{1c}' <= c <= '\U{1f}') }

  lemma TrimmedIs(c: char)
    ensures IsTrimmed(c) <==> IsSpace(c) && c !in "\U{1c}\U{1d}\U{1e}\U{1f}"
  {}

  function TrimLeft(t: string): (r: string)
    ensures t != "" && !IsTrimmed(t[0]) ==> r == t
    ensures (exists i :: 0 <= i < |t| && !IsTrimmed(t[i])) <==> r != "" && !IsTrimmed(r[0])
  {
    if t != "" && IsTrimmed(t[0]) then
      assert forall i :: 0 < i < |t| ==> t[i] == t[1..][i - 1];
      TrimLeft(t[1..])
    else t
  }

  function TrimRight(t: string): (r: string)
    ensures r <= t && (r == t <==> t == "" || !IsTrimmed(t[|t| - 1]))
    ensures t != "" && !IsTrimmed(t[0]) ==> r != ""
  {
    if t != "" && IsTrimmed(t[|t| - 1]) then TrimRight(t[..|t| - 1]) else t
  }

  /** How a `NonEmptyStr` is stored; the empty result is refused. */
  function Trim(t: string): string { TrimRight(TrimLeft(t)) }

  // ------------------------------------------------------------ lines and paragraphs

  /** The first line of the text, its boundary included; CRLF is one boundary. */
  function LineWidth(t: string): (w: nat)
    requires t != ""
    ensures 0 < w <= |t| && (w < |t| ==> IsBreak(t[w - 1]))
  {
    var n := FirstBreak(t);
    if n == |t| then n else if t[n] == '\r' && n + 1 < |t| && t[n + 1] == '\n' then n + 2 else n + 1
  }

  /** A line is as wide as its text and what ends it. */
  lemma LineWidthIs(line: string, ending: string, rest: string)
    requires OneLine(line) && EndsLine(ending, rest)
    ensures LineWidth(line + (ending + rest)) == |line| + |ending|
  {
    var t := line + (ending + rest);
    assert forall k :: 0 <= k < |line| ==> t[k] == line[k];
    NewlineBreaks();
    assert t[|line|] == ending[0] && IsBreak(t[|line|]);
    hide IsBreak, FirstBreak;
    assert FirstBreak(t) == |line|;
    assert t[|line|..] == ending + rest;
    assert |line| + 1 < |t| ==> t[|line| + 1] == (ending + rest)[1];
  }

  /** `splitlines(keepends=True)`. */
  function KeepLines(t: string): (r: seq<string>)
    ensures forall i :: 0 <= i < |r| ==> r[i] != ""
    decreases |t|
  {
    if t == "" then [] else [t[..LineWidth(t)]] + KeepLines(t[LineWidth(t)..])
  }

  function Concat(lines: seq<string>): string {
    if lines == [] then "" else lines[0] + Concat(lines[1..])
  }

  /** Only the last line may lack its boundary. */
  predicate Lines(lines: seq<string>) {
    && (forall i :: 0 <= i < |lines| ==> lines[i] != "")
    && (forall i :: 0 <= i < |lines| - 1 ==> IsBreak(lines[i][|lines[i]| - 1]))
  }

  lemma {:induction false} KeepLinesKeeps(t: string)
    ensures Concat(KeepLines(t)) == t && Lines(KeepLines(t))
    decreases |t|
  {
    hide IsBreak, LineWidth, Lines, Concat;
    if t == "" {
      NoLines();
    } else {
      var w := LineWidth(t);
      KeepLinesKeeps(t[w..]);
      assert w == |t| ==> KeepLines(t[w..]) == [];
      LinesCons(t[..w], KeepLines(t[w..]));
      assert t == t[..w] + t[w..];
    }
  }

  lemma NoLines()
    ensures Concat([]) == "" && Lines([])
  {}

  lemma {:induction false} LinesCons(line: string, rest: seq<string>)
    requires Lines(rest) && line != "" && (rest == [] || IsBreak(line[|line| - 1]))
    ensures Lines([line] + rest) && Concat([line] + rest) == line + Concat(rest)
  {
    hide IsBreak;
    assert ([line] + rest)[1..] == rest;
  }

  /** `line.removesuffix("\n")`. */
  function ContentOf(line: string): string {
    if line != "" && line[|line| - 1] == '\n' then line[..|line| - 1] else line
  }

  datatype Kind = Heading(title: string) | BlankLine | Prose

  /** `heading` stands for the two heading patterns, with the reference each one yields. */
  function KindOf(line: string, heading: string -> Option<string>): Kind {
    match heading(ContentOf(line))
    case Some(title) => Heading(title)
    case None => if Blank(ContentOf(line)) then BlankLine else Prose
  }

  datatype Paragraph = Paragraph(start: nat, text: string, reference: Option<string>) {
    function End(): nat { start + |text| }
  }

  function Close(open: string, offset: nat, reference: Option<string>): seq<Paragraph>
    requires |open| <= offset
  {
    if open == "" then [] else [Paragraph(offset - |open|, open, reference)]
  }

  /** The paragraphs of the lines from `offset` on, `open` being the one not yet closed. */
  function Paragraphs(lines: seq<string>,
                      heading: string -> Option<string>, offset: nat, open: string, reference: Option<string>)
      : seq<Paragraph>
    requires |open| <= offset
    decreases |lines|
  {
    if lines == [] then Close(open, offset, reference)
    else
      var next := offset + |lines[0]|;
      match KindOf(lines[0], heading)
      case Heading(title) => Close(open, offset, reference) + Paragraphs(lines[1..], heading, next, "", Some(title))
      case BlankLine => Close(open, offset, reference) + Paragraphs(lines[1..], heading, next, "", reference)
      case Prose => Paragraphs(lines[1..], heading, next, open + lines[0], reference)
  }

  function KindAt(lines: seq<string>, heading: string -> Option<string>, k: nat): Kind
    decreases |lines|
  {
    if lines == [] then BlankLine
    else if k < |lines[0]| then KindOf(lines[0], heading)
    else KindAt(lines[1..], heading, k - |lines[0]|)
  }

  /** What the last heading at or before position `k` says. */
  function ReferenceAt(lines: seq<string>, heading: string -> Option<string>, k: nat, reference: Option<string>)
      : Option<string>
    decreases |lines|
  {
    if lines == [] then reference
    else
      var here := if KindOf(lines[0], heading).Heading? then Some(KindOf(lines[0], heading).title) else reference;
      if k < |lines[0]| then here else ReferenceAt(lines[1..], heading, k - |lines[0]|, here)
  }

  predicate Within(paragraphs: seq<Paragraph>, k: nat) {
    exists i :: 0 <= i < |paragraphs| && paragraphs[i].start <= k < paragraphs[i].End()
  }

  /** Slices of the text, in order, with something between any two of them. */
  predicate Placed(paragraphs: seq<Paragraph>, text: string, from: nat) {
    && (forall i :: 0 <= i < |paragraphs| ==>
          && from <= paragraphs[i].start < paragraphs[i].End() <= |text|
          && text[paragraphs[i].start..paragraphs[i].End()] == paragraphs[i].text
          && (paragraphs[i].End() == |text| || IsBreak(text[paragraphs[i].End() - 1])))
    && (forall i, j :: 0 <= i < j < |paragraphs| ==> paragraphs[i].End() < paragraphs[j].start)
  }

  lemma WithinClosed(open: string, offset: nat, reference: Option<string>, rest: seq<Paragraph>, k: nat)
    requires |open| <= offset
    ensures Within(Close(open, offset, reference) + rest, k) <==> offset - |open| <= k < offset || Within(rest, k)
  {
    var all := Close(open, offset, reference) + rest;
    if open != "" {
      assert all[0].start <= k < all[0].End() <==> offset - |open| <= k < offset;
      assert forall i :: 0 <= i < |rest| ==> rest[i] == all[i + 1];
      assert forall i :: 0 < i < |all| ==> all[i] == rest[i - 1];
    } else {
      assert all == rest;
    }
  }

  lemma PlacedClosed(text: string, open: string, offset: nat, reference: Option<string>, rest: seq<Paragraph>,
                     next: nat)
    requires |open| <= offset < next <= |text| && text[offset - |open|..offset] == open && Placed(rest, text, next)
    requires open == "" || IsBreak(text[offset - 1])
    ensures Placed(Close(open, offset, reference) + rest, text, offset - |open|)
  {
    hide IsBreak, Placed;
    if open == "" {
      assert Close(open, offset, reference) + rest == rest;
      PlacedEarlier(rest, text, next, offset - |open|);
    } else {
      var first := Paragraph(offset - |open|, open, reference);
      assert Close(open, offset, reference) + rest == [first] + rest;
      PlacedBefore(first, rest, text, next);
    }
  }

  lemma PlacedEarlier(rest: seq<Paragraph>, text: string, next: nat, from: nat)
    requires Placed(rest, text, next) && from <= next
    ensures Placed(rest, text, from)
  {
    hide IsBreak;
  }

  lemma PlacedBefore(first: Paragraph, rest: seq<Paragraph>, text: string, next: nat)
    requires Placed(rest, text, next) && first.start < first.End() < next <= |text|
    requires text[first.start..first.End()] == first.text && IsBreak(text[first.End() - 1])
    ensures Placed([first] + rest, text, first.start)
  {
    hide IsBreak;
    var all := [first] + rest;
    forall i | 0 <= i < |all|
      ensures first.start <= all[i].start < all[i].End() <= |text|
      ensures text[all[i].start..all[i].End()] == all[i].text
      ensures all[i].End() == |text| || IsBreak(text[all[i].End() - 1])
    {
      if i > 0 {
        assert all[i] == rest[i - 1];
      }
    }
    forall i, j | 0 <= i < j < |all| ensures all[i].End() < all[j].start {
      assert all[j] == rest[j - 1];
      if i > 0 {
        assert all[i] == rest[i - 1];
      }
    }
  }

  ghost predicate Cut(text: string, lines: seq<string>, offset: nat, open: string) {
    && |open| <= offset <= |text| && Lines(lines)
    && text[offset..] == Concat(lines) && text[offset - |open|..offset] == open
    && (open == "" || lines == [] || IsBreak(text[offset - 1]))
  }

  lemma CutNext(text: string, lines: seq<string>, offset: nat, open: string, more: bool)
    requires Cut(text, lines, offset, open) && lines != []
    ensures Cut(text, lines[1..], offset + |lines[0]|, if more then open + lines[0] else "")
    ensures lines[0] != "" && offset + |lines[0]| <= |text|
  {
    hide IsBreak;
    var next := offset + |lines[0]|;
    assert text[offset..][..|lines[0]|] == lines[0] && text[offset..][|lines[0]|..] == text[next..];
    assert text[offset - |open|..next] == text[offset - |open|..offset] + text[offset..next];
    assert lines[0][|lines[0]| - 1] == text[next - 1];
  }

  /** The paragraphs are slices of the text, in order and apart; a position is in one exactly
      when its line is neither blank nor a heading, and it carries the last heading's words. */
  lemma {:induction false} ParagraphsHold(text: string, lines: seq<string>,
                                          heading: string -> Option<string>, offset: nat, open: string,
                                            reference: Option<string>)
    requires |open| <= offset && Cut(text, lines, offset, open)
    ensures Placed(Paragraphs(lines, heading, offset, open, reference), text, offset - |open|)
    ensures forall k | offset - |open| <= k < |text| ::
              Within(Paragraphs(lines, heading, offset, open, reference), k) <==>
                k < offset || KindAt(lines, heading, k - offset).Prose?
    decreases |lines|
  {
    hide IsBreak, KindOf, Within, Placed, Cut;
    var all := Paragraphs(lines, heading, offset, open, reference);
    if lines == [] {
      ParagraphsEnd(text, offset, open, reference);
    } else {
      var kind, next := KindOf(lines[0], heading), offset + |lines[0]|;
      CutNext(text, lines, offset, open, kind.Prose?);
      CutOpens(text, lines, offset, open);
      if kind.Prose? {
        ParagraphsHold(text, lines[1..], heading, next, open + lines[0], reference);
      } else {
        var said := if kind.Heading? then Some(kind.title) else reference;
        var rest := Paragraphs(lines[1..], heading, next, "", said);
        ParagraphsHold(text, lines[1..], heading, next, "", said);
        PlacedClosed(text, open, offset, reference, rest, next);
        forall k | offset - |open| <= k < |text|
          ensures Within(all, k) <==> k < offset || KindAt(lines, heading, k - offset).Prose?
        {
          WithinClosed(open, offset, reference, rest, k);
          if k < next {
            BeforePlaced(rest, text, next, k);
          }
        }
      }
    }
  }

  lemma CutOpens(text: string, lines: seq<string>, offset: nat, open: string)
    requires Cut(text, lines, offset, open) && lines != []
    ensures |open| <= offset <= |text| && text[offset - |open|..offset] == open
      && (open == "" || IsBreak(text[offset - 1]))
  {}

  lemma ParagraphsEnd(text: string, offset: nat, open: string, reference: Option<string>)
    requires Cut(text, [], offset, open)
    ensures Placed(Close(open, offset, reference), text, offset - |open|) && offset == |text|
    ensures forall k | offset - |open| <= k < |text| :: Within(Close(open, offset, reference), k)
  {
    hide IsBreak;
    if open != "" {
      assert Close(open, offset, reference)[0].End() == offset;
    }
  }

  lemma BeforePlaced(paragraphs: seq<Paragraph>, text: string, from: nat, k: nat)
    requires Placed(paragraphs, text, from) && k < from
    ensures !Within(paragraphs, k)
  {}

  lemma ReferenceStep(lines: seq<string>, heading: string -> Option<string>, k: nat, reference: Option<string>)
    requires lines != []
    ensures var kind := KindOf(lines[0], heading);
            var here := if kind.Heading? then Some(kind.title) else reference;
            ReferenceAt(lines, heading, k, reference) ==
            if k < |lines[0]| then here else ReferenceAt(lines[1..], heading, k - |lines[0]|, here)
  {}

  predicate Carries(paragraph: Paragraph, lines: seq<string>,
                    heading: string -> Option<string>, offset: nat, reference: Option<string>)
  {
    paragraph.reference ==
    if paragraph.start < offset then reference else ReferenceAt(lines, heading, paragraph.start - offset, reference)
  }

  lemma CarriesStep(paragraph: Paragraph, lines: seq<string>,
                    heading: string -> Option<string>, offset: nat, reference: Option<string>)
    requires lines != []
    requires KindOf(lines[0], heading).Heading? ==> offset + |lines[0]| <= paragraph.start
    requires var said := if KindOf(lines[0], heading).Heading? then Some(KindOf(lines[0], heading).title)
      else reference;
             Carries(paragraph, lines[1..], heading, offset + |lines[0]|, said)
    ensures Carries(paragraph, lines, heading, offset, reference)
  {
    hide KindOf;
    if paragraph.start >= offset {
      ReferenceStep(lines, heading, paragraph.start - offset, reference);
    }
  }

  /** Every paragraph carries the words of the last heading before it. */
  lemma {:induction false} ParagraphsCarry(text: string, lines: seq<string>,
                                           heading: string -> Option<string>, offset: nat, open: string,
                                             reference: Option<string>)
    requires |open| <= offset && Cut(text, lines, offset, open)
    ensures forall i :: 0 <= i < |Paragraphs(lines, heading, offset, open, reference)| ==>
              Carries(Paragraphs(lines, heading, offset, open, reference)[i], lines, heading, offset, reference)
    decreases |lines|
  {
    hide IsBreak, KindOf, Placed, Cut, Within, Carries;
    var all := Paragraphs(lines, heading, offset, open, reference);
    if lines == [] || open != "" {
      ClosedCarries(open, lines, heading, offset, reference);
    }
    if lines != [] {
      var kind, next := KindOf(lines[0], heading), offset + |lines[0]|;
      var said := if kind.Heading? then Some(kind.title) else reference;
      var more := if kind.Prose? then open + lines[0] else "";
      var rest := Paragraphs(lines[1..], heading, next, more, said);
      var closed := if kind.Prose? then [] else Close(open, offset, reference);
      CutNext(text, lines, offset, open, kind.Prose?);
      ParagraphsCarry(text, lines[1..], heading, next, more, said);
      ParagraphsHold(text, lines[1..], heading, next, more, said);
      PlacedFrom(rest, text, next - |more|);
      assert all == closed + rest;
      forall i | 0 <= i < |all| ensures Carries(all[i], lines, heading, offset, reference) {
        if i >= |closed| {
          assert all[i] == rest[i - |closed|];
          CarriesStep(all[i], lines, heading, offset, reference);
        }
      }
    }
  }

  lemma ClosedCarries(open: string, lines: seq<string>,
                      heading: string -> Option<string>, offset: nat, reference: Option<string>)
    requires |open| <= offset
    ensures open != "" ==> Carries(Close(open, offset, reference)[0], lines, heading, offset, reference)
  {}

  lemma PlacedFrom(paragraphs: seq<Paragraph>, text: string, from: nat)
    requires Placed(paragraphs, text, from)
    ensures forall i :: 0 <= i < |paragraphs| ==> from <= paragraphs[i].start
  {}

  // ------------------------------------------------------------ sentences

  /** `rstrip("\n")`. */
  function DropNewlines(t: string): (r: string)
    ensures r <= t && (r == "" || r[|r| - 1] != '\n') && (forall k :: |r| <= k < |t| ==> t[k] == '\n')
  {
    if t != "" && t[|t| - 1] == '\n' then DropNewlines(t[..|t| - 1]) else t
  }

  predicate IsStop(c: char) { c == '.' || c == '!' || c == '?' }

  /** `[.!?](?=\s|$)` at `e`. */
  predicate StopAt(p: string, e: nat)
    requires e < |p|
  {
    IsStop(p[e]) && (e + 1 == |p| || IsSpace(p[e + 1]))
  }

  lemma StopIff(p: string, e: nat)
    requires e < |p|
    ensures StopAt(p, e) <==> p[e] in ".!?" && (p[e + 1..] == "" || IsSpace(p[e + 1..][0]))
  {
    assert p[e] in ".!?" <==> IsStop(p[e]);
  }

  /** The first position from `i` on that holds no whitespace, or the end. */
  function NextWord(p: string, i: nat): (r: nat)
    requires i <= |p|
    ensures i <= r <= |p| && (r < |p| ==> !IsSpace(p[r])) && (forall k :: i <= k < r ==> IsSpace(p[k]))
    decreases |p| - i
  {
    if i == |p| || !IsSpace(p[i]) then i else NextWord(p, i + 1)
  }

  /** Where a sentence that reaches `e` ends: after the first stop from `e` on, or at the end. */
  function SentenceEnd(p: string, e: nat): (r: nat)
    requires e <= |p|
    ensures e <= r <= |p| && (r == e ==> e == |p|)
    ensures r == |p| || (e < r && StopAt(p, r - 1))
    ensures forall k :: e <= k < r - 1 ==> !StopAt(p, k)
    decreases |p| - e
  {
    if e == |p| then e else if StopAt(p, e) then e + 1 else SentenceEnd(p, e + 1)
  }

  datatype Piece = Piece(start: nat, end: nat)

  /** `_SENTENCE.finditer`, from `i` on. */
  function Sentences(p: string, i: nat): seq<Piece>
    requires i <= |p|
    decreases |p| - i
  {
    var s := NextWord(p, i);
    if s == |p| then [] else [Piece(s, SentenceEnd(p, s + 1))] + Sentences(p, SentenceEnd(p, s + 1))
  }

  predicate Covered(pieces: seq<Piece>,
                    k: nat) { exists i :: 0 <= i < |pieces| && pieces[i].start <= k < pieces[i].end }

  predicate Ordered(pieces: seq<Piece>, from: nat, to: nat) {
    && (forall i :: 0 <= i < |pieces| ==> from <= pieces[i].start < pieces[i].end <= to)
    && (forall i, j :: 0 <= i < j < |pieces| ==> pieces[i].end <= pieces[j].start)
  }

  /** A sentence begins with a word, holds no stop before its last character, and ends at a
      stop or with the paragraph. */
  predicate IsSentence(p: string, piece: Piece)
    requires piece.start < piece.end <= |p|
  {
    && !IsSpace(p[piece.start])
    && (forall k :: piece.start < k < piece.end - 1 ==> !StopAt(p, k))
    && (piece.end == |p| || (piece.start < piece.end - 1 && StopAt(p, piece.end - 1)))
  }

  lemma {:induction false} FirstIsSentence(p: string, i: nat)
    requires i <= |p| && NextWord(p, i) < |p|
    ensures IsSentence(p, Piece(NextWord(p, i), SentenceEnd(p, NextWord(p, i) + 1)))
  {
    hide IsSpace;
  }

  lemma CoveredByFirst(first: Piece, rest: seq<Piece>, k: nat)
    ensures Covered([first] + rest, k) <==> first.start <= k < first.end || Covered(rest, k)
  {
    var all := [first] + rest;
    assert all[0] == first;
    assert forall n :: 0 <= n < |rest| ==> rest[n] == all[n + 1];
  }

  /** The pieces of a paragraph are sentences, in order and disjoint, and leave out nothing but
      whitespace. */
  lemma {:induction false} SentencesHold(p: string, i: nat)
    requires i <= |p|
    ensures Ordered(Sentences(p, i), i, |p|)
    ensures forall n :: 0 <= n < |Sentences(p, i)| ==> IsSentence(p, Sentences(p, i)[n])
    ensures forall k :: i <= k < |p| && !IsSpace(p[k]) ==> Covered(Sentences(p, i), k)
    decreases |p| - i
  {
    hide IsSpace, StopAt, IsSentence, SentenceEnd, NextWord, Covered;
    var s := NextWord(p, i);
    var all := Sentences(p, i);
    if s < |p| {
      var e := SentenceEnd(p, s + 1);
      SentencesHold(p, e);
      FirstIsSentence(p, i);
      forall k | i <= k < |p| && !IsSpace(p[k]) ensures Covered(all, k) {
        CoveredByFirst(Piece(s, e), Sentences(p, e), k);
      }
    }
  }

  // ------------------------------------------------------------ segments

  /** A segment's id is its document and index, and its hash is injective. */
  datatype SegmentId = SegmentId(docId: Id, index: nat)
  datatype TextDigest = TextSha256(text: string)

  datatype Segment = Segment(id: SegmentId, start: nat, end: nat, text: string, sha256: TextDigest,
    reference: Option<string>)

  const MAX_INDEX: nat := 9999

  /** A sentence still to be numbered: where it is and under which heading. */
  datatype Sentence = Sentence(start: nat, text: string, reference: Option<string>)

  predicate Storable(reference: Option<string>) { reference.None? || Trim(reference.value) != "" }

  function Stored(reference: Option<string>): Option<string> {
    match reference case None => None case Some(words) => Some(Trim(words))
  }

  /** The `SourceSegment` constructor: identifiers have four digits, no string may be empty
      once stripped, and the stripped text must still have the hash of the sentence. */
  function MakeSegment(docId: Id, index: nat, draft: Sentence): Outcome<Segment> {
    if index > MAX_INDEX || !Storable(draft.reference) || Trim(draft.text) == "" || Trim(draft.text) != draft.text
    then Raised(InvalidValue)
    else Done(Segment(SegmentId(docId, index), draft.start, draft.start + |draft.text|, draft.text,
      TextSha256(draft.text),
                      Stored(draft.reference)))
  }

  function DraftsOf(paragraph: Paragraph, pieces: seq<Piece>): (r: seq<Sentence>)
    requires forall i :: 0 <= i < |pieces| ==> pieces[i].start < pieces[i].end <= |paragraph.text|
    ensures |r| == |pieces|
    ensures forall i :: 0 <= i < |r| ==>
              r[i] == Sentence(paragraph.start + pieces[i].start, paragraph.text[pieces[i].start..pieces[i].end],
                paragraph.reference)
  {
    seq(|pieces|, i requires 0 <= i < |pieces| =>
      Sentence(paragraph.start + pieces[i].start, paragraph.text[pieces[i].start..pieces[i].end], paragraph.reference))
  }

  function DraftsIn(paragraph: Paragraph): seq<Sentence> {
    var p := DropNewlines(paragraph.text);
    SentencesHold(p, 0);
    DraftsOf(paragraph.(text := p), Sentences(p, 0))
  }

  function Drafts(paragraphs: seq<Paragraph>): seq<Sentence> {
    if paragraphs == [] then [] else DraftsIn(paragraphs[0]) + Drafts(paragraphs[1..])
  }

  /** Numbering the drafts after the segments there are. */
  function Numbered(docId: Id, segments: seq<Segment>, drafts: seq<Sentence>): Outcome<seq<Segment>>
    decreases |drafts|
  {
    if drafts == [] then Done(segments)
    else
      match MakeSegment(docId, |segments| + 1, drafts[0])
      case Done(segment) => Numbered(docId, segments + [segment], drafts[1..])
      case Raised(error) => Raised(error)
      case Crashed => Crashed
  }

  function ParagraphsOf(text: string, heading: string -> Option<string>): seq<Paragraph> {
    Paragraphs(KeepLines(text), heading, 0, "", None)
  }

  /** What `segment_source_document` returns. */
  function Segmented(docId: Id, text: string, heading: string -> Option<string>): Outcome<seq<Segment>> {
    Numbered(docId, [], Drafts(ParagraphsOf(text, heading)))
  }

  lemma {:induction false} NumberedInParts(docId: Id, segments: seq<Segment>, first: seq<Sentence>,
                                           second: seq<Sentence>)
    ensures Numbered(docId, segments, first + second) ==
            match Numbered(docId, segments, first)
            case Done(more) => Numbered(docId, more, second)
            case Raised(error) => Raised(error)
            case Crashed => Crashed
    decreases |first|
  {
    hide MakeSegment;
    if first == [] {
      assert first + second == second;
    } else {
      assert (first + second)[1..] == first[1..] + second;
      var segment := MakeSegment(docId, |segments| + 1, first[0]);
      if segment.Done? {
        NumberedInParts(docId, segments + [segment.value], first[1..], second);
      }
    }
  }

  lemma DraftsAre(paragraph: Paragraph)
    ensures var p := DropNewlines(paragraph.text);
            var pieces := Sentences(p, 0);
            && |DraftsIn(paragraph)| == |pieces| && Ordered(pieces, 0, |p|)
            && forall i :: 0 <= i < |pieces| ==>
                 && pieces[i].start < pieces[i].end <= |p|
                 && DraftsIn(paragraph)[i] == Sentence(paragraph.start + pieces[i].start,
                   p[pieces[i].start..pieces[i].end], paragraph.reference)
  {
    hide StopAt, IsSpace, IsSentence, Covered, Sentences;
    SentencesHold(DropNewlines(paragraph.text), 0);
  }

  lemma MakingRaises(docId: Id, index: nat, draft: Sentence)
    ensures MakeSegment(docId, index, draft).Done? || MakeSegment(docId, index, draft) == Raised(InvalidValue)
  {}

  /** `flush_paragraph`: the regular expression runs over the paragraph and each match is
      numbered. */
  method FlushParagraph(docId: Id, segments: seq<Segment>, parts: string, start: nat, reference: Option<string>)
    returns (r: Outcome<seq<Segment>>)
    ensures r == Numbered(docId, segments, if parts == "" then [] else DraftsIn(Paragraph(start, parts, reference)))
  {
    hide MakeSegment, StopAt, IsSpace, Ordered, IsSentence, NextWord, SentenceEnd, Covered, Sentences, Numbered,
         DraftsIn;
    if parts == "" {
      NothingNumbered(docId, segments);
      return Done(segments);
    }
    var paragraph := DropNewlines(parts);
    ghost var drafts := DraftsIn(Paragraph(start, parts, reference));
    ghost var pieces := Sentences(paragraph, 0);
    DraftsAre(Paragraph(start, parts, reference));
    var found, from, next := segments, 0, NextWord(paragraph, 0);
    ghost var n := 0;
    assert pieces[0..] == pieces && drafts[0..] == drafts;
    while next < |paragraph|
      invariant 0 <= n <= |pieces| == |drafts| && from <= next <= |paragraph| && next == NextWord(paragraph, from)
      invariant pieces[n..] == Sentences(paragraph, from)
      invariant Numbered(docId, segments, drafts) == Numbered(docId, found, drafts[n..])
      decreases |paragraph| - next
    {
      NextPiece(pieces, n, paragraph, from);
      NextNumbered(docId, found, drafts, n);
      var end := SentenceEnd(paragraph, next + 1);
      var sentence := paragraph[next..end];
      assert drafts[n] == Sentence(start + next, sentence, reference);
      var segment := MakeSegment(docId, |found| + 1, Sentence(start + next, sentence, reference));
      if !segment.Done? {
        MakingRaises(docId, |found| + 1, drafts[n]);
        return Raised(InvalidValue);
      }
      found := found + [segment.value];
      from, next := end, NextWord(paragraph, end);
      n := n + 1;
    }
    NextPiece(pieces, n, paragraph, from);
    assert drafts[n..] == [];
    NothingNumbered(docId, found);
    return Done(found);
  }

  lemma {:induction false} NothingNumbered(docId: Id, segments: seq<Segment>)
    ensures Numbered(docId, segments, []) == Done(segments)
  {}

  /** The first of the pieces that are left, if there is another word. */
  lemma {:induction false} NextPiece(pieces: seq<Piece>, n: nat, p: string, from: nat)
    requires n <= |pieces| && from <= |p| && pieces[n..] == Sentences(p, from)
    ensures NextWord(p, from) == |p| <==> n == |pieces|
    ensures n < |pieces| ==>
              && pieces[n] == Piece(NextWord(p, from), SentenceEnd(p, NextWord(p, from) + 1))
              && pieces[n + 1..] == Sentences(p, pieces[n].end)
  {
    hide NextWord, SentenceEnd;
    if n < |pieces| {
      assert pieces[n] == pieces[n..][0] && pieces[n + 1..] == pieces[n..][1..];
    }
  }

  lemma {:induction false} NextNumbered(docId: Id, found: seq<Segment>, drafts: seq<Sentence>, n: nat)
    requires n < |drafts|
    ensures Numbered(docId, found, drafts[n..]) ==
            match MakeSegment(docId, |found| + 1, drafts[n])
            case Done(segment) => Numbered(docId, found + [segment], drafts[n + 1..])
            case Raised(error) => Raised(error)
            case Crashed => Crashed
  {
    hide MakeSegment;
    assert drafts[n..][0] == drafts[n] && drafts[n..][1..] == drafts[n + 1..];
  }

  /** The loop of `segment_source_document`. */
  method SegmentSourceDocument(docId: Id, text: string, heading: string -> Option<string>)
    returns (r: Outcome<seq<Segment>>)
    ensures r == Segmented(docId, text, heading)
  {
    hide MakeSegment, DraftsIn, KindOf, Numbered, Drafts, Paragraphs, Close, KeepLines;
    var segments: seq<Segment>, parts, start: nat, reference: Option<string>, offset: nat := [], "", 0, None, 0;
    var lines := KeepLines(text);
    ghost var done: seq<Paragraph> := [];
    NothingDone(docId, lines);
    for i := 0 to |lines|
      invariant |parts| <= offset && (parts != "" ==> start == offset - |parts|)
      invariant ParagraphsOf(text, heading) == done + Paragraphs(lines[i..], heading, offset, parts, reference)
      invariant Numbered(docId, [], Drafts(done)) == Done(segments)
    {
      var kind := KindOf(lines[i], heading);
      NextLine(lines, i, heading, offset, parts, reference);
      if kind.Prose? {
        if parts == "" {
          start := offset;
        }
        parts := parts + lines[i];
      } else {
        ghost var closed := Close(parts, offset, reference);
        DraftsClosed(docId, segments, done, parts, offset, reference);
        ghost var said := if kind.Heading? then Some(kind.title) else reference;
        ghost var rest := Paragraphs(lines[i + 1..], heading, offset + |lines[i]|, "", said);
        InThree(done, closed, rest);
        WhenClosed(parts, offset, start, reference);
        var flushed := FlushParagraph(docId, segments, parts, start, reference);
        if !flushed.Done? {
          FailsAfter(docId, done + closed, rest);
          return flushed;
        }
        segments, parts := flushed.value, "";
        done := done + closed;
        if kind.Heading? {
          reference := Some(kind.title);
        }
      }
      offset := offset + |lines[i]|;
    }
    LastLines(lines, heading, offset, parts, reference);
    WhenClosed(parts, offset, start, reference);
    DraftsClosed(docId, segments, done, parts, offset, reference);
    r := FlushParagraph(docId, segments, parts, start, reference);
  }

  lemma InThree<T>(a: seq<T>, b: seq<T>, c: seq<T>)
    ensures a + (b + c) == a + b + c
  {}

  lemma WhenClosed(open: string, offset: nat, start: nat, reference: Option<string>)
    requires |open| <= offset && (open != "" ==> start == offset - |open|)
    ensures (if open == "" then [] else DraftsIn(Paragraph(offset - |open|, open, reference))) ==
            if open == "" then [] else DraftsIn(Paragraph(start, open, reference))
  {}

  lemma {:induction false} NothingDone(docId: Id, lines: seq<string>)
    ensures Numbered(docId, [], Drafts([])) == Done([]) && lines[0..] == lines
  {}

  lemma {:induction false} LastLines(lines: seq<string>, heading: string -> Option<string>, offset: nat, open: string,
                                     reference: Option<string>)
    requires |open| <= offset
    ensures Paragraphs(lines[|lines|..], heading, offset, open, reference) == Close(open, offset, reference)
  {
    assert lines[|lines|..] == [];
  }

  /** What one more line does to the paragraphs. */
  lemma {:induction false} NextLine(lines: seq<string>, i: nat, heading: string -> Option<string>, offset: nat,
                                    open: string, reference: Option<string>)
    requires i < |lines| && |open| <= offset
    ensures var kind, next := KindOf(lines[i], heading), offset + |lines[i]|;
            Paragraphs(lines[i..], heading, offset, open, reference) ==
            if kind.Prose? then Paragraphs(lines[i + 1..], heading, next, open + lines[i], reference)
            else Close(open, offset, reference)
                 + Paragraphs(lines[i + 1..], heading, next, "", if kind.Heading? then Some(kind.title) else reference)
  {
    hide KindOf;
    assert lines[i..][0] == lines[i] && lines[i..][1..] == lines[i + 1..];
  }

  lemma {:induction false} DraftsInParts(first: seq<Paragraph>, second: seq<Paragraph>)
    ensures Drafts(first + second) == Drafts(first) + Drafts(second)
  {
    hide DraftsIn;
    if first == [] {
      assert first + second == second;
    } else {
      assert (first + second)[1..] == first[1..] + second;
      DraftsInParts(first[1..], second);
    }
  }

  /** Closing a paragraph numbers its sentences after all earlier ones. */
  lemma {:induction false} DraftsClosed(docId: Id, segments: seq<Segment>, done: seq<Paragraph>, open: string,
                                        offset: nat, reference: Option<string>)
    requires |open| <= offset && Numbered(docId, [], Drafts(done)) == Done(segments)
    ensures Numbered(docId, [], Drafts(done + Close(open, offset, reference))) ==
            Numbered(docId, segments, if open == "" then [] else DraftsIn(Paragraph(offset - |open|, open, reference)))
  {
    hide DraftsIn, MakeSegment;
    var closed := Close(open, offset, reference);
    DraftsInParts(done, closed);
    NumberedInParts(docId, [], Drafts(done), Drafts(closed));
    if open != "" {
      assert Drafts(closed) == DraftsIn(closed[0]) + Drafts([]);
      assert Drafts(closed) == DraftsIn(closed[0]);
    }
  }

  lemma {:induction false} FailsAfter(docId: Id, done: seq<Paragraph>, rest: seq<Paragraph>)
    requires !Numbered(docId, [], Drafts(done)).Done?
    ensures Numbered(docId, [], Drafts(done + rest)) == Numbered(docId, [], Drafts(done))
  {
    hide DraftsIn, MakeSegment;
    DraftsInParts(done, rest);
    NumberedInParts(docId, [], Drafts(done), Drafts(rest));
  }

  // ------------------------------------------------------------ nothing is lost

  predicate DraftedAt(drafts: seq<Sentence>, k: nat) {
    exists i :: 0 <= i < |drafts| && drafts[i].start <= k < drafts[i].start + |drafts[i].text|
  }

  /** Slices of the text, in order and disjoint, each beginning with a word. */
  predicate Sliced(drafts: seq<Sentence>, text: string, from: nat, to: nat)
    requires to <= |text|
  {
    && (forall i :: 0 <= i < |drafts| ==>
          && drafts[i].text != "" && !IsSpace(drafts[i].text[0])
          && from <= drafts[i].start && drafts[i].start + |drafts[i].text| <= to
          && text[drafts[i].start..drafts[i].start + |drafts[i].text|] == drafts[i].text)
    && (forall i, j :: 0 <= i < j < |drafts| ==> drafts[i].start + |drafts[i].text| <= drafts[j].start)
  }

  lemma PieceDrafted(text: string, paragraph: Paragraph, i: nat)
    requires paragraph.End() <= |text| && text[paragraph.start..paragraph.End()] == paragraph.text
      && i < |DraftsIn(paragraph)|
    ensures var p, draft := DropNewlines(paragraph.text), DraftsIn(paragraph)[i];
            && i < |Sentences(p, 0)|
            && var piece := Sentences(p, 0)[i];
            && piece.start < piece.end <= |p| && IsSentence(p, piece)
            && draft == Sentence(paragraph.start + piece.start, p[piece.start..piece.end], paragraph.reference)
            && draft.text != "" && !IsSpace(draft.text[0])
              && text[draft.start..draft.start + |draft.text|] == draft.text
  {
    hide IsSpace, StopAt, Sentences, DraftsIn, DropNewlines, Covered, Ordered;
    var p, draft := DropNewlines(paragraph.text), DraftsIn(paragraph)[i];
    DraftsAre(paragraph);
    SentencesHold(p, 0);
    var piece := Sentences(p, 0)[i];
    assert IsSentence(p, piece);
    SliceOfSlice(text, paragraph, p, piece.start, piece.end);
  }

  lemma SliceOfSlice(text: string, paragraph: Paragraph, p: string, a: nat, b: nat)
    requires paragraph.End() <= |text| && text[paragraph.start..paragraph.End()] == paragraph.text
    requires p <= paragraph.text && a <= b <= |p|
    ensures p[a..b] == text[paragraph.start + a..paragraph.start + b]
  {
    assert p == paragraph.text[..|p|];
    assert forall k :: 0 <= k < |p| ==> p[k] == paragraph.text[k] == text[paragraph.start + k];
  }

  lemma {:induction false} WordsAreKept(t: string, k: nat)
    requires k < |t| && !IsSpace(t[k])
    ensures k < |DropNewlines(t)| && DropNewlines(t)[k] == t[k]
  {
    assert IsSpace('\n');
    hide IsSpace;
  }

  lemma PositionDrafted(text: string, paragraph: Paragraph, k: nat)
    requires paragraph.End() <= |text| && text[paragraph.start..paragraph.End()] == paragraph.text
    requires paragraph.start <= k < paragraph.End() && !IsSpace(text[k])
    ensures DraftedAt(DraftsIn(paragraph), k)
  {
    hide IsSpace, StopAt, Sentences, DraftsIn, IsSentence, DropNewlines, Covered;
    var p, here := DropNewlines(paragraph.text), k - paragraph.start;
    assert paragraph.text[here] == text[k];
    WordsAreKept(paragraph.text, here);
    DraftsAre(paragraph);
    SentencesHold(p, 0);
    var i := CoveringPiece(Sentences(p, 0), here);
    var draft := DraftsIn(paragraph)[i];
    assert draft.start <= k < draft.start + |draft.text|;
  }

  lemma CoveringPiece(pieces: seq<Piece>, k: nat) returns (i: nat)
    requires Covered(pieces, k)
    ensures i < |pieces| && pieces[i].start <= k < pieces[i].end
  {
    i :| 0 <= i < |pieces| && pieces[i].start <= k < pieces[i].end;
  }

  lemma ParagraphDrafted(text: string, paragraph: Paragraph)
    requires paragraph.End() <= |text| && text[paragraph.start..paragraph.End()] == paragraph.text
    ensures Sliced(DraftsIn(paragraph), text, paragraph.start, paragraph.End())
    ensures forall k :: paragraph.start <= k < paragraph.End() && !IsSpace(text[k]) ==>
      DraftedAt(DraftsIn(paragraph), k)
    ensures forall i :: 0 <= i < |DraftsIn(paragraph)| ==> DraftsIn(paragraph)[i].reference == paragraph.reference
  {
    hide IsSpace, Sentences, DraftsIn, DraftedAt, DropNewlines;
    DraftsAre(paragraph);
    forall k | paragraph.start <= k < paragraph.End() && !IsSpace(text[k]) ensures DraftedAt(DraftsIn(paragraph), k) {
      PositionDrafted(text, paragraph, k);
    }
    forall i | 0 <= i < |DraftsIn(paragraph)|
      ensures var draft := DraftsIn(paragraph)[i];
              draft.text != "" && !IsSpace(draft.text[0]) && text[draft.start..draft.start + |draft.text|] == draft.text
    {
      PieceDrafted(text, paragraph, i);
    }
  }

  /** The drafts of paragraphs in place: what they cover, and whose words they carry. */
  lemma {:induction false} ParagraphsDrafted(text: string, paragraphs: seq<Paragraph>, from: nat)
    requires from <= |text| && Placed(paragraphs, text, from)
    ensures Sliced(Drafts(paragraphs), text, from, |text|)
    ensures forall k :: from <= k < |text| && DraftedAt(Drafts(paragraphs), k) ==> Within(paragraphs, k)
    ensures forall k :: from <= k < |text| && Within(paragraphs, k) && !IsSpace(text[k]) ==>
      DraftedAt(Drafts(paragraphs), k)
    ensures forall i :: 0 <= i < |Drafts(paragraphs)| ==> Homed(Drafts(paragraphs)[i], paragraphs)
  {
    hide IsSpace, IsBreak, DraftsIn, DraftedAt, Within, Homed, Placed;
    if paragraphs == [] {
      NothingDrafted();
    } else {
      var first, rest := paragraphs[0], paragraphs[1..];
      PlacedTail(text, paragraphs, from);
      ParagraphDrafted(text, first);
      ParagraphsDrafted(text, rest, first.End());
      SlicedTogether(DraftsIn(first), Drafts(rest), text, from, first.start, first.End());
      DraftedTogether(text, paragraphs);
      HomedTogether(text, paragraphs);
    }
  }

  /** What is drafted of the first paragraph and of the others is drafted of all. */
  lemma DraftedTogether(text: string, paragraphs: seq<Paragraph>)
    requires paragraphs != [] && paragraphs[0].End() <= |text| && Placed(paragraphs[1..], text, paragraphs[0].End())
    requires Sliced(DraftsIn(paragraphs[0]), text, paragraphs[0].start, paragraphs[0].End())
      && Sliced(Drafts(paragraphs[1..]), text, paragraphs[0].End(), |text|)
    requires forall k :: paragraphs[0].start <= k < paragraphs[0].End() && !IsSpace(text[k]) ==>
      DraftedAt(DraftsIn(paragraphs[0]), k)
    requires forall k :: paragraphs[0].End() <= k < |text| && DraftedAt(Drafts(paragraphs[1..]), k) ==>
      Within(paragraphs[1..], k)
    requires forall k :: paragraphs[0].End() <= k < |text| && Within(paragraphs[1..], k) && !IsSpace(text[k]) ==>
      DraftedAt(Drafts(paragraphs[1..]), k)
    ensures forall k :: 0 <= k < |text| ==>
      && (DraftedAt(Drafts(paragraphs), k) ==> Within(paragraphs, k))
      && (Within(paragraphs, k) && !IsSpace(text[k]) ==> DraftedAt(Drafts(paragraphs), k))
  {
    hide IsSpace, DraftsIn, DraftedAt, Within, Placed, Sliced;
    var first, rest := paragraphs[0], paragraphs[1..];
    forall k | 0 <= k < |text|
      ensures DraftedAt(Drafts(paragraphs), k) ==> Within(paragraphs, k)
      ensures Within(paragraphs, k) && !IsSpace(text[k]) ==> DraftedAt(Drafts(paragraphs), k)
    {
      DraftedInParts(DraftsIn(first), Drafts(rest), k);
      WithinFirst(paragraphs, k);
      DraftedBetween(DraftsIn(first), text, first.start, first.End(), k);
      DraftedBetween(Drafts(rest), text, first.End(), |text|, k);
      if k < first.End() {
        BeforePlaced(rest, text, first.End(), k);
      }
    }
  }

  lemma HomedTogether(text: string, paragraphs: seq<Paragraph>)
    requires paragraphs != [] && paragraphs[0].End() <= |text|
    requires Sliced(DraftsIn(paragraphs[0]), text, paragraphs[0].start, paragraphs[0].End())
    requires forall i :: 0 <= i < |DraftsIn(paragraphs[0])| ==>
               DraftsIn(paragraphs[0])[i].reference == paragraphs[0].reference
    requires forall i :: 0 <= i < |Drafts(paragraphs[1..])| ==> Homed(Drafts(paragraphs[1..])[i], paragraphs[1..])
    ensures forall i :: 0 <= i < |Drafts(paragraphs)| ==> Homed(Drafts(paragraphs)[i], paragraphs)
  {
    hide IsSpace, DraftsIn, Homed;
    var first, rest := paragraphs[0], paragraphs[1..];
    forall i | 0 <= i < |Drafts(paragraphs)| ensures Homed(Drafts(paragraphs)[i], paragraphs) {
      if i < |DraftsIn(first)| {
        HomedFirst(DraftsIn(first)[i], paragraphs);
      } else {
        HomedLater(Drafts(rest)[i - |DraftsIn(first)|], paragraphs);
      }
    }
  }

  lemma NothingDrafted()
    ensures forall k :: !Within([], k) && !DraftedAt([], k)
  {}

  /** The draft lies in a paragraph and carries its words. */
  predicate Homed(draft: Sentence, paragraphs: seq<Paragraph>) {
    exists i :: 0 <= i < |paragraphs| && paragraphs[i].start <= draft.start < paragraphs[i].End()
      && paragraphs[i].reference == draft.reference
  }

  lemma HomedFirst(draft: Sentence, paragraphs: seq<Paragraph>)
    requires paragraphs != [] && paragraphs[0].start <= draft.start < paragraphs[0].End()
      && draft.reference == paragraphs[0].reference
    ensures Homed(draft, paragraphs)
  {}

  lemma HomedLater(draft: Sentence, paragraphs: seq<Paragraph>)
    requires paragraphs != [] && Homed(draft, paragraphs[1..])
    ensures Homed(draft, paragraphs)
  {
    var i :| 0 <= i < |paragraphs[1..]| && paragraphs[1..][i].start <= draft.start < paragraphs[1..][i].End()
             && paragraphs[1..][i].reference == draft.reference;
    assert paragraphs[i + 1] == paragraphs[1..][i];
  }

  lemma PlacedTail(text: string, paragraphs: seq<Paragraph>, from: nat)
    requires paragraphs != [] && Placed(paragraphs, text, from)
    ensures from <= paragraphs[0].start && paragraphs[0].End() <= |text|
      && Placed(paragraphs[1..], text, paragraphs[0].End())
    ensures text[paragraphs[0].start..paragraphs[0].End()] == paragraphs[0].text
  {
    hide IsBreak;
  }

  lemma WithinFirst(paragraphs: seq<Paragraph>, k: nat)
    requires paragraphs != []
    ensures Within(paragraphs, k) <==> paragraphs[0].start <= k < paragraphs[0].End() || Within(paragraphs[1..], k)
  {
    assert forall i :: 0 <= i < |paragraphs[1..]| ==> paragraphs[1..][i] == paragraphs[i + 1];
    assert forall i :: 0 < i < |paragraphs| ==> paragraphs[i] == paragraphs[1..][i - 1];
  }

  lemma DraftedInParts(first: seq<Sentence>, second: seq<Sentence>, k: nat)
    ensures DraftedAt(first + second, k) <==> DraftedAt(first, k) || DraftedAt(second, k)
  {
    var all := first + second;
    assert forall i :: 0 <= i < |first| ==> all[i] == first[i];
    assert forall i :: 0 <= i < |second| ==> all[i + |first|] == second[i];
    assert forall i :: |first| <= i < |all| ==> all[i] == second[i - |first|];
  }

  lemma DraftedBetween(drafts: seq<Sentence>, text: string, from: nat, to: nat, k: nat)
    requires to <= |text| && Sliced(drafts, text, from, to)
    ensures DraftedAt(drafts, k) ==> from <= k < to
  {
    hide IsSpace;
  }

  lemma SlicedTogether(first: seq<Sentence>, second: seq<Sentence>, text: string, from: nat, start: nat, middle: nat)
    requires from <= start <= middle <= |text|
    requires Sliced(first, text, start, middle) && Sliced(second, text, middle, |text|)
    ensures Sliced(first + second, text, from, |text|)
  {
    hide IsSpace;
    var all := first + second;
    assert forall i :: 0 <= i < |first| ==> all[i] == first[i];
    assert forall i :: |first| <= i < |all| ==> all[i] == second[i - |first|];
  }

  predicate InSegment(segment: Segment, k: nat) { segment.start <= k < segment.end }

  /** One to one with the drafts. */
  predicate Faithful(docId: Id, segments: seq<Segment>, drafts: seq<Sentence>) {
    && |segments| == |drafts|
    && forall i :: 0 <= i < |segments| ==>
         segments[i] == Segment(SegmentId(docId, i + 1), drafts[i].start, drafts[i].start + |drafts[i].text|,
           drafts[i].text,
                                TextSha256(drafts[i].text), Stored(drafts[i].reference))
  }

  predicate Acceptable(draft: Sentence) { Storable(draft.reference) && Trim(draft.text) == draft.text != "" }

  lemma {:induction false} NumberedMeaning(docId: Id, segments: seq<Segment>, drafts: seq<Sentence>)
    ensures Numbered(docId, segments, drafts).Done? <==>
            (drafts == [] || |segments| + |drafts| <= MAX_INDEX) && forall i :: 0 <= i < |drafts| ==>
              Acceptable(drafts[i])
    ensures !Numbered(docId, segments, drafts).Done? ==> Numbered(docId, segments, drafts) == Raised(InvalidValue)
    ensures Numbered(docId, segments, drafts).Done? ==>
              var r := Numbered(docId, segments, drafts).value;
              && |r| == |segments| + |drafts| && r[..|segments|] == segments
              && forall i :: 0 <= i < |drafts| ==>
                   r[|segments| + i] == Segment(SegmentId(docId, |segments| + i + 1), drafts[i].start,
                                                drafts[i].start + |drafts[i].text|, drafts[i].text,
                                                TextSha256(drafts[i].text), Stored(drafts[i].reference))
    decreases |drafts|
  {
    hide Trim, Storable, Stored;
    if drafts != [] {
      assert forall i :: 0 <= i < |drafts[1..]| ==> drafts[1..][i] == drafts[i + 1];
      var segment := MakeSegment(docId, |segments| + 1, drafts[0]);
      if segment.Done? {
        var more := segments + [segment.value];
        NumberedMeaning(docId, more, drafts[1..]);
        assert forall i :: 0 < i < |drafts| ==> drafts[i] == drafts[1..][i - 1];
        if Numbered(docId, segments, drafts).Done? {
          var r := Numbered(docId, segments, drafts).value;
          assert r[..|segments|] == r[..|more|][..|segments|];
          assert r[|segments|] == r[..|more|][|segments|];
        }
      }
    }
  }

  /** Every sentence keeps its last character when stored. */
  lemma TrimKeeps(t: string)
    requires t != "" && !IsSpace(t[0])
    ensures Trim(t) != "" && (Trim(t) == t <==> !IsTrimmed(t[|t| - 1]))
  {}

  /** The documents that can be segmented, exactly: no more sentences than there are
      identifiers, no sentence that ends in white space, none under a heading of white space. */
  lemma SegmentedIff(docId: Id, text: string, heading: string -> Option<string>)
    ensures var drafts := Drafts(ParagraphsOf(text, heading));
            Segmented(docId, text, heading).Done? <==>
              && |drafts| <= 9999
              && forall i :: 0 <= i < |drafts| ==>
                   drafts[i].text != "" && !IsTrimmed(drafts[i].text[|drafts[i].text| - 1])
                     && Storable(drafts[i].reference)
    ensures !Segmented(docId, text, heading).Done? ==> Segmented(docId, text, heading) == Raised(InvalidValue)
  {
    hide Trim, IsSpace, IsTrimmed, Storable, ParagraphsOf, Drafts, Sliced, Placed, Cut, KeepLines, Numbered;
    var drafts := Drafts(ParagraphsOf(text, heading));
    NumberedMeaning(docId, [], drafts);
    DraftsPlaced(text, heading);
    StartInWords(drafts, text);
    forall i | 0 <= i < |drafts|
      ensures Acceptable(drafts[i]) <==>
              drafts[i].text != "" && !IsTrimmed(drafts[i].text[|drafts[i].text| - 1]) && Storable(drafts[i].reference)
    {
      TrimKeeps(drafts[i].text);
    }
  }

  lemma StartInWords(drafts: seq<Sentence>, text: string)
    requires Sliced(drafts, text, 0, |text|)
    ensures forall i :: 0 <= i < |drafts| ==> drafts[i].text != "" && !IsSpace(drafts[i].text[0])
  {
    hide IsSpace;
  }

  lemma {:induction false} DraftsPlaced(text: string, heading: string -> Option<string>)
    ensures Placed(ParagraphsOf(text, heading), text, 0) && Sliced(Drafts(ParagraphsOf(text, heading)), text, 0, |text|)
    ensures Cut(text, KeepLines(text), 0, "") && Concat(KeepLines(text)) == text
  {
    hide IsSpace, IsBreak, KindOf, KeepLines, Drafts, Within, Homed;
    KeepLinesKeeps(text);
    assert text[0..] == text;
    ParagraphsHold(text, KeepLines(text), heading, 0, "", None);
    ParagraphsDrafted(text, ParagraphsOf(text, heading), 0);
  }

  /** A blank line holds nothing but whitespace, its boundary included. */
  lemma {:induction false} BlankLinesAreBlank(lines: seq<string>, heading: string -> Option<string>, k: nat)
    requires k < |Concat(lines)| && KindAt(lines, heading, k).BlankLine?
    ensures IsSpace(Concat(lines)[k])
    decreases |lines|
  {
    assert IsSpace('\n');
    hide IsSpace;
    if lines != [] {
      if k < |lines[0]| {
        var content := ContentOf(lines[0]);
        assert k < |content| ==> content[k] == lines[0][k];
      } else {
        BlankLinesAreBlank(lines[1..], heading, k - |lines[0]|);
      }
    }
  }

  /** Along prose the last heading stays the same. */
  lemma {:induction false} SameReference(lines: seq<string>,
                                         heading: string -> Option<string>, a: nat, b: nat, reference: Option<string>)
    requires a <= b < |Concat(lines)| && Lines(lines)
    requires forall k :: a <= k <= b ==> KindAt(lines, heading, k).Prose?
    ensures ReferenceAt(lines, heading, a, reference) == ReferenceAt(lines, heading, b, reference)
    decreases |lines|
  {
    hide KindOf, IsBreak;
    if lines != [] && b >= |lines[0]| {
      var rest, n := lines[1..], |lines[0]|;
      var said := if KindOf(lines[0], heading).Heading? then Some(KindOf(lines[0], heading).title) else reference;
      var first := if a < n then 0 else a - n;
      assert forall k :: first <= k <= b - n ==> KindAt(rest, heading, k) == KindAt(lines, heading, k + n);
      SameReference(rest, heading, first, b - n, said);
      if a < n {
        assert KindAt(lines, heading, a).Prose? && KindAt(rest, heading, 0).Prose?;
        assert rest[0] == lines[1] != "";
      }
    }
  }

  lemma CutIsLines(text: string, lines: seq<string>)
    requires Cut(text, lines, 0, "")
    ensures Lines(lines)
  {}

  lemma {:induction false} ProseWithin(text: string, heading: string -> Option<string>, i: nat, k: nat)
    requires var paragraphs := ParagraphsOf(text, heading);
             i < |paragraphs| && paragraphs[i].start <= k < paragraphs[i].End()
    ensures k < |text| && KindAt(KeepLines(text), heading, k).Prose?
  {
    hide KindOf, IsBreak, KeepLines, Paragraphs, Cut, KindAt, Drafts;
    DraftsPlaced(text, heading);
    assert Within(ParagraphsOf(text, heading), k);
    ProseIff(text, heading, k);
  }

  lemma {:induction false} CarriedReference(draft: Sentence, text: string, heading: string -> Option<string>)
    requires Homed(draft, ParagraphsOf(text, heading))
    ensures draft.reference == ReferenceAt(KeepLines(text), heading, draft.start, None)
  {
    hide KindOf, IsBreak, KeepLines, Paragraphs, Cut;
    var paragraphs, lines := ParagraphsOf(text, heading), KeepLines(text);
    DraftsPlaced(text, heading);
    ParagraphsCarry(text, lines, heading, 0, "", None);
    var i :| 0 <= i < |paragraphs| && paragraphs[i].start <= draft.start < paragraphs[i].End()
      && paragraphs[i].reference == draft.reference;
    assert Carries(paragraphs[i], lines, heading, 0, None);
    CutIsLines(text, lines);
    forall k | paragraphs[i].start <= k <= draft.start ensures KindAt(lines, heading, k).Prose? {
      ProseWithin(text, heading, i, k);
    }
    SameReference(lines, heading, paragraphs[i].start, draft.start, None);
  }

  /** Lossless segmentation: the segments are numbered from one, in order and disjoint, each
      the slice of the text at its offsets under the words of the last heading before it. No
      heading or blank line has a character in a segment, and every other character that is not
      whitespace has exactly one. */
  lemma {:induction false} Lossless(docId: Id, text: string, heading: string -> Option<string>)
    requires Segmented(docId, text, heading).Done?
    ensures var segments, lines := Segmented(docId, text, heading).value, KeepLines(text);
            && Genuine(docId, text, segments)
            && (forall i :: 0 <= i < |segments| ==>
              segments[i].reference == Stored(ReferenceAt(lines, heading, segments[i].start, None)))
            && (forall k :: 0 <= k < |text| && Segmenting(segments, k) ==> KindAt(lines, heading, k).Prose?)
            && (forall k :: 0 <= k < |text| && !IsSpace(text[k]) ==>
              (Segmenting(segments, k) <==> !KindAt(lines, heading, k).Heading?))
  {
    hide Trim, IsSpace, IsTrimmed, Storable, ParagraphsOf, Drafts, KeepLines, KindOf, IsBreak, Cut, Stored, Homed,
         Within;
    var drafts, segments, lines := Drafts(ParagraphsOf(text, heading)), Segmented(docId, text, heading).value,
      KeepLines(text);
    NumberedMeaning(docId, [], drafts);
    assert Faithful(docId, segments, drafts);
    DraftsPlaced(text, heading);
    ParagraphsDrafted(text, ParagraphsOf(text, heading), 0);
    AreGenuine(docId, text, segments, drafts);
    forall i | 0 <= i < |segments|
      ensures segments[i].reference == Stored(ReferenceAt(lines, heading, segments[i].start, None))
    {
      CarriedReference(drafts[i], text, heading);
    }
    forall k | 0 <= k < |text|
      ensures Segmenting(segments, k) ==> KindAt(lines, heading, k).Prose?
      ensures !IsSpace(text[k]) ==> (Segmenting(segments, k) <==> !KindAt(lines, heading, k).Heading?)
    {
      DraftedSegment(docId, segments, drafts, k);
      ProseIff(text, heading, k);
      if KindAt(lines, heading, k).BlankLine? {
        BlankLinesAreBlank(lines, heading, k);
      }
    }
  }

  predicate Segmenting(segments: seq<Segment>, k: nat) { exists i :: 0 <= i < |segments| && InSegment(segments[i], k) }

  /** Segments as the segmenter numbers and cuts them. */
  predicate Genuine(docId: Id, text: string, segments: seq<Segment>) {
    && (forall i :: 0 <= i < |segments| ==>
          && segments[i].id == SegmentId(docId, i + 1) && segments[i].start < segments[i].end <= |text|
          && segments[i].text == text[segments[i].start..segments[i].end]
            && segments[i].sha256 == TextSha256(segments[i].text)
          && !IsSpace(text[segments[i].start]) && !IsTrimmed(text[segments[i].end - 1]))
    && (forall i, j :: 0 <= i < j < |segments| ==> segments[i].end <= segments[j].start)
  }

  lemma AreGenuine(docId: Id, text: string, segments: seq<Segment>, drafts: seq<Sentence>)
    requires Faithful(docId, segments, drafts) && Sliced(drafts, text, 0, |text|)
    requires forall i :: 0 <= i < |drafts| ==> Acceptable(drafts[i])
    ensures Genuine(docId, text, segments)
  {
    hide Trim, IsSpace, IsTrimmed, Storable, Stored;
    forall i | 0 <= i < |segments|
      ensures segments[i].text == text[segments[i].start..segments[i].end] != ""
      ensures !IsSpace(text[segments[i].start]) && !IsTrimmed(text[segments[i].end - 1])
    {
      var slice := drafts[i].text;
      TrimKeeps(slice);
      assert slice == text[segments[i].start..segments[i].end];
      assert slice[0] == text[segments[i].start] && slice[|slice| - 1] == text[segments[i].end - 1];
    }
  }

  lemma DraftedSegment(docId: Id, segments: seq<Segment>, drafts: seq<Sentence>, k: nat)
    requires Faithful(docId, segments, drafts)
    ensures Segmenting(segments, k) <==> DraftedAt(drafts, k)
  {
    if DraftedAt(drafts, k) {
      var i :| 0 <= i < |drafts| && drafts[i].start <= k < drafts[i].start + |drafts[i].text|;
      assert InSegment(segments[i], k);
    }
  }

  lemma {:induction false} ProseIff(text: string, heading: string -> Option<string>, k: nat)
    requires k < |text|
    ensures Within(ParagraphsOf(text, heading), k) <==> KindAt(KeepLines(text), heading, k).Prose?
  {
    hide KindOf, IsBreak, KeepLines, Paragraphs, Cut, KindAt, Drafts, Within;
    DraftsPlaced(text, heading);
    ParagraphsHold(text, KeepLines(text), heading, 0, "", None);
  }
}
