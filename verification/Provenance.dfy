/** Citing a document: spans over its segments, and the normalization under which every
    document can be segmented. */
module Provenance {
  import opened Domain
  import opened Text
  import opened Segmentation

  // ------------------------------------------------------------ quotes

  function NextSpace(t: string): (r: nat)
    ensures r <= |t| && (r < |t| ==> IsSpace(t[r])) && (forall k :: 0 <= k < r ==> !IsSpace(t[k]))
  {
    if t == "" || IsSpace(t[0]) then 0 else 1 + NextSpace(t[1..])
  }

  /** `" ".join(t.split())`. */
  function Squeeze(t: string): string
    decreases |t|
  {
    var s := LStrip(t);
    if s == "" then ""
    else
      var word, rest := s[..NextSpace(s)], Squeeze(s[NextSpace(s)..]);
      if rest == "" then word else word + " " + rest
  }

  /** A word: no whitespace in it. */
  predicate IsWord(t: string) { t != "" && forall i :: 0 <= i < |t| ==> !IsSpace(t[i]) }

  /** Words are put together again with one space between any two, whatever was there. */
  lemma {:induction false} SqueezeJoins(lead: string, word: string, gap: string, rest: string)
    requires Blank(lead) && IsWord(word) && Blank(gap) && gap != ""
    ensures Squeeze(lead) == ""
    ensures Squeeze(lead + (word + (gap + rest))) == if Blank(rest) then word else word + " " + Squeeze(rest)
    ensures Squeeze(lead + word) == word
  {
    hide IsSpace, LStrip, NextSpace;
    SqueezeBlank(lead);
    SqueezeWord(lead, word, "");
    assert word + "" == word;
    SqueezeWord(lead, word, gap + rest);
    SqueezePadded(gap, rest);
    if Blank(rest) {
      SqueezeBlank(gap + rest);
    } else {
      SqueezeNotBlank(rest);
    }
  }

  lemma {:induction false} SqueezeBlank(t: string)
    requires Blank(t)
    ensures LStrip(t) == "" && Squeeze(t) == ""
  {
    LStripBlank(t, "");
    assert t + "" == t;
  }

  lemma {:induction false} SqueezeWord(lead: string, word: string, tail: string)
    requires Blank(lead) && IsWord(word) && (tail == "" || IsSpace(tail[0]))
    ensures Squeeze(lead + (word + tail)) == if Squeeze(tail) == "" then word else word + " " + Squeeze(tail)
  {
    var s := word + tail;
    assert s[0] == word[0];
    LStripBlank(lead, s);
    assert NextSpace(s) == |word| by {
      assert forall i :: 0 <= i < |word| ==> s[i] == word[i];
      assert tail != "" ==> s[|word|] == tail[0];
    }
    assert s[..|word|] == word && s[|word|..] == tail;
  }

  lemma {:induction false} SqueezePadded(gap: string, t: string)
    requires Blank(gap)
    ensures Squeeze(gap + t) == Squeeze(t)
  {
    LStripPadded(gap, t);
  }

  lemma {:induction false} LStripPadded(gap: string, t: string)
    requires Blank(gap)
    ensures LStrip(gap + t) == LStrip(t)
  {
    if gap == "" {
      assert gap + t == t;
    } else {
      assert (gap + t)[1..] == gap[1..] + t;
      LStripPadded(gap[1..], t);
    }
  }

  lemma {:induction false} EmptyIsBlank(t: string)
    ensures LStrip(t) == "" ==> Blank(t)
  {
    LStripDropsBlank(t);
    assert t[..|t|] == t;
  }

  lemma {:induction false} SqueezeNotBlank(t: string)
    requires !Blank(t)
    ensures Squeeze(t) != ""
  {
    EmptyIsBlank(t);
    assert NextSpace(LStrip(t)) > 0;
  }

  predicate Contains(t: string, part: string) { exists i :: 0 <= i <= |t| && part <= t[i..] }

  // ------------------------------------------------------------ spans

  datatype SourceSpan = SourceSpan(segmentIds: seq<SegmentId>, start: nat, end: nat, text: string, quote: string,
    reference: Option<string>)

  /** `{segment.segment_id: segment for ...}`: the last one of an id wins. */
  function ById(segments: seq<Segment>, id: SegmentId): Option<Segment> {
    if segments == [] then None
    else if segments[|segments| - 1].id == id then Some(segments[|segments| - 1])
    else ById(segments[..|segments| - 1], id)
  }

  /** The last segment of that name. */
  predicate NamedAt(segments: seq<Segment>, id: SegmentId, k: int) {
    0 <= k < |segments| && segments[k].id == id
      && forall j :: k < j < |segments| ==> segments[j].id != id
  }

  lemma {:induction false} ByIdIs(segments: seq<Segment>, id: SegmentId, k: nat)
    requires NamedAt(segments, id, k)
    ensures ById(segments, id) == Some(segments[k])
  {
    if k < |segments| - 1 {
      assert forall j :: 0 <= j < |segments| - 1 ==> segments[..|segments| - 1][j] == segments[j];
      ByIdIs(segments[..|segments| - 1], id, k);
    }
  }

  lemma {:induction false} ByIdFound(segments: seq<Segment>, id: SegmentId)
    ensures ById(segments, id).Some? ==> exists k :: NamedAt(segments, id, k)
  {
    if segments != [] {
      var last := |segments| - 1;
      if segments[last].id == id {
        assert NamedAt(segments, id, last);
      } else {
        ByIdFound(segments[..last], id);
        if ById(segments, id).Some? {
          var k :| NamedAt(segments[..last], id, k);
          assert forall j :: 0 <= j < last ==> segments[..last][j] == segments[j];
          assert NamedAt(segments, id, k);
        }
      }
    }
  }

  function Select(segments: seq<Segment>, ids: seq<SegmentId>): (r: Option<seq<Segment>>)
    ensures r.Some? ==> |r.value| == |ids|
    ensures r.Some? ==> forall i :: 0 <= i < |ids| ==> ById(segments, ids[i]) == Some(r.value[i])
  {
    if ids == [] then Some([])
    else
      match (ById(segments, ids[0]), Select(segments, ids[1..]))
      case (Some(first), Some(rest)) => Some([first] + rest)
      case _ => None
  }

  /** A Python slice: bounds past the end are cut back. */
  function Slice(text: string, start: nat, end: nat): string {
    if start >= |text| || end <= start then "" else text[start..if end > |text| then |text| else end]
  }

  lemma SliceIs(text: string, start: nat, end: nat)
    ensures start < end <= |text| ==> Slice(text, start, end) == text[start..end]
    ensures start < |text| < end ==> Slice(text, start, end) == text[start..]
    ensures start >= end || start >= |text| ==> Slice(text, start, end) == ""
  {}

  predicate Contiguous(selected: seq<Segment>) {
    forall i :: 0 <= i < |selected| ==> selected[i].id.index == selected[0].id.index + i
  }

  predicate Untampered(text: string, segment: Segment) {
    Slice(text, segment.start, segment.end) == segment.text && segment.sha256 == TextSha256(segment.text)
  }

  predicate OneReference(selected: seq<Segment>) {
    forall i :: 0 <= i < |selected| ==> selected[i].reference == selected[0].reference
  }

  /** `build_source_span`. */
  function BuildSpan(docId: Id, text: string, segments: seq<Segment>, ids: seq<SegmentId>, quote: string)
      : Outcome<SourceSpan> {
    if !(1 <= |ids| <= 3) then Raised(InvalidValue)
    else
      match Select(segments, ids)
      case None => Raised(InvalidValue)
      case Some(selected) =>
        if (exists i :: 0 <= i < |selected| && selected[i].id.docId != docId) || !Contiguous(selected)
           || (exists i :: 0 <= i < |selected| && !Untampered(text, selected[i])) then Raised(InvalidValue)
        else
          var start, end := selected[0].start, selected[|selected| - 1].end;
          var cited := Slice(text, start, end);
          if Squeeze(quote) == "" || !Contains(Squeeze(cited), Squeeze(quote)) || Trim(cited) == "" || Trim(quote) ==
            "" || end <= start
          then Raised(InvalidValue)
          else Done(SourceSpan(ids, start, end, Trim(cited), Trim(quote), if OneReference(selected)
            then selected[0].reference else None))
  }

  lemma {:induction false} ByIdOfGenuine(docId: Id, text: string, segments: seq<Segment>, id: SegmentId, n: nat)
    requires Genuine(docId, text, segments) && n <= |segments|
    ensures ById(segments[..n], id) ==
            if id.docId == docId && 1 <= id.index <= n then Some(segments[id.index - 1]) else None
    decreases n
  {
    hide IsSpace, IsTrimmed;
    if n > 0 {
      ByIdOfGenuine(docId, text, segments, id, n - 1);
      assert segments[..n][..n - 1] == segments[..n - 1];
    }
  }

  /** The ids are those of consecutive segments of the document. */
  predicate Consecutive(docId: Id, count: nat, ids: seq<SegmentId>) {
    && ids != [] && 1 <= ids[0].index && ids[0].index + |ids| - 1 <= count
    && forall i :: 0 <= i < |ids| ==> ids[i] == SegmentId(docId, ids[0].index + i)
  }

  predicate Known(docId: Id, count: nat, ids: seq<SegmentId>) {
    forall i :: 0 <= i < |ids| ==> ids[i].docId == docId && 1 <= ids[i].index <= count
  }

  lemma {:induction false} SelectGenuine(docId: Id, text: string, segments: seq<Segment>, ids: seq<SegmentId>)
    requires Genuine(docId, text, segments)
    ensures Select(segments, ids).Some? <==> Known(docId, |segments|, ids)
    ensures Known(docId, |segments|, ids) ==>
              var selected := Select(segments, ids).value;
              |selected| == |ids| && forall i :: 0 <= i < |ids| ==> selected[i] == segments[ids[i].index - 1]
  {
    hide Genuine;
    if ids != [] {
      SelectGenuine(docId, text, segments, ids[1..]);
      ByIdOfGenuine(docId, text, segments, ids[0], |segments|);
      assert segments[..|segments|] == segments;
      assert forall i :: 0 <= i < |ids[1..]| ==> ids[1..][i] == ids[i + 1];
      assert forall i :: 0 < i < |ids| ==> ids[i] == ids[1..][i - 1];
    }
  }

  lemma GenuineUntampered(docId: Id, text: string, segments: seq<Segment>, i: nat)
    requires Genuine(docId, text, segments) && i < |segments|
    ensures Untampered(text, segments[i]) && segments[i].id == SegmentId(docId, i + 1)
  {
    hide IsSpace, IsTrimmed;
  }

  /** What a span over genuine segments cites begins and ends with a word. */
  lemma CitedIsWhole(docId: Id, text: string, segments: seq<Segment>, a: nat, b: nat)
    requires Genuine(docId, text, segments) && a <= b < |segments|
    ensures segments[a].start < segments[b].end <= |text|
    ensures Slice(text, segments[a].start, segments[b].end) == text[segments[a].start..segments[b].end]
    ensures Trim(text[segments[a].start..segments[b].end]) == text[segments[a].start..segments[b].end] != ""
    ensures !IsSpace(text[segments[a].start])
  {
    hide IsSpace, IsTrimmed, Trim;
    var cited := text[segments[a].start..segments[b].end];
    assert cited[0] == text[segments[a].start] && cited[|cited| - 1] == text[segments[b].end - 1];
    TrimKeeps(cited);
  }

  lemma {:induction false} ConsecutiveIff(docId: Id, text: string, segments: seq<Segment>, ids: seq<SegmentId>)
    requires Genuine(docId, text, segments) && ids != []
    ensures Known(docId, |segments|, ids) ==> Select(segments, ids).Some?
    ensures Known(docId, |segments|, ids) && Contiguous(Select(segments, ids).value) <==>
      Consecutive(docId, |segments|, ids)
  {
    SelectGenuine(docId, text, segments, ids);
    hide IsSpace, IsTrimmed, Select;
    if Known(docId, |segments|, ids) {
      var selected := Select(segments, ids).value;
      forall i | 0 <= i < |ids| ensures selected[i].id == ids[i] {
        GenuineUntampered(docId, text, segments, ids[i].index - 1);
      }
      if Contiguous(selected) {
        assert selected[|ids| - 1].id.index == selected[0].id.index + |ids| - 1;
        forall i | 0 <= i < |ids| ensures ids[i] == SegmentId(docId, ids[0].index + i) {
          assert selected[i].id.index == selected[0].id.index + i;
        }
      }
    }
    if Consecutive(docId, |segments|, ids) {
      forall i | 0 <= i < |ids| ensures ids[i].docId == docId && 1 <= ids[i].index <= |segments| {
        assert ids[i] == SegmentId(docId, ids[0].index + i);
      }
    }
  }

  lemma {:induction false} SqueezedQuoteStays(quote: string)
    ensures Squeeze(quote) != "" ==> Trim(quote) != ""
  {
    if LStrip(quote) != "" {
      var first := |quote| - |LStrip(quote)|;
      assert !IsSpace(quote[first]);
      assert !IsTrimmed(quote[first]);
    }
  }

  /** A segment a span may rest on: the last of its name, of the document and in its place, with
      the document's own text between its offsets, hashed. */
  predicate RestsOn(docId: Id, text: string, segments: seq<Segment>, ids: seq<SegmentId>, i: nat, segment: Segment)
    requires i < |ids|
  {
    && (exists k :: 0 <= k < |segments| && NamedAt(segments, ids[i], k) && segments[k] == segment)
    && ids[i] == SegmentId(docId, ids[0].index + i)
    && segment.text == Slice(text, segment.start, segment.end) && segment.sha256 == TextSha256(segment.text)
  }

  /** Whatever segments are given, a span rests on one to three consecutive ones that were not
      tampered with; it is the text between them, trimmed, and quotes it. */
  lemma SpanMeans(docId: Id, text: string, segments: seq<Segment>, ids: seq<SegmentId>, quote: string)
    returns (selected: seq<Segment>)
    requires BuildSpan(docId, text, segments, ids, quote).Done?
    ensures |selected| == |ids| && 1 <= |ids| <= 3
    ensures forall i :: 0 <= i < |ids| ==> RestsOn(docId, text, segments, ids, i, selected[i])
    ensures var span, last := BuildSpan(docId, text, segments, ids, quote).value, |ids| - 1;
            && span.segmentIds == ids && span.start == selected[0].start < span.end == selected[last].end
            && span.text == Trim(Slice(text, span.start, span.end)) != "" && span.quote == Trim(quote) != ""
            && Squeeze(quote) != "" && Contains(Squeeze(Slice(text, span.start, span.end)), Squeeze(quote))
            && span.reference == (if forall i :: 0 <= i <= last ==> selected[i].reference == selected[0].reference
                                  then selected[0].reference else None)
  {
    hide IsSpace, Trim, Squeeze, Contains, Slice, ById;
    selected := Select(segments, ids).value;
    forall i | 0 <= i < |ids| ensures RestsOn(docId, text, segments, ids, i, selected[i]) {
      assert ById(segments, ids[i]) == Some(selected[i]);
      ByIdFound(segments, ids[i]);
      var k :| 0 <= k < |segments| && NamedAt(segments, ids[i], k);
      ByIdIs(segments, ids[i], k);
      NamedHasId(segments, ids[i], k);
      ByIdFound(segments, ids[0]);
      NamedFirst(segments, ids[0]);
    }
  }

  lemma NamedHasId(segments: seq<Segment>, id: SegmentId, k: nat)
    requires NamedAt(segments, id, k)
    ensures k < |segments| && segments[k].id == id
  {}

  lemma {:induction false} NamedFirst(segments: seq<Segment>, id: SegmentId)
    ensures ById(segments, id).Some? ==> ById(segments, id).value.id == id
  {
    hide ById;
    ByIdFound(segments, id);
    if ById(segments, id).Some? {
      var k :| NamedAt(segments, id, k);
      ByIdIs(segments, id, k);
    }
  }

  /** Over the document's own segments a span is built exactly for one to three consecutive
      ones and a quote their text contains, whitespace aside; it is the text from the start of
      the first to the end of the last, under their heading if they share one. */
  lemma {:induction false} SpanIff(docId: Id, text: string, segments: seq<Segment>, ids: seq<SegmentId>, quote: string)
    requires Genuine(docId, text, segments)
    ensures var span := BuildSpan(docId, text, segments, ids, quote);
            && (span.Done? <==>
                  && |ids| <= 3 && Consecutive(docId, |segments|, ids) && Squeeze(quote) != ""
                  && Contains(Squeeze(Slice(text, segments[ids[0].index - 1].start,
                    segments[ids[0].index + |ids| - 2].end)), Squeeze(quote)))
            && (span.Done? ==>
                  var a, b := ids[0].index - 1, ids[0].index + |ids| - 2;
                  && span.value.segmentIds == ids && span.value.start == segments[a].start
                    && span.value.end == segments[b].end
                  && span.value.end <= |text| && span.value.text == text[span.value.start..span.value.end]
                  && span.value.quote == Trim(quote)
                  && span.value.reference ==
                     if forall i :: a <= i <= b ==>
                       segments[i].reference == segments[a].reference then segments[a].reference else None)
  {
    hide IsSpace, IsTrimmed, Trim, Genuine, Select, Contiguous, Squeeze, Contains, Slice, Untampered, OneReference,
         Consecutive;
    if 1 <= |ids| <= 3 {
      SelectGenuine(docId, text, segments, ids);
      ConsecutiveIff(docId, text, segments, ids);
      ConsecutiveBounds(docId, |segments|, ids);
      if Consecutive(docId, |segments|, ids) {
        var selected := Select(segments, ids).value;
        forall i | 0 <= i < |selected| ensures Untampered(text, selected[i]) && selected[i].id.docId == docId {
          GenuineUntampered(docId, text, segments, ids[i].index - 1);
        }
        var a, b := ids[0].index - 1, ids[0].index + |ids| - 2;
        assert selected[0] == segments[a] && selected[|selected| - 1] == segments[b];
        CitedIsWhole(docId, text, segments, a, b);
        SqueezedQuoteStays(quote);
        SharedReference(segments, selected, a, b);
      }
    } else {
      ConsecutiveBounds(docId, |segments|, ids);
    }
  }

  lemma ConsecutiveBounds(docId: Id, count: nat, ids: seq<SegmentId>)
    ensures Consecutive(docId, count, ids) ==>
              && ids != [] && 1 <= ids[0].index && ids[0].index + |ids| - 1 <= count && Known(docId, count, ids)
              && forall i :: 0 <= i < |ids| ==> ids[i].index == ids[0].index + i
  {}

  lemma SharedReference(segments: seq<Segment>, selected: seq<Segment>, a: nat, b: nat)
    requires a <= b < |segments| && selected == segments[a..b + 1]
    ensures OneReference(selected) <==> forall i :: a <= i <= b ==> segments[i].reference == segments[a].reference
  {
    assert forall i :: 0 <= i < |selected| ==> selected[i] == segments[a + i];
    assert forall i :: a <= i <= b ==> segments[i] == selected[i - a];
  }

  lemma {:induction false} WordsSqueeze(t: string)
    requires t != "" && !IsSpace(t[0])
    ensures Squeeze(t) != "" && Contains(Squeeze(t), Squeeze(t))
  {
    hide IsSpace;
    assert LStrip(t) == t && NextSpace(t) > 0;
    assert Squeeze(t)[0..] == Squeeze(t);
  }

  /** In particular the cited text itself can be quoted. */
  lemma WholeTextCanBeQuoted(docId: Id, text: string, segments: seq<Segment>, ids: seq<SegmentId>)
    requires Genuine(docId, text, segments) && |ids| <= 3 && Consecutive(docId, |segments|, ids)
    ensures BuildSpan(docId, text, segments, ids,
      Slice(text, segments[ids[0].index - 1].start, segments[ids[0].index + |ids| - 2].end)).Done?
  {
    hide Genuine, Trim, IsSpace, IsTrimmed, BuildSpan, Squeeze, Contains, Slice;
    var a, b := ids[0].index - 1, ids[0].index + |ids| - 2;
    var cited := Slice(text, segments[a].start, segments[b].end);
    CitedIsWhole(docId, text, segments, a, b);
    assert cited[0] == text[segments[a].start];
    WordsSqueeze(cited);
    SpanIff(docId, text, segments, ids, cited);
  }

  // ------------------------------------------------------------ normalization

  /** The two `replace` calls: CRLF and then CR become LF. */
  function Unify(t: string): (r: string)
    ensures '\r' !in r && ('\r' !in t ==> r == t) && (forall c :: c in r ==> c in t || c == '\n')
    decreases |t|
  {
    if t == "" then ""
    else if t[0] == '\r' then "\n" + Unify(if |t| > 1 && t[1] == '\n' then t[2..] else t[1..])
    else [t[0]] + Unify(t[1..])
  }

  /** Every carriage return becomes a newline, and one that precedes a newline vanishes. */
  lemma {:induction false} UnifyIs(left: string, right: string)
    ensures Unify(left + ("\r\n" + right)) == Unify(left) + ("\n" + Unify(right))
    ensures right == "" || right[0] != '\n' ==> Unify(left + ("\r" + right)) == Unify(left) + ("\n" + Unify(right))
    decreases |left|
  {
    hide Unify;
    var crlf, cr := "\r\n" + right, "\r" + right;
    if left == "" {
      UnifyStep(crlf);
      UnifyStep(cr);
      UnifyNothing();
      assert "" + crlf == crlf && crlf[2..] == right && "" + cr == cr && cr[1..] == right;
    } else {
      var n := StepOf(left);
      UnifyIs(left[n..], right);
      UnifyStep(left);
      UnifyStep(left + crlf);
      UnifyStep(left + cr);
      assert (left + crlf)[n..] == left[n..] + crlf && (left + cr)[n..] == left[n..] + cr;
      assert StepOf(left + crlf) == n && StepOf(left + cr) == n;
    }
  }

  /** How much of a text is read at once. */
  function StepOf(t: string): nat
    requires t != ""
  {
    if t[0] == '\r' && |t| > 1 && t[1] == '\n' then 2 else 1
  }

  lemma {:induction false} UnifyStep(t: string)
    requires t != ""
    ensures Unify(t) == [if t[0] == '\r' then '\n' else t[0]] + Unify(t[StepOf(t)..])
  {}

  lemma UnifyNothing()
    ensures Unify("") == ""
  {}

  /** `line.rstrip(" \t")`. */
  function DropPadding(t: string): (r: string)
    ensures r <= t && (r == "" || (r[|r| - 1] != ' ' && r[|r| - 1] != '\t'))
    ensures forall k :: |r| <= k < |t| ==> t[k] == ' ' || t[k] == '\t'
    ensures t == "" || (t[|t| - 1] != ' ' && t[|t| - 1] != '\t') ==> r == t
  {
    if t != "" && (t[|t| - 1] == ' ' || t[|t| - 1] == '\t') then DropPadding(t[..|t| - 1]) else t
  }

  /** The first newline, or the end. */
  function NextNewline(t: string): (r: nat)
    ensures r <= |t| && (r < |t| ==> t[r] == '\n') && (forall k :: 0 <= k < r ==> t[k] != '\n')
  {
    if t == "" || t[0] == '\n' then 0 else 1 + NextNewline(t[1..])
  }

  /** Padding dropped from every line of `t.split("\n")`, and the lines joined again. */
  function Unpad(t: string): (r: string)
    ensures forall c :: c in r ==> c in t
    decreases |t|
  {
    var n := NextNewline(t);
    if n == |t| then DropPadding(t) else DropPadding(t[..n]) + "\n" + Unpad(t[n + 1..])
  }

  /** Line by line. */
  lemma {:induction false} UnpadLine(line: string, rest: string)
    requires '\n' !in line
    ensures Unpad(line) == DropPadding(line)
    ensures Unpad(line + "\n" + rest) == DropPadding(line) + "\n" + Unpad(rest)
  {
    var t := line + "\n" + rest;
    assert forall k :: 0 <= k < |line| ==> t[k] == line[k] && line[k] in line;
    assert t[|line|] == '\n';
    assert NextNewline(t) == |line| && t[..|line|] == line && t[|line| + 1..] == rest;
  }

  /** `normalize_source`, on the decoded text. */
  function Normalize(raw: string): string { Unpad(Unify(raw)) }

  /** No space or tab before a newline or at the end. */
  predicate Unpadded(t: string) {
    forall k :: 0 <= k < |t| && (t[k] == ' ' || t[k] == '\t') ==> k + 1 < |t| && t[k + 1] != '\n'
  }

  lemma {:induction false} UnpaddedLine(line: string, rest: string)
    requires line == DropPadding(line) && '\n' !in line && Unpadded(rest)
    ensures Unpadded(line) && Unpadded(line + "\n" + rest)
  {
    var t := line + "\n" + rest;
    assert forall k :: 0 <= k < |line| ==> t[k] == line[k];
    assert forall k :: |line| < k < |t| ==> t[k] == rest[k - |line| - 1];
    forall k | 0 <= k < |line| && (line[k] == ' ' || line[k] == '\t') ensures k + 1 < |line| && line[k + 1] != '\n' {
      InLine(line, k);
    }
  }

  lemma {:induction false} InLine(line: string, k: nat)
    requires line == DropPadding(line) && '\n' !in line && k < |line| && (line[k] == ' ' || line[k] == '\t')
    ensures k + 1 < |line| && line[k + 1] != '\n'
  {
    assert line[|line| - 1] != ' ' && line[|line| - 1] != '\t';
    assert line[k + 1] in line;
  }

  lemma {:induction false} UnpadUnpads(t: string)
    ensures Unpadded(Unpad(t))
    decreases |t|
  {
    hide DropPadding;
    var n := NextNewline(t);
    var line := DropPadding(t[..n]);
    PaddingDropped(t[..n]);
    if n < |t| {
      UnpadUnpads(t[n + 1..]);
      UnpaddedLine(line, Unpad(t[n + 1..]));
    } else {
      assert t[..n] == t;
      UnpaddedLine(line, "");
    }
  }

  lemma {:induction false} PaddingDropped(line: string)
    ensures DropPadding(DropPadding(line)) == DropPadding(line)
    ensures '\n' !in line ==> '\n' !in DropPadding(line)
  {}

  lemma {:induction false} FirstLineUnpadded(t: string)
    requires Unpadded(t)
    ensures DropPadding(t[..NextNewline(t)]) == t[..NextNewline(t)]
    ensures NextNewline(t) < |t| ==> Unpadded(t[NextNewline(t) + 1..])
  {
    hide DropPadding, NextNewline, Unpadded;
    var n := NextNewline(t);
    if n > 0 {
      assert t[..n][n - 1] == t[n - 1];
      LineEndsVisibly(t, n);
    }
    if n < |t| {
      RestUnpadded(t, n + 1);
    }
  }

  lemma LineEndsVisibly(t: string, n: nat)
    requires Unpadded(t) && 0 < n <= |t| && (n < |t| ==> t[n] == '\n')
    ensures t[n - 1] != ' ' && t[n - 1] != '\t'
  {}

  lemma RestUnpadded(t: string, n: nat)
    requires Unpadded(t) && n <= |t|
    ensures Unpadded(t[n..])
  {
    var rest := t[n..];
    assert forall k :: 0 <= k < |rest| ==> rest[k] == t[n + k];
  }

  lemma {:induction false} UnpadIsStable(t: string)
    requires Unpadded(t)
    ensures Unpad(t) == t
    decreases |t|
  {
    hide DropPadding, Unpadded;
    var n := NextNewline(t);
    FirstLineUnpadded(t);
    if n == |t| {
      assert t[..n] == t;
    } else {
      UnpadIsStable(t[n + 1..]);
      assert t == t[..n] + "\n" + t[n + 1..];
    }
  }

  /** Normalizing twice is normalizing once. */
  lemma NormalizeIsStable(raw: string)
    ensures Normalize(Normalize(raw)) == Normalize(raw)
    ensures Unpadded(Normalize(raw)) && '\r' !in Normalize(raw)
  {
    UnpadUnpads(Unify(raw));
    UnpadIsStable(Normalize(raw));
  }

  /** The whitespace of a document is space, tab and line ends. */
  predicate PlainSpaced(t: string) {
    forall c :: c in t && IsSpace(c) ==> c == ' ' || c == '\t' || c == '\n' || c == '\r'
  }

  lemma SentenceIsTight(text: string, paragraph: Paragraph, i: nat)
    requires paragraph.End() <= |text| && text[paragraph.start..paragraph.End()] == paragraph.text
      && i < |DraftsIn(paragraph)|
    requires paragraph.text != "" && (paragraph.End() == |text| || IsBreak(text[paragraph.End() - 1]))
    requires PlainSpaced(text) && Unpadded(text) && '\r' !in text
    ensures var sentence := DraftsIn(paragraph)[i].text; sentence != "" && !IsTrimmed(sentence[|sentence| - 1])
  {
    hide IsSpace, IsTrimmed, IsBreak, StopAt, Sentences, DraftsIn, DropNewlines, PlainSpaced, Unpadded;
    var p := DropNewlines(paragraph.text);
    PieceDrafted(text, paragraph, i);
    var piece := Sentences(p, 0)[i];
    LastOfParagraph(text, paragraph);
    StopIsWord(p, piece.end - 1);
    TrimmedIsSpace(p[piece.end - 1]);
  }

  lemma StopIsWord(p: string, k: nat)
    requires k < |p|
    ensures StopAt(p, k) ==> !IsSpace(p[k])
  {}

  lemma TrimmedIsSpace(c: char)
    ensures IsTrimmed(c) ==> IsSpace(c)
  {}

  /** In a normalized document a paragraph ends in a word. */
  lemma LastOfParagraph(text: string, paragraph: Paragraph)
    requires paragraph.End() <= |text| && text[paragraph.start..paragraph.End()] == paragraph.text
    requires paragraph.text != "" && (paragraph.End() == |text| || IsBreak(text[paragraph.End() - 1]))
    requires PlainSpaced(text) && Unpadded(text) && '\r' !in text
    ensures var p := DropNewlines(paragraph.text); p == "" || !IsSpace(p[|p| - 1])
  {
    assert !IsBreak(' ') && !IsBreak('\t');
    hide IsSpace, IsBreak;
    var p := DropNewlines(paragraph.text);
    if p != "" {
      var q := paragraph.start + |p| - 1;
      assert p[|p| - 1] == paragraph.text[|p| - 1] == text[q];
      if q + 1 < paragraph.End() {
        assert paragraph.text[|p|] == text[q + 1];
      }
    }
  }

  lemma {:induction false} SentencesAreTight(text: string, paragraphs: seq<Paragraph>, from: nat)
    requires from <= |text| && Placed(paragraphs, text, from)
    requires PlainSpaced(text) && Unpadded(text) && '\r' !in text
    ensures forall i :: 0 <= i < |Drafts(paragraphs)| ==>
              var sentence := Drafts(paragraphs)[i].text; sentence != "" && !IsTrimmed(sentence[|sentence| - 1])
  {
    hide IsSpace, IsBreak, IsTrimmed, DraftsIn, Unpadded, PlainSpaced;
    if paragraphs != [] {
      var first, all := DraftsIn(paragraphs[0]), Drafts(paragraphs);
      PlacedTail(text, paragraphs, from);
      SentencesAreTight(text, paragraphs[1..], paragraphs[0].End());
      forall i | 0 <= i < |all| ensures all[i].text != "" && !IsTrimmed(all[i].text[|all[i].text| - 1]) {
        if i < |first| {
          SentenceIsTight(text, paragraphs[0], i);
        } else {
          assert all[i] == Drafts(paragraphs[1..])[i - |first|];
        }
      }
    }
  }

  /** Every normalized document whose whitespace is space, tab and line ends can be segmented,
      unless it has more sentences than there are identifiers or a heading without words. */
  lemma NormalizedCanBeSegmented(docId: Id, raw: string, heading: string -> Option<string>)
    requires PlainSpaced(raw)
    ensures var drafts := Drafts(ParagraphsOf(Normalize(raw), heading));
            Segmented(docId, Normalize(raw), heading).Done? <==>
            |drafts| <= MAX_INDEX && forall i :: 0 <= i < |drafts| ==> Storable(drafts[i].reference)
  {
    hide IsSpace, IsTrimmed, Trim, Storable, ParagraphsOf, Drafts, Segmented, Placed, KeepLines;
    var text := Normalize(raw);
    NormalizeIsStable(raw);
    SegmentedIff(docId, text, heading);
    DraftsPlaced(text, heading);
    SentencesAreTight(text, ParagraphsOf(text, heading), 0);
  }

  lemma OneParagraph(line: string, heading: string -> Option<string>)
    requires line != "" && OneLine(line) && KindOf(line, heading).Prose?
    ensures ParagraphsOf(line, heading) == [Paragraph(0, line, None)]
  {
    hide IsBreak, KindOf;
    var lines := KeepLines(line);
    assert FirstBreak(line) == |line|;
    assert LineWidth(line) == |line|;
    assert line[..|line|] == line && KeepLines(line[|line|..]) == [];
    assert lines == [line];
    assert lines[1..] == [] && "" + line == line;
    assert Paragraphs([], heading, |line|, line, None) == [Paragraph(0, line, None)];
  }

  lemma OneSentence(text: string)
    requires |text| == 2 && !IsSpace(text[0]) && text[1] != '\n' && !IsStop(text[1])
    ensures Drafts([Paragraph(0, text, None)]) == [Sentence(0, text, None)]
  {
    hide IsSpace;
    assert DropNewlines(text) == text && SentenceEnd(text, 2) == 2 && SentenceEnd(text, 1) == 2;
    assert Sentences(text, 2) == [];
    assert Sentences(text, 0) == [Piece(0, 2)];
    DraftsAre(Paragraph(0, text, None));
    hide DraftsIn;
    assert text[0..2] == text && DraftsIn(Paragraph(0, text, None)) == [Sentence(0, text, None)];
    assert [Paragraph(0, text, None)][1..] == [];
    assert Drafts([Paragraph(0, text, None)]) == [Sentence(0, text, None)] + Drafts([]);
  }

  /** Other white space at the end of an unfinished sentence survives normalization, is
      stripped from the stored text, and the segment is refused for its hash. */
  lemma NoBreakSpaceIsRefused(docId: Id)
    ensures Normalize("a\U{a0}") == "a\U{a0}" && Segmented(docId, "a\U{a0}", _ => None) == Raised(InvalidValue)
  {
    var text, heading := "a\U{a0}", (_: string) => None;
    assert Unify(text[1..]) == text[1..] + "";
    assert Normalize(text) == text;
    assert !IsSpace('a') && IsTrimmed('\U{a0}') && !IsBreak('a') && !IsBreak('\U{a0}');
    hide IsSpace, IsBreak, IsTrimmed;
    assert KindOf(text, heading) == Prose;
    OneParagraph(text, heading);
    OneSentence(text);
    hide Paragraphs, KeepLines, Drafts;
    TrimKeeps(text);
  }
}
