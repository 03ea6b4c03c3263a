/** What the caption inspection measures of the cues it has parsed: their order, and how many
    of them overlap the next. Times are in milliseconds. */
module CaptionTiming {
  import opened Domain

  /** The parser refuses a cue that ends before it starts. */
  datatype TimedCue = TimedCue(start: nat, end: nat)

  predicate AllTimed(cues: seq<TimedCue>) { forall i :: 0 <= i < |cues| ==> cues[i].start <= cues[i].end }

  /** The order of tuples. */
  predicate NotAfter(a: TimedCue, b: TimedCue) { a.start < b.start || (a.start == b.start && a.end <= b.end) }

  predicate InOrder(cues: seq<TimedCue>) { forall i, j :: 0 <= i < j < |cues| ==> NotAfter(cues[i], cues[j]) }

  function InsertCue(cue: TimedCue, sorted: seq<TimedCue>): seq<TimedCue> {
    if sorted != [] && !NotAfter(cue, sorted[0]) then [sorted[0]] + InsertCue(cue, sorted[1..]) else [cue] + sorted
  }

  /** `sorted(cues)`. */
  function SortCues(cues: seq<TimedCue>): seq<TimedCue> {
    if cues == [] then [] else InsertCue(cues[0], SortCues(cues[1..]))
  }

  /** Each cue that is still running when the next one starts. */
  function Overlapping(ordered: seq<TimedCue>): nat {
    if |ordered| < 2 then 0
    else (if ordered[0].end > ordered[1].start then 1 else 0) + Overlapping(ordered[1..])
  }

  /** The later of the two starts before the earlier has ended. */
  predicate Overlap(a: TimedCue, b: TimedCue) {
    if NotAfter(a, b) then a.end > b.start else b.end > a.start
  }

  predicate NoneOverlap(cues: seq<TimedCue>) { forall i, j :: 0 <= i < j < |cues| ==> !Overlap(cues[i], cues[j]) }

  predicate ClearOf(cue: TimedCue, cues: seq<TimedCue>) { forall other :: other in cues ==> !Overlap(cue, other) }

  lemma NoneOverlapCons(cue: TimedCue, rest: seq<TimedCue>)
    ensures NoneOverlap([cue] + rest) <==> ClearOf(cue, rest) && NoneOverlap(rest)
  {
    hide Overlap;
    var all := [cue] + rest;
    if NoneOverlap(all) {
      forall other | other in rest ensures !Overlap(cue, other) {
        var i :| 0 <= i < |rest| && rest[i] == other;
        assert !Overlap(all[0], all[i + 1]);
      }
      forall i, j | 0 <= i < j < |rest| ensures !Overlap(rest[i], rest[j]) {
        assert !Overlap(all[i + 1], all[j + 1]);
      }
    }
    if ClearOf(cue, rest) && NoneOverlap(rest) {
      forall i, j | 0 <= i < j < |all| ensures !Overlap(all[i], all[j]) {
        assert all[j] == rest[j - 1] && rest[j - 1] in rest;
        assert i > 0 ==> all[i] == rest[i - 1];
      }
    }
  }

  lemma {:induction false} InsertSame(cue: TimedCue, sorted: seq<TimedCue>)
    ensures multiset(InsertCue(cue, sorted)) == multiset(sorted) + multiset{cue}
    ensures NoneOverlap(InsertCue(cue, sorted)) <==> ClearOf(cue, sorted) && NoneOverlap(sorted)
  {
    hide NotAfter, NoneOverlap, ClearOf;
    if sorted != [] && !NotAfter(cue, sorted[0]) {
      var rest := InsertCue(cue, sorted[1..]);
      InsertSame(cue, sorted[1..]);
      NoneOverlapCons(sorted[0], rest);
      NoneOverlapCons(sorted[0], sorted[1..]);
      assert sorted == [sorted[0]] + sorted[1..];
      ClearSplit(cue, sorted, rest);
    } else {
      NoneOverlapCons(cue, sorted);
    }
  }

  lemma ClearSplit(cue: TimedCue, sorted: seq<TimedCue>, rest: seq<TimedCue>)
    requires sorted != [] && multiset(rest) == multiset(sorted[1..]) + multiset{cue}
    ensures ClearOf(cue, sorted) <==> !Overlap(cue, sorted[0]) && ClearOf(cue, sorted[1..])
    ensures ClearOf(sorted[0], rest) <==> ClearOf(sorted[0], sorted[1..]) && !Overlap(cue, sorted[0])
  {
    OverlapBothWays(cue, sorted[0]);
    hide Overlap;
    assert sorted == [sorted[0]] + sorted[1..];
    forall x ensures x in rest <==> x in sorted[1..] || x == cue {
      assert x in rest <==> x in multiset(rest);
    }
  }

  lemma OverlapBothWays(a: TimedCue, b: TimedCue)
    ensures Overlap(a, b) <==> Overlap(b, a)
  {}

  lemma {:induction false} InsertInOrder(cue: TimedCue, sorted: seq<TimedCue>)
    requires InOrder(sorted)
    ensures InOrder(InsertCue(cue, sorted))
  {
    if sorted != [] && !NotAfter(cue, sorted[0]) {
      var rest := InsertCue(cue, sorted[1..]);
      InsertInOrder(cue, sorted[1..]);
      InsertSame(cue, sorted[1..]);
      forall i | 0 <= i < |rest| ensures NotAfter(sorted[0], rest[i]) {
        assert rest[i] in multiset(rest);
        assert rest[i] == cue || rest[i] in sorted[1..];
      }
    }
  }

  /** Sorting keeps the cues, puts them in order, and makes no overlap. */
  lemma {:induction false} SortKeeps(cues: seq<TimedCue>)
    ensures multiset(SortCues(cues)) == multiset(cues) && InOrder(SortCues(cues))
    ensures NoneOverlap(SortCues(cues)) <==> NoneOverlap(cues)
  {
    hide NoneOverlap, ClearOf, InOrder;
    if cues == [] {
      Nothing();
    } else {
      var first, sorted := cues[0], SortCues(cues[1..]);
      SortKeeps(cues[1..]);
      InsertSame(first, sorted);
      InsertInOrder(first, sorted);
      NoneOverlapCons(first, cues[1..]);
      assert cues == [first] + cues[1..];
      ClearOfSame(first, sorted, cues[1..]);
    }
  }

  lemma Nothing()
    ensures InOrder([]) && NoneOverlap([])
  {}

  lemma ClearOfSame(cue: TimedCue, a: seq<TimedCue>, b: seq<TimedCue>)
    requires multiset(a) == multiset(b)
    ensures ClearOf(cue, a) <==> ClearOf(cue, b)
  {
    hide Overlap;
    forall x ensures x in a <==> x in b {
      assert x in multiset(a) <==> x in multiset(b);
    }
  }

  lemma {:induction false} OrderedOverlapFree(ordered: seq<TimedCue>)
    requires InOrder(ordered) && AllTimed(ordered)
    ensures Overlapping(ordered) == 0 <==> NoneOverlap(ordered)
  {
    if |ordered| >= 2 {
      var first, rest := ordered[0], ordered[1..];
      OrderedOverlapFree(rest);
      NoneOverlapCons(first, rest);
      assert ordered == [first] + rest;
      assert NotAfter(first, rest[0]) && rest[0] in rest;
      if first.end <= rest[0].start {
        forall other | other in rest ensures !Overlap(first, other) {
          var i :| 0 <= i < |rest| && rest[i] == other;
          assert NotAfter(ordered[0], ordered[i + 1]);
          assert i > 0 ==> NotAfter(rest[0], rest[i]);
        }
      }
    }
  }

  /** Counting neighbours is enough: the reported number is zero exactly when no two cues of the
      file overlap, in whatever order the file lists them. */
  lemma {:induction false} OverlapFreeIff(cues: seq<TimedCue>)
    requires AllTimed(cues)
    ensures Overlapping(SortCues(cues)) == 0 <==> NoneOverlap(cues)
  {
    SortKeeps(cues);
    SortedTimed(cues);
    OrderedOverlapFree(SortCues(cues));
  }

  lemma {:induction false} SortedTimed(cues: seq<TimedCue>)
    requires AllTimed(cues)
    ensures AllTimed(SortCues(cues)) && |SortCues(cues)| == |cues|
  {
    SortKeeps(cues);
    hide SortCues, InOrder, NoneOverlap;
    var sorted := SortCues(cues);
    assert |multiset(sorted)| == |multiset(cues)|;
    forall i | 0 <= i < |sorted| ensures sorted[i].start <= sorted[i].end {
      assert sorted[i] in multiset(sorted) && sorted[i] in multiset(cues);
    }
  }

  // ------------------------------------------------------------ neighbours and pairs

  /** How many of the others a cue overlaps. */
  function OverlapsWith(cue: TimedCue, cues: seq<TimedCue>): nat {
    if cues == [] then 0 else (if Overlap(cue, cues[0]) then 1 else 0) + OverlapsWith(cue, cues[1..])
  }

  /** The number of overlapping pairs. */
  function OverlappingPairs(cues: seq<TimedCue>): nat {
    if cues == [] then 0 else OverlapsWith(cues[0], cues[1..]) + OverlappingPairs(cues[1..])
  }

  /** No cue overlaps one that is not its neighbour. */
  predicate OnlyNeighboursOverlap(ordered: seq<TimedCue>) {
    forall i, j :: 0 <= i && i + 2 <= j < |ordered| ==> !Overlap(ordered[i], ordered[j])
  }

  lemma {:induction false} NoneWith(cue: TimedCue, cues: seq<TimedCue>)
    ensures OverlapsWith(cue, cues) == 0 <==> ClearOf(cue, cues)
  {
    hide Overlap;
    if cues != [] {
      NoneWith(cue, cues[1..]);
      assert cues == [cues[0]] + cues[1..];
    }
  }

  lemma OnlyNeighboursCons(ordered: seq<TimedCue>)
    requires |ordered| >= 2
    ensures OnlyNeighboursOverlap(ordered) <==> ClearOf(ordered[0], ordered[2..]) && OnlyNeighboursOverlap(ordered[1..])
  {
    hide Overlap;
    var rest := ordered[1..];
    if OnlyNeighboursOverlap(ordered) {
      forall other | other in ordered[2..] ensures !Overlap(ordered[0], other) {
        var j :| 0 <= j < |ordered[2..]| && ordered[2..][j] == other;
        assert !Overlap(ordered[0], ordered[j + 2]);
      }
      forall i, j | 0 <= i && i + 2 <= j < |rest| ensures !Overlap(rest[i], rest[j]) {
        assert !Overlap(ordered[i + 1], ordered[j + 1]);
      }
    }
    if ClearOf(ordered[0], ordered[2..]) && OnlyNeighboursOverlap(rest) {
      forall i, j | 0 <= i && i + 2 <= j < |ordered| ensures !Overlap(ordered[i], ordered[j]) {
        if i == 0 {
          assert ordered[j] == ordered[2..][j - 2];
        } else {
          assert !Overlap(rest[i - 1], rest[j - 1]);
        }
      }
    }
  }

  lemma {:induction false} NeighboursIff(ordered: seq<TimedCue>)
    requires InOrder(ordered)
    ensures Overlapping(ordered) <= OverlappingPairs(ordered)
    ensures Overlapping(ordered) == OverlappingPairs(ordered) <==> OnlyNeighboursOverlap(ordered)
  {
    hide OnlyNeighboursOverlap, ClearOf;
    if |ordered| >= 2 {
      NeighboursIff(ordered[1..]);
      OnlyNeighboursCons(ordered);
      NoneWith(ordered[0], ordered[2..]);
      assert ordered[1..][1..] == ordered[2..] && NotAfter(ordered[0], ordered[1]);
    } else {
      FewerThanTwo(ordered);
    }
  }

  lemma {:induction false} FewerThanTwo(cues: seq<TimedCue>)
    requires |cues| < 2
    ensures OverlappingPairs(cues) == 0 && OnlyNeighboursOverlap(cues)
  {
    if |cues| == 1 {
      assert cues[1..] == [];
    }
  }

  lemma {:induction false} WithInserted(other: TimedCue, cue: TimedCue, sorted: seq<TimedCue>)
    ensures OverlapsWith(other, InsertCue(cue, sorted)) == OverlapsWith(other, sorted) + if Overlap(other, cue) then 1
      else 0
  {
    hide Overlap, NotAfter;
    if sorted != [] && !NotAfter(cue, sorted[0]) {
      WithInserted(other, cue, sorted[1..]);
    }
  }

  lemma {:induction false} PairsInserted(cue: TimedCue, sorted: seq<TimedCue>)
    ensures OverlappingPairs(InsertCue(cue, sorted)) == OverlappingPairs(sorted) + OverlapsWith(cue, sorted)
  {
    if sorted != [] && !NotAfter(cue, sorted[0]) {
      PairsInserted(cue, sorted[1..]);
      WithInserted(sorted[0], cue, sorted[1..]);
      OverlapBothWays(cue, sorted[0]);
    }
  }

  lemma {:induction false} WithSorted(cue: TimedCue, cues: seq<TimedCue>)
    ensures OverlapsWith(cue, SortCues(cues)) == OverlapsWith(cue, cues)
  {
    if cues != [] {
      WithSorted(cue, cues[1..]);
      WithInserted(cue, cues[0], SortCues(cues[1..]));
    }
  }

  /** Sorting changes no pair. */
  lemma {:induction false} PairsSorted(cues: seq<TimedCue>)
    ensures OverlappingPairs(SortCues(cues)) == OverlappingPairs(cues)
  {
    if cues != [] {
      PairsSorted(cues[1..]);
      PairsInserted(cues[0], SortCues(cues[1..]));
      WithSorted(cues[0], cues[1..]);
    }
  }

  /** What the reported number counts: never more than the overlapping pairs of the file, and as
      many if and only if, in order, no cue overlaps one that is not its neighbour. */
  lemma {:induction false} OverlapsCountPairsIff(cues: seq<TimedCue>)
    ensures Overlapping(SortCues(cues)) <= OverlappingPairs(cues)
    ensures Overlapping(SortCues(cues)) == OverlappingPairs(cues) <==> OnlyNeighboursOverlap(SortCues(cues))
  {
    SortKeeps(cues);
    PairsSorted(cues);
    NeighboursIff(SortCues(cues));
  }

  /** A file where it falls short: one cue that runs across two others counts once. */
  lemma OverlapsAreUndercounted()
    ensures Overlapping(SortCues([TimedCue(0, 9), TimedCue(1, 2), TimedCue(3, 4)])) == 1
    ensures Overlap(TimedCue(0, 9), TimedCue(1, 2)) && Overlap(TimedCue(0, 9), TimedCue(3, 4))
  {
    var cues := [TimedCue(0, 9), TimedCue(1, 2), TimedCue(3, 4)];
    assert cues[1..] == [TimedCue(1, 2), TimedCue(3, 4)] && cues[1..][1..] == [TimedCue(3, 4)];
    assert SortCues([TimedCue(3, 4)]) == [TimedCue(3, 4)];
    assert SortCues(cues[1..]) == cues[1..];
    assert SortCues(cues) == cues;
    assert Overlapping(cues[1..][1..]) == 0;
  }

  /** `round(x, 6)`: the nearest multiple of a millionth, the even one of two. */
  function Round6(x: real): (r: real)
    ensures -0.0000005 <= r - x <= 0.0000005
  {
    var down := (x * 1000000.0).Floor;
    var rest := x * 1000000.0 - down as real;
    (if rest < 0.5 || (rest == 0.5 && down % 2 == 0) then down else down + 1) as real / 1000000.0
  }

  lemma Round6Iff(x: real, n: int)
    ensures var gap := x * 1000000.0 - n as real;
            Round6(x) == n as real / 1000000.0 <==>
              -0.5 < gap < 0.5 || ((gap == 0.5 || gap == -0.5) && n % 2 == 0)
  {
    var down := (x * 1000000.0).Floor;
    var rest := x * 1000000.0 - down as real;
    var rounded := if rest < 0.5 || (rest == 0.5 && down % 2 == 0) then down else down + 1;
    assert Round6(x) == rounded as real / 1000000.0;
    assert rounded != n ==> rounded as real / 1000000.0 != n as real / 1000000.0;
  }

  datatype CueFacts = CueFacts(count: nat, firstStart: nat, overlaps: nat, lastEndVsDuration: Option<real>)

  predicate IsLeastStart(start: nat, cues: seq<TimedCue>) {
    (exists i :: 0 <= i < |cues| && cues[i].start == start) && forall i :: 0 <= i < |cues| ==> start <= cues[i].start
  }

  predicate IsGreatestEnd(end: nat, cues: seq<TimedCue>) {
    (exists i :: 0 <= i < |cues| && cues[i].end == end) && forall i :: 0 <= i < |cues| ==> cues[i].end <= end
  }

  /** What the measurements say about the cues. */
  ghost predicate Measures(facts: CueFacts, cues: seq<TimedCue>, duration: Option<real>) {
    && facts.count == |cues| && IsLeastStart(facts.firstStart, cues)
    && (facts.overlaps == 0 <==> NoneOverlap(cues)) && facts.overlaps <= OverlappingPairs(cues)
    && (facts.overlaps == OverlappingPairs(cues) <==> OnlyNeighboursOverlap(SortCues(cues)))
    && (facts.lastEndVsDuration.Some? <==> duration.Some?)
    && (duration.Some? ==>
          exists end: nat :: IsGreatestEnd(end, cues)
            && facts.lastEndVsDuration.value == Round6(end as real / 1000.0 - duration.value))
  }

  /** The measurements of `inspect_captions`, for the cues of a file it could parse. */
  method MeasureCues(cues: seq<TimedCue>, duration: Option<real>) returns (r: CueFacts)
    requires cues != [] && AllTimed(cues)
    ensures Measures(r, cues, duration)
  {
    hide NoneOverlap, OverlappingPairs, OnlyNeighboursOverlap, Round6, SortCues, InOrder, IsLeastStart;
    OverlapsCountPairsIff(cues);
    var ordered := SortCues(cues);
    SortKeeps(cues);
    SortedTimed(cues);
    OverlapFreeIff(cues);
    LeastFirst(cues);
    var overlaps: nat := 0;
    for i := 0 to |ordered| - 1
      invariant overlaps + Overlapping(ordered[i..]) == Overlapping(ordered)
    {
      assert ordered[i..][1..] == ordered[i + 1..];
      if ordered[i].end > ordered[i + 1].start {
        overlaps := overlaps + 1;
      }
    }
    if duration.None? {
      return CueFacts(|cues|, ordered[0].start, overlaps, None);
    }
    var last := cues[0].end;
    for i := 1 to |cues|
      invariant exists k :: 0 <= k < |cues| && cues[k].end == last
      invariant forall k :: 0 <= k < i ==> cues[k].end <= last
    {
      if cues[i].end > last {
        last := cues[i].end;
      }
    }
    assert IsGreatestEnd(last, cues);
    return CueFacts(|cues|, ordered[0].start, overlaps, Some(Round6(last as real / 1000.0 - duration.value)));
  }

  lemma {:induction false} LeastFirst(cues: seq<TimedCue>)
    requires cues != []
    ensures SortCues(cues) != [] && IsLeastStart(SortCues(cues)[0].start, cues)
  {
    SortKeeps(cues);
    hide SortCues, NoneOverlap;
    var sorted := SortCues(cues);
    assert |multiset(sorted)| == |multiset(cues)|;
    assert sorted[0] in multiset(cues);
    forall i | 0 <= i < |cues| ensures sorted[0].start <= cues[i].start {
      assert cues[i] in multiset(sorted);
      var j :| 0 <= j < |sorted| && sorted[j] == cues[i];
    }
  }
}
