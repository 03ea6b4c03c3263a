/** Selection from a sequence by a test, keeping order: the shape of the source's filtering
    comprehensions. */
module Sequences {

  /** The elements that pass the test, in order. */
  function Select<T(!new)>(xs: seq<T>, test: T -> bool): (r: seq<T>)
    ensures forall x :: x in r <==> x in xs && test(x)
  {
    if xs == [] then []
    else if test(xs[0]) then [xs[0]] + Select(xs[1..], test)
    else Select(xs[1..], test)
  }

  lemma {:induction false} NoneSelected<T(!new)>(xs: seq<T>, test: T -> bool)
    requires forall x :: x in xs ==> !test(x)
    ensures Select(xs, test) == []
  {
    if Select(xs, test) != [] {
      assert Select(xs, test)[0] in Select(xs, test);
    }
  }

  lemma {:induction false} SelectAgrees<T(!new)>(xs: seq<T>, p: T -> bool, q: T -> bool)
    requires forall x :: x in xs ==> p(x) == q(x)
    ensures Select(xs, p) == Select(xs, q)
  {
    if xs != [] {
      SelectAgrees(xs[1..], p, q);
    }
  }

  lemma {:induction false} SelectAppend<T(!new)>(xs: seq<T>, x: T, test: T -> bool)
    ensures Select(xs + [x], test) == Select(xs, test) + (if test(x) then [x] else [])
  {
    if xs == [] {
      assert xs + [x] == [x];
    } else {
      assert (xs + [x])[0] == xs[0] && (xs + [x])[1..] == xs[1..] + [x];
      SelectAppend(xs[1..], x, test);
    }
  }

  lemma {:induction false} SelectLength<T(!new)>(xs: seq<T>, test: T -> bool)
    ensures |Select(xs, test)| <= |xs|
  {
    if xs != [] {
      SelectLength(xs[1..], test);
    }
  }

  /** The places of the elements that pass. */
  function Places<T>(xs: seq<T>, test: T -> bool): set<int> { set i | 0 <= i < |xs| && test(xs[i]) }

  lemma PlacesAppend<T>(xs: seq<T>, x: T, test: T -> bool)
    ensures Places(xs + [x], test) == Places(xs, test) + if test(x) then {|xs|} else {}
    ensures |Places(xs + [x], test)| == |Places(xs, test)| + if test(x) then 1 else 0
  {
    assert forall i :: 0 <= i < |xs| ==> (xs + [x])[i] == xs[i];
    assert Places(xs + [x], test) == Places(xs, test) + if test(x) then {|xs|} else {};
  }

  /** As many are selected as there are such places. */
  lemma {:induction false} SelectCount<T(!new)>(xs: seq<T>, test: T -> bool)
    ensures |Select(xs, test)| == |Places(xs, test)|
    decreases |xs|
  {
    hide Places, Select;
    if xs == [] {
      NothingSelected(test);
    } else {
      var n := |xs| - 1;
      assert xs == xs[..n] + [xs[n]];
      SelectAppend(xs[..n], xs[n], test);
      PlacesAppend(xs[..n], xs[n], test);
      SelectCount(xs[..n], test);
    }
  }

  lemma NothingSelected<T(!new)>(test: T -> bool)
    ensures Select([], test) == [] && Places([], test) == {}
  {}

  /** The first element that passes, wherever it stands. */
  lemma {:induction false} FirstSelected<T(!new)>(xs: seq<T>, test: T -> bool, k: nat)
    requires k < |xs| && test(xs[k]) && forall j :: 0 <= j < k ==> !test(xs[j])
    ensures Select(xs, test) != [] && Select(xs, test)[0] == xs[k]
  {
    if k > 0 {
      FirstSelected(xs[1..], test, k - 1);
    }
  }

  /** Where the first element that passes stands. */
  lemma {:induction false} FirstIndex<T(!new)>(xs: seq<T>, test: T -> bool) returns (k: nat)
    requires Select(xs, test) != []
    ensures k < |xs| && test(xs[k]) && Select(xs, test)[0] == xs[k] && forall j :: 0 <= j < k ==> !test(xs[j])
  {
    if test(xs[0]) {
      k := 0;
    } else {
      k := FirstIndex(xs[1..], test);
      k := k + 1;
    }
  }

  /** Selecting twice is selecting by both tests. */
  lemma {:induction false} SelectTwice<T(!new)>(xs: seq<T>, p: T -> bool, q: T -> bool, both: T -> bool)
    requires forall x :: x in xs ==> both(x) == (p(x) && q(x))
    ensures Select(Select(xs, p), q) == Select(xs, both)
  {
    if xs != [] {
      SelectTwice(xs[1..], p, q, both);
      if p(xs[0]) {
        assert Select(xs, p)[1..] == Select(xs[1..], p);
      }
    }
  }

  // ------------------------------------------------------------ distinctness

  predicate Distinct<T(==)>(xs: seq<T>) { forall i, j :: 0 <= i < j < |xs| ==> xs[i] != xs[j] }

  function Elements<T>(xs: seq<T>): set<T> { set x | x in xs }

  lemma DistinctCons<T>(x: T, rest: seq<T>)
    ensures Distinct([x] + rest) <==> x !in rest && Distinct(rest)
  {
    var all := [x] + rest;
    assert forall i :: 0 <= i < |rest| ==> rest[i] == all[i + 1];
    assert forall i :: 0 < i < |all| ==> all[i] == rest[i - 1];
    if x in rest {
      var i :| 0 <= i < |rest| && rest[i] == x;
      assert all[0] == all[i + 1];
    }
  }

  lemma ElementsCons<T>(x: T, rest: seq<T>)
    ensures Elements([x] + rest) == {x} + Elements(rest)
    ensures |Elements([x] + rest)| == |Elements(rest)| + if x in rest then 0 else 1
  {
    assert Elements([x] + rest) == {x} + Elements(rest);
    if x in rest {
      assert {x} + Elements(rest) == Elements(rest);
    }
  }

  /** No element comes twice exactly when there are as many elements as places. */
  lemma {:induction false} DistinctIsCounting<T>(xs: seq<T>)
    ensures |Elements(xs)| <= |xs|
    ensures Distinct(xs) <==> |Elements(xs)| == |xs|
  {
    if xs != [] {
      hide Distinct, Elements;
      DistinctIsCounting(xs[1..]);
      DistinctCons(xs[0], xs[1..]);
      ElementsCons(xs[0], xs[1..]);
      assert xs == [xs[0]] + xs[1..];
    }
  }
}
