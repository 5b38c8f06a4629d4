/** Small shared vocabulary: optional values, results, and facts about finite sets of naturals. */
module Basics {

  datatype Option<+T> = None | Some(value: T)

  datatype Result<+T, +E> = Ok(value: T) | Err(error: E)

  /** `xs` lists exactly the members of `s`, in ascending order. */
  ghost predicate IsAscending(xs: seq<nat>, s: set<nat>) {
    && (forall i, j :: 0 <= i < j < |xs| ==> xs[i] < xs[j])
    && (forall x :: x in s <==> x in xs)
  }

  /** A finite non-empty set of naturals has a least member. */
  lemma {:induction false} HasLeast(s: set<nat>) returns (least: nat)
    requires s != {}
    ensures least in s
    ensures forall x :: x in s ==> least <= x
  {
    var some :| some in s;
    least := some;
    var rest := s - {some};
    if rest != {} {
      var other := HasLeast(rest);
      if other < some {
        least := other;
      }
    }
    forall x | x in s ensures least <= x {
      assert x == some || x in rest;
    }
  }

  lemma {:induction false} ListingExists(s: set<nat>)
    ensures exists xs :: IsAscending(xs, s)
  {
    if s == {} {
      assert IsAscending([], s);
    } else {
      var least := HasLeast(s);
      ListingExists(s - {least});
      var rest :| IsAscending(rest, s - {least});
      assert IsAscending([least] + rest, s) by {
        assert forall x :: x in [least] + rest <==> x == least || x in rest;
        assert forall i :: 0 <= i < |rest| ==> rest[i] in rest;
      }
    }
  }

  /** The members of a set, in ascending order. */
  ghost function Sorted(s: set<nat>): (xs: seq<nat>)
    ensures IsAscending(xs, s)
  {
    ListingExists(s);
    var xs :| IsAscending(xs, s);
    xs
  }

  /** The ascending listing of a set is unique. */
  lemma {:induction false} AscendingUnique(xs: seq<nat>, ys: seq<nat>, s: set<nat>)
    requires IsAscending(xs, s) && IsAscending(ys, s)
    ensures xs == ys
    decreases |xs|
  {
    assert forall y :: y in ys <==> y in xs;
    assert |ys| > 0 ==> ys[0] in ys;
    if |xs| > 0 {
      assert xs[0] in s;
      assert |ys| > 0 && ys[0] in s;
      AscendingFirst(xs, s);
      AscendingFirst(ys, s);
      AscendingTail(xs, s);
      AscendingTail(ys, s);
      AscendingUnique(xs[1..], ys[1..], s - {xs[0]});
    }
  }

  lemma AscendingFirst(xs: seq<nat>, s: set<nat>)
    requires IsAscending(xs, s) && |xs| > 0
    ensures forall x :: x in s ==> xs[0] <= x
  {
    forall x | x in s ensures xs[0] <= x {
      var i :| 0 <= i < |xs| && xs[i] == x;
    }
  }

  lemma AscendingTail(xs: seq<nat>, s: set<nat>)
    requires IsAscending(xs, s) && |xs| > 0
    ensures IsAscending(xs[1..], s - {xs[0]})
  {
    var tail := xs[1..];
    forall x ensures x in s - {xs[0]} <==> x in tail {
      if x in s - {xs[0]} {
        var i :| 0 <= i < |xs| && xs[i] == x;
        assert tail[i - 1] == x;
      }
      if x in tail {
        var i :| 0 <= i < |tail| && tail[i] == x;
        assert xs[i + 1] == x;
      }
    }
  }
}
