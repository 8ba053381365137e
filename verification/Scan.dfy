/** Left-to-right scanning over a set of match positions, resuming `width` after each match:
    the shape of repeated `str.find`, with the text abstracted away. */
module Scan {

  /** The least member of `m` in `[from, bound]`, or -1. */
  function LeastFrom(m: set<nat>, from: nat, bound: nat): (found: int)
    ensures found >= 0 ==> from <= found <= bound && found in m
    decreases bound + 1 - from
  {
    if from > bound then -1
    else if from in m then from
    else LeastFrom(m, from + 1, bound)
  }

  lemma {:induction false} LeastFromLeast(m: set<nat>, from: nat, bound: nat, i: nat)
    requires from <= i <= bound && i in m
    ensures 0 <= LeastFrom(m, from, bound) <= i
    decreases bound + 1 - from
  {
    if from !in m {
      LeastFromLeast(m, from + 1, bound, i);
    }
  }

  function Positions(m: set<nat>, width: nat, from: nat, bound: nat): seq<nat>
    requires width > 0
    decreases bound + 1 - from
  {
    var found := LeastFrom(m, from, bound);
    if found < 0 then [] else [found as nat] + Positions(m, width, found + width, bound)
  }

  /** One turn of the scan: `n` positions are out, and the rest are those from `from` on. */
  lemma {:induction false} NextPosition(all: seq<nat>, n: nat, m: set<nat>, width: nat, from: nat, bound: nat)
    requires width > 0 && n <= |all| && all[n..] == Positions(m, width, from, bound)
    requires LeastFrom(m, from, bound) >= 0
    ensures n < |all| && all[n] == LeastFrom(m, from, bound)
    ensures all[n + 1..] == Positions(m, width, LeastFrom(m, from, bound) + width, bound)
  {
    assert all[n..][0] == all[n] && all[n..][1..] == all[n + 1..];
  }

  predicate Covered(ps: seq<nat>, width: nat, i: nat) {
    exists k :: 0 <= k < |ps| && ps[k] <= i < ps[k] + width
  }

  /** The non-overlapping leftmost matches, without reference to how they are found: matches
      in increasing disjoint order such that every match starts inside one of them. */
  ghost predicate IsLeftmostCover(m: set<nat>, width: nat, from: nat, bound: nat, ps: seq<nat>) {
    && (forall k :: 0 <= k < |ps| ==> from <= ps[k] <= bound && ps[k] in m)
    && (forall k, l :: 0 <= k < l < |ps| ==> ps[k] + width <= ps[l])
    && (forall i: nat {:trigger Covered(ps, width, i)} :: from <= i <= bound && i in m ==> Covered(ps, width, i))
  }

  lemma {:induction false} PositionInRange(m: set<nat>, width: nat, from: nat, bound: nat, k: nat)
    requires width > 0 && k < |Positions(m, width, from, bound)|
    ensures from <= Positions(m, width, from, bound)[k] <= bound
    ensures Positions(m, width, from, bound)[k] in m
    decreases bound + 1 - from
  {
    if k > 0 {
      PositionInRange(m, width, LeastFrom(m, from, bound) + width, bound, k - 1);
    }
  }

  lemma {:induction false} PositionsBounded(m: set<nat>, width: nat, from: nat, bound: nat)
    requires width > 0
    ensures forall k :: 0 <= k < |Positions(m, width, from, bound)| ==> Positions(m, width, from, bound)[k] <= bound
  {
    forall k | 0 <= k < |Positions(m, width, from, bound)|
      ensures Positions(m, width, from, bound)[k] <= bound
    {
      PositionInRange(m, width, from, bound, k);
    }
  }

  lemma {:induction false} PositionsApart(m: set<nat>, width: nat, from: nat, bound: nat, k: nat, l: nat)
    requires width > 0 && k < l < |Positions(m, width, from, bound)|
    ensures Positions(m, width, from, bound)[k] + width <= Positions(m, width, from, bound)[l]
    decreases bound + 1 - from
  {
    var next := LeastFrom(m, from, bound) + width;
    if k > 0 {
      PositionsApart(m, width, next, bound, k - 1, l - 1);
    } else {
      PositionInRange(m, width, next, bound, l - 1);
    }
  }

  lemma {:induction false} CoveringPosition(m: set<nat>, width: nat, from: nat, bound: nat, i: nat) returns (k: nat)
    requires width > 0 && from <= i <= bound && i in m
    ensures k < |Positions(m, width, from, bound)|
    ensures Positions(m, width, from, bound)[k] <= i < Positions(m, width, from, bound)[k] + width
    decreases bound + 1 - from
  {
    LeastFromLeast(m, from, bound, i);
    var next := LeastFrom(m, from, bound) + width;
    if i < next {
      k := 0;
    } else {
      var rest := CoveringPosition(m, width, next, bound, i);
      k := rest + 1;
    }
  }

  lemma {:induction false} PositionsCover(m: set<nat>, width: nat, from: nat, bound: nat)
    requires width > 0
    ensures IsLeftmostCover(m, width, from, bound, Positions(m, width, from, bound))
  {
    var ps := Positions(m, width, from, bound);
    forall k | 0 <= k < |ps| ensures from <= ps[k] <= bound && ps[k] in m {
      PositionInRange(m, width, from, bound, k);
    }
    forall k, l | 0 <= k < l < |ps| ensures ps[k] + width <= ps[l] {
      PositionsApart(m, width, from, bound, k, l);
    }
    forall i: nat | from <= i <= bound && i in m ensures Covered(ps, width, i) {
      var k := CoveringPosition(m, width, from, bound, i);
    }
  }

  /** A cover starts with the least match, and its tail covers what comes after that match. */
  lemma {:induction false} CoverHead(m: set<nat>, width: nat, from: nat, bound: nat, ps: seq<nat>)
    requires width > 0 && IsLeftmostCover(m, width, from, bound, ps) && ps != []
    ensures ps[0] == LeastFrom(m, from, bound)
  {
    LeastFromLeast(m, from, bound, ps[0]);
    var found := LeastFrom(m, from, bound);
    assert Covered(ps, width, found);
    var k :| 0 <= k < |ps| && ps[k] <= found < ps[k] + width;
    LeastFromLeast(m, from, bound, ps[k]);
  }

  lemma {:induction false} CoverTail(m: set<nat>, width: nat, from: nat, bound: nat, ps: seq<nat>)
    requires width > 0 && IsLeftmostCover(m, width, from, bound, ps) && ps != []
    ensures IsLeftmostCover(m, width, ps[0] + width, bound, ps[1..])
  {
    var tail := ps[1..];
    forall k | 0 <= k < |tail| ensures ps[0] + width <= tail[k] <= bound && tail[k] in m {
      assert tail[k] == ps[k + 1];
    }
    forall k, l | 0 <= k < l < |tail| ensures tail[k] + width <= tail[l] {
      assert tail[k] == ps[k + 1] && tail[l] == ps[l + 1];
    }
    forall i: nat | ps[0] + width <= i <= bound && i in m ensures Covered(tail, width, i) {
      assert Covered(ps, width, i);
      var l :| 0 <= l < |ps| && ps[l] <= i < ps[l] + width;
      assert tail[l - 1] == ps[l];
    }
  }

  lemma {:induction false} CoverUnique(m: set<nat>, width: nat, from: nat, bound: nat, ps: seq<nat>)
    requires width > 0 && IsLeftmostCover(m, width, from, bound, ps)
    ensures ps == Positions(m, width, from, bound)
    decreases bound + 1 - from
  {
    if ps == [] {
      assert LeastFrom(m, from, bound) >= 0 ==> !Covered(ps, width, LeastFrom(m, from, bound));
    } else {
      CoverHead(m, width, from, bound, ps);
      CoverTail(m, width, from, bound, ps);
      CoverUnique(m, width, ps[0] + width, bound, ps[1..]);
      assert ps == [ps[0]] + ps[1..];
    }
  }
}
