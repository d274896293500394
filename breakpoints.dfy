/** Counting the fixed breakpoints that lie on one side of a measurement: the
    reference definition of every ordinal bucket used by the scoring engine. */
module Breakpoints {

  /** How many breakpoints lie strictly below `x`. */
  function CountBelow(x: real, bps: seq<real>): (n: nat)
    ensures n <= |bps|
  {
    if bps == [] then 0 else (if bps[0] < x then 1 else 0) + CountBelow(x, bps[1..])
  }

  /** How many breakpoints lie strictly above `x`. */
  function CountAbove(x: real, bps: seq<real>): (n: nat)
    ensures n <= |bps|
  {
    if bps == [] then 0 else (if x < bps[0] then 1 else 0) + CountAbove(x, bps[1..])
  }

  /** Counting a three-breakpoint list, one breakpoint at a time. */
  lemma CountThree(x: real, bps: seq<real>)
    requires |bps| == 3
    ensures CountBelow(x, bps) == (if bps[0] < x then 1 else 0) + (if bps[1] < x then 1 else 0)
                                  + (if bps[2] < x then 1 else 0)
    ensures CountAbove(x, bps) == (if x < bps[0] then 1 else 0) + (if x < bps[1] then 1 else 0)
                                  + (if x < bps[2] then 1 else 0)
  {
    var t1, t2 := bps[1..], bps[1..][1..];
    assert t2 == [bps[2]] && t2[1..] == [];
    assert CountBelow(x, t2) == (if bps[2] < x then 1 else 0);
    assert CountAbove(x, t2) == (if x < bps[2] then 1 else 0);
    assert CountBelow(x, t1) == (if bps[1] < x then 1 else 0) + CountBelow(x, t2);
    assert CountAbove(x, t1) == (if x < bps[1] then 1 else 0) + CountAbove(x, t2);
  }

  /** A larger measurement never has fewer breakpoints below it. */
  lemma {:induction false} CountBelowMonotone(x: real, y: real, bps: seq<real>)
    requires x <= y
    ensures CountBelow(x, bps) <= CountBelow(y, bps)
  {
    if bps != [] {
      CountBelowMonotone(x, y, bps[1..]);
    }
  }

  /** A larger measurement never has more breakpoints above it. */
  lemma {:induction false} CountAboveAntitone(x: real, y: real, bps: seq<real>)
    requires x <= y
    ensures CountAbove(y, bps) <= CountAbove(x, bps)
  {
    if bps != [] {
      CountAboveAntitone(x, y, bps[1..]);
    }
  }

  /** Position of `s` in `names` (|names| when it is not there). */
  function Position(s: string, names: seq<string>): (k: nat)
    ensures k <= |names|
    ensures k < |names| ==> names[k] == s
    ensures forall j :: 0 <= j < k ==> names[j] != s
  {
    if names == [] then 0
    else if names[0] == s then 0
    else 1 + Position(s, names[1..])
  }
}
