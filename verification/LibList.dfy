/** The truncated liberty list of a chain: at most KEEP points, refilled from the board
    when a removal brings it down to REFILL. */
module LibList {

  const KEEP := 10
  const REFILL := 5

  ghost predicate Distinct(l: seq<int>) {
    forall i, j :: 0 <= i < j < |l| ==> l[i] != l[j]
  }

  /** The list holds distinct members of L, and all of them when it is short. */
  ghost predicate LibOK(l: seq<int>, L: set<int>) {
    && Distinct(l)
    && |l| <= KEEP
    && (forall x :: x in l ==> x in L)
    && (|l| <= REFILL ==> forall x :: x in L ==> x in l)
  }

  function AddL(l: seq<int>, x: int): seq<int> {
    if |l| < KEEP && x !in l then l + [x] else l
  }

  /** Position of the first occurrence. */
  function Index(l: seq<int>, x: int): (i: nat)
    requires x in l
    ensures i < |l| && l[i] == x && x !in l[..i]
  {
    if l[0] == x then 0 else 1 + Index(l[1..], x)
  }

  /** Removal that moves the last entry into the hole. */
  function SwapRemove(l: seq<int>, x: int): seq<int>
    requires x in l
  {
    l[Index(l, x) := l[|l| - 1]][..|l| - 1]
  }

  /** Appending to `to` the entries of `from` not yet there, while there is room. */
  function Appended(to: seq<int>, from: seq<int>): seq<int> {
    if from == [] then to else AddL(Appended(to, from[..|from| - 1]), from[|from| - 1])
  }

  lemma AppendedNext(to: seq<int>, from: seq<int>, x: int)
    ensures Appended(to, []) == to && Appended(to, from + [x]) == AddL(Appended(to, from), x)
  {
    assert (from + [x])[..|from|] == from;
  }

  /** Appending candidate points while there is room, skipping `avoid`. */
  function Fill(l: seq<int>, cands: seq<int>, avoid: int): seq<int> {
    if cands == [] then l
    else
      var x := cands[|cands| - 1];
      var l' := Fill(l, cands[..|cands| - 1], avoid);
      if x == avoid then l' else AddL(l', x)
  }

  lemma AddOK(l: seq<int>, L: set<int>, x: int)
    requires LibOK(l, L)
    ensures LibOK(AddL(l, x), L + {x})
  {
  }

  lemma SwapRemoveMembers(l: seq<int>, x: int)
    requires Distinct(l) && x in l
    ensures Distinct(SwapRemove(l, x))
    ensures |SwapRemove(l, x)| == |l| - 1
    ensures forall y :: y in SwapRemove(l, x) <==> y in l && y != x
  {
    var i := Index(l, x);
    var r := SwapRemove(l, x);
    forall y | y in l && y != x ensures y in r {
      var j :| 0 <= j < |l| && l[j] == y;
      if j == |l| - 1 { assert r[i] == y; } else { assert r[j] == y; }
    }
  }

  lemma {:induction false} DistinctFits(a: seq<int>, b: seq<int>)
    requires Distinct(a) && Distinct(b) && forall x :: x in a ==> x in b
    ensures |a| <= |b|
    decreases |a|
  {
    if |a| > 0 {
      var x := a[|a| - 1];
      SwapRemoveMembers(b, x);
      DistinctFits(a[..|a| - 1], SwapRemove(b, x));
    }
  }

  lemma {:induction false} AppendSteps(to: seq<int>, A: set<int>, from: seq<int>, B: set<int>)
    requires LibOK(to, A) && Distinct(from)
    requires forall x :: x in from ==> x in B
    ensures var r := Appended(to, from);
      Distinct(r) && |to| <= |r| <= KEEP && (forall x :: x in to ==> x in r)
      && (forall x :: x in r ==> x in A + B)
      && (|r| == KEEP || forall x :: x in from ==> x in r)
    decreases from
  {
    if from != [] {
      var n := |from| - 1;
      AppendSteps(to, A, from[..n], B);
      assert from == from[..n] + [from[n]];
    }
  }

  lemma AppendOK(to: seq<int>, A: set<int>, from: seq<int>, B: set<int>)
    requires LibOK(to, A) && LibOK(from, B)
    ensures LibOK(Appended(to, from), A + B)
  {
    AppendSteps(to, A, from, B);
    var r := Appended(to, from);
    if |r| <= REFILL {
      DistinctFits(from, r);
    }
  }

  lemma {:induction false} FillSteps(l: seq<int>, cands: seq<int>, avoid: int)
    requires Distinct(l) && |l| <= KEEP
    ensures var r := Fill(l, cands, avoid);
      Distinct(r) && |l| <= |r| <= KEEP && l == r[..|l|]
      && (forall x :: x in r ==> x in l || (x in cands && x != avoid))
      && (|r| == KEEP || forall x :: x in cands && x != avoid ==> x in r)
    decreases cands
  {
    if cands != [] {
      FillSteps(l, cands[..|cands| - 1], avoid);
      assert cands == cands[..|cands| - 1] + [cands[|cands| - 1]];
    }
  }

  lemma FillOK(l: seq<int>, L: set<int>, cands: seq<int>, avoid: int)
    requires Distinct(l) && |l| <= KEEP && (forall x :: x in l ==> x in L)
    requires forall x :: x in cands && x != avoid ==> x in L
    requires forall x :: x in L ==> x in cands && x != avoid
    ensures LibOK(Fill(l, cands, avoid), L)
  {
    FillSteps(l, cands, avoid);
  }
}
