/** The Go board as a bare grid of colours, and the rules of the game read off it.

    A grid is a sequence of colours indexed by coordinate, with a margin of off-board
    points, so that the four neighbours of a playable point are plain offsets. */
module Grid {

  datatype Stone = Empty | Black | White | Off

  predicate IsColour(c: Stone) { c == Black || c == White }

  function Other(c: Stone): Stone {
    match c
    case Black => White
    case White => Black
    case Empty => Empty
    case Off => Off
  }

  /** The k-th neighbour in the order the source's iterator visits them. */
  function Nb(st: int, c: int, k: int): int {
    if k == 0 then c - st else if k == 1 then c - 1 else if k == 2 then c + 1 else c + st
  }

  predicate Adj(st: int, x: int, y: int) {
    y == x - st || y == x - 1 || y == x + 1 || y == x + st
  }

  /** Every playable point has its four neighbours inside the array. */
  ghost predicate Framed(v: seq<Stone>, st: int) {
    st >= 3 && |v| > 0 && forall c :: 0 <= c < |v| && v[c] != Off ==> st < c < |v| - st
  }

  lemma NbAdj(st: int, x: int, y: int) returns (k: int)
    requires Adj(st, x, y)
    ensures 0 <= k < 4 && y == Nb(st, x, k)
  {
    k := if y == x - st then 0 else if y == x - 1 then 1 else if y == x + 1 then 2 else 3;
  }

  // ---------------------------------------------------------------- reachability

  /** A walk over adjacent points that all carry the colour of the first one. */
  ghost predicate IsPath(v: seq<Stone>, st: int, q: seq<int>) {
    |q| > 0 && 0 <= q[0] < |v|
    && (forall i :: 0 <= i < |q| ==> 0 <= q[i] < |v| && v[q[i]] == v[q[0]])
    && (forall i {:trigger Adj(st, q[i], q[i + 1])} :: 0 <= i < |q| - 1 ==> Adj(st, q[i], q[i + 1]))
  }

  ghost predicate PathFromTo(v: seq<Stone>, st: int, q: seq<int>, x: int, y: int) {
    IsPath(v, st, q) && q[0] == x && q[|q| - 1] == y
  }

  ghost predicate Reach(v: seq<Stone>, st: int, x: int, y: int) {
    exists q :: PathFromTo(v, st, q, x, y)
  }

  /** A set of points closed under stepping to an equally coloured neighbour. */
  ghost predicate Closed(v: seq<Stone>, st: int, t: set<int>) {
    (forall x :: x in t ==> 0 <= x < |v|)
    && forall x, y {:trigger Adj(st, x, y)} ::
         x in t && Adj(st, x, y) && 0 <= y < |v| && v[y] == v[x] ==> y in t
  }

  lemma PathStep(v: seq<Stone>, st: int, q: seq<int>, i: int)
    requires IsPath(v, st, q) && 0 <= i < |q| - 1
    ensures Adj(st, q[i], q[i + 1])
  {
    hide Adj;
  }

  lemma PathStaysIn(v: seq<Stone>, st: int, q: seq<int>, t: set<int>, i: int)
    requires IsPath(v, st, q) && Closed(v, st, t) && q[0] in t && 0 <= i < |q|
    ensures q[i] in t
  {
    if i > 0 {
      PathStaysIn(v, st, q, t, i - 1);
      PathStep(v, st, q, i - 1);
    }
  }

  lemma ReachClosed(v: seq<Stone>, st: int, t: set<int>, x: int, y: int)
    requires Reach(v, st, x, y) && Closed(v, st, t) && x in t
    ensures y in t
  {
    var q :| PathFromTo(v, st, q, x, y);
    PathStaysIn(v, st, q, t, |q| - 1);
  }

  lemma ReachRange(v: seq<Stone>, st: int, x: int, y: int)
    requires Reach(v, st, x, y)
    ensures 0 <= x < |v| && 0 <= y < |v| && v[x] == v[y]
  {
    var q :| PathFromTo(v, st, q, x, y);
  }

  lemma ReachRefl(v: seq<Stone>, st: int, x: int)
    requires 0 <= x < |v|
    ensures Reach(v, st, x, x)
  {
    assert PathFromTo(v, st, [x], x, x);
  }

  lemma ReachStep(v: seq<Stone>, st: int, x: int, y: int, z: int)
    requires Reach(v, st, x, y) && Adj(st, y, z) && 0 <= z < |v| && v[z] == v[y]
    ensures Reach(v, st, x, z)
  {
    var q :| PathFromTo(v, st, q, x, y);
    assert PathFromTo(v, st, q + [z], x, z);
  }

  /** The points reachable from x: the chain of x, or its empty region. */
  ghost function Component(v: seq<Stone>, st: int, x: int): set<int> {
    set y | 0 <= y < |v| && Reach(v, st, x, y)
  }

  lemma ComponentClosed(v: seq<Stone>, st: int, x: int)
    ensures Closed(v, st, Component(v, st, x))
  {
    var t := Component(v, st, x);
    forall y, z | y in t && Adj(st, y, z) && 0 <= z < |v| && v[z] == v[y]
      ensures z in t
    {
      ReachStep(v, st, x, y, z);
    }
  }

  lemma ReachTrans(v: seq<Stone>, st: int, x: int, y: int, z: int)
    requires Reach(v, st, x, y) && Reach(v, st, y, z)
    ensures Reach(v, st, x, z)
  {
    ReachRange(v, st, x, y);
    ComponentClosed(v, st, x);
    ReachClosed(v, st, Component(v, st, x), y, z);
  }

  lemma ReachSym(v: seq<Stone>, st: int, x: int, y: int)
    requires Reach(v, st, x, y)
    ensures Reach(v, st, y, x)
  {
    ReachRange(v, st, x, y);
    // The points that reach x form a closed set that contains x.
    var t := set z | 0 <= z < |v| && Reach(v, st, z, x);
    forall a, c | a in t && Adj(st, a, c) && 0 <= c < |v| && v[c] == v[a]
      ensures c in t
    {
      ReachRefl(v, st, c);
      assert Adj(st, c, a);
      ReachStep(v, st, c, c, a);
      ReachTrans(v, st, c, a, x);
    }
    ReachRefl(v, st, x);
    ReachClosed(v, st, t, x, y);
  }

  /** A walk inside a closed set survives any repainting outside that set. */
  lemma ReachWithin(v: seq<Stone>, w: seq<Stone>, st: int, t: set<int>, x: int, y: int)
    requires |v| == |w| && Closed(v, st, t) && x in t && Reach(v, st, x, y)
    requires forall z :: z in t ==> w[z] == v[z]
    ensures Reach(w, st, x, y)
  {
    var q :| PathFromTo(v, st, q, x, y);
    forall i | 0 <= i < |q| ensures q[i] in t { PathStaysIn(v, st, q, t, i); }
    assert IsPath(w, st, q);
    assert PathFromTo(w, st, q, x, y);
  }

  lemma ReachMono(v: seq<Stone>, w: seq<Stone>, st: int, x: int, y: int)
    requires |v| == |w| && Reach(v, st, x, y)
    requires forall z :: 0 <= z < |v| && v[z] == v[x] ==> w[z] == v[z]
    ensures Reach(w, st, x, y)
  {
    var q :| PathFromTo(v, st, q, x, y);
    assert IsPath(w, st, q);
    assert PathFromTo(w, st, q, x, y);
  }

  // ---------------------------------------------------------------- the rules

  /** z is an empty point next to the chain of x. */
  ghost predicate IsLiberty(v: seq<Stone>, st: int, x: int, z: int) {
    0 <= z < |v| && v[z] == Empty && exists y :: Reach(v, st, x, y) && Adj(st, y, z)
  }

  ghost predicate Alive(v: seq<Stone>, st: int, x: int) {
    exists z :: IsLiberty(v, st, x, z)
  }

  /** Clearing a colour: emptying all points of that colour that reach no empty point. */
  ghost function Clear(v: seq<Stone>, st: int, col: Stone): (w: seq<Stone>)
    ensures |w| == |v|
    ensures forall x {:trigger w[x]} :: 0 <= x < |v| ==>
      w[x] == if v[x] == col && !Alive(v, st, x) then Empty else v[x]
  {
    seq(|v|, x requires 0 <= x < |v| => if v[x] == col && !Alive(v, st, x) then Empty else v[x])
  }

  /** A turn: colour an empty point, clear the opponent's colour, then clear one's own. */
  ghost function Turn(v: seq<Stone>, st: int, c: int, col: Stone): (w: seq<Stone>)
    requires 0 <= c < |v|
    ensures |w| == |v|
  {
    Clear(Clear(v[c := col], st, Other(col)), st, col)
  }
}
