/** What the engine keeps true about its chain lists and liberty lists, both between moves
    and while a move is under way. */
module Invariant {
  import opened Grid
  import opened LibList
  import opened Engine

  /** The part of the board the invariant speaks about. */
  datatype Core = Core(st: int, b: seq<Stone>, g: seq<int>, p: seq<int>, lib: seq<seq<int>>)

  function K(s: State): Core { Core(s.st, s.b, s.g, s.p, s.lib) }

  /** The stones of each chain in list order, by chain id. */
  type Chains = map<int, seq<int>>

  /** How far a move has got. The point being played is still empty in `b`; it has the colour
      `tint` once it belongs to a chain. Its first k neighbours have been handled; the chains
      in `blk` no longer count it as a liberty; the chain `dying` is being taken off. */
  datatype Mid = Mid(coord: int, tint: Stone, k: int, blk: set<int>, dying: int)

  const QUIET := Mid(0, Empty, 4, {}, 0)

  ghost function View(c: Core, m: Mid): (v: seq<Stone>)
    ensures |v| == |c.b|
  {
    if m.tint != Empty && 0 <= m.coord < |c.b| then c.b[m.coord := m.tint] else c.b
  }

  ghost predicate Shape(c: Core) {
    Framed(c.b, c.st) && |c.g| == |c.b| && |c.p| == |c.b| && |c.lib| == |c.b|
  }

  ghost predicate MidOK(c: Core, m: Mid) {
    && 0 <= m.coord < |c.b| && 0 <= m.k <= 4 && !IsColour(c.b[m.coord])
    && (m.tint != Empty ==> IsColour(m.tint) && c.b[m.coord] == Empty)
  }

  predicate Pt(c: Core, x: int) { c.st < x < |c.b| - c.st }

  /** The entry after the i-th, 0 past the end. */
  function Next(l: seq<int>, i: int): int
    requires 0 <= i < |l|
  {
    if i + 1 < |l| then l[i + 1] else 0
  }

  /** p leads from each entry of l to the next one, and from the last to 0. */
  ghost predicate Links(p: seq<int>, l: seq<int>) {
    (forall i :: 0 <= i < |l| ==> 0 <= l[i] < |p|)
    && forall i {:trigger p[l[i]]} :: 0 <= i < |l| ==> p[l[i]] == Next(l, i)
  }

  ghost predicate ChainList(c: Core, grp: int, l: seq<int>) {
    && |c.g| == |c.b| == |c.p| && c.st >= 3
    && |l| > 0 && l[0] == grp && Distinct(l)
    && (forall i :: 0 <= i < |l| ==> Pt(c, l[i]))
    && (forall i :: 0 <= i < |l| ==> c.g[l[i]] == grp)
    && Links(c.p, l)
  }

  ghost predicate Linked(c: Core, ch: Chains) {
    forall grp :: grp in ch ==> ChainList(c, grp, ch[grp])
  }

  ghost predicate Cover(c: Core, ch: Chains, m: Mid) {
    forall x :: 0 <= x < |c.g| && c.g[x] != 0 && c.g[x] != m.dying ==> c.g[x] in ch && x in ch[c.g[x]]
  }

  ghost predicate Stony(c: Core, m: Mid)
    requires |c.g| == |c.b|
  {
    forall x :: 0 <= x < |c.g| ==> (c.g[x] != 0 <==> IsColour(View(c, m)[x]))
  }

  ghost predicate Conn(c: Core, m: Mid) {
    forall x :: 0 <= x < |c.g| && c.g[x] != 0 && c.g[x] != m.dying ==> Reach(View(c, m), c.st, c.g[x], x)
  }

  /** y is a neighbour of the played point that has not been handled yet. */
  predicate Later(m: Mid, st: int, y: int) {
    (m.k <= 0 && y == m.coord - st) || (m.k <= 1 && y == m.coord - 1)
    || (m.k <= 2 && y == m.coord + 1) || (m.k <= 3 && y == m.coord + st)
  }

  ghost predicate Maximal(c: Core, m: Mid)
    requires |c.g| == |c.b|
  {
    forall x, y {:trigger Adj(c.st, x, y)} ::
      Adj(c.st, x, y) && 0 <= x < |c.b| && 0 <= y < |c.b|
      && IsColour(View(c, m)[x]) && View(c, m)[x] == View(c, m)[y] && c.g[x] != c.g[y]
      ==> (x == m.coord && Later(m, c.st, y)) || (y == m.coord && Later(m, c.st, x))
  }

  /** Some neighbour of x belongs to the chain grp. */
  predicate Touch(c: Core, x: int, grp: int) {
    c.st >= 1 && c.st <= x < |c.g| - c.st
    && (c.g[x - c.st] == grp || c.g[x - 1] == grp || c.g[x + 1] == grp || c.g[x + c.st] == grp)
  }

  predicate IsLib(c: Core, m: Mid, grp: int, x: int) {
    0 <= x < |c.b| && c.b[x] == Empty && Touch(c, x, grp) && (x == m.coord ==> grp !in m.blk)
  }

  ghost function Libs(c: Core, m: Mid, grp: int): set<int> {
    set x | 0 <= x < |c.b| && IsLib(c, m, grp, x)
  }

  ghost predicate LibsOK(c: Core, ch: Chains, m: Mid)
    requires |c.lib| == |c.b|
  {
    forall grp :: 0 <= grp < |c.lib| ==>
      if grp in ch then LibOK(c.lib[grp], Libs(c, m, grp)) else (grp == m.dying && grp != 0) || c.lib[grp] == []
  }

  ghost predicate W(c: Core, ch: Chains, m: Mid) {
    && Shape(c) && MidOK(c, m) && m.dying !in ch
    && Linked(c, ch) && Cover(c, ch, m) && Stony(c, m) && Conn(c, m) && Maximal(c, m) && LibsOK(c, ch, m)
  }

  // ------------------------------------------------------------ chain lists

  function Iota(k: nat): seq<int> { seq(k, i => i) }

  lemma ChainFits(c: Core, grp: int, l: seq<int>)
    requires ChainList(c, grp, l)
    ensures |l| <= |c.p|
  {
    forall x | x in l ensures x in Iota(|c.p|) {
      assert Iota(|c.p|)[x] == x;
    }
    DistinctFits(l, Iota(|c.p|));
  }

  lemma {:induction false} WalkFrom(c: Core, grp: int, l: seq<int>, i: nat, fuel: nat)
    requires ChainList(c, grp, l) && i <= |l| && fuel >= |l| - i
    ensures Walk(c.p, if i < |l| then l[i] else 0, fuel) == l[i..]
    decreases |l| - i
  {
    if i < |l| {
      WalkFrom(c, grp, l, i + 1, fuel - 1);
      assert Pt(c, l[i]);
      assert c.p[l[i]] == Next(l, i);
      assert l[i..] == [l[i]] + l[i + 1..];
    }
  }

  /** Following the links from a chain's id yields exactly its list. */
  lemma WalkIsChain(c: Core, grp: int, l: seq<int>)
    requires ChainList(c, grp, l)
    ensures Walk(c.p, grp, |c.p|) == l
  {
    ChainFits(c, grp, l);
    WalkFrom(c, grp, l, 0, |c.p|);
  }

  // ------------------------------------------------------------ scans for empty points

  lemma EmptyNbsMembers(b: seq<Stone>, st: int, x: int, k: int)
    requires 0 <= k <= 4 && st >= 3
    ensures forall y :: y in EmptyNbs(b, st, x, k) <==>
      0 <= y < |b| && b[y] == Empty && exists j :: 0 <= j < k && y == Nb(st, x, j)
    ensures Distinct(EmptyNbs(b, st, x, k)) && |EmptyNbs(b, st, x, k)| <= k
  {
    if k > 0 { EmptyNbsMembers(b, st, x, k - 1); }
  }

  lemma EmptyNbsAdj(b: seq<Stone>, st: int, x: int, y: int)
    requires st >= 3
    ensures y in EmptyNbs(b, st, x, 4) <==> 0 <= y < |b| && b[y] == Empty && Adj(st, x, y)
  {
    EmptyNbsMembers(b, st, x, 4);
    if Adj(st, x, y) { var j := NbAdj(st, x, y); }
  }

  lemma {:induction false} EmptyAroundMembers(b: seq<Stone>, st: int, stones: seq<int>, i: int, y: int)
    requires 0 <= i <= |stones| && st >= 3
    ensures y in EmptyAround(b, st, stones, i) <==>
      0 <= y < |b| && b[y] == Empty && exists j :: 0 <= j < i && Adj(st, stones[j], y)
  {
    if i > 0 {
      EmptyAroundMembers(b, st, stones, i - 1, y);
      EmptyNbsAdj(b, st, stones[i - 1], y);
    }
  }

  /** l lists exactly the stones carrying the id grp. */
  ghost predicate Lists(c: Core, grp: int, l: seq<int>) {
    ChainList(c, grp, l) && forall x :: 0 <= x < |c.g| && c.g[x] == grp ==> x in l
  }

  lemma ListsAll(c: Core, ch: Chains, m: Mid, grp: int)
    requires Linked(c, ch) && Cover(c, ch, m) && grp in ch && grp != 0 && grp != m.dying
    ensures Lists(c, grp, ch[grp])
  {
  }

  /** The scan around a chain finds exactly the empty points that touch it. */
  lemma AroundIsTouch(c: Core, grp: int, l: seq<int>, y: int)
    requires Framed(c.b, c.st) && Lists(c, grp, l)
    ensures y in EmptyAround(c.b, c.st, l, |l|) <==> 0 <= y < |c.b| && c.b[y] == Empty && Touch(c, y, grp)
  {
    hide EmptyAround, Links, Distinct;
    EmptyAroundMembers(c.b, c.st, l, |l|, y);
    if 0 <= y < |c.b| && c.b[y] == Empty {
      if Touch(c, y, grp) {
        var x := if c.g[y - c.st] == grp then y - c.st else if c.g[y - 1] == grp then y - 1
                 else if c.g[y + 1] == grp then y + 1 else y + c.st;
        assert c.g[x] == grp;
        var j :| 0 <= j < |l| && l[j] == x;
        assert Adj(c.st, l[j], y);
      }
      if exists j :: 0 <= j < |l| && Adj(c.st, l[j], y) {
        var j :| 0 <= j < |l| && Adj(c.st, l[j], y);
        assert c.g[l[j]] == grp;
      }
    }
  }

  // ------------------------------------------------------------ removing a liberty

  /** The list after the removal of x from the list of grp. */
  function Dropped(c: Core, grp: int, x: int): seq<int>
    requires 0 <= grp < |c.lib|
  {
    if x !in c.lib[grp] then c.lib[grp]
    else
      var l := SwapRemove(c.lib[grp], x);
      if |l| == REFILL then
        var stones := Walk(c.p, grp, |c.p|);
        Fill(l, EmptyAround(c.b, c.st, stones, |stones|), x)
      else l
  }

  lemma RemoveLibCore(s: State, grp: int, x: int)
    requires 0 <= grp < |s.lib|
    ensures K(RemoveLib(s, grp, x)) == K(s).(lib := s.lib[grp := Dropped(K(s), grp, x)])
  {
    assert s.lib[grp := s.lib[grp]] == s.lib;
  }

  lemma AddLibCore(s: State, grp: int, x: int)
    requires 0 <= grp < |s.lib|
    ensures K(AddLib(s, grp, x)) == K(s).(lib := s.lib[grp := AddL(s.lib[grp], x)])
  {
    assert s.lib[grp := s.lib[grp]] == s.lib;
  }

  /** Taking x off a list that is right for L leaves one that is right for L without x,
      refill included, if L minus x is what a scan of the board would find. */
  lemma DroppedOK(c: Core, grp: int, l: seq<int>, x: int, L: set<int>)
    requires ChainList(c, grp, l) && 0 <= grp < |c.lib| && LibOK(c.lib[grp], L)
    requires forall y :: y != x ==> (y in EmptyAround(c.b, c.st, l, |l|) <==> y in L)
    ensures LibOK(Dropped(c, grp, x), L - {x})
  {
    if x in c.lib[grp] {
      SwapRemoveMembers(c.lib[grp], x);
      var r := SwapRemove(c.lib[grp], x);
      if |r| == REFILL {
        WalkIsChain(c, grp, l);
        FillOK(r, L - {x}, EmptyAround(c.b, c.st, l, |l|), x);
      }
    }
  }
}
