/** The engine's move against the rules of the game: colour a point, clear the opponent,
    clear oneself. */
module Refinement {
  import opened Grid
  import opened LibList
  import opened Engine
  import opened Invariant
  import opened Steps
  import opened Captures
  import opened Moves

  /** The board in the middle of a move started on the grid b0. */
  ghost predicate Running(s: State, ch: Chains, m: Mid, b0: seq<Stone>, col: Stone, grp: int) {
    && Sized(s) && Framed(b0, s.st) && 0 <= m.coord < |b0| && b0[m.coord] == Empty
    && PlayInv(K(s), ch, m, col, grp) && Lively(K(s), ch, {grp}) && Progress(K(s), b0, m.coord, col)
  }

  lemma ProgressIgnoresLib(c: Core, b0: seq<Stone>, coord: int, col: Stone, c': Core)
    requires Progress(c, b0, coord, col) && c'.b == c.b && c'.st == c.st && |c'.g| == |c.g|
    ensures Progress(c', b0, coord, col)
  {
    hide Alive;
  }

  /** What a played point's neighbour can be. */
  lemma NeighbourFacts(c: Core, ch: Chains, m: Mid, col: Stone, grp: int)
    requires PlayInv(c, ch, m, col, grp) && m.k < 4
    ensures c.st >= 3 && |c.p| == |c.b| == |c.lib| && Inside(c, m.coord) && 0 <= grp < |c.b| && IsColour(col)
    ensures 0 <= m.k
    ensures var y := Nb(c.st, m.coord, m.k);
      0 <= y < |c.b| && y != m.coord && 0 <= c.g[y] < |c.b|
    ensures var y := Nb(c.st, m.coord, m.k);
      c.g[y] != 0 ==> c.g[y] in ch && IsColour(c.b[y])
    ensures var y := Nb(c.st, m.coord, m.k); c.b[y] == col ==> c.g[y] != 0
  {
    hide Conn, Maximal, LibsOK, Reach;
    var y := Nb(c.st, m.coord, m.k);
    if c.g[y] != 0 { IdPositive(c, ch, c.g[y]); }
    if grp != 0 { IdPositive(c, ch, grp); }
  }

  predicate Inside(c: Core, x: int) { c.st >= 3 && c.st <= x < |c.b| - c.st }

  lemma JoinStep(s: State, ch: Chains, m: Mid, b0: seq<Stone>, col: Stone, h: int)
    returns (ch': Chains, m': Mid)
    requires Sized(s) && Framed(b0, s.st) && 0 <= m.coord < |b0| && b0[m.coord] == Empty && m.k < 4
    requires PlayInv(K(s), ch, m, col, 0) && Lively(K(s), ch, {0, h}) && Progress(K(s), b0, m.coord, col)
    requires h in ch && h in m.blk
    requires var y := Nb(s.st, m.coord, m.k); 0 <= y < |s.b| && s.g[y] == h && s.b[y] == col
    ensures m'.coord == m.coord && m'.k == m.k + 1 && Inner(s, m.coord) && 0 <= h < |s.lib|
    ensures Running(AddToGroup(s, h, Nb(s.st, m.coord, m.k), m.coord), ch', m', b0, col, h)
  {
    hide W, PlayInv, Progress, Lively, Framed, AddToGroup, Appended, Inserted;
    var c, y := K(s), Nb(s.st, m.coord, m.k);
    NeighbourFacts(c, ch, m, col, 0);
    EndJoin(c, ch, m, col, h);
    AddToGroupCore(s, h, y, m.coord);
    ProgressIgnoresLib(c, b0, m.coord, col, Joined(c, h, y, m.coord));
    ch', m' := ch[h := Inserted(ch[h], y, m.coord)], m.(tint := col, k := m.k + 1);
  }

  lemma MergeStep(s: State, ch: Chains, m: Mid, b0: seq<Stone>, col: Stone, grp: int, h: int)
    returns (ch': Chains, m': Mid)
    requires Sized(s) && Framed(b0, s.st) && 0 <= m.coord < |b0| && b0[m.coord] == Empty && m.k < 4
    requires PlayInv(K(s), ch, m, col, grp) && Lively(K(s), ch, {grp, h}) && Progress(K(s), b0, m.coord, col)
    requires h in ch && h in m.blk && grp != 0 && h != grp
    requires var y := Nb(s.st, m.coord, m.k); 0 <= y < |s.b| && s.g[y] == h && s.b[y] == col
    ensures m'.coord == m.coord && m'.k == m.k + 1 && 0 <= grp < |s.lib|
    ensures Running(Merge(s, grp, h), ch', m', b0, col, grp)
  {
    hide Progress, Lively, Framed, Merge, Appended, Maximal, Conn, LibsOK, Cover, Reach;
    var c, y := K(s), Nb(s.st, m.coord, m.k);
    EndMerge(c, ch, m, col, grp, h);
    assert ChainList(c, h, ch[h]);
    MergeCore(s, grp, h, ch[h]);
    ProgressIgnoresLib(c, b0, m.coord, col, Merged(c, grp, h, ch[h]));
    ch', m' := MergedChains(ch, grp, h), m.(k := m.k + 1);
  }

  lemma CaptureStep(s: State, ch: Chains, m: Mid, b0: seq<Stone>, col: Stone, grp: int, h: int)
    returns (ch': Chains, m': Mid)
    requires Sized(s) && Framed(b0, s.st) && 0 <= m.coord < |b0| && b0[m.coord] == Empty && m.k < 4
    requires PlayInv(K(s), ch, m, col, grp) && Lively(K(s), ch, {grp, h}) && Progress(K(s), b0, m.coord, col)
    requires h in ch && h in m.blk && 0 <= h < |s.lib| && s.lib[h] == []
    requires var y := Nb(s.st, m.coord, m.k); 0 <= y < |s.b| && s.g[y] == h && s.b[y] == Other(col)
    ensures m'.coord == m.coord && m'.k == m.k + 1
    ensures Running(Capture(s, h), ch', m', b0, col, grp)
    ensures ChainOf(s, h) == ch[h]
  {
    hide Progress, Lively, Framed, Capture, Maximal, Conn, LibsOK, Reach;
    var c, y := K(s), Nb(s.st, m.coord, m.k);
    EndCapture(c, ch, m, col, grp, h);
    assert ChainList(c, h, ch[h]);
    CaptureCore(s, h, ch[h]);
    SameHue(c, ch, m, h, y);
    if c.g[m.coord] == h { SameHue(c, ch, m, h, m.coord); }
    CanTake(c, ch, m, col, h);
    CaptureW(c, ch, m, h, Other(col));
    ProgressCapture(c, ch, m, b0, col, h, Captured(c, h, ch[h]));
    ch', m' := ch - {h}, m.(k := m.k + 1);
  }

  lemma CanTake(c: Core, ch: Chains, m: Mid, col: Stone, h: int)
    requires W(c, ch, m) && m.dying == 0 && h in ch && 0 <= h < |c.b| && c.b[h] == Other(col)
    requires IsColour(col) && (m.tint == Empty || m.tint == col) && c.g[m.coord] != h
    ensures CanCapture(c, ch, m, h, Other(col))
  {
  }

  lemma PassStep(s: State, ch: Chains, m: Mid, b0: seq<Stone>, col: Stone, grp: int)
    requires Sized(s) && Framed(b0, s.st) && 0 <= m.coord < |b0| && b0[m.coord] == Empty && m.k < 4
    requires PlayInv(K(s), ch, m, col, grp) && Lively(K(s), ch, {grp}) && Progress(K(s), b0, m.coord, col)
    requires var y := Nb(s.st, m.coord, m.k);
      0 <= y < |s.b| && (s.g[y] == 0 || s.b[y] != col || s.g[y] == grp) && (s.g[y] != 0 ==> s.g[y] in m.blk)
    ensures Running(s, ch, m.(k := m.k + 1), b0, col, grp)
  {
    hide Progress, Lively, Framed, W;
    AdvancePlain(K(s), ch, m, col, grp);
  }

  lemma PlayOneStep(s: State, ch: Chains, m: Mid, b0: seq<Stone>, col: Stone, grp: int)
    returns (ch': Chains, m': Mid)
    requires Running(s, ch, m, b0, col, grp) && m.k < 4
    ensures m'.coord == m.coord && m'.k == m.k + 1
    ensures 0 <= Nb(s.st, m.coord, m.k) < |s.b| && 0 <= grp < |s.b| && Inner(s, m.coord)
    ensures var (s', grp') := PlayOne(s, m.coord, col, Nb(s.st, m.coord, m.k), grp);
      Running(s', ch', m', b0, col, grp')
  {
    hide W, PlayInv, Progress, Framed, RemoveLib, AddToGroup, Merge, Capture, Dropped;
    var c, y := K(s), Nb(s.st, m.coord, m.k);
    NeighbourFacts(c, ch, m, col, grp);
    var s1 := s.(n := s.n[y := BumpN(s.n[y], col, 1)]);
    var h := s.g[y];
    if h == 0 {
      PassStep(s1, ch, m, b0, col, grp);
      ch', m' := ch, m.(k := m.k + 1);
    } else {
      var s2 := RemoveLib(s1, h, m.coord);
      RemoveLibCore(s1, h, m.coord);
      AfterRemoveLib(c, ch, m, col, grp, h, {grp});
      ProgressIgnoresLib(c, b0, m.coord, col, K(s2));
      var m2 := m.(blk := m.blk + {h});
      if s.b[y] == col && h != grp {
        if grp == 0 {
          assert {grp} + {h} == {0, h};
          ch', m' := JoinStep(s2, ch, m2, b0, col, h);
        } else {
          assert {grp} + {h} == {grp, h};
          ch', m' := MergeStep(s2, ch, m2, b0, col, grp, h);
        }
      } else if s.b[y] == Other(col) && s2.lib[h] == [] {
        assert {grp} + {h} == {grp, h};
        ch', m' := CaptureStep(s2, ch, m2, b0, col, grp, h);
      } else {
        PassStep(s2, ch, m2, b0, col, grp);
        ch', m' := ch, m2.(k := m.k + 1);
      }
    }
  }

  lemma {:induction false} PlayUpToRuns(s: State, ch: Chains, m: Mid, col: Stone, k: int)
    returns (ch': Chains, m': Mid)
    requires Running(s, ch, m, s.b, col, 0) && m.k == 0 && 0 <= k <= 4
    ensures m'.coord == m.coord && m'.k == k && Inner(s, m.coord)
    ensures var (s', grp') := PlayUpTo(s, m.coord, col, k); Running(s', ch', m', s.b, col, grp')
    decreases k
  {
    hide PlayInv, Lively, Progress, PlayOne;
    Starts(s, ch, m, col);
    if k == 0 {
      ch', m' := ch, m;
    } else {
      var ch1, m1 := PlayUpToRuns(s, ch, m, col, k - 1);
      var (s1, grp) := PlayUpTo(s, m.coord, col, k - 1);
      ch', m' := PlayOneStep(s1, ch1, m1, s.b, col, grp);
    }
  }

  lemma Starts(s: State, ch: Chains, m: Mid, col: Stone)
    requires Running(s, ch, m, s.b, col, 0)
    ensures Inner(s, m.coord)
  {
  }

  // ------------------------------------------------------------ putting the stone down

  function Placed(c: Core, x: int, col: Stone): Core
    requires 0 <= x < |c.b|
  {
    c.(b := c.b[x := col])
  }

  /** Once all four neighbours are handled, the played point counts as a liberty of no chain. */
  lemma PlacedLibs(c: Core, m: Mid, col: Stone, h: int)
    requires m.k == 4 && Pt(c, m.coord) && |c.g| == |c.b| && c.st >= 3 && IsColour(col) && Blocked(c, m) && h != 0
    ensures Libs(Placed(c, m.coord, col), QUIET, h) == Libs(c, m, h)
  {
    var c' := Placed(c, m.coord, col);
    assert Touch(c, m.coord, h) ==> h in m.blk by {
      assert Nb(c.st, m.coord, 0) == m.coord - c.st && Nb(c.st, m.coord, 1) == m.coord - 1;
      assert Nb(c.st, m.coord, 2) == m.coord + 1 && Nb(c.st, m.coord, 3) == m.coord + c.st;
    }
    forall x | 0 <= x < |c.b| ensures IsLib(c', QUIET, h, x) <==> IsLib(c, m, h, x) {}
  }

  lemma PlacedShape(c: Core, x: int, col: Stone)
    requires Shape(c) && Pt(c, x)
    ensures Shape(Placed(c, x, col))
  {
  }

  /** The stone joined a chain during the loop: the board is quiet once it is drawn. */
  lemma PlaceJoined(c: Core, ch: Chains, m: Mid, col: Stone, grp: int)
    requires PlayInv(c, ch, m, col, grp) && m.k == 4 && grp != 0
    ensures W(Placed(c, m.coord, col), ch, QUIET)
  {
    hide Reach, LibOK, ChainList;
    var c' := Placed(c, m.coord, col);
    assert View(c', QUIET) == View(c, m);
    PlacedShape(c, m.coord, col);
    forall h | 0 <= h < |c.lib| && h in ch ensures LibOK(c'.lib[h], Libs(c', QUIET, h)) {
      IdPositive(c, ch, h);
      PlacedLibs(c, m, col, h);
    }
    assert Linked(c', ch) by { PlacedLinked(c, ch, m.coord, col); }
    assert Maximal(c', QUIET) by { hide Libs, LibsOK, Cover, Conn; }
  }

  lemma PlacedLinked(c: Core, ch: Chains, x: int, col: Stone)
    requires 0 <= x < |c.b| && Linked(c, ch)
    ensures Linked(Placed(c, x, col), ch)
  {
    forall h | h in ch ensures ChainList(Placed(c, x, col), h, ch[h]) {
      assert ChainList(c, h, ch[h]);
    }
  }

  function Founded(c: Core, x: int): Core
    requires 0 <= x < |c.b| == |c.g| == |c.p| == |c.lib|
  {
    c.(g := c.g[x := x], p := c.p[x := 0], lib := c.lib[x := EmptyNbs(c.b, c.st, x, 4)])
  }

  lemma NewGroupCore(s: State, x: int)
    requires Inner(s, x) && s.lib[x] == []
    ensures K(NewGroup(s, x)) == Founded(K(s), x)
  {
    var e := EmptyNbs(s.b, s.st, x, 4);
    assert [] + e == e;
  }

  lemma FoundedLinked(c: Core, ch: Chains, x: int)
    requires Linked(c, ch) && Shape(c) && Pt(c, x) && c.g[x] == 0 && 0 !in ch
    ensures Linked(Founded(c, x), ch[x := [x]])
  {
    var c' := Founded(c, x);
    forall h | h in ch && h != x ensures ChainList(c', h, ch[h]) {
      assert ChainList(c, h, ch[h]);
      assert x !in ch[h];
    }
    assert ChainList(c', x, [x]);
  }

  lemma FoundedConn(c: Core, m: Mid, col: Stone, c': Core)
    requires |c.g| == |c.b| && 0 <= m.coord < |c.b| && c.b[m.coord] == Empty && m.tint == Empty && m.dying == 0
    requires Conn(c, m) && Stony(c, m) && IsColour(col) && |c.p| == |c.b| == |c.lib| && m.coord != 0
    requires c' == Founded(Placed(c, m.coord, col), m.coord)
    ensures Conn(c', QUIET)
  {
    hide Reach;
    var v, v' := View(c, m), View(c', QUIET);
    forall x | 0 <= x < |c'.g| && c'.g[x] != 0 ensures Reach(v', c.st, c'.g[x], x) {
      if x == m.coord { ReachRefl(v', c.st, x); }
      else {
        ReachRange(v, c.st, c.g[x], x);
        ReachMono(v, v', c.st, c.g[x], x);
      }
    }
  }

  lemma FoundedMaximal(c: Core, m: Mid, col: Stone, c': Core)
    requires |c.g| == |c.b| && 0 <= m.coord < |c.b| && c.b[m.coord] == Empty && m.tint == Empty && m.k == 4
    requires Maximal(c, m) && IsColour(col) && |c.p| == |c.b| == |c.lib| && NoneBefore(c, m, col)
    requires c' == Founded(Placed(c, m.coord, col), m.coord)
    ensures Maximal(c', QUIET)
  {
    var v' := View(c', QUIET);
    forall x, y | Adj(c.st, x, y) && 0 <= x < |c.b| && 0 <= y < |c.b|
                  && IsColour(v'[x]) && v'[x] == v'[y]
      ensures c'.g[x] == c'.g[y]
    {
      if x == m.coord { var j := NbAdj(c.st, x, y); }
      else if y == m.coord { var j := NbAdj(c.st, y, x); }
      else { assert View(c, m)[x] == View(c, m)[y]; }
    }
  }

  lemma FoundedLibs(c: Core, ch: Chains, m: Mid, col: Stone, c': Core)
    requires Shape(c) && LibsOK(c, ch, m) && 0 !in ch && Pt(c, m.coord) && m.dying == 0 && m.coord !in ch
    requires c.b[m.coord] == Empty && c.g[m.coord] == 0 && m.k == 4 && IsColour(col) && Blocked(c, m)
    requires forall x :: 0 <= x < |c.g| ==> c.g[x] != m.coord
    requires c' == Founded(Placed(c, m.coord, col), m.coord)
    ensures LibsOK(c', ch[m.coord := [m.coord]], QUIET)
  {
    var x := m.coord;
    forall h | 0 <= h < |c.lib| && h in ch ensures LibOK(c'.lib[h], Libs(c', QUIET, h)) {
      PlacedLibs(c, m, col, h);
      LibsSame(Placed(c, x, col), c', QUIET, QUIET, h);
    }
    var e := EmptyNbs(c'.b, c.st, x, 4);
    EmptyNbsMembers(c'.b, c.st, x, 4);
    forall y ensures y in e <==> y in Libs(c', QUIET, x) {
      EmptyNbsAdj(c'.b, c.st, x, y);
    }
  }

  lemma PlaceFounded(c: Core, ch: Chains, m: Mid, col: Stone)
    requires PlayInv(c, ch, m, col, 0) && m.k == 4
    ensures |c.b| == |c.g| == |c.p| == |c.lib| && c.lib[m.coord] == [] && m.coord !in ch
    ensures W(Founded(Placed(c, m.coord, col), m.coord), ch[m.coord := [m.coord]], QUIET)
  {
    hide Reach, LibOK, ChainList, Conn, Maximal, NoneBefore;
    var x := m.coord;
    ZeroNoId(c, ch, m);
    if x in ch { IdPositive(c, ch, x); }
    forall y | 0 <= y < |c.g| ensures c.g[y] != x {}
    var c1 := Placed(c, x, col);
    var c' := Founded(c1, x);
    PlacedShape(c, x, col);
    PlacedLinked(c, ch, x, col);
    FoundedLinked(c1, ch, x);
    FoundedConn(c, m, col, c');
    FoundedMaximal(c, m, col, c');
    FoundedLibs(c, ch, m, col, c');
    assert Stony(c', QUIET);
    assert Cover(c', ch[x := [x]], QUIET);
  }

  // ------------------------------------------------------------ what the board shows

  /** The opponent's stones still standing have a liberty. */
  lemma StandingAlive(c: Core, c2: Core, ch: Chains, b0: seq<Stone>, coord: int, col: Stone, own: int, x: int)
    requires Progress(c, b0, coord, col) && IsColour(col) && b0[coord] == Empty && c.b[coord] == Empty
    requires c2.b == c.b[coord := col] && c2.st == c.st && W(c2, ch, QUIET) && Lively(c2, ch, {own})
    requires own in ch && c2.g[coord] == own
    requires 0 <= x < |b0| && c.b[x] == Other(col)
    ensures Alive(b0[coord := col], c.st, x)
  {
    hide Reach, Closed;
    var b1 := b0[coord := col];
    AliveIff(c2, ch, x);
    assert View(c2, QUIET) == c2.b;
    if c2.g[x] == own {
      SameHue(c2, ch, QUIET, own, x);
      SameHue(c2, ch, QUIET, own, coord);
    }
    hide W, Lively;
    var z :| IsLiberty(c2.b, c2.st, x, z);
    var y :| Reach(c2.b, c2.st, x, y) && Adj(c2.st, y, z);
    ReachRange(c2.b, c2.st, x, y);
    assert forall w :: 0 <= w < |b0| && c.b[w] == Other(col) ==> b0[w] == c.b[w];
    ReachMono(c2.b, b1, c.st, x, y);
    assert b1[z] == Empty;
    assert IsLiberty(b1, c.st, x, z);
  }

  /** After the neighbour loop the board shows the opponent's colour cleared. */
  lemma OpponentCleared(c: Core, c2: Core, ch: Chains, b0: seq<Stone>, coord: int, col: Stone, own: int)
    requires Progress(c, b0, coord, col) && IsColour(col) && b0[coord] == Empty && c.b[coord] == Empty
    requires c2.b == c.b[coord := col] && c2.st == c.st && W(c2, ch, QUIET) && Lively(c2, ch, {own})
    requires own in ch && c2.g[coord] == own
    ensures c2.b == Clear(b0[coord := col], c.st, Other(col))
  {
    hide Alive, W;
    var r := Clear(b0[coord := col], c.st, Other(col));
    forall x | 0 <= x < |b0| ensures c2.b[x] == r[x] {
      if x != coord && c.b[x] == Other(col) {
        StandingAlive(c, c2, ch, b0, coord, col, own, x);
      }
    }
  }

  /** Clearing one's own colour takes the own chain off exactly if its list is empty. */
  lemma OwnCleared(c: Core, ch: Chains, own: int, col: Stone)
    requires W(c, ch, QUIET) && Lively(c, ch, {own}) && own in ch && 0 < own < |c.b| && c.b[own] == col && IsColour(col)
    ensures 0 <= own < |c.lib|
    ensures var r := Clear(c.b, c.st, col); forall x :: 0 <= x < |c.b| ==>
      r[x] == if c.g[x] == own && c.lib[own] == [] then Empty else c.b[x]
  {
    hide Alive;
    assert View(c, QUIET) == c.b;
    var r := Clear(c.b, c.st, col);
    forall x | 0 <= x < |c.b| ensures r[x] == if c.g[x] == own && c.lib[own] == [] then Empty else c.b[x] {
      if c.b[x] == col { AliveIff(c, ch, x); }
      if c.g[x] == own { SameHue(c, ch, QUIET, own, x); }
    }
  }
}
