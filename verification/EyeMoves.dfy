/** Moves into an eye: what the board tests before it plays them, and the ko they leave. */
module EyeMoves {
  import opened Grid
  import opened LibList
  import opened Engine
  import opened Invariant
  import opened Steps
  import opened Captures
  import opened Moves
  import opened Refinement
  import opened Books
  import opened Rules
  import opened PlayTheorem

  /** The counts tell an eye exactly. */
  lemma EyelikeIff(s: State, x: int, eye: Stone)
    requires Sized(s) && Framed(s.b, s.st) && CountsOK(s, 0, Empty, 0) && 0 <= x < |s.b| && s.b[x] == Empty
    requires IsColour(eye)
    ensures Inner(s, x) && (Eyelike(s, x, eye) <==> Walled(s.b, s.st, x, eye))
  {
    assert s.n[x] == Expected(s.b, s.st, x, 0, Empty, 0);
  }

  /** What has been taken so far: nothing, one known stone, or at least two. */
  ghost predicate Taken(b0: seq<Stone>, b: seq<Stone>, col: Stone, taken: int, at: int) {
    && |b| == |b0| && taken >= 0
    && (taken == 0 ==> b == b0)
    && (taken == 1 ==> 0 <= at < |b0| && b0[at] == Other(col) && b == b0[at := Empty])
    && (taken >= 2 ==> exists x, y ::
          0 <= x < y < |b0| && b0[x] != Empty && b0[y] != Empty && b[x] == Empty && b[y] == Empty)
  }

  lemma TakenMore(b0: seq<Stone>, b: seq<Stone>, col: Stone, taken: int, at: int, l: seq<int>, y: int, b': seq<Stone>)
    requires Taken(b0, b, col, taken, at) && IsColour(col) && Distinct(l) && y in l && |b'| == |b|
    requires forall x :: 0 <= x < |b| ==> b'[x] == if x in l then Empty else b[x]
    requires forall j :: 0 <= j < |l| ==> 0 <= l[j] < |b| && b[l[j]] == Other(col) && b0[l[j]] == Other(col)
    ensures Taken(b0, b', col, taken + |l|, y)
  {
    assert 0 <= y < |b|;
    if taken == 0 && |l| == 1 {
      assert l == [y];
      assert b' == b0[y := Empty];
    } else if taken == 0 {
      var p, q := l[0], l[1];
      assert p != q && p in l && q in l;
      assert b0[if p < q then p else q] != Empty && b0[if p < q then q else p] != Empty;
    } else if taken == 1 {
      assert at != y;
      assert b0[if at < y then at else y] != Empty && b0[if at < y then y else at] != Empty;
    } else {
      var p, q :| 0 <= p < q < |b0| && b0[p] != Empty && b0[q] != Empty && b[p] == Empty && b[q] == Empty;
      assert b'[p] == Empty && b'[q] == Empty;
    }
  }

  ghost predicate EyeInv(s: State, e: EyeRun, x: int, col: Stone, k: int) {
    && 0 <= k <= 4 && Inner(s, x)
    && PlayUpTo(s, x, col, k) == (e.s, 0) && Taken(s.b, e.s.b, col, e.taken, e.at)
  }

  /** In an eye no neighbour joins, so the two loops do the same. */
  lemma EyeOneIsPlayOne(s: State, ch: Chains, m: Mid, b0: seq<Stone>, col: Stone, e: EyeRun)
    requires e.s == s && Running(s, ch, m, b0, col, 0) && m.k < 4 && Walled(b0, s.st, m.coord, Other(col))
    requires Taken(b0, s.b, col, e.taken, e.at)
    ensures 0 <= Nb(s.st, m.coord, m.k) < |s.b| && Inner(s, m.coord)
    ensures var y := Nb(s.st, m.coord, m.k); var e' := EyeOne(e, m.coord, col, y);
      PlayOne(s, m.coord, col, y, 0) == (e'.s, 0) && Taken(b0, e'.s.b, col, e'.taken, e'.at)
  {
    hide W, PlayInv, Framed, RemoveLib, AddToGroup, Merge, Capture, Dropped, Walkable, ChainOf, Taken;
    var c, y, x := K(s), Nb(s.st, m.coord, m.k), m.coord;
    NeighbourFacts(c, ch, m, col, 0);
    var s1 := s.(n := s.n[y := BumpN(s.n[y], col, 1)]);
    var h := s.g[y];
    if h != 0 {
      assert s.b[y] == Other(col) by { assert s.b[y] == b0[y] || s.b[y] == Empty; }
      var s2 := RemoveLib(s1, h, x);
      RemoveLibCore(s1, h, x);
      if s2.lib[h] == [] {
        AfterRemoveLib(c, ch, m, col, 0, h, {0});
        CaptureTakes(s2, ch, m.(blk := m.blk + {h}), b0, col, h, y, e.taken, e.at);
      }
    }
  }

  lemma CaptureTakes(s: State, ch: Chains, m: Mid, b0: seq<Stone>, col: Stone, h: int, y: int, taken: int, at: int)
    requires Sized(s) && PlayInv(K(s), ch, m, col, 0) && m.k < 4 && h in ch && Progress(K(s), b0, m.coord, col)
    requires y == Nb(s.st, m.coord, m.k) && 0 <= y < |s.b| && s.g[y] == h && s.b[y] == Other(col)
    requires Taken(b0, s.b, col, taken, at)
    ensures Taken(b0, Capture(s, h).b, col, taken + |ChainOf(s, h)|, y)
  {
    hide Maximal, LibsOK, Reach, Conn, Taken, Stony, Alive, Capture, CaptureUpTo, TakenAll;
    EnemyTakeable(s, ch, m, col, 0, h);
    var l := ch[h];
    assert y in l;
    assert ChainList(K(s), h, l);
    IdPositive(K(s), ch, h);
    CaptureCore(s, h, l);
    TakenAllShape(K(s), h, l, |l|);
    assert l[..|l|] == l;
    TakenMore(b0, s.b, col, taken, at, l, y, Capture(s, h).b);
  }

  lemma {:induction false} EyeUpToIsPlayUpTo(s: State, ch: Chains, m: Mid, col: Stone, k: int)
    requires Running(s, ch, m, s.b, col, 0) && m.k == 0 && 0 <= k <= 4 && Walled(s.b, s.st, m.coord, Other(col))
    ensures Inner(s, m.coord) && EyeInv(s, EyeUpTo(s, m.coord, col, k), m.coord, col, k)
    decreases k
  {
    hide PlayInv, Lively, Progress, PlayOne, EyeOne, Taken, Walled;
    Starts(s, ch, m, col);
    if k == 0 {
      assert Taken(s.b, s.b, col, 0, PASS) by { NothingTaken(s.b, col); }
    } else {
      EyeUpToIsPlayUpTo(s, ch, m, col, k - 1);
      var e := EyeUpTo(s, m.coord, col, k - 1);
      var ch1, m1 := PlayUpToRuns(s, ch, m, col, k - 1);
      EyeOneIsPlayOne(e.s, ch1, m1, s.b, col, e);
    }
  }

  lemma NothingTaken(b: seq<Stone>, col: Stone)
    ensures Taken(b, b, col, 0, PASS)
  {
  }

  // ------------------------------------------------------------ chains in atari around an eye

  /** A neighbouring chain with one liberty has no other liberty than the point played. */
  lemma OnlyLib(c: Core, ch: Chains, x: int, h: int)
    requires W(c, ch, QUIET) && 0 <= x < |c.b| && c.b[x] == Empty && h in ch && Touch(c, x, h)
    requires 0 <= h < |c.lib| && |c.lib[h]| == 1
    ensures forall z :: IsLib(c, QUIET, h, z) ==> z == x
  {
    hide Reach, Maximal, Conn, Linked, Cover, Stony, Framed, Distinct;
    assert IsLib(c, QUIET, h, x) && x in Libs(c, QUIET, h);
    assert x in c.lib[h] && x == c.lib[h][0];
    forall z | IsLib(c, QUIET, h, z) ensures z == x {
      assert z in Libs(c, QUIET, h);
      assert z in c.lib[h];
    }
  }

  /** Such a chain is cleared by the turn. */
  lemma AtariDies(c: Core, ch: Chains, x: int, col: Stone, y: int)
    requires W(c, ch, QUIET) && 0 <= x < |c.b| && c.b[x] == Empty && IsColour(col) && 0 <= y < |c.b|
    requires c.b[y] == Other(col)
    requires var h := c.g[y]; h in ch && Touch(c, x, h) && 0 <= h < |c.lib| && |c.lib[h]| == 1
    ensures !Alive(c.b[x := col], c.st, y)
  {
    var b1 := c.b[x := col];
    OnlyLib(c, ch, x, c.g[y]);
    forall z ensures !IsLiberty(b1, c.st, y, z) {
      if IsLiberty(b1, c.st, y, z) { StillLiberty(c, x, col, y, z); LibertyListed(c, ch, y, z); }
    }
  }

  lemma StillLiberty(c: Core, x: int, col: Stone, y: int, z: int)
    requires 0 <= x < |c.b| && c.b[x] == Empty && IsColour(col) && 0 <= y < |c.b| && c.b[y] == Other(col)
    requires IsLiberty(c.b[x := col], c.st, y, z)
    ensures z != x && IsLiberty(c.b, c.st, y, z)
  {
    hide Reach;
    var b1 := c.b[x := col];
    var w :| Reach(b1, c.st, y, w) && Adj(c.st, w, z);
    ReachMono(b1, c.b, c.st, y, w);
  }

  /** A chain with more than one liberty, or none at the played point, survives. */
  lemma OthersLive(c: Core, ch: Chains, x: int, col: Stone, y: int)
    requires Quiet(c, ch) && 0 <= x < |c.b| && c.b[x] == Empty && IsColour(col) && 0 <= y < |c.b|
    requires c.b[y] == Other(col)
    requires var h := c.g[y]; Touch(c, x, h) && 0 <= h < |c.lib| ==> |c.lib[h]| != 1
    ensures Alive(c.b[x := col], c.st, y)
  {
    hide Reach, Maximal, Conn, Linked, Cover, Stony, Framed, LibsOK, IsLib;
    var h := c.g[y];
    AliveIff(c, ch, y);
    var z := AnotherLib(c, ch, x, h);
    LibMakesAlive(c, ch, y, z);
    var w :| Reach(c.b, c.st, y, w) && Adj(c.st, w, z);
    ReachMono(c.b, c.b[x := col], c.st, y, w);
    assert IsLiberty(c.b[x := col], c.st, y, z);
  }

  lemma AnotherLib(c: Core, ch: Chains, x: int, h: int) returns (z: int)
    requires W(c, ch, QUIET) && h in ch && 0 <= h < |c.lib| && c.lib[h] != [] && (Touch(c, x, h) ==> |c.lib[h]| != 1)
    ensures IsLib(c, QUIET, h, z) && z != x
  {
    hide Reach, Maximal, Conn, Linked, Cover, Stony, Framed;
    var l := c.lib[h];
    assert l[0] in l && l[0] in Libs(c, QUIET, h);
    z := l[0];
    if z == x {
      assert l[1] in l && l[1] in Libs(c, QUIET, h);
      z := l[1];
    }
  }

  lemma AtariNbsCount(s: State, x: int)
    requires Inner(s, x)
    ensures AtariNbs(s, x, 4) == InAtari(s, s.g[x - s.st]) + InAtari(s, s.g[x - 1]) + InAtari(s, s.g[x + 1])
      + InAtari(s, s.g[x + s.st])
  {
    assert AtariNbs(s, x, 1) == InAtari(s, s.g[x - s.st]);
    assert AtariNbs(s, x, 2) == AtariNbs(s, x, 1) + InAtari(s, s.g[x - 1]);
    assert AtariNbs(s, x, 3) == AtariNbs(s, x, 2) + InAtari(s, s.g[x + 1]);
  }

  lemma NoneTouching(s: State, x: int, h: int)
    requires Inner(s, x) && AtariNbs(s, x, 4) == 0 && Touch(K(s), x, h) && 0 <= h < |s.lib|
    ensures |s.lib[h]| != 1
  {
    AtariNbsCount(s, x);
  }

  lemma EyeStays(b: seq<Stone>, st: int, x: int, col: Stone)
    requires Walled(b, st, x, Other(col)) && 0 <= x < |b| && IsColour(col)
    ensures Walled(b[x := col], st, x, Other(col)) && Lone(b, st, x, col)
  {
  }

  /** No chain in atari around the eye: the stone would be a one-stone suicide. */
  lemma NoAtariSuicide(s: State, ch: Chains, m: Move)
    requires Sized(s) && Quiet(K(s), ch) && IsColour(m.colour) && 0 <= m.coord < |s.b| && s.b[m.coord] == Empty
    requires Walled(s.b, s.st, m.coord, Other(m.colour)) && Inner(s, m.coord) && AtariNbs(s, m.coord, 4) == 0
    ensures OneStoneSuicide(s.b, s.st, m)
  {
    hide Quiet, Alive, AtariNbs, Touch, Walled, Lone;
    var x, col := m.coord, m.colour;
    var b1 := s.b[x := col];
    var t := Clear(b1, s.st, Other(col));
    EyeStays(s.b, s.st, x, col);
    forall y | 0 <= y < |s.b| && b1[y] == Other(col) ensures t[y] == b1[y] {
      var h := s.g[y];
      if Touch(K(s), x, h) && 0 <= h < |s.lib| { NoneTouching(s, x, h); }
      OthersLive(K(s), ch, x, col, y);
    }
    assert t == b1;
    LoneDies(b1, s.st, x, col);
  }

  lemma LoneDies(v: seq<Stone>, st: int, x: int, col: Stone)
    requires Walled(v, st, x, Other(col)) && IsColour(col) && v[x] == col
    ensures !Alive(v, st, x)
  {
    forall z ensures !IsLiberty(v, st, x, z) {
      forall y | Reach(v, st, x, y) && Adj(st, y, z) && 0 <= z < |v| ensures v[z] != Empty {
        LoneComponent(v, st, x, col, y);
      }
    }
  }

  lemma LoneComponent(v: seq<Stone>, st: int, x: int, col: Stone, y: int)
    requires Lone(v, st, x, col) && v[x] == col && Reach(v, st, x, y)
    ensures y == x
  {
    assert Closed(v, st, {x});
    ReachClosed(v, st, {x}, x, y);
  }
}
