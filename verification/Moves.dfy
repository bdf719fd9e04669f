/** A whole move: the neighbour loop, and putting the stone down at its end. */
module Moves {
  import opened Grid
  import opened LibList
  import opened Engine
  import opened Invariant
  import opened Steps
  import opened Captures

  /** Chains that touch a handled neighbour of the played point no longer count it. */
  ghost predicate Blocked(c: Core, m: Mid) {
    forall j :: 0 <= j < m.k && 0 <= Nb(c.st, m.coord, j) < |c.g| && c.g[Nb(c.st, m.coord, j)] != 0
      ==> c.g[Nb(c.st, m.coord, j)] in m.blk
  }

  /** Every chain outside `but` has a liberty. */
  ghost predicate Lively(c: Core, ch: Chains, but: set<int>) {
    forall h :: h in ch && 0 <= h < |c.lib| && h !in but ==> c.lib[h] != []
  }

  /** How the neighbour loop has changed the board so far. */
  ghost predicate Progress(c: Core, b0: seq<Stone>, coord: int, col: Stone) {
    && |b0| == |c.b| == |c.g| && 0 <= coord < |b0|
    && (forall x :: 0 <= x < |b0| && c.b[x] != b0[x] ==>
          c.b[x] == Empty && b0[x] == Other(col) && !Alive(b0[coord := col], c.st, x))
    && (forall x, y {:trigger Adj(c.st, x, y)} ::
          Adj(c.st, x, y) && 0 <= x < |b0| && 0 <= y < |b0| && b0[x] == Other(col) == b0[y]
          ==> (c.b[x] == Empty <==> c.b[y] == Empty))
  }

  ghost predicate PlayInv(c: Core, ch: Chains, m: Mid, col: Stone, grp: int) {
    && 0 <= m.k <= 4 && 0 <= m.coord < |c.b| && Pt(c, m.coord) && |c.g| == |c.b|
    && m.dying == 0 && c.b[m.coord] == Empty && IsColour(col)
    && m.tint == (if grp == 0 then Empty else col)
    && (grp == 0 ==> NoneBefore(c, m, col))
    && (grp != 0 ==> grp in ch && grp in m.blk && c.g[m.coord] == grp)
    && Blocked(c, m) && W(c, ch, m)
  }

  lemma AdvancePlain(c: Core, ch: Chains, m: Mid, col: Stone, grp: int)
    requires PlayInv(c, ch, m, col, grp) && m.k < 4
    requires var y := Nb(c.st, m.coord, m.k);
      0 <= y < |c.b| && (c.g[y] == 0 || c.b[y] != col || c.g[y] == grp) && (c.g[y] != 0 ==> c.g[y] in m.blk)
    ensures PlayInv(c, ch, m.(k := m.k + 1), col, grp)
  {
    hide Reach, LibOK, IsLib, ChainList;
    var m' := m.(k := m.k + 1);
    var y := Nb(c.st, m.coord, m.k);
    assert View(c, m') == View(c, m);
    forall h ensures Libs(c, m', h) == Libs(c, m, h) { SameLibs(c, m, m', h); }
    AdvanceMaximal(c, m, y, grp);
    if grp == 0 && c.g[y] == 0 { assert View(c, m)[y] == c.b[y]; }
    assert NoneBefore(c, m', col) || grp != 0;
  }

  lemma AdvanceMaximal(c: Core, m: Mid, y: int, grp: int)
    requires |c.g| == |c.b| && 0 <= m.k < 4 && y == Nb(c.st, m.coord, m.k) && 0 <= y < |c.b|
    requires 0 <= m.coord < |c.b| && c.b[m.coord] == Empty && Stony(c, m) && Maximal(c, m)
    requires (grp == 0 && m.tint == Empty) || (IsColour(m.tint) && c.g[m.coord] == grp)
    requires c.g[y] == 0 || c.b[y] != m.tint || c.g[y] == grp
    requires y != m.coord
    ensures Maximal(c, m.(k := m.k + 1))
  {
    var m' := m.(k := m.k + 1);
    assert View(c, m') == View(c, m);
  }

  // ------------------------------------------------------------ what an empty list means

  /** The points that carry the id h. */
  ghost function Marked(g: seq<int>, h: int): set<int> { set x | 0 <= x < |g| && g[x] == h }

  /** A list is empty exactly if there is no point for it to hold. */
  lemma NoLibs(l: seq<int>, L: set<int>)
    requires LibOK(l, L)
    ensures l == [] <==> forall x :: x !in L
  {
    if l == [] {
      assert forall x :: x in L ==> x in l;
    } else {
      assert l[0] in l && l[0] in L;
    }
  }

  /** On the board before any capture, an opponent chain keeps the points its id marks now. */
  lemma EnemyClosed(c: Core, m: Mid, b0: seq<Stone>, coord: int, col: Stone, h: int)
    requires |c.g| == |c.b| && Maximal(c, m) && Stony(c, m) && MidOK(c, m) && m.coord == coord
    requires m.tint == Empty || m.tint == col
    requires Progress(c, b0, coord, col) && IsColour(col) && b0[coord] == Empty && h != 0
    requires forall x :: 0 <= x < |c.g| && c.g[x] == h ==> c.b[x] == Other(col)
    ensures Closed(b0[coord := col], c.st, Marked(c.g, h))
  {
    hide Alive, Later;
    var b1 := b0[coord := col];
    var t := Marked(c.g, h);
    forall x, y | x in t && Adj(c.st, x, y) && 0 <= y < |b1| && b1[y] == b1[x] ensures y in t {
      assert c.b[x] == b0[x];
      assert c.b[y] != Empty;
      assert View(c, m)[x] == View(c, m)[y];
    }
  }

  lemma LibertyIsLib(c: Core, m: Mid, b0: seq<Stone>, coord: int, col: Stone, h: int, x: int, z: int)
    requires |c.g| == |c.b| && Framed(b0, c.st) && Maximal(c, m) && Stony(c, m) && MidOK(c, m) && m.coord == coord
    requires m.tint == Empty || m.tint == col
    requires Progress(c, b0, coord, col) && IsColour(col) && b0[coord] == Empty && h != 0
    requires forall z :: 0 <= z < |c.g| && c.g[z] == h ==> c.b[z] == Other(col)
    requires 0 <= x < |c.g| && c.g[x] == h && IsLiberty(b0[coord := col], c.st, x, z)
    ensures IsLib(c, m, h, z)
  {
    var b1 := b0[coord := col];
    EnemyClosed(c, m, b0, coord, col, h);
    hide Maximal, Closed, Reach;
    var y :| Reach(b1, c.st, x, y) && Adj(c.st, y, z);
    ReachClosed(b1, c.st, Marked(c.g, h), x, y);
    assert c.b[z] == Empty && z != coord;
  }

  /** An opponent chain whose list came out empty has no liberty once the stone is down. */
  lemma EmptyListIsDead(c: Core, ch: Chains, m: Mid, b0: seq<Stone>, col: Stone, h: int, x: int)
    requires Framed(b0, c.st) && W(c, ch, m) && (m.tint == Empty || m.tint == col)
    requires Progress(c, b0, m.coord, col) && IsColour(col) && b0[m.coord] == Empty
    requires h in ch && 0 < h < |c.lib| && c.lib[h] == []
    requires forall z :: 0 <= z < |c.g| && c.g[z] == h ==> c.b[z] == Other(col)
    requires 0 <= x < |c.g| && c.g[x] == h
    ensures !Alive(b0[m.coord := col], c.st, x)
  {
    hide Linked, Conn, Cover, Reach, IsLiberty, Maximal, Framed;
    NoLibs(c.lib[h], Libs(c, m, h));
    var b1 := b0[m.coord := col];
    forall z ensures IsLiberty(b1, c.st, x, z) ==> z in Libs(c, m, h) {
      if IsLiberty(b1, c.st, x, z) { LibertyIsLib(c, m, b0, m.coord, col, h, x, z); }
    }
    assert forall z :: !IsLiberty(b1, c.st, x, z);
  }

  lemma LibMakesAlive(c: Core, ch: Chains, x: int, z: int)
    requires W(c, ch, QUIET) && 0 <= x < |c.b| && IsColour(c.b[x]) && IsLib(c, QUIET, c.g[x], z)
    ensures IsLiberty(c.b, c.st, x, z)
  {
    hide Linked, Conn, Cover, Reach, LibsOK, Maximal;
    var h := c.g[x];
    var y := if c.g[z - c.st] == h then z - c.st else if c.g[z - 1] == h then z - 1
             else if c.g[z + 1] == h then z + 1 else z + c.st;
    SameChain(c, ch, x, y);
    assert Adj(c.st, y, z);
  }

  lemma LibertyListed(c: Core, ch: Chains, x: int, z: int)
    requires W(c, ch, QUIET) && 0 <= x < |c.b| && IsColour(c.b[x]) && IsLiberty(c.b, c.st, x, z)
    ensures 0 <= z < |c.b| && IsLib(c, QUIET, c.g[x], z)
  {
    hide Linked, Conn, Cover, Reach, LibsOK, Maximal;
    var y :| Reach(c.b, c.st, x, y) && Adj(c.st, y, z);
    ReachRange(c.b, c.st, x, y);
    SameChain(c, ch, x, y);
  }

  /** Between moves, a chain is alive on the grid exactly if its list is not empty. */
  lemma AliveIff(c: Core, ch: Chains, x: int)
    requires W(c, ch, QUIET) && 0 <= x < |c.b| && IsColour(c.b[x])
    ensures c.g[x] in ch && 0 <= c.g[x] < |c.lib|
    ensures Alive(c.b, c.st, x) <==> c.lib[c.g[x]] != []
  {
    hide Linked, Conn, Reach, IsLiberty, Maximal, Framed, IsLib;
    var h := c.g[x];
    assert View(c, QUIET) == c.b;
    IdPositive(c, ch, h);
    NoLibs(c.lib[h], Libs(c, QUIET, h));
    if c.lib[h] != [] {
      var z :| z in Libs(c, QUIET, h);
      LibMakesAlive(c, ch, x, z);
    }
    if Alive(c.b, c.st, x) {
      var z :| IsLiberty(c.b, c.st, x, z);
      LibertyListed(c, ch, x, z);
      assert z in Libs(c, QUIET, h);
    }
  }

  lemma ChainClosed(c: Core, ch: Chains, h: int)
    requires W(c, ch, QUIET) && h != 0
    ensures Closed(c.b, c.st, Marked(c.g, h))
  {
    hide Conn, LibsOK, Linked, Cover, Reach;
    assert View(c, QUIET) == c.b;
  }

  /** Between moves, two points are in one chain exactly if they carry the same id. */
  lemma SameChain(c: Core, ch: Chains, x: int, y: int)
    requires W(c, ch, QUIET) && 0 <= x < |c.b| && 0 <= y < |c.b| && IsColour(c.b[x])
    ensures Reach(c.b, c.st, x, y) <==> c.g[x] == c.g[y]
  {
    var h := c.g[x];
    ChainClosed(c, ch, h);
    hide Reach, Maximal, LibsOK, Closed, Linked;
    assert View(c, QUIET) == c.b;
    if c.g[y] == h {
      assert Reach(c.b, c.st, h, x) && Reach(c.b, c.st, h, y);
      ReachSym(c.b, c.st, h, x);
      ReachTrans(c.b, c.st, x, h, y);
    }
    if Reach(c.b, c.st, x, y) {
      ReachClosed(c.b, c.st, Marked(c.g, h), x, y);
    }
  }

  // ------------------------------------------------------------ one neighbour

  lemma Ranges(c: Core, ch: Chains, m: Mid)
    requires W(c, ch, m)
    ensures |c.g| == |c.p| == |c.lib| == |c.b| && c.st >= 3
  {
  }

  lemma AfterRemoveLib(c: Core, ch: Chains, m: Mid, col: Stone, grp: int, h: int, but: set<int>)
    requires PlayInv(c, ch, m, col, grp) && h in ch && Lively(c, ch, but)
    ensures 0 <= h < |c.lib|
    ensures var c' := c.(lib := c.lib[h := Dropped(c, h, m.coord)]); var m' := m.(blk := m.blk + {h});
      PlayInv(c', ch, m', col, grp) && Lively(c', ch, but + {h})
  {
    hide Conn, Maximal, Stony, Reach, Linked, Cover, LibsOK, Shape;
    RemoveLibW(c, ch, m, h);
  }

  lemma EndJoin(c: Core, ch: Chains, m: Mid, col: Stone, h: int)
    requires PlayInv(c, ch, m, col, 0) && m.k < 4 && h in ch && h in m.blk && Lively(c, ch, {0, h})
    requires var y := Nb(c.st, m.coord, m.k); 0 <= y < |c.b| && c.g[y] == h && c.b[y] == col
    ensures var y := Nb(c.st, m.coord, m.k); 0 < h < |c.b| == |c.p| == |c.lib| && y in ch[h]
    ensures var y := Nb(c.st, m.coord, m.k); var m' := m.(tint := col, k := m.k + 1);
      var ch' := ch[h := Inserted(ch[h], y, m.coord)];
      PlayInv(Joined(c, h, y, m.coord), ch', m', col, h) && Lively(Joined(c, h, y, m.coord), ch', {h})
  {
    hide Conn, Maximal, Stony, Reach, LibsOK, Framed, W, Cover, LibOK, Libs, Lively, Appended, Inserted;
    var y := Nb(c.st, m.coord, m.k);
    WParts(c, ch, m);
    ZeroNoId(c, ch, m);
    JoinW(c, ch, m, h, y, col);
    JoinLively(c, ch, h, y, m.coord);
  }

  lemma WParts(c: Core, ch: Chains, m: Mid)
    requires W(c, ch, m)
    ensures Shape(c) && Linked(c, ch)
  {
    hide Reach, Linked;
  }

  lemma JoinLively(c: Core, ch: Chains, h: int, y: int, x: int)
    requires 0 <= x < |c.b| == |c.g| == |c.p| == |c.lib| && 0 <= h < |c.b| && 0 <= y < |c.b| && h in ch
    requires y in ch[h] && 0 !in ch && Lively(c, ch, {0, h})
    ensures Lively(Joined(c, h, y, x), ch[h := Inserted(ch[h], y, x)], {h})
  {
    hide Appended, EmptyNbs, Inserted;
  }

  lemma EndMerge(c: Core, ch: Chains, m: Mid, col: Stone, grp: int, h: int)
    requires PlayInv(c, ch, m, col, grp) && m.k < 4 && grp != 0 && h in ch && h != grp && h in m.blk
    requires Lively(c, ch, {grp, h})
    requires var y := Nb(c.st, m.coord, m.k); 0 <= y < |c.b| && c.g[y] == h && c.b[y] == col
    ensures 0 < grp < |c.b| && 0 < h < |c.b| && |ch[grp]| > 0 && |ch[h]| > 0
    ensures forall j :: 0 <= j < |ch[h]| ==> 0 <= ch[h][j] < |c.g|
    ensures var c' := Merged(c, grp, h, ch[h]); var ch' := MergedChains(ch, grp, h);
      PlayInv(c', ch', m.(k := m.k + 1), col, grp) && Lively(c', ch', {grp})
  {
    hide W, Appended;
    var y := Nb(c.st, m.coord, m.k);
    Ranges(c, ch, m);
    MergeW(c, ch, m, grp, h, y);
    var c' := Merged(c, grp, h, ch[h]);
    RelabelAt(c.g, ch[h], grp, |ch[h]|);
    assert forall x :: 0 <= x < |c.g| ==> c'.g[x] == c.g[x] || c'.g[x] == grp;
    assert Blocked(c', m.(k := m.k + 1)) by { assert Blocked(c, m); }
    MergedLively(c, ch, grp, h);
  }

  lemma MergedLively(c: Core, ch: Chains, grp: int, h: int)
    requires |c.g| == |c.p| == |c.lib| && 0 < grp < |c.g| && 0 < h < |c.g| && grp in ch && h in ch && |ch[grp]| > 0
    requires |ch[h]| > 0 && forall j :: 0 <= j < |ch[h]| ==> 0 <= ch[h][j] < |c.g|
    requires Lively(c, ch, {grp, h})
    ensures Lively(Merged(c, grp, h, ch[h]), MergedChains(ch, grp, h), {grp})
  {
  }

  lemma EndCapture(c: Core, ch: Chains, m: Mid, col: Stone, grp: int, h: int)
    requires PlayInv(c, ch, m, col, grp) && m.k < 4 && h in ch && h in m.blk && Lively(c, ch, {grp, h})
    requires var y := Nb(c.st, m.coord, m.k); 0 <= y < |c.b| && c.g[y] == h && c.b[y] == Other(col)
    ensures h in ch && |c.b| == |c.g| && 0 <= h < |c.lib| && c.st >= 3
    ensures forall j :: 0 <= j < |ch[h]| ==> c.st <= ch[h][j] < |c.g| - c.st
    ensures var c' := Captured(c, h, ch[h]);
      PlayInv(c', ch - {h}, m.(k := m.k + 1), col, grp) && Lively(c', ch - {h}, {grp})
  {
    hide Conn, Maximal, Reach, LibsOK, Linked, Cover;
    var y := Nb(c.st, m.coord, m.k);
    assert c.b[h] == Other(col) && 0 < h by { SameHue(c, ch, m, h, y); }
    assert c.g[m.coord] != h by { if c.g[m.coord] == h { SameHue(c, ch, m, h, m.coord); } }
    CaptureW(c, ch, m, h, Other(col));
    var l := ch[h];
    var c' := Captured(c, h, l);
    TakenAllGains(c, h, l, |l|);
    assert |c.g| == |c.p| == |c.lib| == |c.b|;
    assert PlayInv(c', ch - {h}, m, col, grp) by { hide W; }
    assert Lively(c', ch - {h}, {grp});
    AdvancePlain(c', ch - {h}, m, col, grp);
  }

  /** A stone shows the colour of its chain's first stone. */
  lemma SameHue(c: Core, ch: Chains, m: Mid, h: int, x: int)
    requires W(c, ch, m) && m.dying == 0 && h in ch && 0 <= x < |c.g| && c.g[x] == h
    ensures 0 < h < |c.b| && View(c, m)[h] == View(c, m)[x]
  {
    hide Maximal, LibsOK, Reach, Cover;
    IdPositive(c, ch, h);
    assert Reach(View(c, m), c.st, h, x);
    ReachRange(View(c, m), c.st, h, x);
  }

  /** Capturing an opponent chain with an empty list keeps track of the board. */
  lemma ProgressCapture(c: Core, ch: Chains, m: Mid, b0: seq<Stone>, col: Stone, h: int, c': Core)
    requires W(c, ch, m) && m.dying == 0 && (m.tint == Empty || m.tint == col)
    requires Framed(b0, c.st) && Progress(c, b0, m.coord, col) && IsColour(col) && b0[m.coord] == Empty
    requires h in ch && 0 < h < |c.lib| && c.lib[h] == [] && c.b[h] == Other(col) && c.g[m.coord] != h
    requires |c'.b| == |c.b| == |c'.g| && c'.st == c.st
    requires forall x :: 0 <= x < |c.b| ==> c'.b[x] == if c.g[x] == h then Empty else c.b[x]
    ensures Progress(c', b0, m.coord, col)
  {
    hide Linked, Conn, Cover, Reach, LibsOK, Framed, Alive;
    IdPositive(c, ch, h);
    forall x | 0 <= x < |c.g| && c.g[x] == h ensures c.b[x] == Other(col) {
      SameHue(c, ch, m, h, x);
    }
    forall x | 0 <= x < |c.g| && c.g[x] == h ensures !Alive(b0[m.coord := col], c.st, x) {
      EmptyListIsDead(c, ch, m, b0, col, h, x);
    }
    forall x, y | Adj(c.st, x, y) && 0 <= x < |b0| && 0 <= y < |b0| && b0[x] == Other(col) == b0[y]
      ensures c'.b[x] == Empty <==> c'.b[y] == Empty
    {
      SideBySide(c, m, b0, col, x, y);
    }
  }

  /** Neighbouring opponent stones still on the board are in one chain. */
  lemma SideBySide(c: Core, m: Mid, b0: seq<Stone>, col: Stone, x: int, y: int)
    requires |c.g| == |c.b| == |b0| && Maximal(c, m) && Stony(c, m) && MidOK(c, m)
    requires m.tint == Empty || m.tint == col
    requires Progress(c, b0, m.coord, col) && IsColour(col) && b0[m.coord] == Empty
    requires Adj(c.st, x, y) && 0 <= x < |b0| && 0 <= y < |b0| && b0[x] == Other(col) == b0[y]
    ensures c.b[x] == Empty <==> c.b[y] == Empty
    ensures c.b[x] != Empty ==> c.g[x] == c.g[y]
  {
    hide Alive;
    if c.b[x] != Empty {
      assert c.b[x] == b0[x] && c.b[y] == b0[y];
      assert View(c, m)[x] == View(c, m)[y];
    }
  }
}
