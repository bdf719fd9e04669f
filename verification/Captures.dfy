/** Taking a chain off the board keeps the mid-move invariant for all the others. */
module Captures {
  import opened Grid
  import opened LibList
  import opened Engine
  import opened Invariant
  import opened Steps

  /** Some of the first k neighbours of x carry the id h. */
  predicate TouchUpTo(g: seq<int>, st: int, x: int, h: int, k: int)
    requires 0 <= k <= 4 && st >= 3 && st <= x < |g| - st
  {
    (k > 0 && g[x - st] == h) || (k > 1 && g[x - 1] == h) || (k > 2 && g[x + 1] == h) || (k > 3 && g[x + st] == h)
  }

  /** The liberty lists once the chains around x, other than grp, have gained x. */
  function Gained(lib: seq<seq<int>>, g: seq<int>, st: int, grp: int, x: int, k: int): (r: seq<seq<int>>)
    requires 0 <= k <= 4 && st >= 3 && st <= x < |g| - st
    ensures |r| == |lib|
  {
    seq(|lib|, h requires 0 <= h < |lib| =>
      if h != 0 && h != grp && TouchUpTo(g, st, x, h, k) then AddL(lib[h], x) else lib[h])
  }

  lemma {:induction false} RemoveNbsCore(s: State, grp: int, x: int, col: Stone, k: int)
    requires 0 <= k <= 4 && Inner(s, x)
    ensures K(RemoveNbs(s, grp, x, col, k)) == K(s).(lib := Gained(s.lib, s.g, s.st, grp, x, k))
  {
    if k == 0 {
      assert Gained(s.lib, s.g, s.st, grp, x, 0) == s.lib;
    } else {
      RemoveNbsCore(s, grp, x, col, k - 1);
      var s1 := RemoveNbs(s, grp, x, col, k - 1);
      var y := Nb(s.st, x, k - 1);
      var s2 := s1.(n := s1.n[y := BumpN(s1.n[y], col, -1)]);
      var h := s.g[y];
      if 0 < h < |s.lib| && h != grp {
        AddLibCore(s2, h, x);
      }
      GainedStep(s.lib, s.g, s.st, grp, x, k);
    }
  }

  lemma GainedStep(lib: seq<seq<int>>, g: seq<int>, st: int, grp: int, x: int, k: int)
    requires 0 < k <= 4 && st >= 3 && st <= x < |g| - st
    ensures var r := Gained(lib, g, st, grp, x, k - 1); var h := g[Nb(st, x, k - 1)];
      Gained(lib, g, st, grp, x, k) == if 0 < h < |lib| && h != grp then r[h := AddL(r[h], x)] else r
  {
    var r := Gained(lib, g, st, grp, x, k - 1);
    var h := g[Nb(st, x, k - 1)];
    forall i | 0 <= i < |lib|
      ensures Gained(lib, g, st, grp, x, k)[i]
           == if i == h && 0 < h < |lib| && h != grp then AddL(r[h], x) else r[i]
    {
      assert AddL(AddL(lib[i], x), x) == AddL(lib[i], x);
    }
  }

  function TakenOff(c: Core, grp: int, x: int): Core
    requires c.st >= 3 && c.st <= x < |c.g| - c.st && |c.b| == |c.g|
  {
    var g := c.g[x := 0];
    c.(b := c.b[x := Empty], g := g, lib := Gained(c.lib, g, c.st, grp, x, 4))
  }

  lemma RemoveStoneCore(s: State, grp: int, x: int)
    requires Inner(s, x)
    ensures K(RemoveStone(s, grp, x)) == TakenOff(K(s), grp, x)
  {
    var s1 := HashUpdate(s.(b := s.b[x := Empty], g := s.g[x := 0]), x, s.b[x]);
    RemoveNbsCore(s1, grp, x, s.b[x], 4);
  }

  /** The chain being taken off has the colour col, which cannot meet the point being played. */
  ghost predicate Apart(c: Core, m: Mid, col: Stone) {
    && |c.g| == |c.b| && m.dying != 0 && IsColour(col)
    && (m.tint == Empty || m.tint != col || m.k == 4)
    && forall w :: 0 <= w < |c.g| && c.g[w] == m.dying ==> c.b[w] == col
  }

  /** The equally coloured points outside the dying chain are closed. */
  lemma OthersClosed(c: Core, m: Mid, col: Stone, hue: Stone)
    requires MidOK(c, m) && Apart(c, m, col) && Maximal(c, m) && IsColour(hue)
    ensures var v := View(c, m); Closed(v, c.st, set z | 0 <= z < |c.b| && v[z] == hue && c.g[z] != m.dying)
  {
  }

  function Vacated(c: Core, x: int): Core
    requires 0 <= x < |c.b| == |c.g|
  {
    c.(b := c.b[x := Empty], g := c.g[x := 0])
  }

  lemma TakeOffConn(c: Core, ch: Chains, m: Mid, col: Stone, x: int)
    requires Shape(c) && MidOK(c, m) && Apart(c, m, col) && Maximal(c, m)
    requires m.dying !in ch && Linked(c, ch) && Cover(c, ch, m) && Stony(c, m) && Conn(c, m)
    requires 0 <= x < |c.b| && c.g[x] == m.dying
    ensures Conn(Vacated(c, x), m)
  {
    var c' := Vacated(c, x);
    var v, v' := View(c, m), View(c', m);
    forall y | 0 <= y < |c'.g| && c'.g[y] != 0 && c'.g[y] != m.dying
      ensures Reach(v', c.st, c'.g[y], y)
    {
      var h := c.g[y];
      assert Reach(v, c.st, h, y);
      hide Reach, Closed, Conn, Linked, Maximal, Framed;
      ReachRange(v, c.st, h, y);
      IdPositive(c, ch, h);
      OthersClosed(c, m, col, v[h]);
      var t := set z | 0 <= z < |c.b| && v[z] == v[h] && c.g[z] != m.dying;
      ReachWithin(v, v', c.st, t, h, y);
    }
  }

  lemma TakeOffMaximal(c: Core, m: Mid, x: int)
    requires |c.g| == |c.b| && Maximal(c, m) && 0 <= x < |c.b| && x != m.coord
    ensures Maximal(Vacated(c, x), m)
  {
  }

  lemma TakeOffLibs(c: Core, ch: Chains, m: Mid, x: int)
    requires Shape(c) && LibsOK(c, ch, m) && m.dying !in ch && 0 !in ch && Pt(c, x) && Cover(c, ch, m)
    requires x != m.coord && c.b[x] != Empty && c.g[x] == m.dying != 0
    ensures LibsOK(TakenOff(c, m.dying, x), ch, m)
  {
    var c' := TakenOff(c, m.dying, x);
    forall h | 0 <= h < |c.lib| && h in ch ensures LibOK(c'.lib[h], Libs(c', m, h)) {
      TakeOffLibsOf(c, m, x, h);
    }
    forall h | 0 <= h < |c.lib| && h !in ch && h != m.dying ensures c'.lib[h] == [] {
      assert h == 0 || !TouchUpTo(c'.g, c.st, x, h, 4);
    }
  }

  lemma TakeOffLibsOf(c: Core, m: Mid, x: int, h: int)
    requires |c.g| == |c.b| == |c.lib| && c.st >= 3 && Pt(c, x) && 0 <= h < |c.lib|
    requires LibOK(c.lib[h], Libs(c, m, h)) && h != 0 && h != m.dying
    requires x != m.coord && c.b[x] != Empty && c.g[x] == m.dying
    ensures var c' := TakenOff(c, m.dying, x); LibOK(c'.lib[h], Libs(c', m, h))
  {
    var c' := TakenOff(c, m.dying, x);
    forall y | 0 <= y < |c.b|
      ensures IsLib(c', m, h, y) <==> IsLib(c, m, h, y) || (y == x && TouchUpTo(c'.g, c.st, x, h, 4))
    {}
    AddOK(c.lib[h], Libs(c, m, h), x);
    if TouchUpTo(c'.g, c.st, x, h, 4) {
      assert Libs(c', m, h) == Libs(c, m, h) + {x};
    } else {
      assert Libs(c', m, h) == Libs(c, m, h);
    }
  }

  lemma TakeOffLinked(c: Core, ch: Chains, m: Mid, x: int)
    requires Shape(c) && Linked(c, ch) && m.dying !in ch && Pt(c, x) && c.g[x] == m.dying
    ensures Linked(TakenOff(c, m.dying, x), ch)
  {
    forall h | h in ch ensures ChainList(TakenOff(c, m.dying, x), h, ch[h]) {
      assert ChainList(c, h, ch[h]);
      assert forall i :: 0 <= i < |ch[h]| ==> c.g[ch[h][i]] == h;
    }
  }

  /** One stone of a chain leaves the board. */
  lemma TakeOffW(c: Core, ch: Chains, m: Mid, col: Stone, x: int)
    requires W(c, ch, m) && Apart(c, m, col) && 0 <= x < |c.g| && c.g[x] == m.dying && Pt(c, x)
    ensures W(TakenOff(c, m.dying, x), ch, m) && Apart(TakenOff(c, m.dying, x), m, col)
  {
    hide Reach, Linked, LibsOK;
    var c', c1 := TakenOff(c, m.dying, x), Vacated(c, x);
    if 0 in ch { IdPositive(c, ch, 0); }
    TakeOffConn(c, ch, m, col, x);
    TakeOffMaximal(c, m, x);
    TakeOffLibs(c, ch, m, x);
    TakeOffLinked(c, ch, m, x);
    assert View(c', m) == View(c1, m);
    assert Conn(c', m) by { hide View, Maximal, Stony, Cover; }
    assert Maximal(c', m) by { hide View, Conn, Stony, Cover; }
  }

  // ------------------------------------------------------------ the whole chain

  /** The board once all the stones of a chain are off. */
  function TakenAll(c: Core, grp: int, l: seq<int>, i: int): (r: Core)
    requires 0 <= i <= |l| && c.st >= 3 && |c.b| == |c.g|
    requires forall j :: 0 <= j < |l| ==> c.st <= l[j] < |c.g| - c.st
    ensures |r.b| == |c.b| == |r.g| && r.st == c.st && r.p == c.p && |r.lib| == |c.lib|
  {
    if i == 0 then c else TakenOff(TakenAll(c, grp, l, i - 1), grp, l[i - 1])
  }

  lemma {:induction false} CaptureUpToCore(s: State, grp: int, l: seq<int>, i: int)
    requires Sized(s) && 0 <= i <= |l| && forall j :: 0 <= j < |l| ==> Inner(s, l[j])
    ensures K(CaptureUpTo(s, grp, l, i)) == TakenAll(K(s), grp, l, i)
    decreases i
  {
    hide RemoveStone, TakenOff, Bump, Other;
    if i > 0 {
      CaptureUpToCore(s, grp, l, i - 1);
      var s1, x := CaptureUpTo(s, grp, l, i - 1), l[i - 1];
      assert Inner(s, x);
      RemoveStoneCore(s1.(caps := Bump(s1.caps, Other(s1.b[x]), 1)), grp, x);
    }
  }

  lemma CaptureCore(s: State, grp: int, l: seq<int>)
    requires Sized(s) && ChainList(K(s), grp, l) && 0 <= grp < |s.lib|
    ensures Walkable(s, grp) && ChainOf(s, grp) == l
    ensures forall j :: 0 <= j < |l| ==> s.st <= l[j] < |s.g| - s.st
    ensures var r := TakenAll(K(s), grp, l, |l|); K(Capture(s, grp)) == r.(lib := r.lib[grp := []])
  {
    WalkIsChain(K(s), grp, l);
    forall j | 0 <= j < |l| ensures Inner(s, l[j]) { assert Pt(K(s), l[j]); }
    CaptureUpToCore(s, grp, l, |l|);
  }

  lemma {:induction false} TakenAllShape(c: Core, grp: int, l: seq<int>, i: int)
    requires 0 <= i <= |l| && c.st >= 3 && |c.b| == |c.g|
    requires forall j :: 0 <= j < |l| ==> c.st <= l[j] < |c.g| - c.st
    ensures var r := TakenAll(c, grp, l, i); forall x :: 0 <= x < |c.b| ==>
      r.b[x] == (if x in l[..i] then Empty else c.b[x]) && r.g[x] == (if x in l[..i] then 0 else c.g[x])
    decreases i
  {
    if i > 0 {
      TakenAllShape(c, grp, l, i - 1);
      assert l[..i] == l[..i - 1] + [l[i - 1]];
    }
  }

  lemma {:induction false} TakenAllGains(c: Core, grp: int, l: seq<int>, i: int)
    requires 0 <= i <= |l| && c.st >= 3 && |c.b| == |c.g|
    requires forall j :: 0 <= j < |l| ==> c.st <= l[j] < |c.g| - c.st
    ensures var r := TakenAll(c, grp, l, i);
      forall h :: 0 <= h < |c.lib| ==> c.lib[h] <= r.lib[h]
    decreases i
  {
    if i > 0 {
      TakenAllGains(c, grp, l, i - 1);
    }
  }

  lemma {:induction false} TakenAllW(c: Core, ch: Chains, m: Mid, col: Stone, l: seq<int>, i: int)
    requires W(c, ch, m) && Apart(c, m, col) && Lists(c, m.dying, l) && 0 <= i <= |l|
    ensures forall j :: 0 <= j < |l| ==> c.st <= l[j] < |c.g| - c.st
    ensures var r := TakenAll(c, m.dying, l, i); W(r, ch, m) && Apart(r, m, col)
    decreases i
  {
    hide Apart, TakenOff, Linked, Cover, Stony, Conn, Maximal, LibsOK, MidOK;
    forall j | 0 <= j < |l| ensures c.st <= l[j] < |c.g| - c.st { assert Pt(c, l[j]); }
    if i > 0 {
      TakenAllW(c, ch, m, col, l, i - 1);
      TakenAllShape(c, m.dying, l, i - 1);
      var c1 := TakenAll(c, m.dying, l, i - 1);
      assert l[i - 1] !in l[..i - 1];
      assert c.g[l[i - 1]] == m.dying;
      assert Pt(c, l[i - 1]);
      TakeOffW(c1, ch, m, col, l[i - 1]);
    }
  }

  ghost predicate CanCapture(c: Core, ch: Chains, m: Mid, grp: int, col: Stone) {
    && W(c, ch, m) && m.dying == 0 && grp in ch && 0 <= grp < |c.b| && c.b[grp] == col
    && IsColour(col) && (m.tint == Empty || m.tint != col || m.k == 4) && c.g[m.coord] != grp
  }

  lemma StartDying(c: Core, ch: Chains, m: Mid, grp: int, col: Stone)
    requires CanCapture(c, ch, m, grp, col)
    ensures W(c, ch - {grp}, m.(dying := grp)) && Apart(c, m.(dying := grp), col)
  {
    hide Reach, LibOK, Libs, Framed, ChainList;
    var m' := m.(dying := grp);
    assert View(c, m') == View(c, m);
    forall w | 0 <= w < |c.g| && c.g[w] == grp ensures c.b[w] == col {
      assert Reach(View(c, m), c.st, grp, w);
      ReachRange(View(c, m), c.st, grp, w);
    }
    forall h ensures Libs(c, m', h) == Libs(c, m, h) { SameLibs(c, m, m', h); }
    assert Maximal(c, m');
    assert LibsOK(c, ch - {grp}, m');
    assert grp != 0 by { if grp == 0 { ZeroNoId(c, ch, m); } }
  }

  lemma ZeroNoId(c: Core, ch: Chains, m: Mid)
    requires Shape(c) && Linked(c, ch)
    ensures 0 !in ch
  {
    if 0 in ch { IdPositive(c, ch, 0); }
  }

  lemma SameLibs(c: Core, m: Mid, m': Mid, h: int)
    requires m'.coord == m.coord && m'.blk == m.blk
    ensures Libs(c, m', h) == Libs(c, m, h)
  {
    assert forall y :: IsLib(c, m', h, y) == IsLib(c, m, h, y);
  }

  /** A chain with its whole list taken off, and its own liberty list wiped. */
  function Captured(c: Core, grp: int, l: seq<int>): Core
    requires c.st >= 3 && |c.b| == |c.g| && 0 <= grp < |c.lib|
    requires forall j :: 0 <= j < |l| ==> c.st <= l[j] < |c.g| - c.st
  {
    var r := TakenAll(c, grp, l, |l|);
    r.(lib := r.lib[grp := []])
  }

  lemma EndDying(c: Core, ch: Chains, m: Mid, grp: int)
    requires W(c, ch, m.(dying := grp)) && m.dying == 0 && 0 < grp < |c.b|
    requires forall x :: 0 <= x < |c.g| ==> c.g[x] != grp
    ensures W(c.(lib := c.lib[grp := []]), ch, m)
  {
    hide Reach, LibOK, IsLib, Framed, ChainList;
    var m', c' := m.(dying := grp), c.(lib := c.lib[grp := []]);
    assert View(c', m) == View(c, m');
    ZeroNoId(c, ch, m');
    LinkedIgnoresLib(c, ch, c'.lib);
    forall h | 0 <= h < |c.lib| && h in ch ensures LibOK(c'.lib[h], Libs(c', m, h)) {
      SameLibs(c, m', m, h);
      LibsIgnoreLib(c, m, h, c'.lib);
    }
    assert Maximal(c', m);
    assert Conn(c', m);
  }

  lemma CaptureW(c: Core, ch: Chains, m: Mid, grp: int, col: Stone)
    requires CanCapture(c, ch, m, grp, col)
    ensures grp in ch && |c.b| == |c.g| && 0 <= grp < |c.lib| && c.st >= 3
    ensures forall j :: 0 <= j < |ch[grp]| ==> c.st <= ch[grp][j] < |c.g| - c.st
    ensures W(Captured(c, grp, ch[grp]), ch - {grp}, m)
    ensures var r := Captured(c, grp, ch[grp]); forall x :: 0 <= x < |c.b| ==>
      r.b[x] == (if c.g[x] == grp then Empty else c.b[x]) && r.g[x] == (if c.g[x] == grp then 0 else c.g[x])
  {
    hide Reach, Maximal, Conn, LibsOK, TakenOff, Links, Distinct;
    IdPositive(c, ch, grp);
    var l := ch[grp];
    ListsAll(c, ch, m, grp);
    StartDying(c, ch, m, grp, col);
    TakenAllW(c, ch - {grp}, m.(dying := grp), col, l, |l|);
    TakenAllShape(c, grp, l, |l|);
    assert l[..|l|] == l;
    var r := TakenAll(c, grp, l, |l|);
    forall x | 0 <= x < |c.g| ensures (x in l) == (c.g[x] == grp) && r.g[x] != grp {}
    EndDying(r, ch - {grp}, m, grp);
  }
}
