/** Each routine of a move keeps the mid-move invariant. */
module Steps {
  import opened Grid
  import opened LibList
  import opened Engine
  import opened Invariant

  lemma IdPositive(c: Core, ch: Chains, grp: int)
    requires Shape(c) && Linked(c, ch) && grp in ch
    ensures 0 < grp < |c.b| && c.g[grp] == grp && Pt(c, grp)
  {
    assert ChainList(c, grp, ch[grp]);
    assert Pt(c, ch[grp][0]);
  }

  lemma LinkedIgnoresLib(c: Core, ch: Chains, lib: seq<seq<int>>)
    requires Linked(c, ch)
    ensures Linked(c.(lib := lib), ch)
  {
    forall grp | grp in ch ensures ChainList(c.(lib := lib), grp, ch[grp]) {
      assert ChainList(c, grp, ch[grp]);
    }
  }

  lemma LibsIgnoreLib(c: Core, m: Mid, grp: int, lib: seq<seq<int>>)
    ensures Libs(c.(lib := lib), m, grp) == Libs(c, m, grp)
  {
    assert forall x :: IsLib(c.(lib := lib), m, grp, x) == IsLib(c, m, grp, x);
  }

  /** Replacing liberty lists touches nothing but LibsOK. */
  lemma WithLib(c: Core, ch: Chains, m: Mid, lib: seq<seq<int>>, blk: set<int>)
    requires W(c, ch, m) && |lib| == |c.lib|
    requires LibsOK(c.(lib := lib), ch, m.(blk := blk))
    ensures W(c.(lib := lib), ch, m.(blk := blk))
  {
    var c', m' := c.(lib := lib), m.(blk := blk);
    LinkedIgnoresLib(c, ch, lib);
    assert View(c', m') == View(c, m);
    assert Conn(c', m') by { assert Conn(c, m); }
    assert Maximal(c', m') by { assert Maximal(c, m); }
  }

  lemma DropPlayed(c: Core, m: Mid, grp: int, l: seq<int>)
    requires Framed(c.b, c.st) && Lists(c, grp, l) && 0 <= grp < |c.lib| && |c.g| == |c.b|
    requires LibOK(c.lib[grp], Libs(c, m, grp))
    ensures LibOK(Dropped(c, grp, m.coord), Libs(c, m.(blk := m.blk + {grp}), grp))
  {
    forall y | y != m.coord ensures y in EmptyAround(c.b, c.st, l, |l|) <==> y in Libs(c, m, grp) {
      AroundIsTouch(c, grp, l, y);
    }
    DroppedOK(c, grp, l, m.coord, Libs(c, m, grp));
    assert Libs(c, m.(blk := m.blk + {grp}), grp) == Libs(c, m, grp) - {m.coord};
  }

  lemma DropOther(c: Core, m: Mid, grp: int, h: int)
    requires h != grp
    ensures Libs(c, m.(blk := m.blk + {grp}), h) == Libs(c, m, h)
  {
    assert forall y :: IsLib(c, m.(blk := m.blk + {grp}), h, y) == IsLib(c, m, h, y);
  }

  /** Removing the played point from the list of grp: grp joins the chains that no longer
      count it. */
  lemma RemoveLibW(c: Core, ch: Chains, m: Mid, grp: int)
    requires W(c, ch, m) && grp in ch && m.dying == 0
    ensures 0 <= grp < |c.lib|
    ensures W(c.(lib := c.lib[grp := Dropped(c, grp, m.coord)]), ch, m.(blk := m.blk + {grp}))
  {
    hide Conn, Maximal, Stony, Reach;
    IdPositive(c, ch, grp);
    ListsAll(c, ch, m, grp);
    var m' := m.(blk := m.blk + {grp});
    var lib := c.lib[grp := Dropped(c, grp, m.coord)];
    var c' := c.(lib := lib);
    DropPlayed(c, m, grp, ch[grp]);
    forall h | 0 <= h < |lib| && h in ch
      ensures LibOK(lib[h], Libs(c', m', h))
    {
      LibsIgnoreLib(c, m', h, lib);
      if h != grp { DropOther(c, m, grp, h); }
    }
    WithLib(c, ch, m, lib, m'.blk);
  }

  // ------------------------------------------------------------ joining a chain

  lemma NextEmptyNb(b: seq<Stone>, st: int, x: int, k: int)
    requires 1 <= k <= 4
    ensures var y := Nb(st, x, k - 1); var l := EmptyNbs(b, st, x, k - 1);
      EmptyNbs(b, st, x, k) == if 0 <= y < |b| && b[y] == Empty then l + [y] else l
    ensures EmptyNbs(b, st, x, 0) == []
  {
  }

  lemma SelfUpdate(s: State, grp: int)
    requires 0 <= grp < |s.lib|
    ensures K(s) == K(s).(lib := s.lib[grp := s.lib[grp]])
  {
    assert s.lib[grp := s.lib[grp]] == s.lib;
  }

  lemma AddEmptyNbsNext(s: State, grp: int, x: int, k: int)
    requires 1 <= k <= 4 && Inner(s, x) && 0 <= grp < |s.lib|
    ensures var s1 := AddEmptyNbs(s, grp, x, k - 1); var y := Nb(s.st, x, k - 1);
      0 <= y < |s.b| && |s1.lib| == |s.lib| && AddEmptyNbs(s, grp, x, k) ==
        if s.b[y] == Empty then AddLib(s1, grp, y) else s1
    ensures AddEmptyNbs(s, grp, x, 0) == s
  {
    hide AddLib;
  }

  lemma {:induction false} AddEmptyNbsCore(s: State, grp: int, x: int, k: int)
    requires 0 <= k <= 4 && Inner(s, x) && 0 <= grp < |s.lib|
    ensures K(AddEmptyNbs(s, grp, x, k))
         == K(s).(lib := s.lib[grp := Appended(s.lib[grp], EmptyNbs(s.b, s.st, x, k))])
  {
    hide AddLib, AddEmptyNbs, EmptyNbs, Appended, AddL;
    if k == 0 {
      NextEmptyNb(s.b, s.st, x, 1);
      AddEmptyNbsNext(s, grp, x, 1);
      AppendedNext(s.lib[grp], [], 0);
      SelfUpdate(s, grp);
    } else {
      AddEmptyNbsCore(s, grp, x, k - 1);
      NextEmptyNb(s.b, s.st, x, k);
      AddEmptyNbsNext(s, grp, x, k);
      var y := Nb(s.st, x, k - 1);
      if s.b[y] == Empty {
        AddLibCore(AddEmptyNbs(s, grp, x, k - 1), grp, y);
        AppendedNext(s.lib[grp], EmptyNbs(s.b, s.st, x, k - 1), y);
      }
    }
  }

  function Joined(c: Core, grp: int, prev: int, x: int): Core
    requires 0 <= x < |c.b| == |c.g| == |c.p| == |c.lib| && 0 <= grp < |c.b| && 0 <= prev < |c.b|
  {
    c.(g := c.g[x := grp], p := c.p[x := c.p[prev]][prev := x],
       lib := c.lib[grp := Appended(c.lib[grp], EmptyNbs(c.b, c.st, x, 4))])
  }

  lemma AddToGroupCore(s: State, grp: int, prev: int, x: int)
    requires Inner(s, x) && 0 <= grp < |s.lib| && 0 <= prev < |s.p|
    ensures K(AddToGroup(s, grp, prev, x)) == Joined(K(s), grp, prev, x)
  {
    AddEmptyNbsCore(s.(g := s.g[x := grp], p := s.p[x := s.p[prev]][prev := x]), grp, x, 4);
  }

  ghost predicate CanJoin(c: Core, ch: Chains, m: Mid, grp: int, prev: int, col: Stone) {
    && 0 <= m.k < 4 && 0 <= m.coord < |c.b| && Pt(c, m.coord) && |c.g| == |c.b|
    && m.dying == 0 && m.tint == Empty && IsColour(col) && c.b[m.coord] == Empty
    && prev == Nb(c.st, m.coord, m.k) && 0 <= prev < |c.b|
    && grp in ch && grp in m.blk && c.g[prev] == grp && c.b[prev] == col
    && NoneBefore(c, m, col) && W(c, ch, m)
  }

  /** None of the neighbours handled so far has the colour col. */
  ghost predicate NoneBefore(c: Core, m: Mid, col: Stone) {
    forall j :: 0 <= j < m.k && 0 <= Nb(c.st, m.coord, j) < |c.b| ==> c.b[Nb(c.st, m.coord, j)] != col
  }

  function Inserted(l: seq<int>, prev: int, x: int): seq<int>
    requires prev in l
  {
    var i := Index(l, prev);
    l[..i + 1] + [x] + l[i + 1..]
  }

  lemma InsertedAt(l: seq<int>, prev: int, x: int)
    requires prev in l
    ensures var r := Inserted(l, prev, x); var i := Index(l, prev);
      |r| == |l| + 1 && forall a :: 0 <= a < |r| ==>
        r[a] == if a <= i then l[a] else if a == i + 1 then x else l[a - 1]
    ensures forall y :: y in Inserted(l, prev, x) <==> y in l || y == x
  {
    var i := Index(l, prev);
    var r := Inserted(l, prev, x);
    forall y | y in l ensures y in r {
      var a :| 0 <= a < |l| && l[a] == y;
      assert r[if a <= i then a else a + 1] == y;
    }
    assert r[i + 1] == x;
  }

  lemma InsertedDistinct(l: seq<int>, prev: int, x: int)
    requires Distinct(l) && prev in l && x !in l
    ensures Distinct(Inserted(l, prev, x))
  {
    InsertedAt(l, prev, x);
    var r, i := Inserted(l, prev, x), Index(l, prev);
    forall a, b | 0 <= a < b < |r| ensures r[a] != r[b] {
      var a', b' := if a <= i then a else a - 1, if b <= i then b else b - 1;
      if a != i + 1 && b != i + 1 {
        assert l[a'] != l[b'];
      } else {
        assert l[a'] in l && l[b'] in l;
      }
    }
  }

  lemma InsertedLinks(p: seq<int>, l: seq<int>, prev: int, x: int)
    requires Distinct(l) && prev in l && x !in l && 0 <= x < |p| && Links(p, l)
    ensures 0 <= prev < |p| && Links(p[x := p[prev]][prev := x], Inserted(l, prev, x))
  {
    InsertedAt(l, prev, x);
    var i := Index(l, prev);
    var r, q := Inserted(l, prev, x), p[x := p[prev]][prev := x];
    forall a | 0 <= a < |r| ensures 0 <= r[a] < |q| && q[r[a]] == Next(r, a) {
      if a < i { assert l[a] != l[i]; assert l[a] in l; }
      else if a > i + 1 { assert l[a - 1] != l[i]; assert l[a - 1] in l; }
    }
    assert Links(q, r);
  }

  lemma InsertedList(c: Core, grp: int, l: seq<int>, prev: int, x: int)
    requires ChainList(c, grp, l) && prev in l && Pt(c, x) && c.g[x] == 0
    requires grp != 0 && 0 <= grp < |c.lib| == |c.b|
    ensures ChainList(Joined(c, grp, prev, x), grp, Inserted(l, prev, x))
  {
    hide Appended, EmptyNbs, Links;
    var r, c' := Inserted(l, prev, x), Joined(c, grp, prev, x);
    assert x !in l;
    InsertedAt(l, prev, x);
    InsertedDistinct(l, prev, x);
    InsertedLinks(c.p, l, prev, x);
  }

  lemma JoinLinked(c: Core, ch: Chains, m: Mid, grp: int, prev: int, col: Stone)
    requires CanJoin(c, ch, m, grp, prev, col) && prev in ch[grp] && 0 < grp < |c.b|
    ensures Linked(Joined(c, grp, prev, m.coord), ch[grp := Inserted(ch[grp], prev, m.coord)])
  {
    var c' := Joined(c, grp, prev, m.coord);
    assert c.g[m.coord] == 0;
    InsertedList(c, grp, ch[grp], prev, m.coord);
    forall h | h in ch && h != grp ensures ChainList(c', h, ch[h]) {
      assert ChainList(c, h, ch[h]);
      assert m.coord !in ch[h] && prev !in ch[h];
    }
  }

  lemma JoinConn(c: Core, m: Mid, grp: int, prev: int, col: Stone)
    requires |c.g| == |c.b| == |c.p| == |c.lib| && 0 <= m.coord < |c.b| && c.b[m.coord] == Empty
    requires m.dying == 0 && m.tint == Empty && IsColour(col)
    requires 0 < grp < |c.b| && 0 <= prev < |c.b| && c.g[prev] == grp && c.b[prev] == col
    requires Adj(c.st, prev, m.coord) && Conn(c, m) && Stony(c, m)
    ensures Conn(Joined(c, grp, prev, m.coord), m.(tint := col, k := m.k + 1))
  {
    hide Reach, EmptyNbs, Appended, Adj;
    var c' := Joined(c, grp, prev, m.coord);
    var v, v' := View(c, m), View(c', m.(tint := col, k := m.k + 1));
    forall x | 0 <= x < |c'.g| && c'.g[x] != 0 && c'.g[x] != m.dying ensures Reach(v', c.st, c'.g[x], x) {
      if x != m.coord {
        ReachRange(v, c.st, c.g[x], x);
        ReachMono(v, v', c.st, c.g[x], x);
      } else {
        ReachRange(v, c.st, grp, prev);
        ReachMono(v, v', c.st, grp, prev);
        ReachStep(v', c.st, grp, prev, x);
      }
    }
  }

  lemma JoinMaximal(c: Core, m: Mid, grp: int, prev: int, col: Stone)
    requires |c.g| == |c.b| == |c.p| == |c.lib| && 0 <= m.coord < |c.b| && c.b[m.coord] == Empty
    requires m.tint == Empty && IsColour(col) && 0 <= m.k < 4
    requires 0 <= grp < |c.b| && 0 <= prev < |c.b| && c.g[prev] == grp && prev == Nb(c.st, m.coord, m.k)
    requires NoneBefore(c, m, col) && Maximal(c, m)
    ensures Maximal(Joined(c, grp, prev, m.coord), m.(tint := col, k := m.k + 1))
  {
    var c' := Joined(c, grp, prev, m.coord);
    var m' := m.(tint := col, k := m.k + 1);
    var v' := View(c', m');
    forall x, y | Adj(c.st, x, y) && 0 <= x < |c.b| && 0 <= y < |c.b|
                  && IsColour(v'[x]) && v'[x] == v'[y] && c'.g[x] != c'.g[y]
      ensures (x == m.coord && Later(m', c.st, y)) || (y == m.coord && Later(m', c.st, x))
    {
      if x == m.coord { var j := NbAdj(c.st, x, y); }
      else if y == m.coord { var j := NbAdj(c.st, y, x); }
    }
  }

  /** Relabelling the point x makes exactly its neighbours touch the chain anew. */
  lemma TouchJoined(g: seq<int>, st: int, x: int, y: int, grp: int)
    requires st >= 3 && 0 <= x < |g| && st <= y < |g| - st
    ensures (g[x := grp][y - st] == grp || g[x := grp][y - 1] == grp || g[x := grp][y + 1] == grp
      || g[x := grp][y + st] == grp)
      <==> Adj(st, x, y) || g[y - st] == grp || g[y - 1] == grp || g[y + 1] == grp || g[y + st] == grp
  {
  }

  /** The liberties of the chain joined gain the empty neighbours of the new stone. */
  lemma JoinLib(c: Core, m: Mid, grp: int, prev: int, m': Mid, y: int)
    requires Shape(c) && Pt(c, m.coord) && 0 < grp < |c.b| && 0 <= prev < |c.b| && 0 <= y < |c.b|
    requires c.b[m.coord] == Empty && c.g[m.coord] == 0 && grp in m.blk
    requires m'.coord == m.coord && m'.blk == m.blk
    ensures IsLib(Joined(c, grp, prev, m.coord), m', grp, y) <==>
      IsLib(c, m, grp, y) || y in EmptyNbs(c.b, c.st, m.coord, 4)
  {
    hide EmptyNbs, Adj, Framed, Appended;
    StrideWide(c);
    EmptyNbsAdj(c.b, c.st, m.coord, y);
    NotSelf(c.st, m.coord);
    if c.b[y] == Empty {
      EmptyPt(c, y);
      TouchJoined(c.g, c.st, m.coord, y, grp);
    }
  }

  lemma StrideWide(c: Core)
    requires Shape(c)
    ensures c.st >= 3
  {
  }

  lemma NotSelf(st: int, x: int)
    requires st >= 3
    ensures !Adj(st, x, x)
  {
  }

  lemma EmptyPt(c: Core, y: int)
    requires Shape(c) && 0 <= y < |c.b| && c.b[y] == Empty
    ensures Pt(c, y)
  {
  }

  lemma JoinLibsGrp(c: Core, m: Mid, grp: int, prev: int, m': Mid)
    requires Shape(c) && Pt(c, m.coord) && 0 < grp < |c.b| && 0 <= prev < |c.b|
    requires c.b[m.coord] == Empty && c.g[m.coord] == 0 && grp in m.blk
    requires m'.coord == m.coord && m'.blk == m.blk && LibOK(c.lib[grp], Libs(c, m, grp))
    ensures var c' := Joined(c, grp, prev, m.coord); LibOK(c'.lib[grp], Libs(c', m', grp))
  {
    var c' := Joined(c, grp, prev, m.coord);
    var e := EmptyNbs(c.b, c.st, m.coord, 4);
    EmptyNbsMembers(c.b, c.st, m.coord, 4);
    var E := set y | y in e;
    AppendOK(c.lib[grp], Libs(c, m, grp), e, E);
    hide EmptyNbs, LibOK, Appended, Touch, IsLib;
    forall y | 0 <= y < |c.b| ensures y in Libs(c', m', grp) <==> y in Libs(c, m, grp) + E {
      JoinLib(c, m, grp, prev, m', y);
    }
    assert Libs(c', m', grp) == Libs(c, m, grp) + E;
  }

  lemma LibsSame(c: Core, c': Core, m: Mid, m': Mid, h: int)
    requires c'.b == c.b && c'.st == c.st && |c'.g| == |c.g| == |c.b|
    requires forall x :: 0 <= x < |c.g| ==> (c'.g[x] == h <==> c.g[x] == h)
    requires m'.coord == m.coord && (h in m'.blk <==> h in m.blk)
    ensures Libs(c', m', h) == Libs(c, m, h)
  {
    assert forall y :: IsLib(c', m', h, y) == IsLib(c, m, h, y);
  }

  lemma JoinLibs(c: Core, ch: Chains, m: Mid, grp: int, prev: int, col: Stone)
    requires CanJoin(c, ch, m, grp, prev, col) && prev in ch[grp] && 0 < grp < |c.b|
    ensures LibsOK(Joined(c, grp, prev, m.coord), ch[grp := Inserted(ch[grp], prev, m.coord)],
                   m.(tint := col, k := m.k + 1))
  {
    var c' := Joined(c, grp, prev, m.coord);
    var m' := m.(tint := col, k := m.k + 1);
    assert c.g[m.coord] == 0;
    JoinLibsGrp(c, m, grp, prev, m');
    forall h | 0 <= h < |c.lib| && h in ch && h != grp ensures LibOK(c'.lib[h], Libs(c', m', h)) {
      IdPositive(c, ch, h);
      LibsSame(c, c', m, m', h);
    }
  }

  lemma JoinW(c: Core, ch: Chains, m: Mid, grp: int, prev: int, col: Stone)
    requires CanJoin(c, ch, m, grp, prev, col)
    ensures 0 < grp < |c.b| && prev in ch[grp]
    ensures W(Joined(c, grp, prev, m.coord), ch[grp := Inserted(ch[grp], prev, m.coord)],
              m.(tint := col, k := m.k + 1))
  {
    hide Conn, Maximal, LibsOK, Linked, NoneBefore, Reach;
    IdPositive(c, ch, grp);
    assert prev in ch[grp];
    InsertedAt(ch[grp], prev, m.coord);
    JoinLinked(c, ch, m, grp, prev, col);
    JoinConn(c, m, grp, prev, col);
    JoinMaximal(c, m, grp, prev, col);
    JoinLibs(c, ch, m, grp, prev, col);
  }

  // ------------------------------------------------------------ merging two chains

  lemma {:induction false} AppendLibsCore(s: State, to: int, l: seq<int>, i: int)
    requires Sized(s) && 0 <= to < |s.lib| && 0 <= i <= |l|
    ensures K(AppendLibs(s, to, l, i)) == K(s).(lib := s.lib[to := Appended(s.lib[to], l[..i])])
    decreases i
  {
    if i == 0 {
      assert s.lib[to := s.lib[to]] == s.lib;
    } else {
      hide AddLib, Appended, AddL;
      AppendLibsCore(s, to, l, i - 1);
      AddLibCore(AppendLibs(s, to, l, i - 1), to, l[i - 1]);
      AppendedNext(s.lib[to], l[..i - 1], l[i - 1]);
      assert l[..i] == l[..i - 1] + [l[i - 1]];
    }
  }

  lemma {:induction false} RelabelAt(g: seq<int>, stones: seq<int>, to: int, i: int)
    requires 0 <= i <= |stones| && forall j :: 0 <= j < |stones| ==> 0 <= stones[j] < |g|
    ensures forall x :: 0 <= x < |g| ==> Relabel(g, stones, to, i)[x] == if x in stones[..i] then to else g[x]
    decreases i
  {
    if i > 0 {
      RelabelAt(g, stones, to, i - 1);
      assert stones[..i] == stones[..i - 1] + [stones[i - 1]];
    }
  }

  function Merged(c: Core, to: int, from: int, l: seq<int>): Core
    requires |c.g| == |c.p| == |c.lib| && 0 <= to < |c.g| && 0 <= from < |c.g|
    requires |l| > 0 && forall j :: 0 <= j < |l| ==> 0 <= l[j] < |c.g|
  {
    c.(g := Relabel(c.g, l, to, |l|), p := c.p[l[|l| - 1] := c.p[to]][to := from],
       lib := c.lib[to := Appended(c.lib[to], c.lib[from])][from := []])
  }

  lemma MergeCore(s: State, to: int, from: int, l: seq<int>)
    requires Sized(s) && 0 <= to < |s.lib| && 0 <= from < |s.lib| && ChainList(K(s), from, l)
    ensures forall j :: 0 <= j < |l| ==> 0 <= l[j] < |s.g|
    ensures Walkable(s, from) && ChainOf(s, from) == l
    ensures K(Merge(s, to, from)) == Merged(K(s), to, from, l)
  {
    WalkIsChain(K(s), from, l);
    forall j | 0 <= j < |l| ensures Inner(s, l[j]) { assert Pt(K(s), l[j]); }
    var f := s.lib[from];
    var s0 := if |f| == 1 then AtariRemove(s, from) else s;
    assert K(s0) == K(s);
    AppendLibsCore(s0, to, f, |f|);
    assert f[..|f|] == f;
  }

  ghost predicate CanMerge(c: Core, ch: Chains, m: Mid, to: int, from: int, y: int) {
    && 0 <= m.k < 4 && 0 <= m.coord < |c.b| && Pt(c, m.coord) && |c.g| == |c.b|
    && m.dying == 0 && IsColour(m.tint) && y == Nb(c.st, m.coord, m.k) && 0 <= y < |c.b|
    && to in ch && from in ch && to != from && to in m.blk && from in m.blk
    && c.g[m.coord] == to && c.g[y] == from && c.b[y] == m.tint
    && W(c, ch, m)
  }

  function Spliced(a: seq<int>, b: seq<int>): seq<int>
    requires |a| > 0
  {
    [a[0]] + b + a[1..]
  }

  lemma SplicedMembers(a: seq<int>, b: seq<int>)
    requires |a| > 0
    ensures forall y :: y in Spliced(a, b) <==> y in a || y in b
  {
    assert a == [a[0]] + a[1..];
  }

  lemma SplicedDistinct(a: seq<int>, b: seq<int>)
    requires |a| > 0 && Distinct(a) && Distinct(b) && forall y :: y in a ==> y !in b
    ensures Distinct(Spliced(a, b))
  {
    var r := Spliced(a, b);
    forall i, j | 0 <= i < j < |r| ensures r[i] != r[j] {
      if 1 <= i <= |b| && j > |b| { assert a[j - |b|] in a; assert b[i - 1] in b; }
      if i == 0 && j <= |b| { assert a[0] in a; assert b[j - 1] in b; }
    }
  }

  lemma SplicedLinks(p: seq<int>, a: seq<int>, b: seq<int>)
    requires |a| > 0 && |b| > 0 && Distinct(a) && Distinct(b) && (forall y :: y in a ==> y !in b)
    requires Links(p, a) && Links(p, b)
    ensures 0 <= b[|b| - 1] < |p| && 0 <= a[0] < |p|
    ensures Links(p[b[|b| - 1] := p[a[0]]][a[0] := b[0]], Spliced(a, b))
  {
    var r := Spliced(a, b);
    var q := p[b[|b| - 1] := p[a[0]]][a[0] := b[0]];
    assert a[0] in a && b[|b| - 1] in b;
    forall i | 0 <= i < |r| ensures 0 <= r[i] < |q| && q[r[i]] == Next(r, i) {
      if i == 0 {
        assert r[1] == b[0];
      } else if i < |b| {
        assert r[i] == b[i - 1] && r[i + 1] == b[i];
        assert b[i - 1] in b && b[i - 1] != b[|b| - 1];
      } else if i == |b| {
        assert p[a[0]] == Next(a, 0);
      } else {
        var j := i - |b|;
        assert r[i] == a[j] && a[j] in a && a[0] != a[j];
        assert p[a[j]] == Next(a, j);
      }
    }
    assert Links(q, r);
  }

  function MergedChains(ch: Chains, to: int, from: int): Chains
    requires to in ch && from in ch && |ch[to]| > 0
  {
    (ch - {from})[to := Spliced(ch[to], ch[from])]
  }

  lemma MergeLists(c: Core, ch: Chains, to: int, from: int)
    requires Shape(c) && Linked(c, ch) && to in ch && from in ch && to != from
    ensures 0 < to < |c.b| && 0 < from < |c.b| && |ch[to]| > 0 && |ch[from]| > 0
    ensures forall j :: 0 <= j < |ch[from]| ==> 0 <= ch[from][j] < |c.g|
    ensures Linked(Merged(c, to, from, ch[from]), MergedChains(ch, to, from))
  {
    IdPositive(c, ch, to);
    IdPositive(c, ch, from);
    var a, b := ch[to], ch[from];
    assert ChainList(c, to, a) && ChainList(c, from, b);
    forall j | 0 <= j < |b| ensures 0 <= b[j] < |c.g| { assert Pt(c, b[j]); }
    var c' := Merged(c, to, from, b);
    RelabelAt(c.g, b, to, |b|);
    assert b[..|b|] == b;
    SplicedMembers(a, b);
    SplicedDistinct(a, b);
    SplicedLinks(c.p, a, b);
    var r := Spliced(a, b);
    forall i | 0 <= i < |r| ensures Pt(c', r[i]) && c'.g[r[i]] == to {
      assert r[i] in r;
      if r[i] in a { assert c.g[r[i]] == to; } 
    }
    assert ChainList(c', to, r);
    forall h | h in ch && h != to && h != from ensures ChainList(c', h, ch[h]) {
      MergeOthers(c, c', h, ch[h], to, from, b);
    }
  }

  lemma MergeOthers(c: Core, c': Core, h: int, l: seq<int>, to: int, from: int, b: seq<int>)
    requires ChainList(c, h, l) && ChainList(c, from, b) && h != to && h != from
    requires 0 <= to < |c.g| && c.g[to] == to && |c'.g| == |c.g| && c'.b == c.b && c'.st == c.st
    requires 0 <= b[|b| - 1] < |c.g|
    requires c'.p == c.p[b[|b| - 1] := c.p[to]][to := from]
    requires forall x :: 0 <= x < |c.g| ==> c'.g[x] == if x in b then to else c.g[x]
    ensures ChainList(c', h, l)
  {
    assert Links(c'.p, l) by {
      assert forall i :: 0 <= i < |l| ==> c.g[l[i]] == h;
    }
    forall i | 0 <= i < |l| ensures c'.g[l[i]] == h {
      assert c.g[l[i]] == h;
      assert l[i] !in b;
    }
  }

  ghost predicate Relabelled(c: Core, to: int, from: int, c': Core) {
    && c'.b == c.b && c'.st == c.st && |c'.g| == |c.g|
    && forall x :: 0 <= x < |c.g| ==> c'.g[x] == if c.g[x] == from then to else c.g[x]
  }

  lemma MergeConn(c: Core, m: Mid, to: int, from: int, y: int, c': Core)
    requires |c.g| == |c.b| && 0 <= m.coord < |c.b| && 0 <= y < |c.b| && IsColour(m.tint)
    requires Adj(c.st, m.coord, y) && to != 0 && from != 0 && m.dying == 0
    requires c.g[m.coord] == to && c.g[y] == from && View(c, m)[y] == m.tint
    requires Conn(c, m) && Relabelled(c, to, from, c')
    ensures Conn(c', m.(k := m.k + 1))
  {
    hide Reach;
    var v := View(c, m);
    assert Reach(v, c.st, to, m.coord) && Reach(v, c.st, from, y);
    ReachStep(v, c.st, to, m.coord, y);
    ReachSym(v, c.st, from, y);
    ReachTrans(v, c.st, to, y, from);
    forall x | 0 <= x < |c'.g| && c'.g[x] != 0 ensures Reach(v, c.st, c'.g[x], x) {
      if c.g[x] == from { ReachTrans(v, c.st, to, from, x); }
    }
  }

  lemma MergeMaximal(c: Core, m: Mid, to: int, from: int, y: int, c': Core)
    requires |c.g| == |c.b| && 0 <= m.coord < |c.b| && 0 <= y < |c.b| && 0 <= m.k < 4
    requires y == Nb(c.st, m.coord, m.k) && c.g[m.coord] == to && c.g[y] == from
    requires Maximal(c, m) && Relabelled(c, to, from, c')
    ensures Maximal(c', m.(k := m.k + 1))
  {
    var m' := m.(k := m.k + 1);
    var v := View(c', m');
    assert v == View(c, m);
    forall x, z | Adj(c.st, x, z) && 0 <= x < |c.b| && 0 <= z < |c.b|
                  && IsColour(v[x]) && v[x] == v[z] && c'.g[x] != c'.g[z]
      ensures (x == m.coord && Later(m', c.st, z)) || (z == m.coord && Later(m', c.st, x))
    {
    }
  }

  lemma MergeLibsTo(c: Core, m: Mid, to: int, from: int, c': Core, m': Mid)
    requires |c.g| == |c.b| == |c.lib| && 0 < to < |c.b| && 0 < from < |c.b| && to != from
    requires to in m.blk && from in m.blk && m'.blk == m.blk && m'.coord == m.coord
    requires LibOK(c.lib[to], Libs(c, m, to)) && LibOK(c.lib[from], Libs(c, m, from))
    requires c'.b == c.b && c'.st == c.st && |c'.g| == |c.g|
    requires forall x :: 0 <= x < |c.g| ==> c'.g[x] == if c.g[x] == from then to else c.g[x]
    ensures LibOK(Appended(c.lib[to], c.lib[from]), Libs(c', m', to))
  {
    AppendOK(c.lib[to], Libs(c, m, to), c.lib[from], Libs(c, m, from));
    forall x | 0 <= x < |c.b| ensures IsLib(c', m', to, x) <==> IsLib(c, m, to, x) || IsLib(c, m, from, x) {
    }
    assert Libs(c', m', to) == Libs(c, m, to) + Libs(c, m, from);
  }

  lemma MergeLibs(c: Core, ch: Chains, m: Mid, to: int, from: int, c': Core)
    requires Shape(c) && Linked(c, ch) && LibsOK(c, ch, m) && to in ch && from in ch && to != from
    requires to in m.blk && from in m.blk && 0 < to < |c.b| && 0 < from < |c.b| && |ch[to]| > 0
    requires Relabelled(c, to, from, c') && m.dying == 0
    requires c'.lib == c.lib[to := Appended(c.lib[to], c.lib[from])][from := []]
    ensures LibsOK(c', MergedChains(ch, to, from), m.(k := m.k + 1))
  {
    var m' := m.(k := m.k + 1);
    MergeLibsTo(c, m, to, from, c', m');
    forall h | 0 <= h < |c.lib| && h in ch && h != from && h != to ensures LibOK(c'.lib[h], Libs(c', m', h)) {
      LibsSame(c, c', m, m', h);
    }
  }

  lemma MergeCover(c: Core, ch: Chains, m: Mid, to: int, from: int, c': Core)
    requires Shape(c) && Linked(c, ch) && Cover(c, ch, m) && to in ch && from in ch && to != from
    requires Relabelled(c, to, from, c') && m.dying == 0 && |ch[to]| > 0 && 0 < from && 0 < to
    ensures Cover(c', MergedChains(ch, to, from), m.(k := m.k + 1))
  {
    SplicedMembers(ch[to], ch[from]);
  }

  lemma MergeW(c: Core, ch: Chains, m: Mid, to: int, from: int, y: int)
    requires CanMerge(c, ch, m, to, from, y)
    ensures 0 < to < |c.b| && 0 < from < |c.b| && |ch[to]| > 0 && |ch[from]| > 0
    ensures forall j :: 0 <= j < |ch[from]| ==> 0 <= ch[from][j] < |c.g|
    ensures W(Merged(c, to, from, ch[from]), MergedChains(ch, to, from), m.(k := m.k + 1))
  {
    hide Conn, Maximal, LibsOK, Reach, Cover;
    IdPositive(c, ch, to);
    IdPositive(c, ch, from);
    MergeLists(c, ch, to, from);
    var c' := Merged(c, to, from, ch[from]);
    RelabelAt(c.g, ch[from], to, |ch[from]|);
    assert ch[from][..|ch[from]|] == ch[from];
    ListsAll(c, ch, m, from);
    assert Relabelled(c, to, from, c');
    MergeConn(c, m, to, from, y, c');
    MergeMaximal(c, m, to, from, y, c');
    MergeLibs(c, ch, m, to, from, c');
    MergeCover(c, ch, m, to, from, c');
  }
}
