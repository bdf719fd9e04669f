/** Putting captured stones back one by one repairs the lists of distant chains exactly, even
    where a list overflowed or a refill ran on the half-restored board. */
module UndoRestore {
  import opened Grid
  import opened LibList
  import opened Engine
  import opened Invariant
  import opened Captures
  import opened Undo
  import opened UndoPlay

  /** The points of `gone` next to the chain h. */
  ghost function Near(t: Core, gone: set<int>, h: int): set<int> { set z | z in gone && Touch(t, z, h) }

  /** A chain whose list is to be repaired: of the other colour, and not put back by copy. */
  ghost predicate Repaired(t: Core, ch: Chains, hue: Stone, spared: set<int>, h: int) {
    h in ch && 0 < h < |t.b| && t.b[h] == Other(hue) && h !in spared
  }

  /** The board to be restored, with right chains and right lists where lists get repaired. */
  ghost predicate Target(t: Core, ch: Chains, hue: Stone, spared: set<int>) {
    && Shape(t) && IsColour(hue) && Linked(t, ch)
    && (forall h :: Repaired(t, ch, hue, spared, h) ==> RightList(t, h, ch[h]))
    && (forall y :: 0 <= y < |t.b| && Repaired(t, ch, hue, spared, t.g[y]) ==> t.b[y] == Other(hue))
    && (forall y :: 0 <= y < |t.b| && t.b[y] == Other(hue) ==>
      t.g[y] in ch && 0 < t.g[y] < |t.b| && t.b[t.g[y]] == Other(hue))
  }

  /** The stones in `gone` are missing, everything else is where it belongs. */
  ghost predicate Missing(s: State, t: Core, hue: Stone, gone: set<int>) {
    && Sized(s) && !s.full && s.st == t.st && |s.b| == |t.b| == |t.g| == |t.lib| && s.p == t.p
    && (forall z :: z in gone ==> t.st < z < |t.b| - t.st && t.b[z] == hue)
    && (forall y :: 0 <= y < |s.b| ==> s.b[y] == if y in gone then Empty else t.b[y])
    && (forall y :: 0 <= y < |s.g| ==> s.g[y] == if y in gone then 0 else t.g[y])
  }

  /** Lists to be repaired have gained missing points only; the ids in `due` are still to be put
      back by copy; all other lists are right. */
  ghost predicate ListsHalf(s: State, t: Core, ch: Chains, hue: Stone, spared: set<int>, gone: set<int>, due: set<int>)
    requires |s.lib| == |t.lib|
  {
    forall h :: 0 <= h < |s.lib| && h !in due ==>
      if Repaired(t, ch, hue, spared, h) then Extends(t.lib[h], s.lib[h], Near(t, gone, h))
      else s.lib[h] == t.lib[h]
  }

  ghost predicate Half(s: State, t: Core, ch: Chains, hue: Stone, spared: set<int>, gone: set<int>, due: set<int>) {
    Missing(s, t, hue, gone) && ListsHalf(s, t, ch, hue, spared, gone, due)
  }

  // ------------------------------------------------------------ one list

  ghost predicate RightList(t: Core, h: int, l: seq<int>) {
    && Framed(t.b, t.st) && |t.lib| == |t.b| == |t.g| && 0 < h < |t.b|
    && Lists(t, h, l) && LibOK(t.lib[h], Libs(t, QUIET, h))
  }

  ghost predicate Interiors(t: Core, gone: set<int>) {
    forall z :: z in gone ==> t.st < z < |t.b| - t.st
  }

  lemma SwapRemoveTail(l0: seq<int>, l: seq<int>, z: int)
    requires l0 <= l && Distinct(l) && z in l && z !in l0
    ensures l0 <= SwapRemove(l, z)
  {
    var i := Index(l, z);
    assert forall j :: 0 <= j < |l0| ==> l[j] == l0[j] != z;
  }

  lemma ExtendsMembers(l0: seq<int>, l: seq<int>, extra: set<int>)
    requires l0 <= l && Distinct(l) && |l| <= KEEP && forall x :: x in l && x !in l0 ==> x in extra
    ensures Extends(l0, l, extra)
  {
    forall i | |l0| <= i < |l| ensures l[i] in extra {
      assert l[i] in l;
      assert forall j :: 0 <= j < |l0| ==> l0[j] == l[j] != l[i];
    }
  }

  lemma ExtendsBack(l0: seq<int>, l: seq<int>, extra: set<int>)
    requires Extends(l0, l, extra)
    ensures forall x :: x in l && x !in l0 ==> x in extra
  {
    forall j | 0 <= j < |l0| ensures l[j] in l0 { assert l[j] == l0[j]; }
    forall x | x in l && x !in l0 ensures x in extra {
      var i :| 0 <= i < |l| && l[i] == x;
    }
  }

  /** Removing the stone put back from a list that still has it among its additions: what was
      there at the start keeps its place and order. */
  lemma RepairOne(c: Core, t: Core, h: int, l: seq<int>, z: int, gone: set<int>)
    requires RightList(t, h, l)
    requires Interiors(t, gone) && c.p == t.p && c.st == t.st && |c.b| == |t.b| && |c.lib| == |t.lib|
    requires 0 <= z < |t.b| && t.b[z] != Empty
    requires forall y :: 0 <= y < |c.b| ==> c.b[y] == if y in gone && y != z then Empty else t.b[y]
    requires Extends(t.lib[h], c.lib[h], Near(t, gone, h))
    ensures Extends(t.lib[h], Dropped(c, h, z), Near(t, gone - {z}, h)) && z !in Dropped(c, h, z)
  {
    hide Touch, Framed;
    var l0, lib := t.lib[h], c.lib[h];
    ExtendsBack(l0, lib, Near(t, gone, h));
    assert z in l0 ==> z in Libs(t, QUIET, h);
    var d := Dropped(c, h, z);
    if z in lib {
      SwapRemoveMembers(lib, z);
      SwapRemoveTail(l0, lib, z);
      var r := SwapRemove(lib, z);
      if |r| == REFILL {
        RefillOnHalf(c, t, h, l, r, z, gone);
      } else {
        ExtendsMembers(l0, d, Near(t, gone - {z}, h));
      }
    } else {
      ExtendsMembers(l0, d, Near(t, gone - {z}, h));
    }
  }

  lemma RefillOnHalf(c: Core, t: Core, h: int, l: seq<int>, r: seq<int>, z: int, gone: set<int>)
    requires RightList(t, h, l)
    requires Interiors(t, gone) && c.p == t.p && c.st == t.st && |c.b| == |t.b| && 0 <= z < |t.b| && t.b[z] != Empty
    requires forall y :: 0 <= y < |c.b| ==> c.b[y] == if y in gone && y != z then Empty else t.b[y]
    requires t.lib[h] <= r && Distinct(r) && |r| == REFILL && z !in r
    requires forall x :: x in r && x !in t.lib[h] ==> x in Near(t, gone - {z}, h)
    ensures var stones := Walk(c.p, h, |c.p|); var d := Fill(r, EmptyAround(c.b, c.st, stones, |stones|), z);
      Extends(t.lib[h], d, Near(t, gone - {z}, h)) && z !in d
  {
    hide Touch, Links;
    WalkIsChain(t, h, l);
    var e := EmptyAround(c.b, c.st, l, |l|);
    FillSteps(r, e, z);
    var d := Fill(r, e, z);
    forall x | x in d && x !in t.lib[h] ensures x in Near(t, gone - {z}, h) {
      if x !in r {
        assert x in e && x != z;
        AroundOnHalf(c, t, h, l, x, z, gone);
      }
    }
    ExtendsMembers(t.lib[h], d, Near(t, gone - {z}, h));
  }

  /** An empty point the refill finds is a missing stone: the true liberties are listed already. */
  lemma AroundOnHalf(c: Core, t: Core, h: int, l: seq<int>, x: int, z: int, gone: set<int>)
    requires RightList(t, h, l)
    requires Interiors(t, gone) && c.st == t.st && |c.b| == |t.b| && |t.lib[h]| <= REFILL
    requires forall y :: 0 <= y < |c.b| ==> c.b[y] == if y in gone && y != z then Empty else t.b[y]
    requires x in EmptyAround(c.b, c.st, l, |l|) && x !in t.lib[h] && x != z
    ensures x in Near(t, gone - {z}, h)
  {
    hide EmptyAround, Links, Distinct;
    EmptyAroundMembers(c.b, c.st, l, |l|, x);
    var j :| 0 <= j < |l| && Adj(c.st, l[j], x);
    assert t.g[l[j]] == h && Pt(t, l[j]);
    TouchAt(t, x, h, l[j]);
    assert x !in gone ==> x in Libs(t, QUIET, h);
  }

  lemma TouchAt(t: Core, x: int, h: int, w: int)
    requires t.st >= 3 && t.st <= x < |t.g| - t.st && 0 <= w < |t.g| && t.g[w] == h && Adj(t.st, w, x)
    ensures Touch(t, x, h)
  {
  }

  // ------------------------------------------------------------ one stone

  /** The chains among the first k neighbours have given up z, the others have not changed. */
  ghost predicate Shrunk(s: State, t: Core, ch: Chains, hue: Stone, spared: set<int>, gone: set<int>, due: set<int>,
      z: int, k: int)
    requires |s.lib| == |t.lib| && 0 <= k <= 4 && t.st >= 3 && t.st <= z < |t.g| - t.st
  {
    forall h :: 0 <= h < |s.lib| && h !in due ==>
      if !Repaired(t, ch, hue, spared, h) then s.lib[h] == t.lib[h]
      else if TouchUpTo(t.g, t.st, z, h, k) then Extends(t.lib[h], s.lib[h], Near(t, gone - {z}, h))
      else Extends(t.lib[h], s.lib[h], Near(t, gone, h))
  }

  lemma NearMono(t: Core, gone: set<int>, z: int, h: int, l0: seq<int>, l: seq<int>)
    requires Extends(l0, l, Near(t, gone - {z}, h))
    ensures Extends(l0, l, Near(t, gone, h))
  {
  }

  lemma TouchNext(g: seq<int>, st: int, z: int, h: int, k: int)
    requires 0 <= k < 4 && st >= 3 && st <= z < |g| - st
    ensures TouchUpTo(g, st, z, h, k + 1) <==> TouchUpTo(g, st, z, h, k) || g[Nb(st, z, k)] == h
  {
  }

  lemma ShrinkHit(s: State, t: Core, ch: Chains, hue: Stone, spared: set<int>, gone: set<int>, due: set<int>, z: int,
      k: int, grp: int)
    requires Target(t, ch, hue, spared) && 0 <= k < 4 && z in gone && Missing(s, t, hue, gone - {z}) && grp !in due
    requires t.st < z < |t.b| - t.st && t.b[z] == hue && Interiors(t, gone) && t.st >= 3
    requires Shrunk(s, t, ch, hue, spared, gone, due, z, k) && grp == t.g[Nb(t.st, z, k)]
    requires Repaired(t, ch, hue, spared, grp)
    ensures 0 <= grp < |s.lib|
    ensures Shrunk(s.(lib := s.lib[grp := Dropped(K(s), grp, z)]), t, ch, hue, spared, gone, due, z, k + 1)
  {
    hide Extends, Near, RightList, Linked, Dropped, TouchUpTo, Framed, Repaired;
    assert 0 <= grp < |s.lib| by { Positive(t, ch, hue, spared, grp); }
    var d := Dropped(K(s), grp, z);
    assert Extends(t.lib[grp], s.lib[grp], Near(t, gone, grp)) by {
      if TouchUpTo(t.g, t.st, z, grp, k) { NearMono(t, gone, z, grp, t.lib[grp], s.lib[grp]); }
    }
    RepairOne(K(s), t, grp, ch[grp], z, gone);
    forall h ensures TouchUpTo(t.g, t.st, z, h, k + 1) <==> TouchUpTo(t.g, t.st, z, h, k) || h == grp {
      TouchNext(t.g, t.st, z, h, k);
    }
  }

  lemma Positive(t: Core, ch: Chains, hue: Stone, spared: set<int>, h: int)
    requires Repaired(t, ch, hue, spared, h)
    ensures 0 < h < |t.b| && h in ch && h !in spared
  {
  }

  lemma ShrinkMiss(s: State, t: Core, ch: Chains, hue: Stone, spared: set<int>, gone: set<int>, due: set<int>, z: int,
      k: int)
    requires 0 <= k < 4 && t.st >= 3 && t.st < z < |t.b| - t.st && |t.g| == |t.b| && |s.lib| == |t.lib|
    requires Shrunk(s, t, ch, hue, spared, gone, due, z, k) && !Repaired(t, ch, hue, spared, t.g[Nb(t.st, z, k)])
    ensures Shrunk(s, t, ch, hue, spared, gone, due, z, k + 1)
  {
    hide Extends, Near, TouchUpTo, Repaired;
    forall h ensures TouchUpTo(t.g, t.st, z, h, k + 1) <==> TouchUpTo(t.g, t.st, z, h, k) || h == t.g[Nb(t.st, z, k)] {
      TouchNext(t.g, t.st, z, h, k);
    }
  }

  ghost predicate DueOK(t: Core, ch: Chains, hue: Stone, spared: set<int>, due: set<int>) {
    forall h :: h in due ==> !Repaired(t, ch, hue, spared, h)
  }

  /** What the half-restored board shows beside a stone put back. */
  lemma SideOfMissing(s: State, t: Core, ch: Chains, hue: Stone, spared: set<int>, gone: set<int>, z: int, k: int)
    requires Target(t, ch, hue, spared) && Missing(s, t, hue, gone) && 0 <= k < 4 && t.st < z < |t.b| - t.st
    requires t.st >= 3
    ensures Inner(s, z) && |s.lib| == |t.lib| && 0 <= Nb(t.st, z, k) < |t.g| && s.st == t.st && !s.full
    ensures |s.b| == |t.b| == |t.g|
    ensures var y := Nb(t.st, z, k);
      if s.b[y] == Other(hue) && s.g[y] !in spared then s.g[y] == t.g[y] && Repaired(t, ch, hue, spared, t.g[y])
        && 0 < t.g[y] < |s.lib|
      else !Repaired(t, ch, hue, spared, t.g[y])
  {
    hide RightList, Linked, Framed, Lists;
  }

  lemma MissingKept(s: State, r: State, t: Core, hue: Stone, gone: set<int>)
    requires Missing(s, t, hue, gone) && r == s.(lib := r.lib) && |r.lib| == |s.lib|
    ensures Missing(r, t, hue, gone)
  {
  }

  lemma QuickRemoveLib(s: State, grp: int, x: int)
    requires 0 <= grp < |s.lib| && !s.full
    ensures RemoveLib(s, grp, x) == s.(lib := s.lib[grp := Dropped(K(s), grp, x)])
  {
    hide Fill, EmptyAround, SwapRemove, Walk;
    assert s.lib[grp := s.lib[grp]] == s.lib;
  }

  lemma ShrinkOne(s: State, t: Core, ch: Chains, hue: Stone, spared: set<int>, gone: set<int>, due: set<int>, z: int,
      k: int)
    requires Target(t, ch, hue, spared) && DueOK(t, ch, hue, spared, due) && 0 <= k < 4 && z in gone
    requires Missing(s, t, hue, gone - {z})
    requires t.st < z < |t.b| - t.st && t.b[z] == hue && Interiors(t, gone) && t.st >= 3 && |s.lib| == |t.lib|
    requires |t.g| == |t.b|
    requires Shrunk(s, t, ch, hue, spared, gone, due, z, k)
    ensures Inner(s, z)
    ensures var y := Nb(s.st, z, k); var grp := s.g[y];
      var r := if s.b[y] == Other(hue) && 0 <= grp < |s.lib| && grp !in spared then RemoveLib(s, grp, z) else s;
      |r.lib| == |t.lib| && Shrunk(r, t, ch, hue, spared, gone, due, z, k + 1) && Missing(r, t, hue, gone - {z})
  {
    hide Extends, Near, RightList, Linked, RemoveLib, Framed, Shrunk, Target, Missing, Interiors, DueOK, Dropped,
         Repaired;
    SideOfMissing(s, t, ch, hue, spared, gone - {z}, z, k);
    var y := Nb(s.st, z, k);
    var grp := s.g[y];
    if s.b[y] == Other(hue) && grp !in spared {
      NotDue(t, ch, hue, spared, due, grp);
      ShrinkHit(s, t, ch, hue, spared, gone, due, z, k, grp);
      QuickRemoveLib(s, grp, z);
      MissingKept(s, RemoveLib(s, grp, z), t, hue, gone - {z});
    } else {
      ShrinkMiss(s, t, ch, hue, spared, gone, due, z, k);
    }
  }

  lemma NotDue(t: Core, ch: Chains, hue: Stone, spared: set<int>, due: set<int>, grp: int)
    requires DueOK(t, ch, hue, spared, due) && Repaired(t, ch, hue, spared, grp)
    ensures grp !in due
  {
    hide Repaired;
  }

  lemma {:induction false} ShrinkLoop(s: State, t: Core, ch: Chains, hue: Stone, spared: set<int>, gone: set<int>,
      due: set<int>, z: int, k: int)
    requires Target(t, ch, hue, spared) && DueOK(t, ch, hue, spared, due) && 0 <= k <= 4 && z in gone
    requires Missing(s, t, hue, gone - {z}) && t.st < z < |t.b| - t.st && t.b[z] == hue && Interiors(t, gone)
    requires t.st >= 3
    requires Shrunk(s, t, ch, hue, spared, gone, due, z, 0)
    ensures Inner(s, z)
    ensures var r := ShrinkBack(s, z, hue, spared, k);
      Missing(r, t, hue, gone - {z}) && Shrunk(r, t, ch, hue, spared, gone, due, z, k)
    decreases k
  {
    hide Target, Shrunk, RemoveLib, Repaired, Interiors;
    if k > 0 {
      ShrinkLoop(s, t, ch, hue, spared, gone, due, z, k - 1);
      ShrinkOne(ShrinkBack(s, z, hue, spared, k - 1), t, ch, hue, spared, gone, due, z, k - 1);
    }
  }

  lemma {:induction false} CountBackOnly(s: State, c: int, hue: Stone, k: int)
    requires 0 <= k <= 4 && Inner(s, c)
    ensures var r := CountBack(s, c, hue, k); r == s.(n := r.n)
    decreases k
  {
    if k > 0 { CountBackOnly(s, c, hue, k - 1); }
  }

  lemma ShrunkStart(s: State, t: Core, ch: Chains, hue: Stone, spared: set<int>, gone: set<int>, due: set<int>, z: int)
    requires |s.lib| == |t.lib| && t.st >= 3 && t.st <= z < |t.g| - t.st
    requires ListsHalf(s, t, ch, hue, spared, gone, due)
    ensures Shrunk(s, t, ch, hue, spared, gone, due, z, 0)
  {
    hide Extends, Near, Repaired;
  }

  lemma ShrunkEnd(s: State, t: Core, ch: Chains, hue: Stone, spared: set<int>, gone: set<int>, due: set<int>, z: int)
    requires |s.lib| == |t.lib| && t.st >= 3 && t.st <= z < |t.g| - t.st
    requires Shrunk(s, t, ch, hue, spared, gone, due, z, 4)
    ensures ListsHalf(s, t, ch, hue, spared, gone - {z}, due)
  {
    hide Extends, Repaired;
    forall h | !TouchUpTo(t.g, t.st, z, h, 4) ensures Near(t, gone - {z}, h) == Near(t, gone, h) {
      assert !Touch(t, z, h);
    }
  }

  lemma StoneBackHalf(s: State, t: Core, ch: Chains, hue: Stone, spared: set<int>, gone: set<int>, due: set<int>,
      z: int)
    requires Target(t, ch, hue, spared) && DueOK(t, ch, hue, spared, due) && z in gone && |t.p| == |t.b|
    requires Half(s, t, ch, hue, spared, gone, due)
    ensures Inner(s, z) && 0 <= z < |t.g|
    ensures Half(StoneBack(s, z, t.p[z], t.g[z], hue, spared), t, ch, hue, spared, gone - {z}, due)
  {
    hide Target, Repaired, ShrinkBack, CountBack, Extends, Near, DueOK;
    var s1 := s.(b := s.b[z := hue], g := s.g[z := t.g[z]], p := s.p[z := t.p[z]]);
    assert s1.p == t.p;
    CountBackOnly(s1, z, hue, 4);
    var s2 := CountBack(s1, z, hue, 4);
    assert Missing(s2, t, hue, gone - {z});
    ShrunkStart(s2, t, ch, hue, spared, gone, due, z);
    hide Missing, ListsHalf;
    assert Interiors(t, gone) by { GoneInside(s, t, hue, gone); }
    ShrinkLoop(s2, t, ch, hue, spared, gone, due, z, 4);
    ShrunkEnd(ShrinkBack(s2, z, hue, spared, 4), t, ch, hue, spared, gone, due, z);
  }

  lemma GoneInside(s: State, t: Core, hue: Stone, gone: set<int>)
    requires Missing(s, t, hue, gone)
    ensures Interiors(t, gone) && t.st >= 3
  {
  }

  // ------------------------------------------------------------ one chain

  ghost function Members(l: seq<int>): set<int> { set i | 0 <= i < |l| :: l[i] }

  lemma MembersMore(l: seq<int>, i: int)
    requires 0 < i <= |l| && Distinct(l)
    ensures Members(l[..i]) == Members(l[..i - 1]) + {l[i - 1]} && l[i - 1] !in Members(l[..i - 1])
  {
    assert l[..i] == l[..i - 1] + [l[i - 1]];
    forall j | 0 <= j < i - 1 ensures l[j] in Members(l[..i]) { assert l[..i][j] == l[j]; }
    assert l[..i][i - 1] == l[i - 1];
  }

  lemma {:induction false} StonesBackHalf(s: State, t: Core, ch: Chains, hue: Stone, spared: set<int>, gone: set<int>,
      due: set<int>, was: int, l: seq<int>, i: int)
    requires Target(t, ch, hue, spared) && DueOK(t, ch, hue, spared, due) && |t.p| == |t.b|
    requires Half(s, t, ch, hue, spared, gone, due) && 0 <= i <= |l| && ChainList(t, was, l) && Members(l) <= gone
    ensures Half(StonesBack(s, l, was, hue, spared, i), t, ch, hue, spared, gone - Members(l[..i]), due)
    decreases i
  {
    assert Sized(s);
    hide Target, DueOK, StoneBack, Half;
    if i > 0 {
      StonesBackHalf(s, t, ch, hue, spared, gone, due, was, l, i - 1);
      MembersMore(l, i);
      var z := l[i - 1];
      assert z in Members(l);
      var rest := gone - Members(l[..i - 1]);
      assert t.g[z] == was && t.p[z] == Next(l, i - 1);
      StoneBackHalf(StonesBack(s, l, was, hue, spared, i - 1), t, ch, hue, spared, rest, due, z);
      assert rest - {z} == gone - Members(l[..i]);
    } else {
      assert gone - Members(l[..0]) == gone;
    }
  }

  // ------------------------------------------------------------ the whole record

  ghost function GoneFrom(es: seq<EnemyRec>, i: nat): set<int>
    requires i <= |es|
    decreases |es| - i
  {
    if i == |es| then {} else Members(es[i].stones) + GoneFrom(es, i + 1)
  }

  ghost function DueFrom(es: seq<EnemyRec>, i: nat): set<int>
    requires i <= |es|
    decreases |es| - i
  {
    if i == |es| then {} else {es[i].grp} + DueFrom(es, i + 1)
  }

  /** The record's chains are chains of the board to be restored. */
  ghost predicate Recorded(t: Core, ch: Chains, hue: Stone, spared: set<int>, es: seq<EnemyRec>) {
    && |t.p| == |t.b| == |t.g| == |t.lib|
    && (forall i :: 0 <= i < |es| ==> 0 <= es[i].grp < |t.lib|)
    && (forall i :: 0 <= i < |es| ==> es[i].lib == t.lib[es[i].grp] && !Repaired(t, ch, hue, spared, es[i].grp))
    && (forall i :: 0 <= i < |es| && es[i].stones != [] ==> ChainList(t, es[i].grp, es[i].stones))
    && (forall i, j :: 0 <= i < j < |es| ==> es[i].grp != es[j].grp)
  }

  lemma {:induction false} FromApart(t: Core, ch: Chains, hue: Stone, spared: set<int>, es: seq<EnemyRec>, i: nat,
      k: nat)
    requires Recorded(t, ch, hue, spared, es) && i < k <= |es|
    ensures es[i].grp !in DueFrom(es, k) && Members(es[i].stones) !! GoneFrom(es, k)
    decreases |es| - k
  {
    if k < |es| {
      FromApart(t, ch, hue, spared, es, i, k + 1);
      forall z | z in Members(es[i].stones) ensures z !in Members(es[k].stones) {
        assert t.g[z] == es[i].grp;
        assert forall w :: w in Members(es[k].stones) ==> t.g[w] == es[k].grp;
      }
    }
  }

  lemma {:induction false} DueFromOK(t: Core, ch: Chains, hue: Stone, spared: set<int>, es: seq<EnemyRec>, i: nat)
    requires Recorded(t, ch, hue, spared, es) && i <= |es|
    ensures DueOK(t, ch, hue, spared, DueFrom(es, i))
    decreases |es| - i
  {
    hide Repaired;
    if i < |es| { DueFromOK(t, ch, hue, spared, es, i + 1); }
  }

  lemma CopyBack(s: State, t: Core, ch: Chains, hue: Stone, spared: set<int>, gone: set<int>, due: set<int>, grp: int)
    requires Half(s, t, ch, hue, spared, gone, due) && 0 <= grp < |t.lib| && !Repaired(t, ch, hue, spared, grp)
    ensures 0 <= grp < |s.lib| && Half(s.(lib := s.lib[grp := t.lib[grp]]), t, ch, hue, spared, gone, due - {grp})
  {
    hide Repaired, Extends, Near;
  }

  lemma FromNext(t: Core, ch: Chains, hue: Stone, spared: set<int>, es: seq<EnemyRec>, i: nat)
    requires Recorded(t, ch, hue, spared, es) && i < |es|
    ensures DueFrom(es, i) - {es[i].grp} == DueFrom(es, i + 1)
    ensures GoneFrom(es, i) - Members(es[i].stones) == GoneFrom(es, i + 1) && Members(es[i].stones) <= GoneFrom(es, i)
  {
    FromApart(t, ch, hue, spared, es, i, i + 1);
  }

  lemma HalfSized(s: State, t: Core, ch: Chains, hue: Stone, spared: set<int>, gone: set<int>, due: set<int>)
    requires Half(s, t, ch, hue, spared, gone, due)
    ensures Sized(s)
  {
  }

  lemma {:induction false} RestoreHalf(s: State, t: Core, ch: Chains, hue: Stone, spared: set<int>, es: seq<EnemyRec>,
      i: nat)
    requires Target(t, ch, hue, spared) && Recorded(t, ch, hue, spared, es) && i <= |es|
    requires Half(s, t, ch, hue, spared, GoneFrom(es, 0), DueFrom(es, 0))
    ensures Sized(s) && Half(RestoreUpTo(s, es, hue, spared, i), t, ch, hue, spared, GoneFrom(es, i), DueFrom(es, i))
    decreases i
  {
    hide Target, Half, Repaired, StonesBack, ChainList, GoneFrom, DueFrom;
    HalfSized(s, t, ch, hue, spared, GoneFrom(es, 0), DueFrom(es, 0));
    if i > 0 {
      RestoreHalf(s, t, ch, hue, spared, es, i - 1);
      var s1 := RestoreUpTo(s, es, hue, spared, i - 1);
      var e := es[i - 1];
      FromNext(t, ch, hue, spared, es, i - 1);
      DueFromOK(t, ch, hue, spared, es, i);
      CopyBack(s1, t, ch, hue, spared, GoneFrom(es, i - 1), DueFrom(es, i - 1), e.grp);
      var s2 := s1.(lib := s1.lib[e.grp := e.lib]);
      if e.stones != [] {
        StonesBackHalf(s2, t, ch, hue, spared, GoneFrom(es, i - 1), DueFrom(es, i), e.grp, e.stones, |e.stones|);
        assert e.stones[..|e.stones|] == e.stones;
      } else {
        assert e.stones == [] && GoneFrom(es, i - 1) == GoneFrom(es, i) by {
          FromNext(t, ch, hue, spared, es, i - 1); NoMembers(e.stones);
        }
        NothingBack(s2, e.grp, hue, spared);
      }
    }
  }

  lemma NoMembers(l: seq<int>)
    requires l == []
    ensures Members(l) == {}
  {
  }

  lemma NothingBack(s: State, grp: int, hue: Stone, spared: set<int>)
    requires Sized(s)
    ensures StonesBack(s, [], grp, hue, spared, 0) == s
  {
  }

  /** With nothing missing and nothing due, the board is the one to be restored. */
  lemma HalfDone(s: State, t: Core, ch: Chains, hue: Stone, spared: set<int>)
    requires Half(s, t, ch, hue, spared, {}, {})
    ensures K(s) == t
  {
    assert s.b == t.b && s.g == t.g;
    forall h | 0 <= h < |s.lib| ensures s.lib[h] == t.lib[h] {
      if Repaired(t, ch, hue, spared, h) {
        assert Near(t, {}, h) == {};
        ExtendsEmpty(t.lib[h], s.lib[h], Near(t, {}, h));
      }
    }
    assert s.lib == t.lib;
  }

  lemma ExtendsEmpty(l0: seq<int>, l: seq<int>, extra: set<int>)
    requires Extends(l0, l, extra) && forall x :: x !in extra
    ensures l == l0
  {
    ExtendsBack(l0, l, extra);
    assert forall x :: x in l ==> x in l0;
    DistinctFits(l, l0);
  }

  lemma RecordedAt(t: Core, ch: Chains, hue: Stone, spared: set<int>, es: seq<EnemyRec>, i: nat)
    requires Recorded(t, ch, hue, spared, es) && i < |es|
    ensures |t.p| == |t.b| && 0 <= es[i].grp < |t.lib| && es[i].lib == t.lib[es[i].grp]
    ensures !Repaired(t, ch, hue, spared, es[i].grp)
    ensures es[i].stones != [] ==> ChainList(t, es[i].grp, es[i].stones)
  {
    hide Repaired, ChainList;
  }

  lemma RestoreNext(s: State, es: seq<EnemyRec>, hue: Stone, spared: set<int>, i: int)
    requires 0 <= i < |es| && Sized(s)
    ensures var s1 := RestoreUpTo(s, es, hue, spared, i); var e := es[i]; 0 <= e.grp < |s1.lib| ==>
      RestoreUpTo(s, es, hue, spared, i + 1) == StonesBack(s1.(lib := s1.lib[e.grp := e.lib]), e.stones, e.grp, hue,
          spared, |e.stones|)
  {
    hide StonesBack;
  }

  lemma RestoreNone(s: State, es: seq<EnemyRec>, hue: Stone, spared: set<int>)
    requires Sized(s)
    ensures RestoreUpTo(s, es, hue, spared, 0) == s
  {
  }

  /** The state and the facts for the next chain of the record. */
  lemma NextChain(s: State, t: Core, ch: Chains, hue: Stone, spared: set<int>, es: seq<EnemyRec>, i: nat)
    requires Target(t, ch, hue, spared) && Recorded(t, ch, hue, spared, es) && i < |es|
    requires Half(s, t, ch, hue, spared, GoneFrom(es, 0), DueFrom(es, 0))
    ensures Sized(s) && |t.p| == |t.b| && var s1 := RestoreUpTo(s, es, hue, spared, i); var e := es[i];
      0 <= e.grp < |s1.lib| && Half(s1.(lib := s1.lib[e.grp := e.lib]), t, ch, hue, spared, GoneFrom(es, i),
          DueFrom(es, i + 1))
      && (e.stones != [] ==> ChainList(t, e.grp, e.stones)) && Members(e.stones) <= GoneFrom(es, i)
        && DueOK(t, ch, hue, spared, DueFrom(es, i + 1))
  {
    hide Target, Half, Recorded, GoneFrom, DueFrom, Members, ChainList, DueOK, RestoreUpTo, Repaired;
    HalfSized(s, t, ch, hue, spared, GoneFrom(es, 0), DueFrom(es, 0));
    RestoreHalf(s, t, ch, hue, spared, es, i);
    RecordedAt(t, ch, hue, spared, es, i);
    FromNext(t, ch, hue, spared, es, i);
    DueFromOK(t, ch, hue, spared, es, i + 1);
    CopyBack(RestoreUpTo(s, es, hue, spared, i), t, ch, hue, spared, GoneFrom(es, i), DueFrom(es, i), es[i].grp);
  }
}
