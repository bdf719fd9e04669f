/** The state of the board at each step of a quick play, in closed form. */
module UndoPlay {
  import opened Grid
  import opened LibList
  import opened Engine
  import opened Invariant
  import opened Steps
  import opened Captures
  import opened Moves
  import opened Undo
  import opened UndoTrace

  function Set(p: seq<int>, i: int, v: int): (r: seq<int>)
    ensures |r| == |p|
  {
    if 0 <= i < |p| then p[i := v] else p
  }

  function Get(p: seq<int>, i: int): int { if 0 <= i < |p| then p[i] else 0 }

  function LastOf(ch: Chains, grp: int): int {
    if grp in ch && ch[grp] != [] then ch[grp][|ch[grp]| - 1] else 0
  }

  /** The links once the stone is inserted and the first i chains of the record are merged. */
  function PAfter(p: seq<int>, ch: Chains, x: int, u: Record, i: nat): (r: seq<int>)
    requires i <= |u.merged|
    ensures |r| == |p|
  {
    if i == 0 then p
    else if i == 1 then Set(Set(p, x, Get(p, u.inserted)), u.inserted, x)
    else
      var q := PAfter(p, ch, x, u, i - 1);
      var grp := u.merged[i - 1].grp;
      Set(Set(q, LastOf(ch, grp), Get(q, Home(u))), Home(u), grp)
  }

  ghost function GAfter(c: Core, u: Record, x: int, y: int): int
    requires 0 <= y < |c.g|
  {
    if y == x || c.g[y] in MergedIds(u) then Home(u) else if c.g[y] in Dead(u) then 0 else c.g[y]
  }

  /** The list still starts with l0, and what was added comes from `extra`. */
  ghost predicate Extends(l0: seq<int>, l: seq<int>, extra: set<int>) {
    l0 <= l && Distinct(l) && |l| <= KEEP && forall i :: |l0| <= i < |l| ==> l[i] in extra
  }

  /** The captured points next to the chain h. */
  ghost function CapturedNear(c: Core, u: Record, h: int): set<int> {
    set z | 0 <= z < |c.g| && c.g[z] in Dead(u) && Touch(c, z, h)
  }

  ghost predicate TraceB(s: State, c: Core, u: Record) {
    |s.b| == |c.b| == |c.g| && forall y :: 0 <= y < |s.b| ==> s.b[y] == if c.g[y] in Dead(u) then Empty else c.b[y]
  }

  ghost predicate TraceG(s: State, c: Core, x: int, u: Record) {
    |s.g| == |c.g| && forall y :: 0 <= y < |s.g| ==> s.g[y] == GAfter(c, u, x, y)
  }

  ghost predicate TraceP(s: State, c: Core, ch: Chains, x: int, u: Record) {
    && s.p == PAfter(c.p, ch, x, u, |u.merged|)
    && |s.lasts| == (if u.merged == [] then 0 else |u.merged| - 1)
    && forall i :: 0 <= i < |s.lasts| ==> s.lasts[i] == LastOf(ch, u.merged[i + 1].grp)
  }

  ghost predicate TraceLib(s: State, c: Core, ch: Chains, x: int, col: Stone, u: Record) {
    && |s.lib| == |c.lib| == |c.b|
    && (forall h :: h in ch && 0 <= h < |c.b| && c.b[h] == Other(col) && h !in EnemyIds(u) ==> s.lib[h] == c.lib[h])
    && (forall h :: h in EnemyIds(u) && h !in Dead(u) && 0 <= h < |s.lib| ==> s.lib[h] != [] && x !in s.lib[h])
    && (forall h :: h in ch && 0 <= h < |c.b| && c.b[h] == col && h !in MergedIds(u) ==>
          Extends(c.lib[h], s.lib[h], CapturedNear(c, u, h)))
    && (forall h :: 0 <= h < |c.lib| && h !in ch ==> s.lib[h] == [])
  }

  ghost predicate Trace(s: State, c: Core, ch: Chains, x: int, col: Stone, u: Record) {
    && Sized(s) && s.st == c.st && !s.full
    && TraceB(s, c, u) && TraceG(s, c, x, u) && TraceP(s, c, ch, x, u) && TraceLib(s, c, ch, x, col, u)
  }

  // ------------------------------------------------------------ what the record does not touch

  lemma {:induction false} PAfterElsewhere(p: seq<int>, c: Core, ch: Chains, x: int, col: Stone, u: Record, i: nat,
      z: int)
    requires i <= |u.merged| && Shape(c) && MergesOK(c, ch, x, col, u) && Linked(c, ch)
    requires 0 <= z < |p| == |c.g| && z != x && c.g[z] !in MergedIds(u)
    ensures PAfter(p, ch, x, u, i)[z] == p[z]
    decreases i
  {
    hide Touch, Framed;
    if i > 0 {
      assert u.merged[0].grp in MergedIds(u) && u.merged[i - 1].grp in MergedIds(u);
      IdPositive(c, ch, u.merged[0].grp);
    }
    if i > 1 {
      PAfterElsewhere(p, c, ch, x, col, u, i - 1, z);
      var grp := u.merged[i - 1].grp;
      assert ChainList(c, grp, ch[grp]);
      assert c.g[LastOf(ch, grp)] == grp;
    }
  }

  /** A chain that neither merged nor died keeps its list. */
  lemma StillChain(s: State, c: Core, ch: Chains, x: int, col: Stone, u: Record, k: int, h: int)
    requires Trace(s, c, ch, x, col, u) && RecordOK(c, ch, x, col, u, k) && Linked(c, ch)
    requires 0 <= x < |c.g| && c.g[x] == 0 && h in ch && h !in MergedIds(u) && h !in Dead(u)
    ensures ChainList(K(s), h, ch[h])
  {
    hide TraceB, TraceLib, Covers, EnemiesOK, Framed;
    var l := ch[h];
    IdPositive(c, ch, h);
    assert ChainList(c, h, l);
    forall i | 0 <= i < |l| ensures s.g[l[i]] == h && s.p[l[i]] == c.p[l[i]] {
      assert c.g[l[i]] == h && Pt(c, l[i]);
      PAfterElsewhere(c.p, c, ch, x, col, u, |u.merged|, l[i]);
    }
    hide TraceP;
    assert Links(s.p, l);
  }

  // ------------------------------------------------------------ starting

  lemma TraceStart(s: State, ch: Chains, x: int, col: Stone, u: Record)
    requires PlayPoint(s, ch, x, col) && u.merged == [] && u.enemies == [] && !s.full && s.lasts == []
    ensures Trace(s, K(s), ch, x, col, u)
  {
    hide Reach, Maximal;
    assert View(K(s), QUIET) == s.b;
    assert MergedIds(u) == {} && Dead(u) == {} && EnemyIds(u) == {};
    assert s.g[x] == 0;
    forall h | 0 <= h < |s.lib| && h !in ch ensures s.lib[h] == [] {}
    forall h | h in ch && 0 <= h < |s.b| && s.b[h] == col
      ensures Extends(s.lib[h], s.lib[h], CapturedNear(K(s), u, h)) {}
  }

  // ------------------------------------------------------------ the five kinds of step

  /** The record's chains are on the board with the colours it says. */
  ghost predicate IdsOK(c: Core, ch: Chains, col: Stone, u: Record) {
    && IsColour(col) && (forall h :: h in ch ==> 0 < h < |c.b|)
    && (forall h :: h in MergedIds(u) ==> h in ch && 0 < h < |c.b| && c.b[h] == col)
    && (forall h :: h in EnemyIds(u) ==> h in ch && 0 < h < |c.b| && c.b[h] == Other(col))
    && Dead(u) <= EnemyIds(u) && (u.merged != [] ==> Home(u) in MergedIds(u)) && (u.merged == [] ==> MergedIds(u) == {})
  }

  lemma RecordIds(c: Core, ch: Chains, x: int, col: Stone, u: Record, k: int)
    requires RecordOK(c, ch, x, col, u, k) && Linked(c, ch) && IsColour(col)
    ensures IdsOK(c, ch, col, u)
  {
    hide Touch, Framed;
    forall h | h in ch ensures 0 < h < |c.b| { IdPositive(c, ch, h); }
    if u.merged != [] { assert u.merged[0].grp in MergedIds(u); }
  }

  lemma NearSame(c: Core, u: Record, u': Record)
    requires Dead(u') == Dead(u)
    ensures forall h :: CapturedNear(c, u', h) == CapturedNear(c, u, h)
  {
  }

  /** Nothing but the list of the chain joined may have changed. */
  lemma TraceIdle(s: State, r: State, c: Core, ch: Chains, x: int, col: Stone, u: Record)
    requires Trace(s, c, ch, x, col, u) && IdsOK(c, ch, col, u) && Sized(r) && r.st == s.st && !r.full
    requires r.b == s.b && r.g == s.g && r.p == s.p && r.lasts == s.lasts && |r.lib| == |s.lib|
    requires forall h :: 0 <= h < |s.lib| && h != Home(u) ==> r.lib[h] == s.lib[h]
    requires Home(u) == 0 ==> r.lib == s.lib
    ensures Trace(r, c, ch, x, col, u)
  {
    hide Extends, CapturedNear;
    assert TraceB(r, c, u);
    assert TraceG(r, c, x, u);
    assert TraceP(r, c, ch, x, u);
  }

  lemma TraceJoin(s: State, c: Core, ch: Chains, x: int, col: Stone, u: Record, y: int, h: int, r: State)
    requires Trace(s, c, ch, x, col, u) && IdsOK(c, ch, col, u) && Sized(r) && r.st == s.st && !r.full
    requires u.merged == [] && h in ch && 0 < h < |c.b| && 0 <= x < |s.b| && 0 <= y < |s.p| && c.b[h] == col
    requires r.b == s.b && r.g == s.g[x := h] && r.p == s.p[x := s.p[y]][y := x] && r.lasts == s.lasts
    requires |r.lib| == |s.lib| && forall i :: 0 <= i < |s.lib| && i != h ==> r.lib[i] == s.lib[i]
    ensures Trace(r, c, ch, x, col, u.(inserted := y, merged := u.merged + [MergeRec(h, c.lib[h])]))
  {
    hide Extends;
    var u' := u.(inserted := y, merged := u.merged + [MergeRec(h, c.lib[h])]);
    MergedIdsMore(u, MergeRec(h, c.lib[h]), y);
    assert Dead(u') == Dead(u) && EnemyIds(u') == EnemyIds(u);
    NearSame(c, u, u');
    hide Dead, EnemyIds, MergedIds, CapturedNear;
    assert TraceB(r, c, u');
    assert TraceG(r, c, x, u');
    assert TraceP(r, c, ch, x, u');
    assert TraceLib(r, c, ch, x, col, u');
  }

  lemma {:induction false} PAfterPrefix(p: seq<int>, ch: Chains, x: int, u: Record, u': Record, i: nat)
    requires 1 <= i <= |u.merged| && u.merged <= u'.merged && u'.inserted == u.inserted
    ensures PAfter(p, ch, x, u', i) == PAfter(p, ch, x, u, i)
    decreases i
  {
    if i > 1 { PAfterPrefix(p, ch, x, u, u', i - 1); }
  }

  /** Lists of chains that the record has merged may change freely. */
  lemma LibMerged(s: State, r: State, c: Core, ch: Chains, x: int, col: Stone, u: Record, u': Record)
    requires TraceLib(s, c, ch, x, col, u) && IdsOK(c, ch, col, u') && |r.lib| == |s.lib|
    requires MergedIds(u) <= MergedIds(u') && Dead(u') == Dead(u) && EnemyIds(u') == EnemyIds(u)
    requires forall h :: 0 <= h < |s.lib| && h !in MergedIds(u') ==> r.lib[h] == s.lib[h]
    ensures TraceLib(r, c, ch, x, col, u')
  {
    NearSame(c, u, u');
    hide Extends, CapturedNear, Dead, EnemyIds, MergedIds;
  }

  lemma TraceMerge(s: State, c: Core, ch: Chains, x: int, col: Stone, u: Record, h: int, r: State)
    requires Trace(s, c, ch, x, col, u) && IdsOK(c, ch, col, u) && Sized(r) && r.st == s.st && !r.full
    requires u.merged != [] && h in ch && 0 < h < |c.b| && h !in MergedIds(u) && c.b[h] == col && 0 <= x < |s.g|
    requires c.g[x] == 0 && 0 <= LastOf(ch, h) < |s.p|
    requires r.b == s.b && |r.g| == |s.g|
    requires forall z :: 0 <= z < |s.g| ==> r.g[z] == if s.g[z] == h then Home(u) else s.g[z]
    requires r.p == s.p[LastOf(ch, h) := s.p[Home(u)]][Home(u) := h] && r.lasts == s.lasts + [LastOf(ch, h)]
    requires |r.lib| == |s.lib| && forall i :: 0 <= i < |s.lib| && i != h && i != Home(u) ==> r.lib[i] == s.lib[i]
    ensures Trace(r, c, ch, x, col, u.(merged := u.merged + [MergeRec(h, c.lib[h])]))
  {
    var u' := u.(merged := u.merged + [MergeRec(h, c.lib[h])]);
    MergedIdsMore(u, MergeRec(h, c.lib[h]), u.inserted);
    assert u' == u.(inserted := u.inserted, merged := u.merged + [MergeRec(h, c.lib[h])]);
    assert Dead(u') == Dead(u) && EnemyIds(u') == EnemyIds(u) && Home(u') == Home(u);
    hide Dead, EnemyIds, MergedIds, TraceLib, TraceG, TraceP;
    LibMerged(s, r, c, ch, x, col, u, u');
    MergeIds(s, r, c, ch, x, col, u, u', h);
    MergeTraceP(s, r, c, ch, x, u, h);
  }

  lemma MergeTraceP(s: State, r: State, c: Core, ch: Chains, x: int, u: Record, h: int)
    requires TraceP(s, c, ch, x, u) && u.merged != [] && 0 <= LastOf(ch, h) < |s.p| && 0 <= Home(u) < |s.p|
    requires r.p == s.p[LastOf(ch, h) := s.p[Home(u)]][Home(u) := h] && r.lasts == s.lasts + [LastOf(ch, h)]
    ensures 0 <= h < |c.lib| ==> TraceP(r, c, ch, x, u.(merged := u.merged + [MergeRec(h, c.lib[h])]))
  {
    if 0 <= h < |c.lib| {
      var u' := u.(merged := u.merged + [MergeRec(h, c.lib[h])]);
      PAfterPrefix(c.p, ch, x, u, u', |u.merged|);
    }
  }

  lemma MergeIds(s: State, r: State, c: Core, ch: Chains, x: int, col: Stone, u: Record, u': Record, h: int)
    requires TraceG(s, c, x, u) && IdsOK(c, ch, col, u) && h in ch && h !in MergedIds(u) && c.b[h] == col && h != 0
    requires MergedIds(u') == MergedIds(u) + {h} && Dead(u') == Dead(u) && Home(u') == Home(u) && u.merged != []
    requires |r.g| == |s.g| && forall z :: 0 <= z < |s.g| ==> r.g[z] == if s.g[z] == h then Home(u) else s.g[z]
    ensures TraceG(r, c, x, u')
  {
    hide Dead, EnemyIds, MergedIds, Home;
  }

  lemma LibEnemy(s: State, r: State, c: Core, ch: Chains, x: int, col: Stone, u: Record, u': Record, h: int)
    requires TraceLib(s, c, ch, x, col, u) && IdsOK(c, ch, col, u) && |r.lib| == |s.lib| && h in ch && 0 < h < |c.b|
    requires MergedIds(u') == MergedIds(u) && Dead(u') == Dead(u) && EnemyIds(u') == EnemyIds(u) + {h}
    requires c.b[h] == Other(col)
    requires forall i :: 0 <= i < |s.lib| && i != h ==> r.lib[i] == s.lib[i]
    requires r.lib[h] != [] && x !in r.lib[h]
    ensures TraceLib(r, c, ch, x, col, u')
  {
    NearSame(c, u, u');
    hide Extends, CapturedNear, Dead, EnemyIds, MergedIds;
  }

  lemma TraceEnemy(s: State, c: Core, ch: Chains, x: int, col: Stone, u: Record, h: int, n: int, r: State)
    requires Trace(s, c, ch, x, col, u) && IdsOK(c, ch, col, u) && Sized(r) && r.st == s.st && !r.full
    requires h in ch && 0 < h < |c.b| && c.b[h] == Other(col)
    requires r.b == s.b && r.g == s.g && r.p == s.p && r.lasts == s.lasts
    requires |r.lib| == |s.lib| && forall i :: 0 <= i < |s.lib| && i != h ==> r.lib[i] == s.lib[i]
    requires r.lib[h] != [] && x !in r.lib[h]
    ensures Trace(r, c, ch, x, col, u.(enemies := u.enemies + [EnemyRec(h, c.lib[h], [])], ncaptures := n))
  {
    var u' := u.(enemies := u.enemies + [EnemyRec(h, c.lib[h], [])], ncaptures := n);
    EnemyIdsMore(u, EnemyRec(h, c.lib[h], []), n);
    assert MergedIds(u') == MergedIds(u) && Home(u') == Home(u);
    SameLinks(c.p, ch, x, u, u', |u.merged|);
    hide Dead, EnemyIds, MergedIds, TraceLib;
    LibEnemy(s, r, c, ch, x, col, u, u', h);
  }

  lemma {:induction false} SameLinks(p: seq<int>, ch: Chains, x: int, u: Record, u': Record, i: nat)
    requires i <= |u.merged| && u'.merged == u.merged && u'.inserted == u.inserted
    ensures PAfter(p, ch, x, u', i) == PAfter(p, ch, x, u, i)
    decreases i
  {
    if i > 1 { SameLinks(p, ch, x, u, u', i - 1); }
  }

  // ------------------------------------------------------------ captures

  /** What taking a chain off adds to another chain's list: some of its stones, each next to
      that chain, at the end. */
  lemma {:induction false} TakenAllAdds(c: Core, grp: int, l: seq<int>, i: int, h: int, extra: set<int>)
    requires 0 <= i <= |l| && c.st >= 3 && |c.b| == |c.g| && 0 <= h < |c.lib| && h != grp
    requires forall j :: 0 <= j < |l| ==> c.st <= l[j] < |c.g| - c.st
    requires Distinct(c.lib[h]) && |c.lib[h]| <= KEEP
    requires h != 0 ==> forall j :: 0 <= j < |l| && Touch(c, l[j], h) ==> l[j] in extra
    ensures Extends(c.lib[h], TakenAll(c, grp, l, i).lib[h], extra)
    decreases i
  {
    hide Extends, TakenOff, Touch, TouchUpTo;
    if i > 0 {
      TakenAllAdds(c, grp, l, i - 1, h, extra);
      TakenAllShape(c, grp, l, i - 1);
      var r := TakenAll(c, grp, l, i - 1);
      GainAt(r, c, grp, l[i - 1], h);
      if r.lib[h] != TakenAll(c, grp, l, i).lib[h] {
        AddExtends(c.lib[h], r.lib[h], l[i - 1], extra);
      }
    } else {
      assert Extends(c.lib[h], c.lib[h], extra) by { ExtendsRefl(c.lib[h], extra); }
    }
  }

  lemma ExtendsRefl(l: seq<int>, extra: set<int>)
    requires Distinct(l) && |l| <= KEEP
    ensures Extends(l, l, extra)
  {
  }

  /** One stone off: a list changes only if its chain touches the stone, by that stone. */
  lemma GainAt(r: Core, c: Core, grp: int, z: int, h: int)
    requires r.st == c.st >= 3 && |r.b| == |r.g| == |c.g| && 0 <= h < |r.lib| && h != grp && c.st <= z < |c.g| - c.st
    requires forall y :: 0 <= y < |c.g| ==> r.g[y] == c.g[y] || r.g[y] == 0
    ensures TakenOff(r, grp, z).lib[h] == r.lib[h]
         || (h != 0 && Touch(c, z, h) && TakenOff(r, grp, z).lib[h] == AddL(r.lib[h], z))
  {
  }

  /** A list whose chain touches none of the stones taken stays as it is. */
  lemma {:induction false} TakenAllSame(c: Core, grp: int, l: seq<int>, i: int, h: int)
    requires 0 <= i <= |l| && c.st >= 3 && |c.b| == |c.g| && 0 <= h < |c.lib| && h != grp
    requires forall j :: 0 <= j < |l| ==> c.st <= l[j] < |c.g| - c.st
    requires h != 0 ==> forall j :: 0 <= j < |l| ==> !Touch(c, l[j], h)
    ensures TakenAll(c, grp, l, i).lib[h] == c.lib[h]
    decreases i
  {
    hide TakenOff, Touch, TouchUpTo;
    if i > 0 {
      TakenAllSame(c, grp, l, i - 1, h);
      TakenAllShape(c, grp, l, i - 1);
      GainAt(TakenAll(c, grp, l, i - 1), c, grp, l[i - 1], h);
    }
  }

  lemma AddExtends(l0: seq<int>, l: seq<int>, z: int, extra: set<int>)
    requires Extends(l0, l, extra) && z in extra
    ensures Extends(l0, AddL(l, z), extra)
  {
  }

  lemma ExtendsMore(l0: seq<int>, l1: seq<int>, l2: seq<int>, e1: set<int>, e2: set<int>)
    requires Extends(l0, l1, e1) && Extends(l1, l2, e2) && e1 <= e2
    ensures Extends(l0, l2, e2)
  {
  }

  /** The chain h dies: its stones leave, and the lists around it change as they should. */
  ghost predicate Dies(s: State, r: State, c: Core, ch: Chains, h: int) {
    && h in ch && |r.b| == |s.b| == |r.g| == |s.g| == |c.g| && |r.lib| == |s.lib|
    && (forall y :: 0 <= y < |s.b| ==> r.b[y] == (if s.g[y] == h then Empty else s.b[y]))
    && (forall y :: 0 <= y < |s.b| ==> r.g[y] == (if s.g[y] == h then 0 else s.g[y]))
    && r.p == s.p && r.lasts == s.lasts
  }

  lemma DiesShape(s: State, r: State, c: Core, ch: Chains, x: int, col: Stone, u: Record, u': Record, h: int)
    requires TraceB(s, c, u) && TraceG(s, c, x, u) && Dies(s, r, c, ch, h) && IdsOK(c, ch, col, u)
    requires h !in EnemyIds(u) && 0 < h < |c.b| && c.b[h] == Other(col) && 0 <= x < |c.g| && c.g[x] == 0
    requires MergedIds(u') == MergedIds(u) && Dead(u') == Dead(u) + {h} && Home(u') == Home(u)
    ensures TraceB(r, c, u') && TraceG(r, c, x, u')
  {
    hide Dead, EnemyIds, MergedIds, Home;
    assert h !in MergedIds(u) && h !in Dead(u) && h != Home(u) by { IdApart(c, ch, col, u, h); }
    forall y | 0 <= y < |s.b| ensures s.g[y] == h <==> c.g[y] == h {}
  }

  lemma IdApart(c: Core, ch: Chains, col: Stone, u: Record, h: int)
    requires IdsOK(c, ch, col, u) && 0 < h < |c.b| && c.b[h] == Other(col)
    ensures h !in MergedIds(u) && h != Home(u) && (h !in EnemyIds(u) ==> h !in Dead(u))
  {
  }

  lemma DiesLibs(s: State, r: State, c: Core, ch: Chains, x: int, col: Stone, u: Record, u': Record, h: int)
    requires TraceLib(s, c, ch, x, col, u) && IdsOK(c, ch, col, u) && |r.lib| == |s.lib|
    requires h in ch && h !in EnemyIds(u) && 0 < h < |c.b| && c.b[h] == Other(col)
    requires MergedIds(u') == MergedIds(u) && Dead(u') == Dead(u) + {h} && EnemyIds(u') == EnemyIds(u) + {h}
    requires forall i :: i in ch && c.b[i] == Other(col) && i != h ==> r.lib[i] == s.lib[i]
    requires forall i :: 0 <= i < |s.lib| && i !in ch ==> r.lib[i] == s.lib[i]
    requires forall i :: i in ch && c.b[i] == col && i !in MergedIds(u) ==>
      Extends(s.lib[i], r.lib[i], CapturedNear(c, u', i))
    ensures TraceLib(r, c, ch, x, col, u')
  {
    forall i ensures CapturedNear(c, u, i) <= CapturedNear(c, u', i) {}
    hide CapturedNear, Dead, EnemyIds, MergedIds;
    forall i | i in ch && c.b[i] == col && i !in MergedIds(u')
      ensures Extends(c.lib[i], r.lib[i], CapturedNear(c, u', i))
    {
      ExtendsMore(c.lib[i], s.lib[i], r.lib[i], CapturedNear(c, u, i), CapturedNear(c, u', i));
    }
    hide Extends;
  }

  /** Two opponent chains do not touch. */
  lemma EnemiesApart(c: Core, ch: Chains, h: int, z: int, w: int)
    requires W(c, ch, QUIET) && 0 <= z < |c.b| && 0 <= w < |c.b| && Adj(c.st, z, w) && c.g[z] == h != 0
    requires c.b[z] == c.b[w]
    ensures c.g[w] == h
  {
    hide Reach, LibsOK, Linked, Cover, Conn;
    assert View(c, QUIET) == c.b;
  }

  /** The ids on the board mid-move, against those before it. */
  lemma TouchBack(s: State, c: Core, ch: Chains, x: int, col: Stone, u: Record, z: int, i: int)
    requires TraceG(s, c, x, u) && IdsOK(c, ch, col, u) && s.st == c.st && |s.b| == |c.b|
    requires i != 0 && i !in MergedIds(u) && Touch(K(s), z, i)
    ensures Touch(c, z, i)
  {
    hide Dead, EnemyIds, MergedIds;
    var w := if s.g[z - c.st] == i then z - c.st else if s.g[z - 1] == i then z - 1
             else if s.g[z + 1] == i then z + 1 else z + c.st;
    assert s.g[w] == GAfter(c, u, x, w);
    assert c.g[w] == i;
  }

  lemma DyingTouch(s: State, c: Core, ch: Chains, x: int, col: Stone, u: Record, h: int, j: int, i: int)
    requires TraceG(s, c, x, u) && IdsOK(c, ch, col, u) && s.st == c.st && |s.b| == |c.b| && W(c, ch, QUIET)
    requires h in ch && 0 < h < |c.b| && c.b[h] == Other(col) && 0 <= j < |ch[h]| && i != 0 && i !in MergedIds(u)
    requires Touch(K(s), ch[h][j], i)
    ensures Touch(c, ch[h][j], i) && i in ch && c.g[ch[h][j]] == h
    ensures c.b[i] == Other(col) ==> i == h
  {
    hide Reach, Maximal, Framed, LibsOK, Dead, EnemyIds, MergedIds, Home, TraceG;
    var z := ch[h][j];
    assert ChainList(c, h, ch[h]);
    TouchBack(s, c, ch, x, col, u, z, i);
    var w := if c.g[z - c.st] == i then z - c.st else if c.g[z - 1] == i then z - 1
             else if c.g[z + 1] == i then z + 1 else z + c.st;
    assert View(c, QUIET) == c.b;
    SameHue(c, ch, QUIET, h, z);
    SameHue(c, ch, QUIET, i, w);
    if c.b[i] == Other(col) { EnemiesApart(c, ch, h, z, w); }
  }

  /** Chains of the player near the dying chain gain its stones; no other chain gains. */
  lemma DiesLib(s: State, r0: State, c: Core, ch: Chains, x: int, col: Stone, u: Record, u': Record, h: int, i: int)
    requires Trace(s, c, ch, x, col, u) && IdsOK(c, ch, col, u) && W(c, ch, QUIET) && Sized(r0)
    requires h in ch && 0 < h < |c.b| && c.b[h] == Other(col) && Dead(u') == Dead(u) + {h}
    requires r0.b == s.b && r0.g == s.g && r0.p == s.p && r0.st == s.st && i != h && 0 <= i < |s.lib|
    requires |r0.lib| == |s.lib| && r0.lib[i] == s.lib[i] && i !in MergedIds(u)
    requires forall j :: 0 <= j < |ch[h]| ==> s.st <= ch[h][j] < |s.g| - s.st
    ensures var r := TakenAll(K(r0), h, ch[h], |ch[h]|).lib[i];
      if i in ch && c.b[i] == col then Extends(s.lib[i], r, CapturedNear(c, u', i))
      else r == s.lib[i]
  {
    hide Reach, Maximal, LibOK, Linked, Cover, Conn, Stony, Framed, TraceB, TraceP;
    var l := ch[h];
    forall j | i != 0 && 0 <= j < |l| && Touch(K(r0), l[j], i)
      ensures i in ch && c.b[i] == col && l[j] in CapturedNear(c, u', i)
    {
      DyingTouch(s, c, ch, x, col, u, h, j, i);
      IdHue(c, ch, i);
    }
    if i in ch && c.b[i] == col {
      ListFine(s, c, ch, x, col, u, i);
      hide TraceLib, TraceG, Touch, Dead, IdsOK, W, TakenAll, CapturedNear, Extends;
      TakenAllAdds(K(r0), h, l, |l|, i, CapturedNear(c, u', i));
    } else {
      hide TraceLib, TraceG, Touch, Dead, IdsOK, W, TakenAll, CapturedNear, Extends;
      TakenAllSame(K(r0), h, l, |l|, i);
    }
  }

  lemma IdHue(c: Core, ch: Chains, i: int)
    requires W(c, ch, QUIET) && i in ch
    ensures 0 < i < |c.b| && IsColour(c.b[i])
  {
    hide Reach, Maximal, LibsOK, Cover, Conn;
    IdPositive(c, ch, i);
    assert View(c, QUIET) == c.b;
  }

  lemma ListFine(s: State, c: Core, ch: Chains, x: int, col: Stone, u: Record, i: int)
    requires TraceLib(s, c, ch, x, col, u) && W(c, ch, QUIET) && i in ch && 0 <= i < |c.b| && c.b[i] == col
    requires i !in MergedIds(u)
    ensures Distinct(s.lib[i]) && |s.lib[i]| <= KEEP
  {
    hide Reach, Maximal, Cover, Conn, Linked, CapturedNear;
  }

  /** The state after a capture, against the one before it: what the capture needs to know. */
  ghost predicate DyingSetup(s: State, r0: State, r: State, c: Core, ch: Chains, x: int, col: Stone, u: Record,
      h: int) {
    && Trace(s, c, ch, x, col, u) && IdsOK(c, ch, col, u) && W(c, ch, QUIET) && Sized(r0) && Sized(r)
    && h in ch && 0 < h < |c.b| && c.b[h] == Other(col) && h !in EnemyIds(u) && 0 <= x < |c.g| && c.g[x] == 0
    && r0.b == s.b && r0.g == s.g && r0.p == s.p && r0.st == s.st && r0.lasts == s.lasts == r.lasts
      && |r0.lib| == |s.lib|
    && (forall i :: 0 <= i < |s.lib| && i != h ==> r0.lib[i] == s.lib[i])
    && (forall j :: 0 <= j < |ch[h]| ==> s.st <= ch[h][j] < |s.g| - s.st)
    && K(r) == (var t := TakenAll(K(r0), h, ch[h], |ch[h]|); t.(lib := t.lib[h := []]))
  }

  lemma DiesAll(s: State, r0: State, r: State, c: Core, ch: Chains, x: int, col: Stone, u: Record, h: int)
    requires DyingSetup(s, r0, r, c, ch, x, col, u, h)
    ensures Dies(s, r, c, ch, h)
  {
    hide Reach, Maximal, LibsOK, Conn, TakenAll, TraceP, TraceLib, Dead, EnemyIds, MergedIds;
    var l := ch[h];
    IdApart(c, ch, col, u, h);
    TakenAllShape(K(r0), h, l, |l|);
    assert l[..|l|] == l;
    assert ChainList(c, h, l);
    forall y | 0 <= y < |s.b| ensures (y in l) == (s.g[y] == h) {
      assert s.g[y] == h <==> c.g[y] == h;
    }
  }

  lemma DiesAllLibs(s: State, r0: State, r: State, c: Core, ch: Chains, x: int, col: Stone, u: Record, u': Record,
      h: int)
    requires DyingSetup(s, r0, r, c, ch, x, col, u, h)
    requires MergedIds(u') == MergedIds(u) && Dead(u') == Dead(u) + {h} && EnemyIds(u') == EnemyIds(u) + {h}
    ensures TraceLib(r, c, ch, x, col, u')
  {
    hide Reach, Maximal, LibsOK, Conn, TakenAll, TraceP, TraceB, TraceG, Dead, EnemyIds, MergedIds, Linked, Cover,
         Stony, Extends, CapturedNear;
    IdApart(c, ch, col, u, h);
    forall i | 0 <= i < |s.lib| && i != h && i !in MergedIds(u)
      ensures if i in ch && c.b[i] == col then Extends(s.lib[i], r.lib[i], CapturedNear(c, u', i))
        else r.lib[i] == s.lib[i]
    {
      DiesLib(s, r0, c, ch, x, col, u, u', h, i);
    }
    hide W;
    forall i | i in ch && c.b[i] == Other(col) ensures i !in MergedIds(u) { IdApart(c, ch, col, u, i); }
    DiesLibs(s, r, c, ch, x, col, u, u', h);
  }

  lemma TraceDies(s: State, r0: State, r: State, c: Core, ch: Chains, x: int, col: Stone, u: Record, h: int, n: int)
    requires DyingSetup(s, r0, r, c, ch, x, col, u, h) && !r.full && r.st == s.st && ch[h] != []
    ensures Trace(r, c, ch, x, col, u.(enemies := u.enemies + [EnemyRec(h, c.lib[h], ch[h])], ncaptures := n))
  {
    var u' := u.(enemies := u.enemies + [EnemyRec(h, c.lib[h], ch[h])], ncaptures := n);
    EnemyIdsMore(u, EnemyRec(h, c.lib[h], ch[h]), n);
    assert MergedIds(u') == MergedIds(u) && Home(u') == Home(u);
    SameLinks(c.p, ch, x, u, u', |u.merged|);
    hide W, IdsOK, Dead, EnemyIds, MergedIds, TraceB, TraceG, TraceLib;
    DiesAll(s, r0, r, c, ch, x, col, u, h);
    DiesShape(s, r, c, ch, x, col, u, u', h);
    DiesAllLibs(s, r0, r, c, ch, x, col, u, u', h);
  }
}
