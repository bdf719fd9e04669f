/** Undoing a move that left its stone on the board: chains, links and lists. */
module UndoStones {
  import opened Grid
  import opened LibList
  import opened Engine
  import opened Invariant
  import opened Steps
  import opened Moves
  import opened PlayTheorem
  import opened Undo
  import opened UndoTrace
  import opened UndoPlay
  import opened UndoSplit
  import opened UndoRestore

  // ------------------------------------------------------------ the core of each step

  lemma {:induction false} UncountOnly(s: State, x: int, col: Stone, k: int)
    requires 0 <= k <= 4 && Inner(s, x)
    ensures var r := UncountUpTo(s, x, col, k); r == s.(n := r.n)
    decreases k
  {
    if k > 0 { UncountOnly(s, x, col, k - 1); }
  }

  lemma LiftCore(s: State, u: Record, m: Move)
    requires Inner(s, m.coord)
    ensures var r := LiftPlayed(s, u, m);
      r == s.(b := s.b[m.coord := Empty], g := s.g[m.coord := 0], p := s.p[m.coord := u.nextAt], n := r.n)
  {
    UncountOnly(s.(b := s.b[m.coord := Empty], g := s.g[m.coord := 0], p := s.p[m.coord := u.nextAt]), m.coord,
        m.colour, 4);
  }

  /** Taking the merges back: links as before but at the played point, ids of the merged chains
      and their lists as before. */
  ghost predicate Unmerged(r: State, t: State, c: Core, x: int, u: Record) {
    && t == r.(g := t.g, p := t.p, lib := t.lib)
    && |t.g| == |r.g| == |c.g| && |t.lib| == |r.lib| == |c.lib| && |t.p| == |c.p| && 0 <= x < |t.p|
    && t.p[x := c.p[x]] == c.p
    && (forall y :: 0 <= y < |t.g| ==> t.g[y] == if c.g[y] in From(u, 1) then c.g[y] else r.g[y])
    && (forall h :: 0 <= h < |t.lib| ==> t.lib[h] == if h in MergedIds(u) then c.lib[h] else r.lib[h])
  }

  lemma UndoMergeOK(r: State, c: Core, ch: Chains, x: int, col: Stone, u: Record)
    requires CanSplit(c, ch, x, col, u) && Sized(r) && |r.g| == |c.g| && |r.lib| == |c.lib|
    requires r.p == PAfter(c.p, ch, x, u, |u.merged|) && 0 <= x < |r.g| && r.g[x] == Home(u)
    ensures u.merged != [] && 0 <= x < |r.b| && Unmerged(r, UndoMerge(r, u, x), c, x, u)
  {
    hide From, CanSplit, SplitFrom, PAfter, SplitTo;
    FirstRecord(c, ch, x, col, u);
    SplitLoop(r, c, ch, x, col, u, 1);
    MergeEnds(r, SplitFrom(r, u, Home(u), 1), c, ch, x, u);
  }

  lemma MergeEnds(r: State, t: State, c: Core, ch: Chains, x: int, u: Record)
    requires u.merged != [] && SplitTo(r, t, c, ch, x, u, 1) && Sized(t)
    requires 0 < Home(u) < |c.lib| && 0 <= x < |c.p| == |c.lib|
    requires 0 <= u.inserted < |c.p| && u.inserted != x
    ensures |t.p| == |c.p| && |t.lib| == |c.lib|
    ensures Unmerged(r, t.(p := t.p[u.inserted := t.p[x]], lib := t.lib[Home(u) := c.lib[Home(u)]]), c, x, u)
  {
    assert PAfter(c.p, ch, x, u, 1) == c.p[x := c.p[u.inserted]][u.inserted := x];
    FromAll(u);
    hide From, MergedIds, PAfter;
    assert t.p[u.inserted := t.p[x]] == c.p[x := c.p[u.inserted]];
  }

  lemma FirstRecord(c: Core, ch: Chains, x: int, col: Stone, u: Record)
    requires CanSplit(c, ch, x, col, u)
    ensures u.merged != [] && 0 < Home(u) < |c.lib| && u.merged[0].lib == c.lib[Home(u)] && 0 <= x < |c.p| == |c.lib|
    ensures 0 <= u.inserted < |c.p| && u.inserted != x && c.g[u.inserted] == Home(u)
  {
    hide Touch, Framed, Cover;
    IdPositive(c, ch, u.merged[0].grp);
  }

  lemma FromAll(u: Record)
    requires u.merged != []
    ensures MergedIds(u) == From(u, 1) + {Home(u)}
  {
    LaterIds(u, 0);
  }

  // ------------------------------------------------------------ the record as sets

  lemma {:induction false} DueIs(es: seq<EnemyRec>, i: nat, h: int)
    requires i <= |es|
    ensures h in DueFrom(es, i) <==> exists j :: i <= j < |es| && es[j].grp == h
    decreases |es| - i
  {
    if i < |es| { DueIs(es, i + 1, h); }
  }

  lemma {:induction false} GoneIs(es: seq<EnemyRec>, i: nat, y: int)
    requires i <= |es|
    ensures y in GoneFrom(es, i) <==> exists j :: i <= j < |es| && y in es[j].stones
    decreases |es| - i
  {
    if i < |es| { GoneIs(es, i + 1, y); }
  }

  lemma DueAll(u: Record)
    ensures DueFrom(u.enemies, 0) == EnemyIds(u)
  {
    forall h ensures h in DueFrom(u.enemies, 0) <==> h in EnemyIds(u) { DueIs(u.enemies, 0, h); }
  }

  /** The stones of the record are those of the captured chains. */
  lemma GoneAll(c: Core, ch: Chains, x: int, col: Stone, u: Record, y: int)
    requires Shape(c) && EnemiesOK(c, ch, x, col, u) && Linked(c, ch) && Cover(c, ch, QUIET)
    ensures y in GoneFrom(u.enemies, 0) <==> 0 <= y < |c.g| && c.g[y] in Dead(u)
  {
    hide Touch, Framed;
    var es := u.enemies;
    GoneIs(es, 0, y);
    forall j | 0 <= j < |es| && es[j].stones != []
      ensures y in es[j].stones <==> 0 <= y < |c.g| && c.g[y] == es[j].grp
    {
      IdPositive(c, ch, es[j].grp);
      assert ChainList(c, es[j].grp, ch[es[j].grp]);
    }
  }

  // ------------------------------------------------------------ the stone is off again

  /** The board with the played stone lifted: captured chains are missing, everything else is
      back but for what the captures added to distant lists. */
  ghost predicate Lifted(t: State, c: Core, ch: Chains, col: Stone, u: Record) {
    && Sized(t) && t.st == c.st && !t.full && TraceB(t, c, u) && t.p == c.p && |t.g| == |c.g|
    && |t.lib| == |c.lib| == |c.b|
    && (forall y :: 0 <= y < |t.g| ==> t.g[y] == if c.g[y] in Dead(u) then 0 else c.g[y])
    && (forall h :: 0 <= h < |t.lib| && (h !in ch || h in MergedIds(u)) ==> t.lib[h] == c.lib[h])
    && (forall h :: 0 <= h < |t.lib| && h in ch && c.b[h] == Other(col) && h !in EnemyIds(u) ==> t.lib[h] == c.lib[h])
    && (forall h :: 0 <= h < |t.lib| && h in ch && c.b[h] == col && h !in MergedIds(u) ==>
          Extends(c.lib[h], t.lib[h], CapturedNear(c, u, h)))
  }

  /** What the board before the move tells about ids and lists. */
  ghost predicate Before(c: Core, ch: Chains, x: int, col: Stone, u: Record) {
    && IdsOK(c, ch, col, u) && 0 <= x < |c.b| == |c.g| && |c.p| == |c.b| && c.g[x] == 0 && c.b[x] == Empty
    && (forall h :: 0 <= h < |c.lib| && h !in ch ==> c.lib[h] == [])
  }

  lemma BeforeOK(q: State, ch: Chains, x: int, col: Stone, u: Record, k: int)
    requires PlayPoint(q, ch, x, col) && RecordOK(K(q), ch, x, col, u, k)
    ensures Before(K(q), ch, x, col, u) && Shape(K(q)) && Linked(K(q), ch) && Cover(K(q), ch, QUIET)
    ensures MergesOK(K(q), ch, x, col, u) && EnemiesOK(K(q), ch, x, col, u) && W(K(q), ch, QUIET)
  {
    hide Reach, Maximal, Conn, ChainList, MergesOK, EnemiesOK, Covers, LibOK, Lively;
    RecordIds(K(q), ch, x, col, u, k);
    assert View(K(q), QUIET) == q.b;
  }

  /** The board right after the loop, with the stone drawn. */
  ghost predicate DrawnOn(s: State, r: State, x: int, col: Stone, home: int) {
    && Sized(r) && Sized(s) && r.st == s.st && !r.full && |r.b| == |s.b| && 0 <= x < |s.b| && r.b == s.b[x := col]
    && (if home == 0
        then r.g == s.g[x := x] && r.p == s.p[x := 0] && |r.lib| == |s.lib|
          && (forall i :: 0 <= i < |s.lib| && i != x ==> r.lib[i] == s.lib[i])
        else r.g == s.g && r.p == s.p && r.lib == s.lib)
  }

  lemma LiftFounded(s: State, r: State, c: Core, ch: Chains, x: int, col: Stone, u: Record, t: State)
    requires Trace(s, c, ch, x, col, u) && Before(c, ch, x, col, u) && DrawnOn(s, r, x, col, 0) && u.merged == []
    requires x !in ch
    requires Sized(t) && t.st == r.st && !t.full && t.b == r.b[x := Empty] && t.g == r.g[x := 0]
    requires t.p == r.p[x := c.p[x]]
    requires t.lib == r.lib[x := []]
    ensures Lifted(t, c, ch, col, u)
  {
    hide Extends, CapturedNear, Dead, EnemyIds, MergedIds;
    assert t.p == c.p;
    assert TraceB(t, c, u) by { hide TraceLib; }
    assert forall y :: 0 <= y < |t.g| ==> t.g[y] == if c.g[y] in Dead(u) then 0 else c.g[y] by { hide TraceLib; }
  }

  lemma LiftJoined(s: State, r: State, c: Core, ch: Chains, x: int, col: Stone, u: Record, r1: State, t: State)
    requires Trace(s, c, ch, x, col, u) && Before(c, ch, x, col, u) && DrawnOn(s, r, x, col, Home(u))
    requires Home(u) != 0 && u.merged != []
    requires Unmerged(r, r1, c, x, u)
    requires Sized(t) && t.st == r.st && !t.full && t.b == r1.b[x := Empty] && t.g == r1.g[x := 0]
    requires t.p == r1.p[x := c.p[x]]
    requires t.lib == r1.lib
    ensures Lifted(t, c, ch, col, u)
  {
    hide Extends, CapturedNear, Dead, EnemyIds, MergedIds, From, Home, PAfter;
    FromAll(u);
    assert TraceB(t, c, u) by { hide TraceLib; }
    assert forall y :: 0 <= y < |t.g| ==> t.g[y] == if c.g[y] in Dead(u) then 0 else c.g[y] by { hide TraceLib; }
  }

  lemma GonePoint(c: Core, ch: Chains, x: int, col: Stone, u: Record, z: int)
    requires W(c, ch, QUIET) && EnemiesOK(c, ch, x, col, u) && IdsOK(c, ch, col, u) && z in GoneFrom(u.enemies, 0)
    ensures c.st < z < |c.b| - c.st && 0 <= z < |c.g| && c.g[z] in Dead(u) && c.b[z] == Other(col)
  {
    hide Reach, Maximal, LibsOK, Conn, EnemiesOK, Dead, EnemyIds, MergedIds, Touch;
    GoneAll(c, ch, x, col, u, z);
    assert c.g[z] in Dead(u);
    var h := c.g[z];
    assert ChainList(c, h, ch[h]);
    assert z in ch[h];
    SameHue(c, ch, QUIET, h, z);
    assert View(c, QUIET) == c.b;
  }

  lemma NearIs(c: Core, ch: Chains, x: int, col: Stone, u: Record, h: int)
    requires Shape(c) && EnemiesOK(c, ch, x, col, u) && Linked(c, ch) && Cover(c, ch, QUIET)
    ensures Near(c, GoneFrom(u.enemies, 0), h) == CapturedNear(c, u, h)
  {
    hide EnemiesOK, Framed, Linked, Cover, GoneFrom, Dead, Touch;
    forall y ensures y in GoneFrom(u.enemies, 0) <==> 0 <= y < |c.g| && c.g[y] in Dead(u) {
      GoneAll(c, ch, x, col, u, y);
    }
  }

  lemma LiftedMissing(t: State, c: Core, ch: Chains, col: Stone, u: Record, gone: set<int>)
    requires Lifted(t, c, ch, col, u) && |c.b| == |c.g|
    requires forall z :: z in gone ==> c.st < z < |c.b| - c.st && c.b[z] == Other(col)
    requires forall y :: y in gone <==> 0 <= y < |c.g| && c.g[y] in Dead(u)
    ensures Missing(t, c, Other(col), gone)
  {
    hide Dead, EnemyIds, MergedIds, Extends, CapturedNear;
  }

  lemma GoneFacts(c: Core, ch: Chains, x: int, col: Stone, u: Record)
    requires W(c, ch, QUIET) && EnemiesOK(c, ch, x, col, u) && IdsOK(c, ch, col, u)
    ensures Shape(c)
    ensures forall z :: z in GoneFrom(u.enemies, 0) ==> c.st < z < |c.b| - c.st && c.b[z] == Other(col)
    ensures forall y :: y in GoneFrom(u.enemies, 0) <==> 0 <= y < |c.g| && c.g[y] in Dead(u)
    ensures forall h :: h in ch ==>
      0 < h < |c.b| && IsColour(c.b[h]) && Near(c, GoneFrom(u.enemies, 0), h) == CapturedNear(c, u, h)
  {
    hide EnemiesOK, Dead, EnemyIds, MergedIds, GoneFrom, Near, CapturedNear, LibsOK, Reach, Maximal, Conn, Touch,
         ChainList;
    var gone := GoneFrom(u.enemies, 0);
    forall z | z in gone ensures c.st < z < |c.b| - c.st && 0 <= z < |c.g| && c.b[z] == Other(col) {
      GonePoint(c, ch, x, col, u, z);
    }
    forall y ensures y in gone <==> 0 <= y < |c.g| && c.g[y] in Dead(u) { GoneAll(c, ch, x, col, u, y); }
    forall h | h in ch ensures 0 < h < |c.b| && IsColour(c.b[h]) && Near(c, gone, h) == CapturedNear(c, u, h) {
      IdHue(c, ch, h);
      NearIs(c, ch, x, col, u, h);
    }
  }

  /** With the stone lifted, only the captured stones are missing. */
  lemma LiftedHalf(t: State, c: Core, ch: Chains, x: int, col: Stone, u: Record)
    requires Lifted(t, c, ch, col, u) && W(c, ch, QUIET) && EnemiesOK(c, ch, x, col, u) && IdsOK(c, ch, col, u)
    ensures Half(t, c, ch, Other(col), MergedIds(u), GoneFrom(u.enemies, 0), DueFrom(u.enemies, 0))
  {
    hide W, IdsOK, EnemiesOK, Dead, EnemyIds, MergedIds, GoneFrom, DueFrom, Near, CapturedNear, Lifted, Missing,
         ListsHalf;
    var gone := GoneFrom(u.enemies, 0);
    DueAll(u);
    GoneFacts(c, ch, x, col, u);
    ColourOf(c, ch, col, u);
    assert |t.lib| == |c.lib| by { LiftedSize(t, c, ch, col, u); }
    LiftedMissing(t, c, ch, col, u, gone);
    HalfLists(t, c, ch, col, u, gone);
  }

  lemma LiftedSize(t: State, c: Core, ch: Chains, col: Stone, u: Record)
    requires Lifted(t, c, ch, col, u)
    ensures |t.lib| == |c.lib|
  {
  }

  lemma ColourOf(c: Core, ch: Chains, col: Stone, u: Record)
    requires IdsOK(c, ch, col, u)
    ensures IsColour(col)
  {
  }

  lemma HalfLists(t: State, c: Core, ch: Chains, col: Stone, u: Record, gone: set<int>)
    requires Lifted(t, c, ch, col, u) && IsColour(col)
    requires forall h :: h in ch ==> 0 < h < |c.b| && IsColour(c.b[h]) && Near(c, gone, h) == CapturedNear(c, u, h)
    ensures ListsHalf(t, c, ch, Other(col), MergedIds(u), gone, EnemyIds(u))
  {
    hide Dead, EnemyIds, MergedIds, Extends, Near, CapturedNear;
  }

  lemma ListRight(c: Core, ch: Chains, h: int)
    requires W(c, ch, QUIET) && h in ch
    ensures RightList(c, h, ch[h])
  {
    hide Reach, Maximal, Conn, ChainList, Stony, LibOK;
    IdPositive(c, ch, h);
    ListsAll(c, ch, QUIET, h);
  }

  lemma TargetOK(c: Core, ch: Chains, hue: Stone, spared: set<int>)
    requires W(c, ch, QUIET) && IsColour(hue)
    ensures Target(c, ch, hue, spared)
  {
    hide Reach, Maximal, Conn, ChainList, LibsOK, RightList;
    forall h | h in ch ensures RightList(c, h, ch[h]) { ListRight(c, ch, h); }
    assert View(c, QUIET) == c.b;
    forall y | 0 <= y < |c.b| && c.g[y] != 0 ensures c.g[y] in ch && 0 < c.g[y] < |c.b| && c.b[c.g[y]] == c.b[y] {
      IdPositive(c, ch, c.g[y]);
      SameHue(c, ch, QUIET, c.g[y], y);
    }
  }

  lemma RecordedOK(c: Core, ch: Chains, x: int, col: Stone, u: Record)
    requires Shape(c) && EnemiesOK(c, ch, x, col, u) && Linked(c, ch) && IsColour(col)
    ensures Recorded(c, ch, Other(col), MergedIds(u), u.enemies)
  {
    hide Touch, Framed, MergedIds;
    var es := u.enemies;
    forall i | 0 <= i < |es| ensures 0 < es[i].grp < |c.b| && ChainList(c, es[i].grp, ch[es[i].grp]) {
      IdPositive(c, ch, es[i].grp);
    }
    hide ChainList;
  }

  /** The whole of the core is back. */
  lemma StoneUndone(q: State, ch: Chains, x: int, col: Stone, u: Record, t: State)
    requires PlayPoint(q, ch, x, col) && RecordOK(K(q), ch, x, col, u, 4) && Lifted(t, K(q), ch, col, u)
    ensures Sized(t) && K(RestoreUpTo(t, u.enemies, Other(col), MergedIds(u), |u.enemies|)) == K(q)
  {
    hide Quiet, RecordOK, PlayPoint, W, Lifted, EnemiesOK, MergedIds, Target, Recorded, Half, RestoreUpTo;
    var c := K(q);
    BeforeOK(q, ch, x, col, u, 4);
    hide Before;
    assert IdsOK(c, ch, col, u) by { BeforeIds(c, ch, x, col, u); }
    LiftedHalf(t, c, ch, x, col, u);
    ColourOf(c, ch, col, u);
    TargetOK(c, ch, Other(col), MergedIds(u));
    RecordedOK(c, ch, x, col, u);
    var n := |u.enemies|;
    RestoreHalf(t, c, ch, Other(col), MergedIds(u), u.enemies, n);
    assert GoneFrom(u.enemies, n) == {} && DueFrom(u.enemies, n) == {};
    HalfDone(RestoreUpTo(t, u.enemies, Other(col), MergedIds(u), n), c, ch, Other(col), MergedIds(u));
  }

  lemma BeforeIds(c: Core, ch: Chains, x: int, col: Stone, u: Record)
    requires Before(c, ch, x, col, u)
    ensures IdsOK(c, ch, col, u)
  {
  }
}
