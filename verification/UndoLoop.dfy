/** The neighbour loop of a quick play keeps the closed form. */
module UndoLoop {
  import opened Grid
  import opened LibList
  import opened Engine
  import opened Invariant
  import opened Steps
  import opened Captures
  import opened Books
  import opened PlayTheorem
  import opened Undo
  import opened UndoTrace
  import opened UndoPlay

  /** Dropping the played point from a short list empties it; a longer one survives. */
  lemma DropPlayedPoint(c: Core, h: int, x: int)
    requires 0 <= h < |c.lib| && Distinct(c.lib[h]) && |c.lib[h]| <= KEEP && c.lib[h] != []
    requires |c.lib[h]| == 1 ==> c.lib[h] == [x]
    ensures x !in Dropped(c, h, x)
    ensures Dropped(c, h, x) == [] <==> |c.lib[h]| == 1
  {
    var l := c.lib[h];
    if x in l {
      SwapRemoveMembers(l, x);
      var r := SwapRemove(l, x);
      if |r| == REFILL {
        var stones := Walk(c.p, h, |c.p|);
        FillSteps(r, EmptyAround(c.b, c.st, stones, |stones|), x);
      }
    }
  }

  lemma SoleLib(c: Core, ch: Chains, x: int, h: int)
    requires Quiet(c, ch) && 0 <= x < |c.b| && c.b[x] == Empty && h in ch && Touch(c, x, h)
    ensures 0 < h < |c.lib| && c.lib[h] != [] && Distinct(c.lib[h]) && |c.lib[h]| <= KEEP
    ensures |c.lib[h]| == 1 ==> c.lib[h] == [x]
  {
    hide Reach, Maximal, Conn, Linked, Cover, Stony;
    IdPositive(c, ch, h);
    assert x in Libs(c, QUIET, h);
  }

  ghost predicate Stepping(s: State, q: State, ch: Chains, x: int, col: Stone, u: Record, k: int) {
    PlayPoint(q, ch, x, col) && Trace(s, K(q), ch, x, col, u) && RecordOK(K(q), ch, x, col, u, k)
  }

  /** What the neighbour looks like now, from what it was. */
  lemma NbNow(s: State, q: State, ch: Chains, x: int, col: Stone, u: Record, k: int)
    requires Stepping(s, q, ch, x, col, u, k) && 0 <= k < 4
    ensures Inner(s, x) && 0 <= Nb(s.st, x, k) < |s.b| && s.st == q.st && |q.b| == |s.b|
    ensures IdsOK(K(q), ch, col, u) && 0 <= Home(u) < |s.b| && W(K(q), ch, QUIET) && q.g[x] == 0
    ensures var y := Nb(s.st, x, k); 0 <= s.g[y] < |s.b|
    ensures var y := Nb(s.st, x, k); q.g[y] in Dead(u) ==> s.g[y] == 0 && q.b[y] == Other(col)
    ensures var y := Nb(s.st, x, k); q.g[y] in MergedIds(u) ==> s.g[y] == Home(u) && s.b[y] == col == q.b[y]
    ensures var y := Nb(s.st, x, k); q.g[y] !in Dead(u) && q.g[y] !in MergedIds(u) ==>
      s.g[y] == q.g[y] && s.b[y] == q.b[y]
    ensures var y := Nb(s.st, x, k); q.g[y] in EnemyIds(u) ==> q.b[y] == Other(col)
    ensures var y := Nb(s.st, x, k); q.g[y] == 0 ==> !IsColour(q.b[y]) && 0 !in MergedIds(u) && 0 !in EnemyIds(u)
    ensures var y := Nb(s.st, x, k);
      q.g[y] != 0 ==> Savable(q, ch, x, y, q.b[y]) && (q.b[y] == col || q.b[y] == Other(col))
  {
    hide Reach, Maximal, LibsOK, Conn, MergesOK, EnemiesOK, Covers, TraceP, TraceLib, Touch, Linked, Dead, EnemyIds,
         MergedIds;
    NbChain(q, ch, x, col, k);
    RecordIds(K(q), ch, x, col, u, k);
  }

  function Counted(s: State, y: int, col: Stone): (r: State)
    requires 0 <= y < |s.n|
    ensures Kept(s, r)
  {
    s.(n := s.n[y := BumpN(s.n[y], col, 1)])
  }

  lemma RemFacts(s: State, h: int, x: int, y: int, col: Stone)
    requires Sized(s) && 0 <= h < |s.lib| && 0 <= y < |s.n|
    ensures var r := RemoveLib(Counted(s, y, col), h, x);
      r.b == s.b && r.g == s.g && r.p == s.p && r.st == s.st && r.lasts == s.lasts && r.full == s.full && Sized(r)
    ensures RemoveLib(Counted(s, y, col), h, x).lib == s.lib[h := Dropped(K(s), h, x)]
  {
    RemoveLibCore(Counted(s, y, col), h, x);
    RemoveLibBooks(Counted(s, y, col), h, x);
  }

  /** The neighbour joins nothing and loses nothing it still has. */
  lemma IdleStep(s: State, q: State, ch: Chains, x: int, col: Stone, u: Record, k: int)
    requires Stepping(s, q, ch, x, col, u, k) && 0 <= k < 4 && Inner(q, x) && Inner(s, x) && 0 <= Home(u) < |s.b|
    requires var y := Nb(q.st, x, k);
      0 <= y < |s.b| && 0 <= s.g[y] < |s.b| && (s.g[y] == 0 || s.g[y] == Home(u)
        || (s.g[y] in EnemyIds(u) && s.g[y] !in Dead(u)))
    requires var y := Nb(q.st, x, k); s.g[y] != 0 && s.g[y] != Home(u) ==> s.b[y] == Other(col)
    requires s.b[Nb(q.st, x, k)] == Other(col) ==> s.g[Nb(q.st, x, k)] != Home(u) || s.g[Nb(q.st, x, k)] == 0
    requires IdsOK(K(q), ch, col, u)
    ensures var (r, grp) := PlayOne(s, x, col, Nb(q.st, x, k), Home(u)); grp == Home(u) && Trace(r, K(q), ch, x, col, u)
  {
    hide PlayPoint, RecordOK, TraceB, TraceG, TraceP, Dead, EnemyIds, MergedIds, Capture, Merge, AddToGroup, RemoveLib;
    var y := Nb(q.st, x, k);
    var h := s.g[y];
    if h == 0 {
      TraceIdle(s, Counted(s, y, col), K(q), ch, x, col, u);
    } else {
      RemFacts(s, h, x, y, col);
      var r := RemoveLib(Counted(s, y, col), h, x);
      if h != Home(u) { assert Dropped(K(s), h, x) == s.lib[h]; assert r.lib == s.lib; }
      OtherDiffers(col, s.b[y]);
      TraceIdle(s, r, K(q), ch, x, col, u);
    }
  }

  lemma OtherDiffers(col: Stone, c: Stone)
    ensures IsColour(col) ==> Other(col) != col
  {
  }

  lemma JoinCase(s: State, q: State, ch: Chains, x: int, col: Stone, u: Record, k: int)
    requires Stepping(s, q, ch, x, col, u, k) && 0 <= k < 4 && Inner(q, x) && Inner(s, x) && u.merged == []
    requires IdsOK(K(q), ch, col, u)
    requires var y := Nb(q.st, x, k); 0 <= y < |s.b| && s.g[y] in ch && s.b[y] == col && q.b[s.g[y]] == col
    ensures var y := Nb(q.st, x, k); var h := s.g[y]; 0 < h < |s.b|
    ensures var y := Nb(q.st, x, k); var h := s.g[y]; var (r, grp) := PlayOne(s, x, col, y, 0);
      grp == h && Trace(r, K(q), ch, x, col, u.(inserted := y, merged := u.merged + [MergeRec(h, q.lib[h])]))
  {
    hide PlayPoint, RecordOK, Trace, Dead, EnemyIds, MergedIds, Capture, Merge, AddToGroup, RemoveLib, Dropped;
    var y := Nb(q.st, x, k);
    var h := s.g[y];
    assert 0 < h < |s.b| && s.st == q.st && Sized(s) && !s.full by { TraceSizes(s, q, ch, x, col, u); }
    RemFacts(s, h, x, y, col);
    var s2 := RemoveLib(Counted(s, y, col), h, x);
    AddToGroupCore(s2, h, y, x);
    AddToGroupBooks(s2, h, y, x);
    var r := AddToGroup(s2, h, y, x);
    JoinLasts(s2, h, y, x);
    TraceJoin(s, K(q), ch, x, col, u, y, h, r);
  }

  lemma TraceSizes(s: State, q: State, ch: Chains, x: int, col: Stone, u: Record)
    requires Trace(s, K(q), ch, x, col, u) && IdsOK(K(q), ch, col, u)
    ensures s.st == q.st && Sized(s) && !s.full && |q.b| == |s.b| && forall h :: h in ch ==> 0 < h < |s.b|
  {
  }

  lemma JoinLasts(s: State, h: int, y: int, x: int)
    requires Inner(s, x) && 0 <= h < |s.lib| && 0 <= y < |s.p|
    ensures AddToGroup(s, h, y, x).lasts == s.lasts && AddToGroup(s, h, y, x).full == s.full
  {
    AddEmptyNbsBooks(s.(g := s.g[x := h], p := s.p[x := s.p[y]][y := x]), h, x, 4);
  }

  lemma MergeCase(s: State, q: State, ch: Chains, x: int, col: Stone, u: Record, k: int)
    requires Stepping(s, q, ch, x, col, u, k) && 0 <= k < 4 && Inner(q, x) && Inner(s, x) && u.merged != []
    requires IdsOK(K(q), ch, col, u) && q.g[x] == 0 && Linked(K(q), ch)
    requires var y := Nb(q.st, x, k);
      0 <= y < |s.b| && s.g[y] in ch && s.b[y] == col && 0 <= s.g[y] < |q.b| && q.b[s.g[y]] == col
    requires var y := Nb(q.st, x, k); s.g[y] !in MergedIds(u) && 0 < Home(u) < |s.b|
    ensures var y := Nb(q.st, x, k); var h := s.g[y]; var (r, grp) := PlayOne(s, x, col, y, Home(u));
      grp == Home(u) && Trace(r, K(q), ch, x, col, u.(merged := u.merged + [MergeRec(h, q.lib[h])]))
  {
    hide PlayPoint, Dead, EnemyIds, MergedIds, Capture, Merge, AddToGroup, RemoveLib, Dropped, TraceB, TraceG, TraceP,
         TraceLib, RecordOK, IdsOK, Linked, Walk;
    var y := Nb(q.st, x, k);
    var h := s.g[y];
    TraceSizes(s, q, ch, x, col, u);
    IdApartFriend(K(q), ch, col, u, h);
    RemFacts(s, h, x, y, col);
    var s2 := RemoveLib(Counted(s, y, col), h, x);
    StillChain(s, K(q), ch, x, col, u, k, h);
    var l := ch[h];
    assert ChainList(K(s2), h, l);
    MergeCore(s2, Home(u), h, l);
    MergeBooks(s2, Home(u), h);
    var r := Merge(s2, Home(u), h);
    MergeLasts(s2, Home(u), h);
    RelabelAt(s2.g, l, Home(u), |l|);
    assert l[..|l|] == l;
    MergeMarks(s, q, ch, x, col, u, h);
    TraceMerge(s, K(q), ch, x, col, u, h, r);
  }

  lemma IdApartFriend(c: Core, ch: Chains, col: Stone, u: Record, h: int)
    requires IdsOK(c, ch, col, u) && h in ch && c.b[h] == col && h !in MergedIds(u)
    ensures h !in Dead(u) && h != Home(u) && 0 < h < |c.b|
  {
  }

  lemma MergeLasts(s: State, to: int, from: int)
    requires Sized(s) && 0 <= to < |s.lib| && Walkable(s, from) && !s.full
    ensures Merge(s, to, from).lasts == s.lasts + [ChainOf(s, from)[|ChainOf(s, from)| - 1]]
  {
    var l := s.lib[from];
    AppendLibsBut(s, to, l, |l|, -1);
  }

  /** The stones that carry the id h now are the list it had at the start. */
  lemma MergeMarks(s: State, q: State, ch: Chains, x: int, col: Stone, u: Record, h: int)
    requires Trace(s, K(q), ch, x, col, u) && PlayPoint(q, ch, x, col) && IdsOK(K(q), ch, col, u)
    requires h in ch && h !in MergedIds(u) && h !in Dead(u) && h != Home(u) && 0 < h < |q.b|
    ensures forall z :: 0 <= z < |s.g| ==> (s.g[z] == h <==> z in ch[h])
  {
    hide Reach, Maximal, LibsOK, Conn, TraceP, TraceLib, TraceB, Dead, EnemyIds, MergedIds, Home;
    assert ChainList(K(q), h, ch[h]);
    forall z | 0 <= z < |s.g| ensures s.g[z] == h <==> z in ch[h] {
      assert s.g[z] == GAfter(K(q), u, x, z);
    }
  }

  /** An opponent chain met for the first time, and what becomes of it. */
  ghost predicate Meets(s: State, q: State, ch: Chains, x: int, col: Stone, u: Record, k: int) {
    && Stepping(s, q, ch, x, col, u, k) && 0 <= k < 4 && Inner(q, x) && Inner(s, x) && s.st == q.st && |s.b| == |q.b|
    && IdsOK(K(q), ch, col, u) && W(K(q), ch, QUIET) && 0 <= Home(u) < |s.b| && q.g[x] == 0
    && MetAt(s, q, ch, col, u, Nb(q.st, x, k))
  }

  ghost predicate MetAt(s: State, q: State, ch: Chains, col: Stone, u: Record, y: int)
    requires Sized(s) && Sized(q)
  {
    && 0 <= y < |s.b| == |q.b| && s.g[y] in ch && 0 < s.g[y] < |s.b| && s.g[y] == q.g[y]
    && s.b[y] == q.b[y] == Other(col) && q.b[s.g[y]] == Other(col) && s.g[y] !in EnemyIds(u)
  }

  lemma MetList(s: State, q: State, ch: Chains, x: int, col: Stone, u: Record, k: int)
    requires Meets(s, q, ch, x, col, u, k)
    ensures var h := q.g[Nb(q.st, x, k)];
      s.lib[h] == q.lib[h] && s.lib[h] != [] && Distinct(s.lib[h]) && |s.lib[h]| <= KEEP
    ensures var h := q.g[Nb(q.st, x, k)]; |s.lib[h]| == 1 ==> s.lib[h] == [x]
  {
    hide W, Dead, EnemyIds, MergedIds, TraceB, TraceG, TraceP, RecordOK, Extends;
    NbChain(q, ch, x, col, k);
    SoleLib(K(q), ch, x, q.g[Nb(q.st, x, k)]);
  }

  lemma EnemyCase(s: State, q: State, ch: Chains, x: int, col: Stone, u: Record, k: int, n: int)
    requires Meets(s, q, ch, x, col, u, k) && |q.lib[q.g[Nb(q.st, x, k)]]| != 1
    ensures var y := Nb(q.st, x, k); var h := s.g[y]; var (r, grp) := PlayOne(s, x, col, y, Home(u));
      grp == Home(u) && Trace(r, K(q), ch, x, col, u.(enemies := u.enemies + [EnemyRec(h, q.lib[h], [])],
          ncaptures := n))
  {
    hide W, RecordOK, Dead, EnemyIds, MergedIds, Capture, Merge, AddToGroup, RemoveLib, Dropped, PlayPoint, TraceB,
         TraceG, TraceP, TraceLib;
    var y := Nb(q.st, x, k);
    var h := s.g[y];
    MetList(s, q, ch, x, col, u, k);
    DropPlayedPoint(K(s), h, x);
    RemFacts(s, h, x, y, col);
    var r := RemoveLib(Counted(s, y, col), h, x);
    TraceEnemy(s, K(q), ch, x, col, u, h, n, r);
  }

  lemma DeathSetup(s: State, q: State, ch: Chains, x: int, col: Stone, u: Record, k: int, r0: State)
    requires Meets(s, q, ch, x, col, u, k) && Sized(r0)
    requires r0.b == s.b && r0.g == s.g && r0.p == s.p && r0.st == s.st && r0.lasts == s.lasts && |r0.lib| == |s.lib|
    requires forall i :: 0 <= i < |s.lib| && i != s.g[Nb(q.st, x, k)] ==> r0.lib[i] == s.lib[i]
    ensures var h := s.g[Nb(q.st, x, k)]; ChainList(K(r0), h, ch[h]) && DyingSetup(s, r0, Capture(r0, h), K(q), ch, x,
        col, u, h)
    ensures ChainOf(r0, s.g[Nb(q.st, x, k)]) == ch[s.g[Nb(q.st, x, k)]] && ch[s.g[Nb(q.st, x, k)]] != []
  {
    hide Reach, Maximal, LibsOK, Conn, TraceB, TraceG, TraceP, TraceLib, Dead, EnemyIds, MergedIds, Capture, TakenAll,
         PlayPoint;
    var h := s.g[Nb(q.st, x, k)];
    IdApart(K(q), ch, col, u, h);
    StillChain(s, K(q), ch, x, col, u, k, h);
    assert ChainList(K(r0), h, ch[h]);
    CaptureCore(r0, h, ch[h]);
    CaptureLasts(r0, h);
  }

  lemma CaptureLasts(s: State, h: int)
    ensures Capture(s, h).lasts == s.lasts
  {
    if Walkable(s, h) { CaptureUpToLasts(s, h, ChainOf(s, h), |ChainOf(s, h)|); }
  }

  lemma {:induction false} CaptureUpToLasts(s: State, h: int, l: seq<int>, i: int)
    requires 0 <= i <= |l| && forall j :: 0 <= j < |l| ==> Inner(s, l[j])
    ensures CaptureUpTo(s, h, l, i).lasts == s.lasts
    decreases i
  {
    hide RemoveNbs;
    if i > 0 {
      CaptureUpToLasts(s, h, l, i - 1);
      var s1 := CaptureUpTo(s, h, l, i - 1);
      var x := l[i - 1];
      assert Inner(s, x);
      var s2 := s1.(caps := Bump(s1.caps, Other(s1.b[x]), 1));
      RemoveNbsBooks(HashUpdate(s2.(b := s2.b[x := Empty], g := s2.g[x := 0]), x, s2.b[x]), h, x, s2.b[x], 4);
    }
  }

  lemma DeathCase(s: State, q: State, ch: Chains, x: int, col: Stone, u: Record, k: int, n: int)
    requires Meets(s, q, ch, x, col, u, k) && |q.lib[q.g[Nb(q.st, x, k)]]| == 1
    ensures var y := Nb(q.st, x, k); var h := s.g[y]; var (r, grp) := PlayOne(s, x, col, y, Home(u));
      grp == Home(u) && Trace(r, K(q), ch, x, col, u.(enemies := u.enemies + [EnemyRec(h, q.lib[h], ch[h])],
          ncaptures := n))
  {
    hide W, RecordOK, Dead, EnemyIds, MergedIds, Capture, Merge, AddToGroup, RemoveLib, Dropped, PlayPoint, TraceB,
         TraceG, TraceP, TraceLib, DyingSetup;
    var y := Nb(q.st, x, k);
    var h := s.g[y];
    MetList(s, q, ch, x, col, u, k);
    DropPlayedPoint(K(s), h, x);
    RemFacts(s, h, x, y, col);
    var r0 := RemoveLib(Counted(s, y, col), h, x);
    OtherDiffers(col, col);
    DeathSetup(s, q, ch, x, col, u, k, r0);
    TraceDies(s, r0, Capture(r0, h), K(q), ch, x, col, u, h, n);
  }

  /** What the record gains at the next neighbour. */
  function SaveNext(q: State, u: Record, x: int, col: Stone, k: int): Record
    requires 0 <= k < 4 && Inner(q, x)
  {
    var y := Nb(q.st, x, k);
    var grp := q.g[y];
    if !(0 <= grp < |q.lib|) then u
    else if q.b[y] == col then SaveMerge(q, u, grp, y)
    else if q.b[y] == Other(col) then SaveEnemy(q, u, grp)
    else u
  }

  lemma TraceStep(s: State, q: State, ch: Chains, x: int, col: Stone, u: Record, k: int)
    requires Stepping(s, q, ch, x, col, u, k) && 0 <= k < 4
    ensures Inner(q, x) && Inner(s, x) && 0 <= Nb(q.st, x, k) < |s.b| && 0 <= Home(u) < |s.b|
    ensures var u' := SaveNext(q, u, x, col, k); var (r, grp) := PlayOne(s, x, col, Nb(q.st, x, k), Home(u));
      grp == Home(u') && Trace(r, K(q), ch, x, col, u')
  {
    hide W, RecordOK, Dead, EnemyIds, MergedIds, PlayOne, TraceB, TraceG, TraceP, TraceLib, ChainOf, Quiet, Touch;
    NbNow(s, q, ch, x, col, u, k);
    NbChain(q, ch, x, col, k);
    var y := Nb(q.st, x, k);
    var h := q.g[y];
    SavedMergeIff(u, h);
    SavedEnemyIff(u, h);
    hide SavedMerge, SavedEnemy;
    TraceSizes(s, q, ch, x, col, u);
    if h == 0 || h in MergedIds(u) || h in EnemyIds(u) {
      IdleStep(s, q, ch, x, col, u, k);
      assert SaveNext(q, u, x, col, k) == u;
    } else if q.b[y] == col {
      if u.merged == [] {
        JoinCase(s, q, ch, x, col, u, k);
      } else {
        assert Linked(K(q), ch) by { LinkedOf(K(q), ch); }
        HomePositive(K(q), ch, col, u);
        MergeCase(s, q, ch, x, col, u, k);
      }
    } else {
      var n := SaveEnemy(q, u, h).ncaptures;
      LivelyHas(K(q), ch, h);
      assert Meets(s, q, ch, x, col, u, k);
      hide Meets, Trace;
      if |q.lib[h]| == 1 { DeathCase(s, q, ch, x, col, u, k, n); } else { EnemyCase(s, q, ch, x, col, u, k, n); }
    }
  }

  lemma LinkedOf(c: Core, ch: Chains)
    requires W(c, ch, QUIET)
    ensures Linked(c, ch)
  {
  }

  lemma LivelyHas(c: Core, ch: Chains, h: int)
    requires Quiet(c, ch) && h in ch && 0 <= h < |c.lib|
    ensures c.lib[h] != []
  {
  }

  lemma HomePositive(c: Core, ch: Chains, col: Stone, u: Record)
    requires IdsOK(c, ch, col, u) && u.merged != []
    ensures 0 < Home(u) < |c.b|
  {
  }

  lemma {:induction false} TraceLoop(q: State, ch: Chains, x: int, col: Stone, u: Record, k: int)
    requires PlayPoint(q, ch, x, col) && 0 <= k <= 4 && u.merged == [] && u.enemies == [] && !q.full && q.lasts == []
    ensures Inner(q, x)
    ensures var (s, grp) := PlayUpTo(q, x, col, k); var u' := SaveUpTo(q, u, x, col, k);
      grp == Home(u') && Stepping(s, q, ch, x, col, u', k)
    decreases k
  {
    hide RecordOK, Trace, PlayOne, Quiet, SaveUpTo, PlayUpTo, Home, PlayPoint;
    NbChain(q, ch, x, col, 0);
    SaveUpToOK(q, ch, x, col, u, k);
    if k == 0 {
      LoopStart(q, x, col, u);
      TraceStart(q, ch, x, col, SaveUpTo(q, u, x, col, 0));
    } else {
      TraceLoop(q, ch, x, col, u, k - 1);
      TraceStep(PlayUpTo(q, x, col, k - 1).0, q, ch, x, col, SaveUpTo(q, u, x, col, k - 1), k - 1);
      LoopNext(q, x, col, u, k);
    }
  }

  lemma LoopStart(q: State, x: int, col: Stone, u: Record)
    requires Inner(q, x) && u.merged == []
    ensures PlayUpTo(q, x, col, 0) == (q, 0) && SaveUpTo(q, u, x, col, 0) == u.(nextAt := q.p[x])
    ensures Home(SaveUpTo(q, u, x, col, 0)) == 0
  {
  }

  lemma LoopNext(q: State, x: int, col: Stone, u: Record, k: int)
    requires Inner(q, x) && 1 <= k <= 4 && 0 <= Nb(q.st, x, k - 1) < |q.b|
    ensures var (s, grp) := PlayUpTo(q, x, col, k - 1);
      PlayUpTo(q, x, col, k) == PlayOne(s, x, col, Nb(q.st, x, k - 1), grp)
    ensures SaveUpTo(q, u, x, col, k) == SaveNext(q, SaveUpTo(q, u, x, col, k - 1), x, col, k - 1)
  {
    hide PlayOne, SaveMerge, SaveEnemy;
  }
}
