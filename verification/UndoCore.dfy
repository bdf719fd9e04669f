/** Undoing a quick play puts the chains, links and lists back: moves whose stone stayed. */
module UndoCore {
  import opened Grid
  import opened Engine
  import opened Invariant
  import opened Steps
  import opened Undo
  import opened UndoTrace
  import opened UndoPlay
  import opened UndoLoop
  import opened UndoSplit
  import opened UndoStones

  lemma {:induction false} SavedLink(q: State, u: Record, x: int, col: Stone, k: int)
    requires 0 <= k <= 4 && Inner(q, x)
    ensures SaveUpTo(q, u, x, col, k).nextAt == q.p[x]
    decreases k
  {
    hide SavedMerge, SavedEnemy, ChainOf;
    if k > 0 { SavedLink(q, u, x, col, k - 1); }
  }

  /** The last stones of merged chains are filled in as the merges happen. */
  lemma WithLasts(s: State, c: Core, ch: Chains, x: int, col: Stone, u: Record, k: int, l: seq<int>)
    requires Trace(s, c, ch, x, col, u) && RecordOK(c, ch, x, col, u, k)
    ensures var v := u.(lasts := l); Trace(s, c, ch, x, col, v) && RecordOK(c, ch, x, col, v, k) && Home(v) == Home(u)
  {
    var v := u.(lasts := l);
    SameLinks(c.p, ch, x, u, v, |u.merged|);
    assert MergedIds(v) == MergedIds(u) && EnemyIds(v) == EnemyIds(u) && Dead(v) == Dead(u);
    NearSame(c, u, v);
    RecordAlike(c, ch, x, col, u, v, k);
    hide MergedIds, EnemyIds, Dead, CapturedNear, Extends, RecordOK, PAfter;
    assert TraceB(s, c, v) && TraceG(s, c, x, v);
    hide TraceB, TraceG;
    assert TraceP(s, c, ch, x, v);
    hide TraceP;
    assert TraceLib(s, c, ch, x, col, v);
  }

  lemma RecordAlike(c: Core, ch: Chains, x: int, col: Stone, u: Record, v: Record, k: int)
    requires RecordOK(c, ch, x, col, u, k) && v.merged == u.merged && v.enemies == u.enemies && v.inserted == u.inserted
    requires MergedIds(v) == MergedIds(u) && EnemyIds(v) == EnemyIds(u)
    ensures RecordOK(c, ch, x, col, v, k)
  {
    hide MergedIds, EnemyIds, Touch, Framed;
    assert Covers(c, x, col, v, k) by { hide MergesOK, EnemiesOK; }
    hide Covers;
    assert MergesOK(c, ch, x, col, v) by { hide EnemiesOK; }
    hide MergesOK;
    assert EnemiesOK(c, ch, x, col, v);
  }

  /** The record of a quick play before a possible suicide is added to it. */
  function PlayRecord(q: State, m: Move): Record
    requires Inner(q, m.coord)
  {
    SaveUpTo(q, InitRecord(q), m.coord, m.colour, 4).(lasts := PlayOutside(q, m).0.lasts)
  }

  lemma OutsideParts(q: State, m: Move)
    requires Inner(q, m.coord) && !q.full
    ensures var (s, home) := PlayUpTo(q, m.coord, m.colour, 4); var s2 := s.(b := s.b[m.coord := m.colour]);
      Sized(s) && !s.full && |s.b| == |q.b| && s.st == q.st
    ensures var (s, home) := PlayUpTo(q, m.coord, m.colour, 4); var s2 := s.(b := s.b[m.coord := m.colour]);
      Inner(s2, m.coord)
    ensures var (s, home) := PlayUpTo(q, m.coord, m.colour, 4); var s2 := s.(b := s.b[m.coord := m.colour]);
      var o := PlayOutside(q, m).0;
      K(o) == K(if home == 0 then NewGroup(s2, m.coord) else s2) && o.lasts == s.lasts && !o.full && Sized(o)
  {
    hide PlayUpTo, EmptyNbs, KeyOf;
    var (s, home) := PlayUpTo(q, m.coord, m.colour, 4);
    assert Kept(q, s);
  }

  lemma OutsideDrawn(q: State, m: Move)
    requires Inner(q, m.coord) && !q.full
    ensures var (s, home) := PlayUpTo(q, m.coord, m.colour, 4); var o := PlayOutside(q, m).0;
      DrawnOn(s, o, m.coord, m.colour, home) && o.lasts == s.lasts
  {
    hide PlayUpTo, EmptyNbs, PlayOutside;
    OutsideParts(q, m);
    CoreOf(PlayOutside(q, m).0);
  }

  lemma CoreOf(s: State)
    ensures K(s).st == s.st && K(s).b == s.b && K(s).g == s.g && K(s).p == s.p && K(s).lib == s.lib
  {
  }

  /** Both at once: the state after the stone is down, in terms of the record. */
  ghost predicate Put(q: State, ch: Chains, m: Move, s: State, v: Record) {
    && Inner(q, m.coord) && PlayPoint(q, ch, m.coord, m.colour) && v == PlayRecord(q, m)
    && s == PlayUpTo(q, m.coord, m.colour, 4).0
    && Trace(s, K(q), ch, m.coord, m.colour, v) && RecordOK(K(q), ch, m.coord, m.colour, v, 4)
    && DrawnOn(s, PlayOutside(q, m).0, m.coord, m.colour, Home(v)) && v.lasts == s.lasts && v.nextAt == q.p[m.coord]
    && PlayUpTo(q, m.coord, m.colour, 4).1 == Home(v)
  }

  lemma PutOK(q: State, ch: Chains, m: Move)
    requires PlayPoint(q, ch, m.coord, m.colour) && !q.full && q.lasts == []
    ensures Inner(q, m.coord)
    ensures Put(q, ch, m, PlayUpTo(q, m.coord, m.colour, 4).0, PlayRecord(q, m))
  {
    hide PlayPoint, Trace, RecordOK, PlayUpTo, SaveUpTo, PlayOutside, DrawnOn;
    assert Inner(q, m.coord) by { NbChain(q, ch, m.coord, m.colour, 0); }
    var u0 := InitRecord(q);
    TraceLoop(q, ch, m.coord, m.colour, u0, 4);
    SavedLink(q, u0, m.coord, m.colour, 4);
    OutsideDrawn(q, m);
    WithLasts(PlayUpTo(q, m.coord, m.colour, 4).0, K(q), ch, m.coord, m.colour, SaveUpTo(q, u0, m.coord, m.colour, 4),
        4, PlayOutside(q, m).0.lasts);
  }

  lemma SplitReady(q: State, ch: Chains, m: Move, s: State, v: Record)
    requires Put(q, ch, m, s, v) && v.merged != []
    ensures CanSplit(K(q), ch, m.coord, m.colour, v) && Home(v) != 0
    ensures K(PlayOutside(q, m).0).p == PAfter(q.p, ch, m.coord, v, |v.merged|)
    ensures var o := PlayOutside(q, m).0; |o.g| == |q.g| && |o.lib| == |q.lib| && o.g[m.coord] == Home(v)
  {
    hide PlayPoint, RecordOK, PlayRecord, PlayUpTo, PlayOutside, Before, MergesOK, EnemiesOK, Linked, Cover, W,
         PAfter, TraceB, CanSplit, Framed;
    BeforeOK(q, ch, m.coord, m.colour, v, 4);
    BeforeEmpty(K(q), ch, m.coord, m.colour, v);
    CanSplitFrom(s, K(q), ch, m.coord, m.colour, v);
    hide TraceLib, TraceP;
    assert s.g[m.coord] == Home(v);
  }

  lemma CanSplitFrom(s: State, c: Core, ch: Chains, x: int, col: Stone, v: Record)
    requires Shape(c) && MergesOK(c, ch, x, col, v) && Linked(c, ch) && Cover(c, ch, QUIET)
    requires v.merged != [] && 0 <= x < |c.g| && c.g[x] == 0 && TraceP(s, c, ch, x, v) && v.lasts == s.lasts
    ensures CanSplit(c, ch, x, col, v) && Home(v) != 0
  {
    hide Touch, Framed, Cover, PAfter;
    IdPositive(c, ch, v.merged[0].grp);
  }

  lemma NoChainAt(c: Core, ch: Chains, x: int)
    requires Shape(c) && Linked(c, ch) && 0 <= x < |c.g| && c.g[x] == 0
    ensures x !in ch
  {
    if x in ch { IdPositive(c, ch, x); }
  }

  lemma LiftedOffOK(q: State, ch: Chains, m: Move, s: State, v: Record, w: State)
    requires Put(q, ch, m, s, v) && Sized(w) && !w.full && K(w) == K(PlayOutside(q, m).0)
    ensures Inner(w, m.coord) && Lifted(LiftedOff(w, v, m), K(q), ch, m.colour, v)
  {
    hide PlayPoint, RecordOK, PlayRecord, PlayUpTo, PlayOutside, Trace, Lifted, MergesOK, EnemiesOK, Before,
         UndoMerge, LiftPlayed;
    var c, x := K(q), m.coord;
    BeforeOK(q, ch, x, m.colour, v, 4);
    assert c.g[x] == 0 && Sized(q) by { BeforeEmpty(c, ch, x, m.colour, v); }
    DrawnSame(s, PlayOutside(q, m).0, w, x, m.colour, Home(v));
    hide DrawnOn, W;
    if v.merged != [] {
      SplitReady(q, ch, m, s, v);
      hide Put;
      UndoMergeOK(w, c, ch, x, m.colour, v);
      LiftCore(UndoMerge(w, v, x), v, m);
      LiftJoined(s, w, c, ch, x, m.colour, v, UndoMerge(w, v, x), LiftPlayed(UndoMerge(w, v, x), v, m));
    } else {
      NoChainAt(c, ch, x);
      assert w.g[x] == x by { FoundedId(s, w, x, m.colour); }
      var s1 := w.(lib := w.lib[x := []]);
      LiftCore(s1, v, m);
      LiftFounded(s, w, c, ch, x, m.colour, v, LiftPlayed(s1, v, m));
    }
  }

  lemma BeforeEmpty(c: Core, ch: Chains, x: int, col: Stone, u: Record)
    requires Before(c, ch, x, col, u)
    ensures 0 <= x < |c.g| && c.g[x] == 0
  {
  }

  lemma FoundedId(s: State, r: State, x: int, col: Stone)
    requires DrawnOn(s, r, x, col, 0)
    ensures 0 <= x < |r.g| && r.g[x] == x && 0 <= x < |r.lib|
  {
  }

  lemma DrawnSame(s: State, o: State, w: State, x: int, col: Stone, home: int)
    requires DrawnOn(s, o, x, col, home) && Sized(w) && !w.full && K(w) == K(o)
    ensures DrawnOn(s, w, x, col, home)
  {
  }

  lemma PutFacts(q: State, ch: Chains, m: Move, s: State, v: Record)
    requires Put(q, ch, m, s, v)
    ensures PlayPoint(q, ch, m.coord, m.colour) && RecordOK(K(q), ch, m.coord, m.colour, v, 4)
    ensures Trace(s, K(q), ch, m.coord, m.colour, v)
  {
    hide PlayPoint, RecordOK, Trace;
  }

  lemma LiftedIgnoresCaps(t: State, c: Core, ch: Chains, col: Stone, u: Record, caps: Tally)
    requires Lifted(t, c, ch, col, u)
    ensures Lifted(t.(caps := caps), c, ch, col, u)
  {
    hide Extends, CapturedNear, Dead, EnemyIds, MergedIds;
  }

  /** Undoing a move whose stone stayed: chains, links and lists are what they were. */
  lemma UndoStoneCore(q: State, ch: Chains, m: Move, s: State, v: Record, w: State)
    requires Put(q, ch, m, s, v) && Sized(w) && !w.full && K(w) == K(PlayOutside(q, m).0)
    ensures Inner(w, m.coord) && K(UndoStone(w, v, m)) == K(q)
  {
    hide Put, PlayPoint, RecordOK, Lifted, LiftedOff, RestoreUpTo, PlayOutside;
    LiftedOffOK(q, ch, m, s, v, w);
    PutFacts(q, ch, m, s, v);
    var t := LiftedOff(w, v, m);
    var t' := t.(caps := Bump(t.caps, m.colour, -v.ncaptures));
    LiftedIgnoresCaps(t, K(q), ch, m.colour, v, t'.caps);
    StoneUndone(q, ch, m.coord, m.colour, v, t');
  }
}
