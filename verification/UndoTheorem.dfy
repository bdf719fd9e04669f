/** Playing a move out and taking it back leaves the board exactly as it was. */
module UndoTheorem {
  import opened Grid
  import opened Engine
  import opened Invariant
  import opened Captures
  import opened Moves
  import opened Books
  import opened Rules
  import opened PlayTheorem
  import opened EyeMoves
  import opened BoardTheorem
  import opened Undo
  import opened UndoTrace
  import opened UndoPlay
  import opened UndoLoop
  import opened UndoSplit
  import opened UndoRestore
  import opened UndoStones
  import opened UndoCore
  import opened UndoSuicides
  import opened UndoCounts
  import opened UndoFrame

  // ------------------------------------------------------------ what the record remembers

  ghost predicate SameHeader(u: Record, v: Record) {
    v.last2 == u.last2 && v.ko == u.ko && v.lastKo == u.lastKo && v.lastKoAge == u.lastKoAge
  }

  lemma {:induction false} StonesInPrefix(es: seq<EnemyRec>, fs: seq<EnemyRec>, i: nat)
    requires i <= |es| <= |fs| && es <= fs
    ensures StonesIn(fs, i) == StonesIn(es, i)
  {
    if i > 0 { StonesInPrefix(es, fs, i - 1); }
  }

  lemma {:induction false} SavedHeader(q: State, u: Record, x: int, col: Stone, k: int)
    requires 0 <= k <= 4 && Inner(q, x) && u.enemies == [] && u.ncaptures == 0
    ensures var v := SaveUpTo(q, u, x, col, k); SameHeader(u, v) && v.ncaptures == StonesIn(v.enemies, |v.enemies|)
    decreases k
  {
    hide SavedMerge, SavedEnemy, ChainOf;
    if k > 0 {
      SavedHeader(q, u, x, col, k - 1);
      var u1 := SaveUpTo(q, u, x, col, k - 1);
      var grp := q.g[Nb(q.st, x, k - 1)];
      if 0 <= grp < |q.lib| {
        var u2 := SaveEnemy(q, u1, grp);
        StonesInPrefix(u1.enemies, u2.enemies, |u1.enemies|);
      }
    }
  }

  lemma SuicideStones(v: Record, own: int, l: seq<int>)
    requires v.ncaptures == StonesIn(v.enemies, |v.enemies|)
    ensures var u := SuicideRecord(v, own, l); SameHeader(v, u) && u.ncaptures == StonesIn(u.enemies, |u.enemies|)
  {
    var u := SuicideRecord(v, own, l);
    StonesInPrefix(v.enemies, u.enemies, |v.enemies|);
  }

  // ------------------------------------------------------------ one stone lifted

  lemma LiftEvenly(q: State, r: State, u: Record, m: Move)
    requires Evenly(q, r) && Inner(r, m.coord) && r.b[m.coord] == m.colour && IsColour(m.colour)
    ensures Evenly(q, LiftPlayed(r, u, m))
    ensures forall c :: IsColour(c) ==> StonesOf(LiftPlayed(r, u, m).b, c) == StonesOf(r.b, c) - One(c == m.colour)
  {
    hide Base, BumpN, UncountUpTo, StonesOf;
    var x := m.coord;
    var r1 := r.(b := r.b[x := Empty], g := r.g[x := 0], p := r.p[x := u.nextAt]);
    UncountN(r1, x, m.colour, 4);
    var t := LiftPlayed(r, u, m);
    forall y | 0 <= y < |r.n| ensures Base(t.n, t.b, t.st, y) == Base(r.n, r.b, r.st, y) {
      BaseChange(r.n, r.b, r.st, x, Empty, m.colour, -1, t.n, y);
    }
    forall c | IsColour(c) { StonesUpdate(r.b, x, Empty, c); }
  }

  /** What undoing leaves, apart from the moves, the ko and the counters. */
  ghost predicate Restored(q: State, w: State, f: State, m: Move, hue: Stone, taken: int) {
    && K(f) == K(q) && f.n == q.n && f == w.(b := f.b, g := f.g, p := f.p, lib := f.lib, n := f.n, caps := f.caps)
    && f.caps == Bump(w.caps, Other(hue), -taken)
    && forall c :: IsColour(c) ==>
         StonesOf(q.b, c) == StonesOf(w.b, c) - One(c == m.colour) + (if c == hue then taken else 0)
  }

  // ------------------------------------------------------------ the stone stayed

  lemma PutTarget(q: State, ch: Chains, m: Move, s: State, v: Record)
    requires Put(q, ch, m, s, v)
    ensures IsColour(m.colour) && Target(K(q), ch, Other(m.colour), MergedIds(v))
    ensures Recorded(K(q), ch, Other(m.colour), MergedIds(v), v.enemies)
  {
    hide Put, PlayPoint, RecordOK, Trace, W, Target, Recorded, MergedIds, EnemiesOK, MergesOK, Before, Linked, Cover;
    PutColour(q, ch, m, s, v);
    PutFacts(q, ch, m, s, v);
    BeforeOK(q, ch, m.coord, m.colour, v, 4);
    TargetOK(K(q), ch, Other(m.colour), MergedIds(v));
    RecordedOK(K(q), ch, m.coord, m.colour, v);
  }

  lemma LiftedOffHalf(q: State, ch: Chains, m: Move, s: State, v: Record, w: State, caps: Tally)
    requires Put(q, ch, m, s, v) && Sized(w) && !w.full && K(w) == K(PlayOutside(q, m).0)
    ensures Inner(w, m.coord)
    ensures Half(LiftedOff(w, v, m).(caps := caps), K(q), ch, Other(m.colour), MergedIds(v), GoneFrom(v.enemies, 0),
        DueFrom(v.enemies, 0))
  {
    hide Put, PlayPoint, RecordOK, Trace, W, MergedIds, EnemiesOK, MergesOK, Before, Linked, Cover, Lifted, LiftedOff,
         PlayOutside, IdsOK, GoneFrom, DueFrom;
    PutFacts(q, ch, m, s, v);
    BeforeOK(q, ch, m.coord, m.colour, v, 4);
    BeforeIds(K(q), ch, m.coord, m.colour, v);
    LiftedOffOK(q, ch, m, s, v, w);
    LiftedIgnoresCaps(LiftedOff(w, v, m), K(q), ch, m.colour, v, caps);
    LiftedHalf(LiftedOff(w, v, m).(caps := caps), K(q), ch, m.coord, m.colour, v);
  }

  /** Lifting changes no counter and takes one stone off. */
  lemma LiftedOffEvenly(q: State, w: State, v: Record, m: Move, caps: Tally)
    requires Evenly(q, w) && Inner(w, m.coord) && w.b[m.coord] == m.colour && IsColour(m.colour)
    requires |v.merged| > 0 ==> var t := UndoMerge(w, v, m.coord); t == w.(g := t.g, p := t.p, lib := t.lib)
    ensures var t := LiftedOff(w, v, m).(caps := caps);
      Evenly(q, t) && t == w.(b := t.b, g := t.g, p := t.p, lib := t.lib, n := t.n, caps := caps)
    ensures LiftedOff(w, v, m).caps == w.caps
    ensures forall c :: IsColour(c) ==> StonesOf(LiftedOff(w, v, m).b, c) == StonesOf(w.b, c) - One(c == m.colour)
  {
    hide Evenly, UndoMerge, LiftPlayed, StonesOf;
    var own := w.g[m.coord];
    var s1 := if |v.merged| > 0 then UndoMerge(w, v, m.coord)
              else if 0 <= own < |w.lib| then w.(lib := w.lib[own := []]) else w;
    EvenlySame(q, w, s1);
    LiftEvenly(q, s1, v, m);
    LiftCore(s1, v, m);
    EvenlySame(q, LiftPlayed(s1, v, m), LiftPlayed(s1, v, m).(caps := caps));
  }

  lemma MergeFrame(q: State, ch: Chains, m: Move, s: State, v: Record, w: State)
    requires Put(q, ch, m, s, v) && Sized(w) && K(w) == K(PlayOutside(q, m).0) && |v.merged| > 0
    ensures Inner(w, m.coord) && var t := UndoMerge(w, v, m.coord); t == w.(g := t.g, p := t.p, lib := t.lib)
  {
    hide Put, PlayOutside, UndoMerge, CanSplit, PAfter;
    SplitReady(q, ch, m, s, v);
    PutColour(q, ch, m, s, v);
    InnerPlayed(q, m, w);
    UndoMergeOK(w, K(q), ch, m.coord, m.colour, v);
  }

  lemma InnerPlayed(q: State, m: Move, w: State)
    requires Inner(q, m.coord) && Sized(w) && K(w) == K(PlayOutside(q, m).0)
    ensures Inner(w, m.coord) && w.b == PlayOutside(q, m).0.b && w.st == q.st && |w.b| == |q.b|
  {
    hide PlayOutside;
    assert w.b == K(w).b;
  }

  lemma StoneRestored(q: State, ch: Chains, m: Move, s: State, v: Record, w: State)
    requires Put(q, ch, m, s, v) && Sized(w) && !w.full && K(w) == K(PlayOutside(q, m).0) && Evenly(q, w)
    requires v.ncaptures == StonesIn(v.enemies, |v.enemies|)
    ensures Inner(w, m.coord) && Restored(q, w, UndoStone(w, v, m), m, Other(m.colour), v.ncaptures)
  {
    hide Put, PlayOutside, UndoMerge, Evenly, LiftedOff, RestoreUpTo, Half, Target, Recorded, MergedIds, GoneFrom,
         DueFrom, Regained, StonesOf, DrawnOn, PlayPoint, RecordOK, Trace;
    PutColour(q, ch, m, s, v);
    InnerPlayed(q, m, w);
    PutDrawn(q, ch, m, s, v);
    assert w.b[m.coord] == m.colour by { DrawnThere(s, PlayOutside(q, m).0, m.coord, m.colour, Home(v)); }
    if |v.merged| > 0 { MergeFrame(q, ch, m, s, v, w); }
    var caps := Bump(w.caps, m.colour, -v.ncaptures);
    LiftedOffEvenly(q, w, v, m, caps);
    LiftedOffHalf(q, ch, m, s, v, w, caps);
    PutTarget(q, ch, m, s, v);
    var t := LiftedOff(w, v, m).(caps := caps);
    RestoreRegained(q, t, K(q), ch, Other(m.colour), MergedIds(v), v.enemies, |v.enemies|);
    UndoStoneCore(q, ch, m, s, v, w);
    OtherTwice(m.colour);
    RegainedRestored(q, w, t, UndoStone(w, v, m), m, Other(m.colour), v.ncaptures);
  }

  lemma DrawnThere(s: State, r: State, x: int, col: Stone, home: int)
    requires DrawnOn(s, r, x, col, home)
    ensures 0 <= x < |r.b| && r.b[x] == col
  {
  }

  lemma RegainedRestored(q: State, w: State, t: State, f: State, m: Move, hue: Stone, taken: int)
    requires Regained(q, t, f, hue, taken) && K(f) == K(q) && t.caps == Bump(w.caps, Other(hue), -taken)
    requires t == w.(b := t.b, g := t.g, p := t.p, lib := t.lib, n := t.n, caps := t.caps)
    requires forall c :: IsColour(c) ==> StonesOf(t.b, c) == StonesOf(w.b, c) - One(c == m.colour)
    ensures Restored(q, w, f, m, hue, taken)
  {
    hide Evenly, StonesOf;
    assert f.b == K(f).b == q.b;
    EvenlyBack(q, f);
  }

  // ------------------------------------------------------------ the stone did not stay

  lemma RestoringRegained(q: State, w: State, t: Core, ch1: Chains, hue: Stone, u: Record)
    requires Restoring(w, t, ch1, hue, u) && Sized(w) && Evenly(q, w) && IsColour(hue)
    ensures Regained(q, w, RestoreUpTo(w, u.enemies, hue, EnemyIds(u), |u.enemies|), hue,
        StonesIn(u.enemies, |u.enemies|))
  {
    hide Target, Recorded, Half, GoneFrom, DueFrom, EnemyIds, RestoreUpTo, Regained, Evenly;
    RestoreRegained(q, w, t, ch1, hue, EnemyIds(u), u.enemies, |u.enemies|);
  }

  lemma PutBackRegained(q: State, ch: Chains, m: Move, s: State, v: Record, ch1: Chains, w: State, u: Record)
    requires Sinks(q, ch, m, s, v, ch1) && Sized(w) && !w.full
    requires K(w) == K(Capture(PlayOutside(q, m).0, PlayOutside(q, m).1))
    requires PlayOutside(q, m).1 in ch1 && u == SuicideRecord(v, PlayOutside(q, m).1, ch1[PlayOutside(q, m).1])
    requires Evenly(q, w)
    ensures Regained(q, w.(caps := Bump(w.caps, Other(m.colour), -u.ncaptures)), PutBack(w, u, m), m.colour,
        StonesIn(u.enemies, |u.enemies|))
  {
    hide Sinks, PlayOutside, Capture, SuicideRecord, Restoring, RestoreUpTo, Regained, Evenly, EnemyIds, Reset, Bump;
    SinksInner(q, ch, m, s, v, ch1);
    var w1 := w.(caps := Bump(w.caps, Other(m.colour), -u.ncaptures));
    EvenlySame(q, w, w1);
    SuicideHalf(q, ch, m, s, v, ch1, w1);
    RestoringRegained(q, w1, K(PlayOutside(q, m).0).(lib := Reset(PlayOutside(q, m).0.lib, q.lib, EnemyIds(v))), ch1,
        m.colour, u);
  }

  lemma SuicideRestored(q: State, ch: Chains, m: Move, s: State, v: Record, ch1: Chains, w: State, u: Record)
    requires Sinks(q, ch, m, s, v, ch1) && Sized(w) && !w.full
    requires K(w) == K(Capture(PlayOutside(q, m).0, PlayOutside(q, m).1))
    requires PlayOutside(q, m).1 in ch1 && u == SuicideRecord(v, PlayOutside(q, m).1, ch1[PlayOutside(q, m).1])
    requires Evenly(q, w)
    requires u.ncaptures == StonesIn(u.enemies, |u.enemies|)
    ensures Inner(w, m.coord) && Restored(q, w, UndoSuicide(w, u, m), m, m.colour, u.ncaptures)
  {
    hide *;
    SplitBackOK(q, ch, m, s, v, ch1, w, u);
    PutBackRegained(q, ch, m, s, v, ch1, w, u);
    PutBackOK(q, ch, m, s, v, ch1, w);
    SinksInner(q, ch, m, s, v, ch1);
    SinksDown(q, ch, m, s, v, ch1);
    DownThere(K(PlayOutside(q, m).0), ch1, q.b, m.coord, m.colour, PlayOutside(q, m).1);
    UndoSuicideIs(w, u, m);
    UndoSuicideCore(q, ch, m, s, v, ch1, w);
    BackInside(w, u, m);
    CoreParts(PutBack(w, u, m));
    CoreParts(PlayOutside(q, m).0);
    SuicideAccounts(q, w, m, u, PutBack(w, u, m), UndoMerge(PutBack(w, u, m), u, m.coord), K(q), v);
  }

  lemma BackInside(w: State, u: Record, m: Move)
    requires Inner(w, m.coord) && |u.merged| > 0
    ensures var s2 := PutBack(w, u, m);
      Sized(s2) && Inner(s2, m.coord) && 0 <= m.coord < |s2.b| && Inner(UndoMerge(s2, u, m.coord), m.coord)
  {
    hide PutBack, UndoMerge;
  }

  lemma DownThere(c: Core, ch: Chains, b0: seq<Stone>, x: int, col: Stone, own: int)
    requires Down(c, ch, b0, x, col, own)
    ensures 0 <= x < |c.b| && c.b[x] == col
  {
    hide W, Clear, Lively;
  }

  lemma SuicideAccounts(q: State, w: State, m: Move, u: Record, s2: State, s3: State, c: Core, v: Record)
    requires Sized(s2)
    requires Regained(q, w.(caps := Bump(w.caps, Other(m.colour), -u.ncaptures)), s2, m.colour, u.ncaptures)
    requires Unmerged(s2, s3, c, m.coord, v) && Inner(s2, m.coord) && s2.b[m.coord] == m.colour && IsColour(m.colour)
    requires Inner(s3, m.coord) && K(LiftPlayed(s3, u, m)) == K(q)
    ensures Restored(q, w, LiftPlayed(s3, u, m), m, m.colour, u.ncaptures)
  {
    hide Evenly, StonesOf, LiftPlayed, Bump;
    EvenlySame(q, s2, s3);
    LiftEvenly(q, s3, u, m);
    LiftCore(s3, u, m);
    var f := LiftPlayed(s3, u, m);
    assert f.b == K(f).b == q.b;
    EvenlyBack(q, f);
  }

  // ------------------------------------------------------------ moves, ko and counters

  /** The board as the quick routines see it. */
  function Quick(s: State): State { s.(full := false, lasts := []) }

  lemma QuickSound(s: State)
    requires Sound(s)
    ensures Sound(Quick(s)) && K(Quick(s)) == K(s) && forall c :: Accounted(Quick(s), c) == Accounted(s, c)
  {
    hide Quiet;
    var ch :| Quiet(K(s), ch);
    assert Quiet(K(Quick(s)), ch);
    assert CountsOK(Quick(s), 0, Empty, 0);
  }

  /** r is q with the move m recorded, a new ko, and changes that undoing takes back. */
  ghost predicate Recorded1(q: State, m: Move, r: State) {
    Sized(q) && r == Commit(q, m).(b := r.b, n := r.n, g := r.g, p := r.p, lib := r.lib, caps := r.caps,
        lasts := r.lasts,
                                   ko := r.ko, lastKo := r.lastKo, lastKoAge := r.lastKoAge)
  }

  /** The board undoing starts from. */
  function AfterQuick(s: State, r: State, u: Record): State
    requires Sized(r)
  {
    Rewound(r.(full := s.full, lasts := s.lasts).(full := false), u)
  }

  lemma RewoundIs(s: State, m: Move, r: State, u: Record)
    requires var q := Quick(s); Recorded1(q, m, r) && Sized(r) && SameHeader(InitRecord(q), u)
    ensures var w := AfterQuick(s, r, u);
      w == s.(full := false, b := r.b, n := r.n, g := r.g, p := r.p, lib := r.lib, caps := r.caps)
  {
    var q := Quick(s);
    var w := AfterQuick(s, r, u);
    assert w.recent == s.recent;
  }

  lemma CapsBack(q: State, w: State, f: State, m: Move, hue: Stone, taken: int)
    requires Restored(q, w, f, m, hue, taken) && IsColour(hue) && IsColour(m.colour)
    requires forall c :: IsColour(c) ==> Accounted(w, c) == Accounted(q, c) + One(c == m.colour)
    ensures f.caps == q.caps
  {
    hide StonesOf;
    assert Accounted(w, Black) == Accounted(q, Black) + One(Black == m.colour);
    assert Accounted(w, White) == Accounted(q, White) + One(White == m.colour);
  }

  /** Everything undoing must find: then the board is back in every field. */
  lemma AllBack(s: State, m: Move, r: State, u: Record, f: State, hue: Stone, taken: int)
    requires var q := Quick(s);
      Recorded1(q, m, r) && Sized(r) && SameHeader(InitRecord(q), u) && IsColour(hue) && IsColour(m.colour)
    requires var q := Quick(s); forall c :: IsColour(c) ==> Accounted(r, c) == Accounted(q, c) + One(c == m.colour)
    requires Restored(Quick(s), AfterQuick(s, r, u), f, m, hue, taken)
    ensures f.(full := s.full) == s
  {
    var q := Quick(s);
    var w := AfterQuick(s, r, u);
    RewoundIs(s, m, r, u);
    forall c | IsColour(c) ensures Accounted(w, c) == Accounted(r, c) {}
    hide Rewound, Recorded1, InitRecord, SameHeader, StonesOf;
    CapsBack(q, w, f, m, hue, taken);
    assert K(f) == K(s);
    hide Restored, Accounted;
    assert f.st == s.st && f.b == s.b && f.g == s.g && f.p == s.p && f.lib == s.lib by { CoreParts(f); CoreParts(s); }
    RestoredFrame(q, w, f, m, hue, taken);
  }

  lemma RestoredFrame(q: State, w: State, f: State, m: Move, hue: Stone, taken: int)
    requires Restored(q, w, f, m, hue, taken)
    ensures K(f) == K(q) && f.n == q.n && f == w.(b := f.b, g := f.g, p := f.p, lib := f.lib, n := f.n, caps := f.caps)
  {
    hide StonesOf, K;
  }

  // ------------------------------------------------------------ the moves there are

  /** An accepted stone on an empty point, on a sound board. */
  ghost predicate Accepts(s: State, ch: Chains, m: Move) {
    && Sound(Quick(s)) && Quiet(K(s), ch) && IsColour(m.colour) && Inner(s, m.coord) && s.b[m.coord] == Empty
      && Play(Quick(s), m).1
  }

  predicate Drowns(q: State, m: Move)
    requires Inner(q, m.coord)
  {
    !Eyelike(q, m.coord, Other(m.colour)) && PlayOutside(q, m).0.lib[PlayOutside(q, m).1] == []
  }

  lemma QuickPlayIs(s: State, m: Move)
    requires Inner(s, m.coord) && IsColour(m.colour) && Play(Quick(s), m).1
    ensures var q := Quick(s); var r := Play(q, m).0; var u1 := SaveUpTo(q, InitRecord(q), m.coord, m.colour,
        4); var o := PlayOutside(q, m).0;
      QuickPlay(s, m) == (r.(full := s.full, lasts := s.lasts), true,
        (if Drowns(q, m) then SaveSuicide(o, u1, m.coord, m.colour, 0) else u1).(lasts := r.lasts))
  {
    hide Play, SaveUpTo, SaveSuicide, PlayOutside, Eyelike;
  }

  lemma EyeIsOutside(q: State, ch: Chains, m: Move)
    requires Sound(q) && Quiet(K(q), ch) && IsColour(m.colour) && Inner(q, m.coord) && q.b[m.coord] == Empty && !q.full
    requires Walled(q.b, q.st, m.coord, Other(m.colour)) && PlayInEye(q, m).1
    ensures var o := PlayOutside(q, m).0; var r := PlayInEye(q, m).0; r == o.(ko := r.ko, lastKo := r.lastKo,
        lastKoAge := r.lastKoAge)
  {
    hide Quiet, BooksOK, EyeUpTo, PlayUpTo, TakeFree, PlayInEye, PlayOutside, Walled, Taken;
    EyeAgrees(q, ch, m);
    EyeEndsAlike(q, m);
  }

  lemma SplitCases(q: State, ch: Chains, m: Move)
    requires Sound(q) && Quiet(K(q), ch) && IsColour(m.colour) && Inner(q, m.coord) && q.b[m.coord] == Empty
    requires !q.full && Play(q, m).1
    ensures Eyelike(q, m.coord, Other(m.colour)) <==> Walled(q.b, q.st, m.coord, Other(m.colour))
    ensures var (o, own) := PlayOutside(q, m); var r := Play(q, m).0;
      if Drowns(q, m) then r == Capture(o, own)
      else r == o.(ko := r.ko, lastKo := r.lastKo, lastKoAge := r.lastKoAge)
  {
    hide Quiet, BooksOK, PlayOutside, PlayInEye, Eyelike, Walled, Capture;
    QuietShape(K(q), ch);
    BooksCounts(q);
    OtherTwice(m.colour);
    EyelikeIff(q, m.coord, Other(m.colour));
    PlaySplit(q, m);
    if Walled(q.b, q.st, m.coord, Other(m.colour)) { EyeIsOutside(q, ch, m); }
  }

  lemma OutsideRecorded(q: State, m: Move, r: State)
    requires Inner(q, m.coord) && !q.full
    requires var o := PlayOutside(q, m).0; Quickly(o.(ko := r.ko, lastKo := r.lastKo, lastKoAge := r.lastKoAge), r)
    ensures Recorded1(q, m, r)
  {
    hide PlayOutside;
    OutsideQuick(q, m);
  }

  lemma PutAny(s: State, ch: Chains, m: Move)
    requires Accepts(s, ch, m)
    ensures var q := Quick(s);
      Inner(q, m.coord) && Sound(q) && Quiet(K(q), ch)
      && Put(q, ch, m, PlayUpTo(q, m.coord, m.colour, 4).0, PlayRecord(q, m))
    ensures Evenly(Quick(s), PlayOutside(Quick(s), m).0)
    ensures var v := PlayRecord(Quick(s), m);
      SameHeader(InitRecord(Quick(s)), v) && v.ncaptures == StonesIn(v.enemies, |v.enemies|)
    ensures forall c :: IsColour(c) ==> Accounted(Play(Quick(s), m).0, c) == Accounted(Quick(s), c) + One(c == m.colour)
  {
    hide Quiet, Sound, Play, PlayUpTo, Put, PlayOutside, SaveUpTo, Evenly, StonesIn, Step, KoOK;
    var q := Quick(s);
    assert Sized(q) && K(q) == K(s);
    PutOK(q, ch, m);
    OutsideEvenly(q, ch, m);
    SavedHeader(q, InitRecord(q), m.coord, m.colour, 4);
    PlayRefinesStep(q, m);
  }

  lemma StayedRestored(s: State, ch: Chains, m: Move, r: State)
    requires Accepts(s, ch, m) && Inner(Quick(s), m.coord) && Sized(r)
    requires var o := PlayOutside(Quick(s), m).0; r == o.(ko := r.ko, lastKo := r.lastKo, lastKoAge := r.lastKoAge)
    ensures var q := Quick(s); var v := PlayRecord(q, m); var w := AfterQuick(s, r, v);
      Recorded1(q, m, r) && Inner(w, m.coord) && w.b == r.b && r.b[m.coord] == m.colour
      && Restored(q, w, UndoStone(w, v, m), m, Other(m.colour), v.ncaptures)
  {
    var q, o, v := Quick(s), PlayOutside(Quick(s), m).0, PlayRecord(Quick(s), m);
    hide Accepts, Quiet, Sound, Play, PlayUpTo, Put, PlayOutside, SaveUpTo, Evenly, StonesIn, PlayRecord, UndoStone,
         Restored, Accounted, Commit;
    PutAny(s, ch, m);
    OutsideRecorded(q, m, r);
    RewoundIs(s, m, r, v);
    var w := AfterQuick(s, r, v);
    EvenlySame(q, o, w);
    assert K(w) == K(o);
    StoneRestored(q, ch, m, PlayUpTo(q, m.coord, m.colour, 4).0, v, w);
    StoneShows(q, ch, m, PlayUpTo(q, m.coord, m.colour, 4).0, v);
  }

  lemma UndoIs(s: State, m: Move, r: State, u: Record)
    requires Sized(r) && IsColour(m.colour) && Inner(r, m.coord) && Inner(AfterQuick(s, r, u), m.coord)
    ensures var r1 := r.(full := s.full, lasts := s.lasts); var w := AfterQuick(s, r, u);
      Inner(r1, m.coord) && QuickUndo(r1, m, u) ==
        (if r.b[m.coord] == m.colour then UndoStone(w, u, m) else UndoSuicide(w, u, m)).(full := s.full)
  {
    hide UndoStone, UndoSuicide, Previous;
  }

  /** The stone stayed: undoing restores the board. */
  lemma StayedBack(s: State, ch: Chains, m: Move)
    requires Accepts(s, ch, m) && !Drowns(Quick(s), m)
    ensures var (r, ok, u) := QuickPlay(s, m); ok && Inner(r, m.coord) && QuickUndo(r, m, u) == s
  {
    var q := Quick(s);
    var r := Play(q, m).0;
    var v := PlayRecord(q, m);
    hide *;
    AcceptsFacts(s, ch, m);
    PutAny(s, ch, m);
    SplitCases(q, ch, m);
    QuickPlayIs(s, m);
    StayedRestored(s, ch, m, r);
    RecordIs(q, m);
    InnerAfter(s, r, v, m);
    UndoIs(s, m, r, v);
    OtherTwice(m.colour);
    AllBack(s, m, r, v, UndoStone(AfterQuick(s, r, v), v, m), Other(m.colour), v.ncaptures);
  }

  lemma AcceptsFacts(s: State, ch: Chains, m: Move)
    requires Accepts(s, ch, m)
    ensures Inner(s, m.coord) && Inner(Quick(s), m.coord) && IsColour(m.colour) && Play(Quick(s), m).1
    ensures s.b[m.coord] == Empty
    ensures Quick(s).b == s.b && !Quick(s).full && Sized(Play(Quick(s), m).0) && Sound(Quick(s)) && Quiet(K(s), ch)
  {
    hide Sound, Quiet, Play;
  }

  lemma InnerAfter(s: State, r: State, u: Record, m: Move)
    requires Sized(r) && Inner(AfterQuick(s, r, u), m.coord) && AfterQuick(s, r, u).b == r.b
    ensures Inner(r, m.coord)
  {
    hide Previous;
  }

  lemma RecordIs(q: State, m: Move)
    requires Inner(q, m.coord)
    ensures PlayRecord(q, m) == SaveUpTo(q, InitRecord(q), m.coord, m.colour, 4).(lasts := PlayOutside(q, m).0.lasts)
  {
  }

  lemma StoneShows(q: State, ch: Chains, m: Move, s: State, v: Record)
    requires Put(q, ch, m, s, v)
    ensures 0 <= m.coord < |PlayOutside(q, m).0.b| && PlayOutside(q, m).0.b[m.coord] == m.colour
  {
    hide Put, PlayOutside, DrawnOn;
    PutColour(q, ch, m, s, v);
    PutDrawn(q, ch, m, s, v);
    DrawnThere(s, PlayOutside(q, m).0, m.coord, m.colour, Home(v));
  }

  // ------------------------------------------------------------ suicide

  /** The drowned chain as it leaves the board. */
  ghost predicate Drowned(q: State, ch: Chains, m: Move, ch1: Chains, r: State) {
    && Inner(q, m.coord) && Sinks(q, ch, m, PlayUpTo(q, m.coord, m.colour, 4).0, PlayRecord(q, m), ch1)
    && r == Capture(PlayOutside(q, m).0, PlayOutside(q, m).1) && Sized(r) && Evenly(q, r) && Recorded1(q, m, r)
    && r.lasts == PlayOutside(q, m).0.lasts && m.coord < |r.b| && r.b[m.coord] == Empty
  }

  lemma DrownedOut(q: State, ch: Chains, m: Move, ch1: Chains)
    requires Inner(q, m.coord) && IsColour(m.colour) && !q.full && Evenly(q, PlayOutside(q, m).0)
    requires BooksOK(PlayOutside(q, m).0, 0, Empty, 0, PASS)
    requires Sinks(q, ch, m, PlayUpTo(q, m.coord, m.colour, 4).0, PlayRecord(q, m), ch1)
    ensures Drowned(q, ch, m, ch1, Capture(PlayOutside(q, m).0, PlayOutside(q, m).1))
  {
    hide Sinks, Put, PlayOutside, PlayUpTo, PlayRecord, Capture, BooksOK, Captured, Turn, Evenly, Counting, Quiet,
         Takeable, Recorded1;
    var (o, own) := PlayOutside(q, m);
    SinksDown(q, ch, m, PlayUpTo(q, m.coord, m.colour, 4).0, PlayRecord(q, m), ch1);
    SuicideBooks(o, ch1, q.b, m.coord, m.colour, own);
    EndMove(K(o), ch1, q.b, m.coord, m.colour, own);
    var r := Capture(o, own);
    assert r.b == K(r).b;
    CaptureQuick(o, own);
    CaptureLasts(o, own);
    OutsideRecorded(q, m, r);
    OwnTakeable(o, ch1, q.b, m.coord, m.colour, own);
    hide Down;
    EvenlyCounting(q, o);
    EvenlyCounting(q, r);
    WholeCaptureCounting(q, o, own, ch1[own], m.colour, PASS, 0, Empty, 0);
  }

  lemma OwnTakeable(s: State, ch: Chains, b0: seq<Stone>, x: int, col: Stone, own: int)
    requires Sized(s) && Down(K(s), ch, b0, x, col, own) && IsColour(col)
    ensures own in ch && Takeable(s, ch[own], col, PASS) && Walkable(s, own) && ChainOf(s, own) == ch[own]
  {
    hide Reach, Maximal, LibsOK, Cover, Clear, Lively;
    assert s.g[0] == 0;
    OtherTwice(col);
    TakeableChain(s, ch, QUIET, Other(col), own);
  }

  lemma DrownedParts(q: State, ch: Chains, m: Move, ch1: Chains, r: State)
    requires Drowned(q, ch, m, ch1, r)
    ensures Inner(q, m.coord) && Sinks(q, ch, m, PlayUpTo(q, m.coord, m.colour, 4).0, PlayRecord(q, m), ch1)
    ensures r == Capture(PlayOutside(q, m).0, PlayOutside(q, m).1) && Sized(r) && Evenly(q, r) && Recorded1(q, m, r)
    ensures r.lasts == PlayOutside(q, m).0.lasts && 0 <= m.coord < |r.b| && r.b[m.coord] == Empty
  {
    hide Sinks, Evenly, Recorded1, PlayOutside, Capture, PlayUpTo, PlayRecord;
  }

  lemma QuietCore(s: State, r: State, u: Record)
    requires Sized(r)
    ensures AfterQuick(s, r, u).full == false && K(AfterQuick(s, r, u)) == K(r) && Sized(AfterQuick(s, r, u))
    ensures AfterQuick(s, r, u).n == r.n && AfterQuick(s, r, u).b == r.b && AfterQuick(s, r, u).st == r.st
  {
  }

  lemma DrownedRestored(s: State, ch: Chains, m: Move, ch1: Chains, r: State, u: Record)
    requires Inner(s, m.coord) && IsColour(m.colour) && Drowned(Quick(s), ch, m, ch1, r)
    requires PlayOutside(Quick(s), m).1 in ch1
    requires u == SuicideRecord(PlayRecord(Quick(s), m), PlayOutside(Quick(s), m).1, ch1[PlayOutside(Quick(s), m).1])
    requires u.ncaptures == StonesIn(u.enemies, |u.enemies|)
    ensures Inner(AfterQuick(s, r, u), m.coord) && AfterQuick(s, r, u).b == r.b
    ensures var w := AfterQuick(s, r, u); Restored(Quick(s), w, UndoSuicide(w, u, m), m, m.colour, u.ncaptures)
  {
    hide *;
    var q := Quick(s);
    DrownedParts(q, ch, m, ch1, r);
    QuietCore(s, r, u);
    EvenlySame(q, r, AfterQuick(s, r, u));
    SuicideRestored(q, ch, m, PlayUpTo(q, m.coord, m.colour, 4).0, PlayRecord(q, m), ch1, AfterQuick(s, r, u), u);
  }

  lemma SinksNow(s: State, ch: Chains, m: Move) returns (ch1: Chains)
    requires Accepts(s, ch, m) && Drowns(Quick(s), m)
    ensures Drowned(Quick(s), ch, m, ch1, Play(Quick(s), m).0)
  {
    var q := Quick(s);
    hide Quiet, Sound, PlayUpTo, Put, PlayOutside, PlayRecord, Evenly, Eyelike, Walled, Down, Play, Capture, BooksOK,
         StonesIn, Accounted, Drowned;
    AcceptsFacts(s, ch, m);
    PutAny(s, ch, m);
    SplitCases(q, ch, m);
    assert BooksOK(q, 0, Empty, 0, PASS) by { SoundBooks(q); }
    ch1 := OutsideDown(q, ch, m);
    DrownedOut(q, ch, m, ch1);
  }

  lemma SoundBooks(s: State)
    requires Sound(s)
    ensures BooksOK(s, 0, Empty, 0, PASS)
  {
    hide BooksOK, Quiet, KoOK;
  }

  /** A suicide undone restores the board. */
  lemma DrownedBack(s: State, ch: Chains, m: Move)
    requires Accepts(s, ch, m) && Drowns(Quick(s), m)
    ensures var (r, ok, u) := QuickPlay(s, m); ok && Inner(r, m.coord) && QuickUndo(r, m, u) == s
  {
    var q := Quick(s);
    var r := Play(q, m).0;
    var v := PlayRecord(q, m);
    var own := PlayOutside(q, m).1;
    hide *;
    AcceptsFacts(s, ch, m);
    PutAny(s, ch, m);
    QuickPlayIs(s, m);
    var ch1 := SinksNow(s, ch, m);
    DrownedParts(q, ch, m, ch1, r);
    SuicideRecordIs(q, ch, m, PlayUpTo(q, m.coord, m.colour, 4).0, v, ch1);
    var u := SuicideRecord(v, own, ch1[own]);
    SuicideStones(v, own, ch1[own]);
    DrownedRestored(s, ch, m, ch1, r, u);
    InnerAfter(s, r, u, m);
    UndoIs(s, m, r, u);
    assert m.colour != Empty by { ColourThere(m.colour); }
    SameHeaderToo(InitRecord(q), v, u);
    AllBack(s, m, r, u, UndoSuicide(AfterQuick(s, r, u), u, m), m.colour, u.ncaptures);
  }

  lemma ColourThere(c: Stone)
    requires IsColour(c)
    ensures c != Empty
  {
  }

  lemma SameHeaderToo(a: Record, b: Record, c: Record)
    requires SameHeader(a, b) && SameHeader(b, c)
    ensures SameHeader(a, c)
  {
  }

  // ------------------------------------------------------------ the theorem

  /** A move that may be offered to the board. */
  predicate Offered(s: State, m: Move) { IsColour(m.colour) && (m.coord == PASS || 0 <= m.coord < |s.b|) }

  lemma PassBack(s: State, m: Move)
    requires Sized(s) && m.coord == PASS && IsColour(m.colour)
    ensures QuickPlay(s, m).1 && Sized(QuickPlay(s, m).0)
    ensures var (r, ok, u) := QuickPlay(s, m); var t := QuickUndo(r, m, u);
      t == if s.rules == Siming then s.(caps := Bump(s.caps, Other(m.colour), 1)) else s
  {
    var (r, ok, u) := QuickPlay(s, m);
    assert QuickUndo(r, m, u).recent == s.recent;
  }

  lemma StoneBack1(s: State, m: Move)
    requires Sound(Quick(s)) && Offered(s, m) && m.coord != PASS && QuickPlay(s, m).1
    ensures var (r, ok, u) := QuickPlay(s, m); Inner(r, m.coord) && QuickUndo(r, m, u) == s
  {
    hide Quiet, PlayStone, QuickPlay, Drowns, BooksOK, KoOK, QuickUndo;
    assert Sized(s);
    PlayedOK(s, m);
    var ch :| Quiet(K(Quick(s)), ch);
    if Drowns(Quick(s), m) { DrownedBack(s, ch, m); } else { StayedBack(s, ch, m); }
  }

  lemma PlayedOK(s: State, m: Move)
    requires Sized(s) && Offered(s, m) && m.coord != PASS
    ensures QuickPlay(s, m).1 ==> Inner(s, m.coord) && s.b[m.coord] == Empty && Play(Quick(s), m).1
    ensures !QuickPlay(s, m).1 ==> !Play(Quick(s), m).1 && QuickPlay(s, m).0 == Play(Quick(s), m).0.(full := s.full,
        lasts := s.lasts)
    ensures QuickPlay(s, m).1 ==> QuickPlay(s, m).0 == Play(Quick(s), m).0.(full := s.full, lasts := s.lasts)
  {
    hide PlayStone, SaveUpTo, SaveSuicide, PlayOutside, Eyelike;
  }

  /** Undo is exact. A move tried on the quick board and taken back leaves every field as it was:
      grid, counts, ids, links (the stale link at the played point included), liberty lists in
      their order, ko, captures, passes and moves. A refused move changes nothing. The one
      exception is a pass under Siming rules, whose pass stone stays with the opponent. */
  lemma QuickUndoExact(s: State, m: Move)
    requires Sound(Quick(s)) && Offered(s, m)
    ensures var (r, ok, u) := QuickPlay(s, m); ok ==> (m.coord == PASS || Inner(r, m.coord)) && Sized(r)
    ensures var (r, ok, u) := QuickPlay(s, m);
      ok ==> (QuickUndo(r, m, u) == s <==> !(m.coord == PASS && s.rules == Siming))
    ensures !QuickPlay(s, m).1 ==> QuickPlay(s, m).0 == s
  {
    hide Sound, QuickPlay, QuickUndo, Step;
    QuickSized(s);
    if m.coord == PASS {
      PassBack(s, m);
    } else if QuickPlay(s, m).1 {
      StoneBack1(s, m);
    } else {
      PlayedOK(s, m);
      PlayRefinesStep(Quick(s), m);
    }
  }

  lemma QuickSized(s: State)
    requires Sound(Quick(s))
    ensures Sized(s)
  {
    hide Quiet, BooksOK, KoOK;
  }

  /** The quick board follows the rules of the game too. */
  lemma QuickPlayRefinesStep(s: State, m: Move)
    requires Sound(Quick(s)) && Offered(s, m)
    ensures Sized(s)
    ensures var (r, ok, u) := QuickPlay(s, m); var (g, legal) := Step(Game(s.b, s.ko), s.st, m);
      ok == legal && Game(r.b, r.ko) == g && Sound(Quick(r))
  {
    hide Sound, Step, Play, QuickPlay;
    QuickSized(s);
    PlayRefinesStep(Quick(s), m);
    if m.coord != PASS { PlayedOK(s, m); } else { QuickPasses(s, m); }
    QuickAgain(s, Play(Quick(s), m).0);
  }

  lemma QuickPasses(s: State, m: Move)
    requires Sized(s) && m.coord == PASS && IsColour(m.colour)
    ensures QuickPlay(s, m).0 == Play(Quick(s), m).0.(full := s.full, lasts := s.lasts)
    ensures QuickPlay(s, m).1 == Play(Quick(s), m).1
  {
  }

  lemma QuickAgain(s: State, t: State)
    requires Sound(t) && !t.full
    ensures Sound(Quick(t.(full := s.full, lasts := s.lasts)))
  {
    QuickSound(t);
    assert Quick(t.(full := s.full, lasts := s.lasts)) == Quick(t);
  }

  // ------------------------------------------------------------ nested trials

  /** A move tried out, with further trials made on the board it leads to. */
  datatype Trial = Trial(m: Move, inner: seq<Trial>)

  predicate Fits(s: State, t: Trial) { Offered(s, t.m) && forall i :: 0 <= i < |t.inner| ==> Fits(s, t.inner[i]) }

  ghost predicate NoSimingPass(rules: Ruleset, t: Trial) {
    !(t.m.coord == PASS && rules == Siming) && forall i :: 0 <= i < |t.inner| ==> NoSimingPass(rules, t.inner[i])
  }

  /** The board after a trial: play, the inner trials one after the other, undo. */
  function Try(s: State, t: Trial): (r: State)
    requires Sized(s) && Fits(s, t)
    decreases t, |t.inner| + 1
  {
    var (s1, ok, u) := QuickPlay(s, t.m);
    if !ok || |s1.b| != |s.b| || !Sized(s1) then s1
    else
      FitsAfter(s, s1, t);
      var s2 := TryAll(s1, t, |t.inner|);
      if Sized(s2) && (t.m.coord == PASS || Inner(s2, t.m.coord)) then QuickUndo(s2, t.m, u) else s2
  }

  function TryAll(s: State, t: Trial, i: nat): (r: State)
    requires i <= |t.inner| && Sized(s) && forall j :: 0 <= j < |t.inner| ==> Fits(s, t.inner[j])
    decreases t, i
  {
    if i == 0 then s
    else
      var s1 := TryAll(s, t, i - 1);
      if Sized(s1) && |s1.b| == |s.b| then FitsSame(s, s1, t.inner[i - 1]); Try(s1, t.inner[i - 1]) else s1
  }

  lemma {:induction false} FitsSame(s: State, r: State, t: Trial)
    requires Fits(s, t) && |r.b| == |s.b|
    ensures Fits(r, t)
  {
    forall i | 0 <= i < |t.inner| ensures Fits(r, t.inner[i]) { FitsSame(s, r, t.inner[i]); }
  }

  lemma FitsAfter(s: State, r: State, t: Trial)
    requires Fits(s, t) && |r.b| == |s.b|
    ensures forall j :: 0 <= j < |t.inner| ==> Fits(r, t.inner[j])
  {
    FitsSame(s, r, t);
  }

  /** Any nesting of trials leaves the board as it was: what the ladder reader relies on. */
  lemma {:induction false} TrialsLeaveNoTrace(s: State, t: Trial)
    requires Sound(Quick(s)) && Fits(s, t) && NoSimingPass(s.rules, t)
    ensures Sized(s) && Try(s, t) == s
    decreases t, |t.inner| + 1
  {
    hide Sound, QuickPlay, QuickUndo, Step, Fits;
    QuickSized(s);
    assert Offered(s, t.m) && !(t.m.coord == PASS && s.rules == Siming) by { FitsHere(s, t); }
    QuickUndoExact(s, t.m);
    QuickPlayRefinesStep(s, t.m);
    var (s1, ok, u) := QuickPlay(s, t.m);
    QuickShape(s, t.m);
    if ok {
      FitsAfter(s, s1, t);
      TrialsInSequence(s1, t, |t.inner|);
    }
  }

  lemma FitsHere(s: State, t: Trial)
    requires Fits(s, t)
    ensures Offered(s, t.m)
  {
  }

  lemma QuickShape(s: State, m: Move)
    requires Sized(s) && Offered(s, m)
    ensures var r := QuickPlay(s, m).0; Sized(r) && |r.b| == |s.b| && r.rules == s.rules && r.st == s.st
  {
    hide PlayStone, SaveUpTo, SaveSuicide, PlayOutside, Eyelike;
    if m.coord != PASS && s.b[m.coord] == Empty && Inner(Quick(s), m.coord) { StoneRules(Quick(s), m); }
  }

  lemma StoneRules(q: State, m: Move)
    requires Inner(q, m.coord)
    ensures PlayStone(q, m).0.rules == q.rules
  {
    hide PlayUpTo, EyeUpTo, Capture, NewGroup, Eyelike, AtariNbs;
  }

  lemma {:induction false} TrialsInSequence(s: State, t: Trial, i: nat)
    requires Sound(Quick(s)) && i <= |t.inner| && NoSimingPass(s.rules, t)
    requires Sized(s) && forall j :: 0 <= j < |t.inner| ==> Fits(s, t.inner[j])
    ensures TryAll(s, t, i) == s
    decreases t, i
  {
    hide Sound, Fits, Try;
    if i > 0 {
      TrialsInSequence(s, t, i - 1);
      FitsSame(s, s, t.inner[i - 1]);
      TrialsLeaveNoTrace(s, t.inner[i - 1]);
    }
  }
}
