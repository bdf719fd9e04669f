/** Neighbour counts and captured stones come back too: what a point counts beyond the stones
    around it never changes, on the board or in the margin. */
module UndoCounts {
  import opened Grid
  import opened LibList
  import opened Engine
  import opened Invariant
  import opened Moves
  import opened Refinement
  import opened Books
  import opened PlayTheorem
  import opened Undo
  import opened UndoRestore

  predicate Shows(b: seq<Stone>, i: int, hue: Stone) { 0 <= i < |b| && b[i] == hue }

  /** Like Around, for any point of the array. */
  function Beside(b: seq<Stone>, st: int, y: int, hue: Stone): int {
    One(Shows(b, y - st, hue)) + One(Shows(b, y - 1, hue)) + One(Shows(b, y + 1, hue)) + One(Shows(b, y + st, hue))
  }

  /** What the point y counts beyond the stones beside it. */
  function Base(n: seq<Counts>, b: seq<Stone>, st: int, y: int): Counts
    requires 0 <= y < |n|
  {
    Counts(n[y].black - Beside(b, st, y, Black), n[y].white - Beside(b, st, y, White), n[y].off)
  }

  /** r counts what s counts, and a stone of colour col at the first k neighbours of x. */
  ghost predicate Counting(s: State, r: State, x: int, col: Stone, k: int) {
    && |s.n| == |s.b| && |r.n| == |r.b| == |s.b| && r.st == s.st
    && forall y :: 0 <= y < |s.n| ==> Base(r.n, r.b, r.st, y) == BumpN(Base(s.n, s.b, s.st, y), col,
        One(IsNb(s.st, x, k, y)))
  }

  lemma BesideChange(b: seq<Stone>, st: int, z: int, to: Stone, y: int, hue: Stone)
    requires 0 <= z < |b| && st >= 3
    ensures Beside(b[z := to], st, y, hue)
         == Beside(b, st, y, hue) + (if IsNb(st, z, 4, y) then One(to == hue) - One(b[z] == hue) else 0)
  {
  }

  /** Repainting a point and telling its neighbours leaves the base alone. */
  lemma BaseChange(n: seq<Counts>, b: seq<Stone>, st: int, z: int, to: Stone, hue: Stone, d: int, n': seq<Counts>,
      y: int)
    requires 0 <= z < |b| && st >= 3 && |n| == |n'| == |b| && 0 <= y < |n| && IsColour(hue)
    requires (d == 1 && b[z] == Empty && to == hue) || (d == -1 && b[z] == hue && to == Empty)
    requires n'[y] == if IsNb(st, z, 4, y) then BumpN(n[y], hue, d) else n[y]
    ensures Base(n', b[z := to], st, y) == Base(n, b, st, y)
  {
    hide Beside, IsNb;
    BesideChange(b, st, z, to, y, Black);
    BesideChange(b, st, z, to, y, White);
  }

  lemma CountingSame(s: State, r: State, t: State, x: int, col: Stone, k: int)
    requires Counting(s, r, x, col, k) && t.n == r.n && t.b == r.b && t.st == r.st
    ensures Counting(s, t, x, col, k)
  {
  }

  lemma RemoveStoneCounting(s: State, r: State, grp: int, z: int, x: int, col: Stone, k: int)
    requires Counting(s, r, x, col, k) && Inner(r, z) && IsColour(r.b[z])
    ensures Counting(s, RemoveStone(r, grp, z), x, col, k)
  {
    hide Base, BumpN, RemoveNbs;
    var r1 := HashUpdate(r.(b := r.b[z := Empty], g := r.g[z := 0]), z, r.b[z]);
    RemoveNbsN(r1, grp, z, r.b[z], 4);
    RemoveNbsBooks(r1, grp, z, r.b[z], 4);
    var t := RemoveStone(r, grp, z);
    forall y | 0 <= y < |t.n| ensures Base(t.n, t.b, t.st, y) == Base(r.n, r.b, r.st, y) {
      BaseChange(r.n, r.b, r.st, z, Empty, r.b[z], -1, t.n, y);
    }
  }

  lemma {:induction false} CaptureCounting(s: State, r: State, grp: int, l: seq<int>, hue: Stone, skip: int, i: int,
      x: int, col: Stone, k: int)
    requires Counting(s, r, x, col, k) && Sized(r) && Takeable(r, l, hue, skip) && 0 <= i <= |l|
    ensures Counting(s, CaptureUpTo(r, grp, l, i), x, col, k)
    decreases i
  {
    hide Counting, RemoveStone;
    if i > 0 {
      CaptureCounting(s, r, grp, l, hue, skip, i - 1, x, col, k);
      var r1 := CaptureUpTo(r, grp, l, i - 1);
      var z := l[i - 1];
      StillThere(r, grp, l, i - 1, z);
      var r2 := r1.(caps := Bump(r1.caps, Other(r1.b[z]), 1));
      CountingSame(s, r1, r2, x, col, k);
      RemoveStoneCounting(s, r2, grp, z, x, col, k);
    }
  }

  lemma WholeCaptureCounting(s: State, r: State, grp: int, l: seq<int>, hue: Stone, skip: int, x: int, col: Stone,
      k: int)
    requires Counting(s, r, x, col, k) && Sized(r) && Takeable(r, l, hue, skip) && Walkable(r, grp)
    requires ChainOf(r, grp) == l
    ensures Counting(s, Capture(r, grp), x, col, k)
  {
    hide Counting;
    CaptureCounting(s, r, grp, l, hue, skip, |l|, x, col, k);
    var t := CaptureUpTo(r, grp, l, |l|);
    CountingSame(s, t, Capture(r, grp), x, col, k);
  }

  lemma NbBump(b: seq<Stone>, st: int, x: int, col: Stone, k: int, n: seq<Counts>)
    requires 0 <= k < 4 && st >= 3 && 0 <= Nb(st, x, k) < |n| == |b|
    ensures var y0 := Nb(st, x, k); var n' := n[y0 := BumpN(n[y0], col, 1)];
      forall y :: 0 <= y < |n| ==> Base(n', b, st, y) == BumpN(Base(n, b, st, y), col,
          One(IsNb(st, x, k + 1, y)) - One(IsNb(st, x, k, y)))
  {
    hide Beside;
  }

  lemma BumpTwice(t: Counts, col: Stone, a: int, b: int)
    ensures BumpN(BumpN(t, col, a), col, b) == BumpN(t, col, a + b)
  {
  }

  lemma BumpCounting(s: State, r: State, x: int, col: Stone, k: int)
    requires Counting(s, r, x, col, k) && 0 <= k < 4 && s.st >= 3 && 0 <= Nb(s.st, x, k) < |r.n|
    ensures var y0 := Nb(s.st, x, k); Counting(s, r.(n := r.n[y0 := BumpN(r.n[y0], col, 1)]), x, col, k + 1)
  {
    NbBump(r.b, r.st, x, col, k, r.n);
    hide Base, BumpN, IsNb;
    forall y | 0 <= y < |r.n| {
      BumpTwice(Base(s.n, s.b, s.st, y), col, One(IsNb(s.st, x, k, y)),
          One(IsNb(s.st, x, k + 1, y)) - One(IsNb(s.st, x, k, y)));
    }
  }

  lemma PlayOneCounting(s0: State, s: State, ch: Chains, m: Mid, b0: seq<Stone>, col: Stone, grp: int)
    requires Running(s, ch, m, b0, col, grp) && m.k < 4 && Counting(s0, s, m.coord, col, m.k)
    ensures 0 <= Nb(s.st, m.coord, m.k) < |s.b| && 0 <= grp < |s.b| && Inner(s, m.coord)
    ensures Counting(s0, PlayOne(s, m.coord, col, Nb(s.st, m.coord, m.k), grp).0, m.coord, col, m.k + 1)
  {
    hide W, PlayInv, Progress, Framed, RemoveLib, AddToGroup, Merge, Capture, Dropped, Takeable, Counting;
    var c, y, x := K(s), Nb(s.st, m.coord, m.k), m.coord;
    NeighbourFacts(c, ch, m, col, grp);
    CountingShape(s0, s, x, col, m.k);
    BumpCounting(s0, s, x, col, m.k);
    var s1 := s.(n := s.n[y := BumpN(s.n[y], col, 1)]);
    var h := s.g[y];
    if h != 0 {
      var s2 := RemoveLib(s1, h, x);
      RemoveLibCore(s1, h, x);
      RemoveLibBooks(s1, h, x);
      CountingSame(s0, s1, s2, x, col, m.k + 1);
      if s.b[y] == col && h != grp {
        if grp == 0 {
          AddToGroupBooks(s2, h, y, x);
          CountingSame(s0, s2, AddToGroup(s2, h, y, x), x, col, m.k + 1);
        } else {
          MergeBooks(s2, grp, h);
          CountingSame(s0, s2, Merge(s2, grp, h), x, col, m.k + 1);
        }
      } else if s.b[y] == Other(col) && s2.lib[h] == [] {
        AfterRemoveLib(c, ch, m, col, grp, h, {grp});
        EnemyTakeable(s2, ch, m.(blk := m.blk + {h}), col, grp, h);
        WholeCaptureCounting(s0, s2, h, ch[h], Other(col), x, x, col, m.k + 1);
      }
    }
  }

  lemma CountingShape(s: State, r: State, x: int, col: Stone, k: int)
    requires Counting(s, r, x, col, k)
    ensures |s.n| == |s.b| && |r.n| == |r.b| == |s.b| && r.st == s.st
  {
  }

  lemma {:induction false} PlayUpToCounting(s: State, ch: Chains, m: Mid, col: Stone, k: int)
    requires Running(s, ch, m, s.b, col, 0) && m.k == 0 && 0 <= k <= 4
    ensures Inner(s, m.coord) && Counting(s, PlayUpTo(s, m.coord, col, k).0, m.coord, col, k)
    decreases k
  {
    hide PlayInv, Lively, Progress, PlayOne, Counting;
    Starts(s, ch, m, col);
    if k == 0 {
      CountingRefl(s, m.coord, col);
    } else {
      PlayUpToCounting(s, ch, m, col, k - 1);
      var ch1, m1 := PlayUpToRuns(s, ch, m, col, k - 1);
      var (s1, grp) := PlayUpTo(s, m.coord, col, k - 1);
      PlayOneCounting(s, s1, ch1, m1, s.b, col, grp);
    }
  }

  lemma CountingRefl(s: State, x: int, col: Stone)
    requires Sized(s)
    ensures Counting(s, s, x, col, 0)
  {
  }

  // ------------------------------------------------------------ from move to move

  /** The counts fit the stones as well as they did on s. */
  ghost predicate Evenly(s: State, r: State) {
    |s.n| == |s.b| && |r.n| == |r.b| == |s.b| && r.st == s.st
    && forall y :: 0 <= y < |s.n| ==> Base(r.n, r.b, r.st, y) == Base(s.n, s.b, s.st, y)
  }

  lemma EvenlyCounting(s: State, r: State)
    ensures Evenly(s, r) <==> Counting(s, r, 0, Empty, 0)
  {
    hide Base;
  }

  lemma EvenlySame(s: State, r: State, t: State)
    requires Evenly(s, r) && t.n == r.n && t.b == r.b && t.st == r.st
    ensures Evenly(s, t)
  {
  }

  lemma EvenlyBack(s: State, r: State)
    requires Evenly(s, r) && r.b == s.b
    ensures r.n == s.n
  {
    hide Beside;
    forall y | 0 <= y < |s.n| ensures r.n[y] == s.n[y] {
      assert Base(r.n, r.b, r.st, y) == Base(s.n, s.b, s.st, y);
    }
  }

  lemma PlacedEvenly(s: State, r: State, x: int, col: Stone, t: State)
    requires Counting(s, r, x, col, 4) && s.st >= 3 && 0 <= x < |s.b| && r.b[x] == Empty && IsColour(col)
    requires t.n == r.n && t.b == r.b[x := col] && t.st == r.st
    ensures Evenly(s, t)
  {
    hide Beside, IsNb;
    forall y | 0 <= y < |s.n| ensures Base(t.n, t.b, t.st, y) == Base(s.n, s.b, s.st, y) {
      BesideChange(r.b, r.st, x, col, y, Black);
      BesideChange(r.b, r.st, x, col, y, White);
      assert Base(r.n, r.b, r.st, y) == BumpN(Base(s.n, s.b, s.st, y), col, One(IsNb(s.st, x, 4, y)));
    }
  }

  /** Once the stone is down the counts fit again. */
  lemma OutsideEvenly(q: State, ch: Chains, m: Move)
    requires Sized(q) && Quiet(K(q), ch) && 0 <= m.coord < |q.b| && q.b[m.coord] == Empty && IsColour(m.colour)
    requires !q.full
    ensures Inner(q, m.coord) && Evenly(q, PlayOutside(q, m).0)
  {
    hide Quiet, Counting, Evenly, PlayUpTo, W, PlayInv, Lively, Progress;
    var m0 := Mid(m.coord, Empty, 0, {}, 0);
    Begin(q, ch, m.coord, m.colour);
    PlayUpToCounting(q, ch, m0, m.colour, 4);
    var ch1, m1 := PlayUpToRuns(q, ch, m0, m.colour, 4);
    var (s1, grp) := PlayUpTo(q, m.coord, m.colour, 4);
    EmptyMeanwhile(s1, ch1, m1, q.b, m.colour, grp);
    PlacedEvenly(q, s1, m.coord, m.colour, PlayOutside(q, m).0);
  }

  // ------------------------------------------------------------ putting stones back

  lemma {:induction false} CountBackN(s: State, c: int, hue: Stone, k: int)
    requires 0 <= k <= 4 && Inner(s, c)
    ensures var r := CountBack(s, c, hue, k);
      forall y :: 0 <= y < |s.n| ==> r.n[y] == if IsNb(s.st, c, k, y) then BumpN(s.n[y], hue, 1) else s.n[y]
    decreases k
  {
    hide BumpN;
    if k > 0 {
      CountBackN(s, c, hue, k - 1);
      CountBackOnly(s, c, hue, k - 1);
    }
  }

  lemma {:induction false} UncountN(s: State, c: int, hue: Stone, k: int)
    requires 0 <= k <= 4 && Inner(s, c)
    ensures var r := UncountUpTo(s, c, hue, k); r == s.(n := r.n)
    ensures var r := UncountUpTo(s, c, hue, k);
      forall y :: 0 <= y < |s.n| ==> r.n[y] == if IsNb(s.st, c, k, y) then BumpN(s.n[y], hue, -1) else s.n[y]
    decreases k
  {
    hide BumpN;
    if k > 0 { UncountN(s, c, hue, k - 1); }
  }

  lemma {:induction false} ShrinkOnly(s: State, c: int, hue: Stone, spared: set<int>, k: int)
    requires 0 <= k <= 4 && Inner(s, c) && !s.full
    ensures var r := ShrinkBack(s, c, hue, spared, k); r == s.(lib := r.lib)
    decreases k
  {
    hide RemoveLib;
    if k > 0 {
      ShrinkOnly(s, c, hue, spared, k - 1);
      var s1 := ShrinkBack(s, c, hue, spared, k - 1);
      var grp := s1.g[Nb(s.st, c, k - 1)];
      if 0 <= grp < |s1.lib| { RemoveLibQuick(s1, grp, c); }
    }
  }

  lemma RemoveLibQuick(s: State, grp: int, x: int)
    requires 0 <= grp < |s.lib| && !s.full
    ensures var r := RemoveLib(s, grp, x); r == s.(lib := r.lib)
  {
  }

  lemma StoneBackEvenly(s: State, r: State, c: int, next: int, was: int, hue: Stone, spared: set<int>)
    requires Evenly(s, r) && Inner(r, c) && r.b[c] == Empty && IsColour(hue) && !r.full
    ensures var t := StoneBack(r, c, next, was, hue, spared);
      Evenly(s, t) && t.b == r.b[c := hue] && t == r.(b := t.b, n := t.n, g := t.g, p := t.p, lib := t.lib)
  {
    hide Base, CountBack, ShrinkBack, BumpN;
    var r1 := r.(b := r.b[c := hue], g := r.g[c := was], p := r.p[c := next]);
    CountBackN(r1, c, hue, 4);
    CountBackOnly(r1, c, hue, 4);
    var r2 := CountBack(r1, c, hue, 4);
    ShrinkOnly(r2, c, hue, spared, 4);
    var t := ShrinkBack(r2, c, hue, spared, 4);
    forall y | 0 <= y < |r.n| ensures Base(t.n, t.b, t.st, y) == Base(r.n, r.b, r.st, y) {
      BaseChange(r.n, r.b, r.st, c, hue, hue, 1, t.n, y);
    }
  }

  /** r differs from s0 in the core and the counts alone, its counts fit, and it shows `more`
      additional stones of colour hue. */
  ghost predicate Regained(s0: State, s: State, r: State, hue: Stone, more: int) {
    && Evenly(s0, r) && r == s.(b := r.b, n := r.n, g := r.g, p := r.p, lib := r.lib)
    && forall c :: IsColour(c) ==> StonesOf(r.b, c) == StonesOf(s.b, c) + (if c == hue then more else 0)
  }

  lemma RegainedMore(s0: State, s: State, r: State, hue: Stone, k: int, z: int, t: State)
    requires Regained(s0, s, r, hue, k) && Evenly(s0, t) && 0 <= z < |r.b| && r.b[z] == Empty && t.b == r.b[z := hue]
    requires t == r.(b := t.b, n := t.n, g := t.g, p := t.p, lib := t.lib) && IsColour(hue)
    ensures Regained(s0, s, t, hue, k + 1)
  {
    hide StonesOf, Evenly;
    forall c | IsColour(c) { StonesUpdate(r.b, z, hue, c); }
  }

  lemma RegainedThen(s0: State, s: State, r: State, hue: Stone, a: int, r1: State, t: State, b: int)
    requires Regained(s0, s, r, hue, a) && r1 == r.(lib := r1.lib) && Regained(s0, r1, t, hue, b)
    ensures Regained(s0, s, t, hue, a + b)
  {
    hide StonesOf, Evenly;
  }

  lemma RegainedEven(s0: State, s: State, r: State, hue: Stone, k: int)
    requires Regained(s0, s, r, hue, k)
    ensures Evenly(s0, r)
  {
  }

  lemma RegainedNone(s0: State, s: State, hue: Stone)
    requires Evenly(s0, s)
    ensures Regained(s0, s, s, hue, 0)
  {
    hide Evenly, StonesOf;
  }

  lemma {:induction false} StonesBackRegained(s0: State, s: State, t: Core, ch: Chains, hue: Stone, spared: set<int>,
      gone: set<int>, due: set<int>, was: int, l: seq<int>, i: int)
    requires Target(t, ch, hue, spared) && DueOK(t, ch, hue, spared, due) && |t.p| == |t.b| && IsColour(hue)
    requires Half(s, t, ch, hue, spared, gone, due) && 0 <= i <= |l| && ChainList(t, was, l) && Members(l) <= gone
    requires Evenly(s0, s)
    ensures Sized(s) && Regained(s0, s, StonesBack(s, l, was, hue, spared, i), hue, i)
    decreases i
  {
    hide *;
    HalfSized(s, t, ch, hue, spared, gone, due);
    RegainedNone(s0, s, hue);
    StonesBackIs(s, l, was, hue, spared, i);
    if i > 0 {
      StonesBackRegained(s0, s, t, ch, hue, spared, gone, due, was, l, i - 1);
      StonesBackHalf(s, t, ch, hue, spared, gone, due, was, l, i - 1);
      var z := l[i - 1];
      var s1 := StonesBack(s, l, was, hue, spared, i - 1);
      ListDistinct(t, was, l);
      StillMissing(l, i, gone);
      MissingAt(s1, t, ch, hue, spared, gone - Members(l[..i - 1]), due, z);
      RegainedEven(s0, s, s1, hue, i - 1);
      var next := if i < |l| then l[i] else 0;
      StoneBackEvenly(s0, s1, z, next, was, hue, spared);
      RegainedMore(s0, s, s1, hue, i - 1, z, StoneBack(s1, z, next, was, hue, spared));
    }
  }

  lemma StonesBackIs(s: State, l: seq<int>, was: int, hue: Stone, spared: set<int>, i: int)
    requires 0 <= i <= |l| && Sized(s)
    ensures i == 0 ==> StonesBack(s, l, was, hue, spared, i) == s
    ensures i > 0 ==> var s1 := StonesBack(s, l, was, hue, spared, i - 1); Inner(s1, l[i - 1]) ==>
      StonesBack(s, l, was, hue, spared, i) == StoneBack(s1, l[i - 1], if i < |l| then l[i] else 0, was, hue, spared)
  {
  }

  lemma StillMissing(l: seq<int>, i: int, gone: set<int>)
    requires 0 < i <= |l| && Distinct(l) && Members(l) <= gone
    ensures l[i - 1] in gone - Members(l[..i - 1])
  {
    MembersMore(l, i);
    assert l[i - 1] in Members(l);
  }

  lemma ListDistinct(t: Core, was: int, l: seq<int>)
    requires ChainList(t, was, l)
    ensures Distinct(l)
  {
  }

  lemma MissingAt(s: State, t: Core, ch: Chains, hue: Stone, spared: set<int>, gone: set<int>, due: set<int>, z: int)
    requires Half(s, t, ch, hue, spared, gone, due) && z in gone
    ensures Inner(s, z) && 0 <= z < |s.b| && s.b[z] == Empty && !s.full
  {
  }

  /** Number of stones in the first i entries of the record. */
  function StonesIn(es: seq<EnemyRec>, i: nat): nat
    requires i <= |es|
  {
    if i == 0 then 0 else StonesIn(es, i - 1) + |es[i - 1].stones|
  }

  lemma {:induction false} RestoreRegained(s0: State, s: State, t: Core, ch: Chains, hue: Stone, spared: set<int>,
      es: seq<EnemyRec>, i: nat)
    requires Target(t, ch, hue, spared) && Recorded(t, ch, hue, spared, es) && i <= |es| && IsColour(hue)
    requires Half(s, t, ch, hue, spared, GoneFrom(es, 0), DueFrom(es, 0)) && Evenly(s0, s)
    ensures Sized(s) && Regained(s0, s, RestoreUpTo(s, es, hue, spared, i), hue, StonesIn(es, i))
    decreases i
  {
    hide Target, Half, Repaired, StonesBack, ChainList, GoneFrom, DueFrom, Evenly, StonesOf, Regained, Recorded,
         RestoreUpTo, DueOK, Members;
    HalfSized(s, t, ch, hue, spared, GoneFrom(es, 0), DueFrom(es, 0));
    RestoreNone(s, es, hue, spared);
    RegainedNone(s0, s, hue);
    if i > 0 {
      RestoreRegained(s0, s, t, ch, hue, spared, es, i - 1);
      NextChain(s, t, ch, hue, spared, es, i - 1);
      RestoreNext(s, es, hue, spared, i - 1);
      var s1 := RestoreUpTo(s, es, hue, spared, i - 1);
      var e := es[i - 1];
      var s2 := s1.(lib := s1.lib[e.grp := e.lib]);
      RegainedEven(s0, s, s1, hue, StonesIn(es, i - 1));
      EvenlySame(s0, s1, s2);
      if e.stones != [] {
        StonesBackRegained(s0, s2, t, ch, hue, spared, GoneFrom(es, i - 1), DueFrom(es, i), e.grp, e.stones,
            |e.stones|);
      } else {
        HalfSized(s2, t, ch, hue, spared, GoneFrom(es, i - 1), DueFrom(es, i));
        NothingBack(s2, e.grp, hue, spared);
        RegainedNone(s0, s2, hue);
      }
      RegainedThen(s0, s, s1, hue, StonesIn(es, i - 1), s2, RestoreUpTo(s, es, hue, spared, i), |e.stones|);
    }
  }
}
