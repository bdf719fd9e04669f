/** The side indexes the board keeps beside the chains: neighbour counts, the free list with
    its inverse, the list of chains in atari, the hash, and the count of stones taken.
    Each primitive of the engine keeps them right. */
module Books {
  import opened Grid
  import opened LibList
  import opened Engine
  import opened Invariant
  import opened Captures

  // ------------------------------------------------------------ what the indexes should say

  function One(b: bool): int { if b then 1 else 0 }

  /** How many of the four neighbours of x have the colour col. */
  function Around(b: seq<Stone>, st: int, x: int, col: Stone): int
    requires st >= 3 && st <= x < |b| - st
  {
    One(b[x - st] == col) + One(b[x - 1] == col) + One(b[x + 1] == col) + One(b[x + st] == col)
  }

  /** One of the first k neighbours of coord. */
  predicate IsNb(st: int, coord: int, k: int, y: int) {
    (k > 0 && y == coord - st) || (k > 1 && y == coord - 1) || (k > 2 && y == coord + 1) || (k > 3 && y == coord + st)
  }

  /** The count at x, where the first k neighbours of coord already count a stone of colour col there. */
  function Expected(b: seq<Stone>, st: int, x: int, coord: int, col: Stone, k: int): Counts
    requires st >= 3 && st <= x < |b| - st
  {
    BumpN(Counts(Around(b, st, x, Black), Around(b, st, x, White), Around(b, st, x, Off)),
          col, One(IsNb(st, coord, k, x)))
  }

  ghost predicate CountsOK(s: State, coord: int, col: Stone, k: int)
    requires Sized(s)
  {
    forall x {:trigger s.n[x]} :: s.st < x < |s.b| - s.st && s.b[x] != Off ==>
      s.n[x] == Expected(s.b, s.st, x, coord, col, k)
  }

  /** The free list holds each empty point but `skip` once, and fmap finds it. */
  ghost predicate FreeOK(s: State, skip: int) {
    && Distinct(s.free)
    && (forall i :: 0 <= i < |s.free| ==> 0 <= s.free[i] < |s.b| && s.b[s.free[i]] == Empty && s.free[i] != skip)
    && (forall i :: 0 <= i < |s.free| && s.free[i] < |s.fmap| ==> s.fmap[s.free[i]] == i)
    && (forall x :: 0 <= x < |s.b| && s.b[x] == Empty && x != skip ==> x in s.free)
  }

  ghost predicate AtariOK(s: State) {
    Distinct(s.atari) && forall h :: h in s.atari <==> 0 <= h < |s.lib| && |s.lib[h]| == 1
  }

  /** The exclusive or, over all stones, of the key of the point and colour. */
  function XorAll(b: seq<Stone>, keys: seq<Key>): Word
    requires |b| == |keys|
    decreases |b|
  {
    if |b| == 0 then {}
    else Xor(XorAll(b[..|b| - 1], keys[..|b| - 1]), KeyOf(keys[|b| - 1], b[|b| - 1]))
  }

  function StonesOf(b: seq<Stone>, col: Stone): nat {
    if |b| == 0 then 0 else StonesOf(b[..|b| - 1], col) + One(b[|b| - 1] == col)
  }

  function TallyOf(t: Tally, col: Stone): int {
    if col == Black then t.black else t.white
  }

  /** Stones of the colour col that were ever put down, as the board accounts for them. */
  function Accounted(s: State, col: Stone): int {
    StonesOf(s.b, col) + TallyOf(s.caps, Other(col))
  }

  /** All indexes at once. `skip` is the point being played, off the free list already. */
  ghost predicate BooksOK(s: State, coord: int, col: Stone, k: int, skip: int) {
    && Sized(s) && CountsOK(s, coord, col, k)
    && (s.full ==> FreeOK(s, skip) && AtariOK(s) && s.hash == XorAll(s.b, s.keys))
  }

  // ------------------------------------------------------------ repainting one point

  lemma {:induction false} XorUpdate(b: seq<Stone>, keys: seq<Key>, x: int, col: Stone)
    requires |b| == |keys| && 0 <= x < |b|
    ensures XorAll(b[x := col], keys) == Xor(XorAll(b, keys), Xor(KeyOf(keys[x], b[x]), KeyOf(keys[x], col)))
    decreases |b|
  {
    hide Xor, KeyOf;
    var n := |b| - 1;
    if x == n {
      assert b[x := col][..n] == b[..n];
      XorTwice(XorAll(b[..n], keys[..n]), KeyOf(keys[x], b[x]), KeyOf(keys[x], col));
    } else {
      XorUpdate(b[..n], keys[..n], x, col);
      assert b[x := col][..n] == b[..n][x := col];
      XorSwap(XorAll(b[..n], keys[..n]), Xor(KeyOf(keys[x], b[x]), KeyOf(keys[x], col)), KeyOf(keys[n], b[n]));
    }
  }

  lemma XorTwice(a: Word, p: Word, q: Word)
    ensures Xor(a, q) == Xor(Xor(a, p), Xor(p, q))
  {
  }

  lemma XorSwap(a: Word, d: Word, r: Word)
    ensures Xor(Xor(a, d), r) == Xor(Xor(a, r), d)
  {
  }

  lemma {:induction false} StonesUpdate(b: seq<Stone>, x: int, to: Stone, col: Stone)
    requires 0 <= x < |b|
    ensures StonesOf(b[x := to], col) == StonesOf(b, col) - One(b[x] == col) + One(to == col)
    decreases |b|
  {
    var n := |b| - 1;
    if x == n {
      assert b[x := to][..n] == b[..n];
    } else {
      StonesUpdate(b[..n], x, to, col);
      assert b[x := to][..n] == b[..n][x := to];
    }
  }

  lemma RemoveNbsNext(s: State, grp: int, x: int, col: Stone, k: int)
    requires 1 <= k <= 4 && Inner(s, x)
    ensures RemoveNbs(s, grp, x, col, 0) == s && 0 <= Nb(s.st, x, k - 1) < |RemoveNbs(s, grp, x, col, k - 1).n|
    ensures var s1 := RemoveNbs(s, grp, x, col, k - 1); var y := Nb(s.st, x, k - 1);
      RemoveNbs(s, grp, x, col, k).n == s1.n[y := BumpN(s1.n[y], col, -1)]
  {
    hide BumpN, AddLib;
    var s1 := RemoveNbs(s, grp, x, col, k - 1);
    var y := Nb(s.st, x, k - 1);
    var s2 := s1.(n := s1.n[y := BumpN(s1.n[y], col, -1)]);
    var h := s2.g[y];
    if 0 < h < |s2.lib| && h != grp { AddLibBooks(s2, h, x); }
  }

  lemma NbNext(st: int, x: int, k: int, y: int)
    requires 1 <= k <= 4 && st >= 3
    ensures !IsNb(st, x, 0, y) && (IsNb(st, x, k, y) <==> IsNb(st, x, k - 1, y) || y == Nb(st, x, k - 1))
    ensures !IsNb(st, x, k - 1, Nb(st, x, k - 1))
  {
  }

  lemma {:induction false} RemoveNbsN(s: State, grp: int, x: int, col: Stone, k: int)
    requires 0 <= k <= 4 && Inner(s, x)
    ensures var r := RemoveNbs(s, grp, x, col, k);
      forall y :: 0 <= y < |s.n| ==> r.n[y] == if IsNb(s.st, x, k, y) then BumpN(s.n[y], col, -1) else s.n[y]
    decreases k
  {
    hide BumpN, AddLib, RemoveNbs, IsNb, Nb;
    if k == 0 {
      RemoveNbsNext(s, grp, x, col, 1);
      forall y ensures !IsNb(s.st, x, 0, y) { NbNext(s.st, x, 1, y); }
    } else {
      RemoveNbsN(s, grp, x, col, k - 1);
      RemoveNbsNext(s, grp, x, col, k);
      forall y ensures IsNb(s.st, x, k, y) <==> IsNb(s.st, x, k - 1, y) || y == Nb(s.st, x, k - 1) {
        NbNext(s.st, x, k, y);
      }
      NbNext(s.st, x, k, Nb(s.st, x, k - 1));
    }
  }

  lemma {:induction false} RemoveNbsBooks(s: State, grp: int, x: int, col: Stone, k: int)
    requires 0 <= k <= 4 && Inner(s, x)
    ensures var r := RemoveNbs(s, grp, x, col, k); r == s.(n := r.n, lib := r.lib, atari := r.atari)
    ensures s.full && AtariOK(s) ==> AtariOK(RemoveNbs(s, grp, x, col, k))
    decreases k
  {
    hide AtariOK, BumpN, AddLib;
    if k > 0 {
      RemoveNbsBooks(s, grp, x, col, k - 1);
      var s1 := RemoveNbs(s, grp, x, col, k - 1);
      var y := Nb(s.st, x, k - 1);
      var s2 := s1.(n := s1.n[y := BumpN(s1.n[y], col, -1)]);
      SameAtari(s1, s2);
      var h := s2.g[y];
      if 0 < h < |s2.lib| && h != grp { AddLibBooks(s2, h, x); }
    }
  }

  lemma SameAtari(s: State, r: State)
    requires r.lib == s.lib && r.atari == s.atari
    ensures AtariOK(r) == AtariOK(s)
  {
  }

  // ------------------------------------------------------------ liberty primitives

  ghost predicate OnlyLibs(s: State, r: State) {
    r == s.(lib := r.lib, atari := r.atari)
  }

  lemma AddLibBooks(s: State, grp: int, x: int)
    requires 0 <= grp < |s.lib|
    ensures OnlyLibs(s, AddLib(s, grp, x))
    ensures s.full && AtariOK(s) ==> AtariOK(AddLib(s, grp, x))
  {
    if s.full && AtariOK(s) && grp in s.atari { SwapRemoveMembers(s.atari, grp); }
  }

  lemma SwapRemoveLength(l: seq<int>, x: int)
    requires x in l
    ensures |SwapRemove(l, x)| == |l| - 1
  {
  }

  lemma FillLonger(l: seq<int>, cands: seq<int>, avoid: int)
    ensures |Fill(l, cands, avoid)| >= |l|
    decreases cands
  {
  }

  /** Dropping a liberty keeps the atari list right; in particular a chain losing its last
      liberty is found in the list, so the "rm of bad group" stop is out of reach. */
  lemma RemoveLibBooks(s: State, grp: int, x: int)
    requires 0 <= grp < |s.lib|
    ensures OnlyLibs(s, RemoveLib(s, grp, x))
    ensures s.full && AtariOK(s) ==> AtariOK(RemoveLib(s, grp, x))
  {
    if x in s.lib[grp] {
      SwapRemoveLength(s.lib[grp], x);
      var l := SwapRemove(s.lib[grp], x);
      if |l| == REFILL {
        var stones := ChainOf(s, grp);
        FillLonger(l, EmptyAround(s.b, s.st, stones, |stones|), x);
      }
      if s.full && AtariOK(s) && grp in s.atari { SwapRemoveMembers(s.atari, grp); }
    }
  }

  // ------------------------------------------------------------ a stone leaves

  lemma ExpectedVacated(b: seq<Stone>, st: int, x: int, y: int, coord: int, col: Stone, k: int)
    requires st >= 3 && st <= x < |b| - st && st <= y < |b| - st && IsColour(b[x])
    ensures Expected(b[x := Empty], st, y, coord, col, k)
         == if IsNb(st, x, 4, y) then BumpN(Expected(b, st, y, coord, col, k), b[x], -1)
           else Expected(b, st, y, coord, col, k)
  {
  }

  lemma RemoveStoneCounts(s: State, grp: int, x: int, coord: int, col: Stone, k: int)
    requires Inner(s, x) && s.st < x < |s.b| - s.st && IsColour(s.b[x]) && CountsOK(s, coord, col, k)
    ensures CountsOK(RemoveStone(s, grp, x), coord, col, k)
  {
    hide Expected, BumpN, RemoveNbs;
    var s1 := HashUpdate(s.(b := s.b[x := Empty], g := s.g[x := 0]), x, s.b[x]);
    RemoveNbsN(s1, grp, x, s.b[x], 4);
    RemoveNbsBooks(s1, grp, x, s.b[x], 4);
    var r := RemoveStone(s, grp, x);
    forall y | s.st < y < |s.b| - s.st && r.b[y] != Off
      ensures r.n[y] == Expected(r.b, s.st, y, coord, col, k)
    {
      ExpectedVacated(s.b, s.st, x, y, coord, col, k);
      assert s.n[y] == Expected(s.b, s.st, y, coord, col, k);
    }
  }

  lemma AddFreeOK(s: State, x: int, skip: int, b0: seq<Stone>)
    requires FreeOK(s.(b := b0), skip) && s.full && 0 <= x < |b0| == |s.fmap| && b0[x] != Empty && x != skip
    requires s.b == b0[x := Empty]
    ensures FreeOK(AddFree(s, x), skip)
  {
    var r := AddFree(s, x);
    assert x !in s.free;
    forall y | 0 <= y < |r.b| && r.b[y] == Empty && y != skip ensures y in r.free {
      if y == x { assert r.free[|s.free|] == x; }
      else {
        assert b0[y] == Empty;
        var i :| 0 <= i < |s.free| && s.free[i] == y;
        assert r.free[i] == y;
      }
    }
  }

  lemma RemoveStoneBooks(s: State, grp: int, x: int, coord: int, col: Stone, k: int, skip: int)
    requires BooksOK(s, coord, col, k, skip) && Inner(s, x) && s.st < x < |s.b| - s.st
    requires IsColour(s.b[x]) && x != skip
    ensures BooksOK(RemoveStone(s, grp, x), coord, col, k, skip)
    ensures var r := RemoveStone(s, grp, x); r.b == s.b[x := Empty] && r.caps == s.caps
    ensures forall c :: StonesOf(RemoveStone(s, grp, x).b, c) == StonesOf(s.b, c) - One(s.b[x] == c) + One(c == Empty)
  {
    hide CountsOK, RemoveNbs, AtariOK, FreeOK, XorAll;
    RemoveStoneCounts(s, grp, x, coord, col, k);
    var s1 := HashUpdate(s.(b := s.b[x := Empty], g := s.g[x := 0]), x, s.b[x]);
    RemoveNbsBooks(s1, grp, x, s.b[x], 4);
    SameAtari(s, s1);
    var s2 := RemoveNbs(s1, grp, x, s.b[x], 4);
    var r := AddFree(s2, x);
    SameAtari(s2, r);
    if s.full {
      XorUpdate(s.b, s.keys, x, Empty);
      FreeIgnores(s, s2.(b := s.b), skip);
      AddFreeOK(s2, x, skip, s.b);
    }
    forall c ensures StonesOf(r.b, c) == StonesOf(s.b, c) - One(s.b[x] == c) + One(c == Empty) {
      StonesUpdate(s.b, x, Empty, c);
    }
  }

  lemma FreeIgnores(s: State, r: State, skip: int)
    requires r.b == s.b && r.free == s.free && r.fmap == s.fmap
    ensures FreeOK(r, skip) == FreeOK(s, skip)
  {
  }

  /** A chain about to be taken: distinct stones of one colour, none of them the played point. */
  ghost predicate Takeable(s: State, l: seq<int>, hue: Stone, skip: int) {
    && IsColour(hue) && Distinct(l)
    && (forall j :: 0 <= j < |l| ==> Inner(s, l[j]) && s.st < l[j] < |s.b| - s.st && s.b[l[j]] == hue && l[j] != skip)
  }

  lemma {:induction false} CaptureBooks(s: State, grp: int, l: seq<int>, hue: Stone, i: int, coord: int, col: Stone,
      k: int, skip: int)
    requires BooksOK(s, coord, col, k, skip) && Takeable(s, l, hue, skip) && 0 <= i <= |l|
    ensures BooksOK(CaptureUpTo(s, grp, l, i), coord, col, k, skip)
    ensures CaptureUpTo(s, grp, l, i).caps == Bump(s.caps, Other(hue), i)
    ensures var r := CaptureUpTo(s, grp, l, i);
      forall c :: IsColour(c) ==> StonesOf(r.b, c) == StonesOf(s.b, c) - (if c == hue then i else 0)
    decreases i
  {
    hide RemoveStone, BooksOK, StonesOf;
    if i > 0 {
      CaptureBooks(s, grp, l, hue, i - 1, coord, col, k, skip);
      var s1 := CaptureUpTo(s, grp, l, i - 1);
      var x := l[i - 1];
      StillThere(s, grp, l, i - 1, x);
      var s2 := s1.(caps := Bump(s1.caps, Other(s1.b[x]), 1));
      CapsOnly(s1, s2, coord, col, k, skip);
      RemoveStoneBooks(s2, grp, x, coord, col, k, skip);
    }
  }

  lemma CapsOnly(s: State, r: State, coord: int, col: Stone, k: int, skip: int)
    requires r == s.(caps := r.caps)
    ensures BooksOK(r, coord, col, k, skip) == BooksOK(s, coord, col, k, skip)
  {
    SameAtari(s, r);
    FreeIgnores(s, r, skip);
  }

  lemma StillThere(s: State, grp: int, l: seq<int>, i: int, x: int)
    requires Sized(s) && 0 <= i <= |l| && (forall j :: 0 <= j < |l| ==> Inner(s, l[j])) && 0 <= x < |s.b|
    requires x !in l[..i]
    ensures CaptureUpTo(s, grp, l, i).b[x] == s.b[x]
  {
    CaptureUpToCore(s, grp, l, i);
    TakenAllShape(K(s), grp, l, i);
  }

  // ------------------------------------------------------------ chains change hands

  /** Only chain ids, links and liberty lists may differ. */
  ghost predicate OnlyChains(s: State, r: State) {
    r == s.(g := r.g, p := r.p, lib := r.lib, atari := r.atari, lasts := r.lasts)
  }

  lemma ChainsOnly(s: State, r: State, coord: int, col: Stone, k: int, skip: int)
    requires BooksOK(s, coord, col, k, skip) && OnlyChains(s, r) && Sized(r)
    requires s.full && AtariOK(s) ==> AtariOK(r)
    ensures BooksOK(r, coord, col, k, skip)
    ensures Accounted(r, Black) == Accounted(s, Black) && Accounted(r, White) == Accounted(s, White)
  {
    FreeIgnores(s, r, skip);
  }

  /** The list of chains in atari is right for all chains but `ex`, which is not in it. */
  ghost predicate AtariBut(s: State, ex: int) {
    Distinct(s.atari) && ex !in s.atari
    && forall h :: h != ex ==> (h in s.atari <==> 0 <= h < |s.lib| && |s.lib[h]| == 1)
  }

  lemma AddLibBut(s: State, grp: int, x: int, ex: int)
    requires 0 <= grp < |s.lib| && grp != ex && s.full && AtariBut(s, ex)
    ensures AtariBut(AddLib(s, grp, x), ex) && OnlyLibs(s, AddLib(s, grp, x))
  {
    if grp in s.atari { SwapRemoveMembers(s.atari, grp); }
  }

  lemma {:induction false} AppendLibsBut(s: State, to: int, l: seq<int>, i: int, ex: int)
    requires Sized(s) && 0 <= to < |s.lib| && 0 <= i <= |l| && to != ex
    ensures OnlyLibs(s, AppendLibs(s, to, l, i))
    ensures s.full && AtariBut(s, ex) ==> AtariBut(AppendLibs(s, to, l, i), ex)
    decreases i
  {
    hide AddLib, AtariBut;
    if i > 0 {
      AppendLibsBut(s, to, l, i - 1, ex);
      var s1 := AppendLibs(s, to, l, i - 1);
      AddLibBooks(s1, to, l[i - 1]);
      if s.full && AtariBut(s, ex) { AddLibBut(s1, to, l[i - 1], ex); }
    }
  }

  lemma MergeBooks(s: State, to: int, from: int)
    requires Sized(s) && 0 <= to < |s.lib| && 0 <= from < |s.lib| && to != from
    ensures OnlyChains(s, Merge(s, to, from))
    ensures s.full && AtariOK(s) ==> AtariOK(Merge(s, to, from))
  {
    hide Relabel, AppendLibs;
    if Walkable(s, from) {
      var l := s.lib[from];
      var s0 := if |l| == 1 then AtariRemove(s, from) else s;
      AppendLibsBut(s0, to, l, |l|, from);
      if s.full && AtariOK(s) {
        if |l| == 1 { SwapRemoveMembers(s.atari, from); }
        assert AtariBut(s0, from);
      }
    }
  }

  lemma {:induction false} AddEmptyNbsBooks(s: State, grp: int, x: int, k: int)
    requires 0 <= k <= 4 && Inner(s, x) && 0 <= grp < |s.lib|
    ensures OnlyLibs(s, AddEmptyNbs(s, grp, x, k))
    ensures s.full && AtariOK(s) ==> AtariOK(AddEmptyNbs(s, grp, x, k))
    decreases k
  {
    hide AddLib, AtariOK;
    if k > 0 {
      AddEmptyNbsBooks(s, grp, x, k - 1);
      var y := Nb(s.st, x, k - 1);
      if s.b[y] == Empty { AddLibBooks(AddEmptyNbs(s, grp, x, k - 1), grp, y); }
    }
  }

  lemma AddToGroupBooks(s: State, grp: int, prev: int, x: int)
    requires Inner(s, x) && 0 <= grp < |s.lib| && 0 <= prev < |s.p|
    ensures OnlyChains(s, AddToGroup(s, grp, prev, x))
    ensures s.full && AtariOK(s) ==> AtariOK(AddToGroup(s, grp, prev, x))
  {
    hide AtariOK, AddEmptyNbs;
    var s1 := s.(g := s.g[x := grp], p := s.p[x := s.p[prev]][prev := x]);
    SameAtari(s, s1);
    AddEmptyNbsBooks(s1, grp, x, 4);
  }

  lemma NewGroupBooks(s: State, x: int)
    requires Inner(s, x) && s.lib[x] == []
    ensures OnlyChains(s, NewGroup(s, x))
    ensures s.full && AtariOK(s) ==> AtariOK(NewGroup(s, x))
  {
  }

  lemma WholeCaptureBooks(s: State, grp: int, l: seq<int>, hue: Stone, coord: int, col: Stone, k: int, skip: int)
    requires BooksOK(s, coord, col, k, skip) && Takeable(s, l, hue, skip) && Walkable(s, grp) && l == ChainOf(s, grp)
    requires Sized(s) && s.lib[grp] == []
    ensures BooksOK(Capture(s, grp), coord, col, k, skip)
    ensures forall c :: IsColour(c) ==> Accounted(Capture(s, grp), c) == Accounted(s, c)
    ensures Capture(s, grp).caps == Bump(s.caps, Other(hue), |l|)
  {
    hide BooksOK, StonesOf, CaptureUpTo;
    CaptureBooks(s, grp, l, hue, |l|, coord, col, k, skip);
    KeepsEmpty(s, grp, l, |l|);
    var r := CaptureUpTo(s, grp, l, |l|);
    assert r.lib[grp := []] == r.lib;
    assert Capture(s, grp) == r;
  }

  /** Taking a chain's stones off never adds to its own list. */
  lemma {:induction false} KeepsEmpty(s: State, grp: int, l: seq<int>, i: int)
    requires Sized(s) && 0 <= i <= |l| && (forall j :: 0 <= j < |l| ==> Inner(s, l[j])) && 0 <= grp < |s.lib|
    ensures |CaptureUpTo(s, grp, l, i).lib| == |s.lib| && CaptureUpTo(s, grp, l, i).lib[grp] == s.lib[grp]
    decreases i
  {
    CaptureUpToCore(s, grp, l, i);
    TakenAllOwn(K(s), grp, l, i);
  }

  lemma {:induction false} TakenAllOwn(c: Core, grp: int, l: seq<int>, i: int)
    requires 0 <= i <= |l| && c.st >= 3 && |c.b| == |c.g| && 0 <= grp < |c.lib|
    requires forall j :: 0 <= j < |l| ==> c.st <= l[j] < |c.g| - c.st
    ensures TakenAll(c, grp, l, i).lib[grp] == c.lib[grp]
    decreases i
  {
    if i > 0 { TakenAllOwn(c, grp, l, i - 1); }
  }

  // ------------------------------------------------------------ the point being played

  /** Counting the new stone at its next neighbour. */
  lemma BumpPlayed(s: State, coord: int, col: Stone, k: int, skip: int)
    requires BooksOK(s, coord, col, k, skip) && 0 <= k < 4 && Inner(s, coord) && IsColour(col)
    ensures 0 <= Nb(s.st, coord, k) < |s.n|
    ensures var y := Nb(s.st, coord, k); BooksOK(s.(n := s.n[y := BumpN(s.n[y], col, 1)]), coord, col, k + 1, skip)
  {
    hide FreeOK, XorAll, AtariOK, Around;
    var y := Nb(s.st, coord, k);
    var r := s.(n := s.n[y := BumpN(s.n[y], col, 1)]);
    SameAtari(s, r);
    FreeIgnores(s, r, skip);
    forall x | s.st < x < |s.b| - s.st && s.b[x] != Off
      ensures r.n[x] == Expected(s.b, s.st, x, coord, col, k + 1)
    {
      assert s.n[x] == Expected(s.b, s.st, x, coord, col, k);
    }
  }

  lemma ExpectedPlaced(b: seq<Stone>, st: int, y: int, coord: int, col: Stone)
    requires st >= 3 && st <= coord < |b| - st && st <= y < |b| - st && IsColour(col) && b[coord] == Empty
    ensures Expected(b[coord := col], st, y, 0, Empty, 0) == Expected(b, st, y, coord, col, 4)
  {
  }

  lemma SwapOutFree(f: seq<int>, i: int, x: int)
    requires Distinct(f) && 0 <= i < |f|
    ensures var r := f[i := f[|f| - 1]][..|f| - 1];
      Distinct(r) && f[i] !in r && (x in f && x != f[i] ==> x in r)
  {
    var n := |f| - 1;
    var r := f[i := f[n]][..n];
    if x in f && x != f[i] {
      var j :| 0 <= j < |f| && f[j] == x;
      assert r[if j == n then i else j] == x;
    }
  }

  lemma TakeFreeOK(s: State, coord: int)
    requires Sized(s) && s.full && FreeOK(s, PASS) && 0 <= coord < |s.b| && s.b[coord] == Empty
    ensures FreeOK(TakeFree(s, coord), coord)
  {
    var f, n := s.free, |s.free| - 1;
    assert coord in f;
    var i :| 0 <= i < |f| && f[i] == coord;
    assert s.fmap[coord] == i && 0 <= f[n] < |s.fmap|;
    var r := TakeFree(s, coord);
    assert r == s.(free := f[i := f[n]][..n], fmap := s.fmap[f[n] := i]);
    assert forall j :: 0 <= j < n ==> f[j] != f[n];
    hide TakeFree, RemoveFree, Distinct;
    forall x | 0 <= x < |r.b| && r.b[x] == Empty && x != coord ensures x in r.free {
      SwapOutFree(f, i, x);
    }
    SwapOutFree(f, i, coord);
  }

  /** Taking the played point off the free list. */
  lemma TakeFreeBooks(s: State, coord: int, col: Stone)
    requires BooksOK(s, 0, Empty, 0, PASS) && 0 <= coord < |s.b| && s.b[coord] == Empty
    ensures BooksOK(TakeFree(s, coord), coord, col, 0, coord)
    ensures var r := TakeFree(s, coord); r == s.(free := r.free, fmap := r.fmap)
  {
    hide FreeOK, AtariOK, XorAll;
    var r := TakeFree(s, coord);
    SameAtari(s, r);
    if s.full { TakeFreeOK(s, coord); }
    hide TakeFree;
    forall x | s.st < x < |s.b| - s.st && s.b[x] != Off
      ensures r.n[x] == Expected(s.b, s.st, x, coord, col, 0)
    {
      assert s.n[x] == Expected(s.b, s.st, x, 0, Empty, 0);
    }
  }

  /** Putting the stone down at the end of the move, with its key. */
  lemma PlaceBooks(s: State, r: State, coord: int, col: Stone)
    requires BooksOK(s, coord, col, 4, coord) && Inner(s, coord) && IsColour(col) && s.b[coord] == Empty && Sized(r)
    requires r.b == s.b[coord := col] && r.n == s.n && r.free == s.free && r.fmap == s.fmap && r.full == s.full
    requires r.keys == s.keys && r.st == s.st && r.caps == s.caps
    requires r.full ==> AtariOK(r) && r.hash == Xor(s.hash, KeyOf(s.keys[coord], col))
    ensures BooksOK(r, 0, Empty, 0, PASS)
    ensures forall c :: IsColour(c) ==> Accounted(r, c) == Accounted(s, c) + One(c == col)
  {
    forall x | s.st < x < |s.b| - s.st && r.b[x] != Off
      ensures r.n[x] == Expected(r.b, s.st, x, 0, Empty, 0)
    {
      assert s.n[x] == Expected(s.b, s.st, x, coord, col, 4);
      ExpectedPlaced(s.b, s.st, x, coord, col);
    }
    if s.full {
      XorUpdate(s.b, s.keys, coord, col);
      assert Xor({}, KeyOf(s.keys[coord], col)) == KeyOf(s.keys[coord], col);
      forall x | 0 <= x < |r.b| && r.b[x] == Empty ensures x in r.free { assert s.b[x] == Empty; }
    }
    forall c | IsColour(c) ensures Accounted(r, c) == Accounted(s, c) + One(c == col) {
      StonesUpdate(s.b, coord, col, c);
    }
  }
}
