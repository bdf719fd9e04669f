/** The main result: the board accepts exactly the legal moves and shows exactly what the
    rules say, and everything it maintains stays right. */
module PlayTheorem {
  import opened Grid
  import opened LibList
  import opened Engine
  import opened Invariant
  import opened Captures
  import opened Moves
  import opened Refinement
  import opened Books
  import opened Rules

  ghost predicate Quiet(c: Core, ch: Chains) {
    W(c, ch, QUIET) && Lively(c, ch, {})
  }

  ghost predicate KoOK(b: seq<Stone>, st: int, ko: Move) {
    ko == NO_MOVE || (IsColour(ko.colour) && 0 <= ko.coord < |b| && b[ko.coord] == Empty
                      && Walled(b, st, ko.coord, Other(ko.colour)))
  }

  /** Everything the board promises between moves. */
  ghost predicate Sound(s: State) {
    && Sized(s) && BooksOK(s, 0, Empty, 0, PASS) && KoOK(s.b, s.st, s.ko)
    && exists ch :: Quiet(K(s), ch)
  }

  // ------------------------------------------------------------ the neighbour loop's books

  ghost predicate Balanced(s: State, r: State) {
    Accounted(r, Black) == Accounted(s, Black) && Accounted(r, White) == Accounted(s, White)
  }

  lemma TakeableChain(s: State, ch: Chains, m: Mid, col: Stone, h: int)
    requires Sized(s) && W(K(s), ch, m) && m.dying == 0 && h in ch && 0 < h < |s.b| && s.b[h] == Other(col)
    requires IsColour(col) && s.g[m.coord] != h
    ensures Takeable(s, ch[h], Other(col), m.coord) && Walkable(s, h) && ChainOf(s, h) == ch[h]
  {
    hide Maximal, LibsOK, Reach, Cover, Conn;
    var l := ch[h];
    assert ChainList(K(s), h, l);
    WalkIsChain(K(s), h, l);
    forall j | 0 <= j < |l|
      ensures Inner(s, l[j]) && s.st < l[j] < |s.b| - s.st && s.b[l[j]] == Other(col) && l[j] != m.coord
    {
      assert Pt(K(s), l[j]);
      SameHue(K(s), ch, m, h, l[j]);
    }
  }

  lemma PlayOneBooks(s: State, ch: Chains, m: Mid, b0: seq<Stone>, col: Stone, grp: int)
    requires Running(s, ch, m, b0, col, grp) && m.k < 4 && BooksOK(s, m.coord, col, m.k, m.coord)
    ensures 0 <= Nb(s.st, m.coord, m.k) < |s.b| && 0 <= grp < |s.b| && Inner(s, m.coord)
    ensures var (s', grp') := PlayOne(s, m.coord, col, Nb(s.st, m.coord, m.k), grp);
      BooksOK(s', m.coord, col, m.k + 1, m.coord) && Balanced(s, s')
  {
    hide W, PlayInv, Progress, Framed, RemoveLib, AddToGroup, Merge, Capture, Dropped, BooksOK, StonesOf, AtariOK,
         Takeable;
    var c, y, x := K(s), Nb(s.st, m.coord, m.k), m.coord;
    NeighbourFacts(c, ch, m, col, grp);
    BumpPlayed(s, x, col, m.k, x);
    var s1 := s.(n := s.n[y := BumpN(s.n[y], col, 1)]);
    var h := s.g[y];
    if h != 0 {
      var s2 := RemoveLib(s1, h, x);
      RemoveLibCore(s1, h, x);
      RemoveLibBooks(s1, h, x);
      ChainsOnly(s1, s2, x, col, m.k + 1, x);
      if s.b[y] == col && h != grp {
        if grp == 0 {
          AddToGroupBooks(s2, h, y, x);
          ChainsOnly(s2, AddToGroup(s2, h, y, x), x, col, m.k + 1, x);
        } else {
          MergeBooks(s2, grp, h);
          ChainsOnly(s2, Merge(s2, grp, h), x, col, m.k + 1, x);
        }
      } else if s.b[y] == Other(col) && s2.lib[h] == [] {
        AfterRemoveLib(c, ch, m, col, grp, h, {grp});
        EnemyTakeable(s2, ch, m.(blk := m.blk + {h}), col, grp, h);
        WholeCaptureBooks(s2, h, ch[h], Other(col), x, col, m.k + 1, x);
      }
    }
  }

  lemma EnemyTakeable(s: State, ch: Chains, m: Mid, col: Stone, grp: int, h: int)
    requires Sized(s) && PlayInv(K(s), ch, m, col, grp) && m.k < 4 && h in ch
    requires var y := Nb(s.st, m.coord, m.k); 0 <= y < |s.b| && s.g[y] == h && s.b[y] == Other(col)
    ensures Takeable(s, ch[h], Other(col), m.coord) && Walkable(s, h) && ChainOf(s, h) == ch[h]
  {
    hide Maximal, LibsOK, Reach, Cover, Conn, Takeable;
    var y := Nb(s.st, m.coord, m.k);
    SameHue(K(s), ch, m, h, y);
    if s.g[m.coord] == h { SameHue(K(s), ch, m, h, m.coord); }
    TakeableChain(s, ch, m, col, h);
  }

  lemma {:induction false} PlayUpToBooks(s: State, ch: Chains, m: Mid, col: Stone, k: int)
    returns (ch': Chains, m': Mid)
    requires Running(s, ch, m, s.b, col, 0) && m.k == 0 && 0 <= k <= 4 && BooksOK(s, m.coord, col, 0, m.coord)
    ensures m'.coord == m.coord && m'.k == k && Inner(s, m.coord)
    ensures var (s', grp') := PlayUpTo(s, m.coord, col, k);
      Running(s', ch', m', s.b, col, grp') && BooksOK(s', m.coord, col, k, m.coord) && Balanced(s, s')
    decreases k
  {
    hide PlayInv, Lively, Progress, PlayOne, BooksOK, StonesOf;
    Starts(s, ch, m, col);
    if k == 0 {
      ch', m' := ch, m;
    } else {
      var ch1, m1 := PlayUpToBooks(s, ch, m, col, k - 1);
      var (s1, grp) := PlayUpTo(s, m.coord, col, k - 1);
      ch', m' := PlayOneStep(s1, ch1, m1, s.b, col, grp);
      PlayOneBooks(s1, ch1, m1, s.b, col, grp);
    }
  }

  // ------------------------------------------------------------ from quiet board to quiet board

  /** Between moves the mid-move invariant holds for any point about to be played. */
  lemma Begin(s: State, ch: Chains, x: int, col: Stone)
    requires Sized(s) && Quiet(K(s), ch) && 0 <= x < |s.b| && s.b[x] == Empty && IsColour(col)
    ensures Running(s, ch, Mid(x, Empty, 0, {}, 0), s.b, col, 0)
  {
    hide Reach, LibOK, ChainList;
    var c, m := K(s), Mid(x, Empty, 0, {}, 0);
    assert View(c, m) == View(c, QUIET) == c.b;
    ZeroNoId(c, ch, QUIET);
    forall h ensures Libs(c, m, h) == Libs(c, QUIET, h) {
      assert forall y :: IsLib(c, m, h, y) == IsLib(c, QUIET, h, y);
    }
    assert Maximal(c, m) by { hide Libs, LibsOK, Cover, Conn; }
    assert LibsOK(c, ch, m) by { hide Maximal, Cover, Conn; }
    assert Conn(c, m) by { hide Maximal, Cover, LibsOK; }
  }

  /** What the board is like once the stone is down, before a possible suicide is cleared. */
  ghost predicate Down(c: Core, ch: Chains, b0: seq<Stone>, x: int, col: Stone, own: int) {
    && |c.b| == |b0| == |c.g| && 0 <= x < |b0|
    && W(c, ch, QUIET) && Lively(c, ch, {own}) && own in ch && 0 < own < |c.b| && c.g[x] == own
    && c.b[x] == col && c.b[own] == col && c.b == Clear(b0[x := col], c.st, Other(col))
  }

  /** Drawing the stone at the end of the loop, as a new chain if it joined none. */
  function Drawn(s: State, x: int, col: Stone, grp: int): State
    requires Inner(s, x)
  {
    var s2 := s.(b := s.b[x := col]);
    if grp == 0 then NewGroup(s2, x) else s2
  }

  lemma DrawnDown(s: State, ch: Chains, m: Mid, b0: seq<Stone>, col: Stone, grp: int) returns (ch': Chains)
    requires Running(s, ch, m, b0, col, grp) && m.k == 4
    ensures Inner(s, m.coord)
    ensures Down(K(Drawn(s, m.coord, col, grp)), ch', b0, m.coord, col, if grp == 0 then m.coord else grp)
  {
    hide Reach, Maximal, Conn, LibsOK, Cover, Clear, Progress;
    var c, x := K(s), m.coord;
    var own := if grp == 0 then x else grp;
    var s2 := s.(b := s.b[x := col]);
    if grp == 0 {
      PlaceFounded(c, ch, m, col);
      NewGroupCore(s2, x);
      ch' := ch[x := [x]];
    } else {
      PlaceJoined(c, ch, m, col, grp);
      ch' := ch;
    }
    var c2 := K(Drawn(s, x, col, grp));
    assert W(c2, ch', QUIET);
    FoundedLively(c, ch, x, col, c2, ch', own);
    SameHue(c2, ch', QUIET, own, x);
    assert View(c2, QUIET) == c2.b;
    OpponentCleared(c, c2, ch', b0, x, col, own);
  }

  lemma FoundedLively(c: Core, ch: Chains, x: int, col: Stone, c2: Core, ch2: Chains, own: int)
    requires |c2.lib| == |c.lib| && (forall h :: h in ch2 && h != own ==> h in ch)
    requires forall h :: 0 <= h < |c.lib| && h != own ==> c2.lib[h] == c.lib[h]
    requires Lively(c, ch, {own}) || (own == x && Lively(c, ch, {0}) && 0 !in ch)
    ensures Lively(c2, ch2, {own})
  {
  }

  /** Clearing one's own colour: the own chain goes if its list is empty, nothing else does. */
  lemma EndMove(c: Core, ch: Chains, b0: seq<Stone>, x: int, col: Stone, own: int)
    requires Down(c, ch, b0, x, col, own) && IsColour(col)
    ensures 0 <= own < |c.lib| && own in ch && c.st >= 3
    ensures forall j :: 0 <= j < |ch[own]| ==> c.st <= ch[own][j] < |c.g| - c.st
    ensures c.lib[own] != [] ==> Quiet(c, ch) && c.b == Turn(b0, c.st, x, col)
    ensures c.lib[own] == [] ==>
      Quiet(Captured(c, own, ch[own]), ch - {own}) && Captured(c, own, ch[own]).b == Turn(b0, c.st, x, col)
    ensures Turn(b0, c.st, x, col)[x] == if c.lib[own] == [] then Empty else col
  {
    hide Reach, Maximal, Conn, LibsOK, Cover, Clear, TakenAll, Links;
    OwnCleared(c, ch, own, col);
    var t := Turn(b0, c.st, x, col);
    ZeroNoId(c, ch, QUIET);
    assert CanCapture(c, ch, QUIET, own, col);
    CaptureW(c, ch, QUIET, own, col);
    if c.lib[own] == [] {
      var c' := Captured(c, own, ch[own]);
      TakenAllGains(c, own, ch[own], |ch[own]|);
      assert c'.b == t;
      assert Lively(c', ch - {own}, {});
    } else {
      assert c.b == t;
      assert Lively(c, ch, {});
    }
  }

  /** Playing, up to but not including the clearing of a suicide. */
  lemma OutsideDown(s: State, ch: Chains, m: Move) returns (ch': Chains)
    requires Sized(s) && Quiet(K(s), ch) && BooksOK(s, 0, Empty, 0, PASS) && IsColour(m.colour)
    requires 0 <= m.coord < |s.b| && s.b[m.coord] == Empty
    ensures Inner(s, m.coord)
    ensures var (r, own) := PlayOutside(s, m);
      Down(K(r), ch', s.b, m.coord, m.colour, own) && BooksOK(r, 0, Empty, 0, PASS)
    ensures var r := PlayOutside(s, m).0; r.caps == PlayUpTo(TakeFree(s, m.coord), m.coord, m.colour, 4).0.caps
    ensures forall c :: IsColour(c) ==> Accounted(PlayOutside(s, m).0, c) == Accounted(s, c) + One(c == m.colour)
  {
    hide Quiet, Down, BooksOK, StonesOf, PlayUpTo, TakeFree, PlayInv, Progress, Lively, XorAll, Xor, AtariOK, NewGroup;
    var x, col := m.coord, m.colour;
    Begin(s, ch, x, col);
    Starts(s, ch, Mid(x, Empty, 0, {}, 0), col);
    TakeFreeBooks(s, x, col);
    var s0 := TakeFree(s, x);
    ChainsFree(s, s0);
    Begin(s0, ch, x, col);
    var ch1, m1 := PlayUpToBooks(s0, ch, Mid(x, Empty, 0, {}, 0), col, 4);
    var (s1, grp) := PlayUpTo(s0, x, col, 4);
    ch' := DrawnDown(s1, ch1, m1, s.b, col, grp);
    DrawnBooks(s1, ch1, m1, s.b, col, grp);
    var s3 := Drawn(s1, x, col, grp);
    var r := PlayOutside(s, m).0;
    assert K(r) == K(s3);
    EmptyMeanwhile(s1, ch1, m1, s.b, col, grp);
    FinishBooks(s1, s3, r, x, col);
  }

  lemma ChainsFree(s: State, r: State)
    requires r == s.(free := r.free, fmap := r.fmap) && Sized(s)
    ensures K(r) == K(s) && forall c :: Accounted(r, c) == Accounted(s, c)
  {
  }

  lemma EmptyMeanwhile(s: State, ch: Chains, m: Mid, b0: seq<Stone>, col: Stone, grp: int)
    requires Running(s, ch, m, b0, col, grp)
    ensures 0 <= m.coord < |s.b| && s.b[m.coord] == Empty && Inner(s, m.coord) && IsColour(col)
  {
  }

  lemma DrawnBooks(s: State, ch: Chains, m: Mid, b0: seq<Stone>, col: Stone, grp: int)
    requires Running(s, ch, m, b0, col, grp) && m.k == 4 && BooksOK(s, m.coord, col, 4, m.coord)
    ensures Inner(s, m.coord) && OnlyChains(s.(b := s.b[m.coord := col]), Drawn(s, m.coord, col, grp))
    ensures s.full ==> AtariOK(Drawn(s, m.coord, col, grp))
  {
    hide W, Progress, AtariOK, NewGroup, XorAll, Lively;
    var s2 := s.(b := s.b[m.coord := col]);
    SameAtari(s, s2);
    if grp == 0 {
      PlaceFounded(K(s), ch, m, col);
      NewGroupBooks(s2, m.coord);
    }
  }

  lemma FinishBooks(s1: State, s3: State, r: State, x: int, col: Stone)
    requires BooksOK(s1, x, col, 4, x) && Inner(s1, x) && IsColour(col) && s1.b[x] == Empty
    requires OnlyChains(s1.(b := s1.b[x := col]), s3) && (s1.full ==> AtariOK(s3)) && Sized(s3) && Sized(r)
    requires r == s3.(hash := r.hash, moves := r.moves, recent := r.recent, recentAt := r.recentAt,
                      ko := r.ko, lastKo := r.lastKo, lastKoAge := r.lastKoAge)
    requires r.hash == if s3.full then Xor(s3.hash, KeyOf(s3.keys[x], col)) else s3.hash
    ensures BooksOK(r, 0, Empty, 0, PASS) && r.caps == s1.caps
    ensures forall c :: IsColour(c) ==> Accounted(r, c) == Accounted(s1, c) + One(c == col)
  {
    hide FreeOK, XorAll, CountsOK, AtariOK, StonesOf;
    SameAtari(s3, r);
    PlaceBooks(s1, r, x, col);
  }
}
