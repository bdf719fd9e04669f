/** The board against the rules, for single moves and for whole runs. */
module BoardTheorem {
  import opened Grid
  import opened LibList
  import opened Engine
  import opened Invariant
  import opened Captures
  import opened Refinement
  import opened Books
  import opened Rules
  import opened PlayTheorem
  import opened EyeMoves

  // ------------------------------------------------------------ facts about turns

  /** A stone next to a point its turn leaves empty stays on the board. */
  lemma SurvivesBeside(b: seq<Stone>, st: int, x: int, col: Stone, y: int)
    requires 0 <= x < |b| && 0 <= y < |b| && Adj(st, x, y) && IsColour(col)
    requires Clear(b[x := col], st, Other(col))[y] == Empty
    ensures Turn(b, st, x, col)[x] == col
  {
    hide Alive;
    var t := Clear(b[x := col], st, Other(col));
    assert t[x] == col;
    ReachRefl(t, st, x);
    BesideAlive(t, st, x, y);
  }

  lemma BesideAlive(t: seq<Stone>, st: int, x: int, y: int)
    requires 0 <= y < |t| && t[y] == Empty && Reach(t, st, x, x) && Adj(st, x, y)
    ensures Alive(t, st, x)
  {
    hide Reach;
    assert IsLiberty(t, st, x, y);
  }

  /** Next to an empty point a move is never a one-stone suicide. */
  lemma OpenSurvives(b: seq<Stone>, st: int, x: int, col: Stone)
    requires Interior(b, st, x) && IsColour(col) && Lone(b, st, x, col) && !Walled(b, st, x, Other(col))
    ensures Turn(b, st, x, col)[x] == col
  {
    hide Alive;
    var y := if b[x - st] == Empty then x - st else if b[x - 1] == Empty then x - 1
             else if b[x + 1] == Empty then x + 1 else x + st;
    assert b[y] == Empty && y != x;
    SurvivesBeside(b, st, x, col, y);
  }

  /** A chain in atari around an eye is captured, which saves the stone. */
  lemma AtariSurvives(s: State, ch: Chains, m: Move)
    requires Sized(s) && Quiet(K(s), ch) && IsColour(m.colour) && 0 <= m.coord < |s.b| && s.b[m.coord] == Empty
    requires Walled(s.b, s.st, m.coord, Other(m.colour)) && Inner(s, m.coord) && AtariNbs(s, m.coord, 4) != 0
    ensures Turn(s.b, s.st, m.coord, m.colour)[m.coord] == m.colour
  {
    hide Quiet, W, AtariNbs, Alive, Walled, InAtari;
    var x, col := m.coord, m.colour;
    var y := AtariWitness(s, x);
    AtariChain(s, ch, x, y);
    assert s.b[y] == Other(col) by { AtariHue(s, ch, x, y, Other(col)); }
    AtariDies(K(s), ch, x, col, y);
    SurvivesBeside(s.b, s.st, x, col, y);
  }

  lemma AtariWitness(s: State, x: int) returns (y: int)
    requires Inner(s, x) && AtariNbs(s, x, 4) != 0
    ensures Adj(s.st, x, y) && 0 <= y < |s.b| && InAtari(s, s.g[y]) != 0
  {
    AtariNbsCount(s, x);
    y := if InAtari(s, s.g[x - s.st]) != 0 then x - s.st else if InAtari(s, s.g[x - 1]) != 0 then x - 1
         else if InAtari(s, s.g[x + 1]) != 0 then x + 1 else x + s.st;
  }

  lemma AtariChain(s: State, ch: Chains, x: int, y: int)
    requires Sized(s) && Quiet(K(s), ch) && Inner(s, x) && Adj(s.st, x, y) && InAtari(s, s.g[y]) != 0
    ensures s.g[y] in ch && Touch(K(s), x, s.g[y]) && 0 <= s.g[y] < |s.lib| && |s.lib[s.g[y]]| == 1 && s.g[y] != 0
    ensures W(K(s), ch, QUIET)
  {
    hide Reach, Maximal, Conn, LibOK, ChainList, Stony;
    ZeroNoId(K(s), ch, QUIET);
  }

  lemma AtariHue(s: State, ch: Chains, x: int, y: int, eye: Stone)
    requires Sized(s) && W(K(s), ch, QUIET) && Walled(s.b, s.st, x, eye) && Adj(s.st, x, y) && 0 <= y < |s.b|
    requires s.g[y] != 0
    ensures s.b[y] == eye
  {
    hide Reach, Maximal, Conn, LibsOK, Linked, Cover;
    assert View(K(s), QUIET) == s.b;
  }

  // ------------------------------------------------------------ ko

  /** Two adjacent stones of one colour are in the same chain, so they live or die together. */
  lemma AdjacentAlike(v: seq<Stone>, st: int, x: int, y: int)
    requires 0 <= x < |v| && 0 <= y < |v| && Adj(st, x, y) && v[x] == v[y] && Alive(v, st, y)
    ensures Alive(v, st, x)
  {
    hide Reach;
    var z :| IsLiberty(v, st, y, z);
    var w :| Reach(v, st, y, w) && Adj(st, w, z);
    ReachRefl(v, st, x);
    ReachStep(v, st, x, x, y);
    ReachTrans(v, st, x, y, w);
    assert IsLiberty(v, st, x, z);
  }

  /** The neighbours of a stone taken alone all have the capturer's colour. */
  lemma TakenIsWalled(b: seq<Stone>, st: int, m: Move, x: int)
    requires Framed(b, st) && 0 <= m.coord < |b| && b[m.coord] == Empty && IsColour(m.colour) && TakesJust(b, st, m, x)
    ensures Walled(Turn(b, st, m.coord, m.colour), st, x, m.colour)
  {
    var col := m.colour;
    var b1 := b[m.coord := col];
    var t := Turn(b, st, m.coord, col);
    var u := Clear(b1, st, Other(col));
    assert x != m.coord && b1[x] == Other(col);
    assert u[x] == if Alive(b1, st, x) then Other(col) else Empty;
    assert t[x] == Empty;
    hide Clear, Alive, Turn;
    forall y | Adj(st, x, y) ensures Wall(t[y], col) {
      TakenNeighbour(b, st, m, x, y);
    }
  }

  lemma TakenNeighbour(b: seq<Stone>, st: int, m: Move, x: int, y: int)
    requires 0 <= m.coord < |b| && b[m.coord] == Empty && IsColour(m.colour) && TakesJust(b, st, m, x)
    requires 0 <= y < |b| && x != m.coord && y != x && Adj(st, x, y) && !Alive(b[m.coord := m.colour], st, x)
    ensures Wall(Turn(b, st, m.coord, m.colour)[y], m.colour)
  {
    hide Alive, IsLiberty;
    var col := m.colour;
    var b1 := b[m.coord := col];
    if b1[y] == Empty { ReachRefl(b1, st, x); BesideAlive(b1, st, x, y); }
    if b1[y] == Other(col) && Alive(b1, st, y) { AdjacentAlike(b1, st, x, y); }
  }

  /** How the count of stones taken inside an eye decides the ko. */
  lemma KoIsRight(b: seq<Stone>, st: int, m: Move, b2: seq<Stone>, taken: int, at: int)
    requires 0 <= m.coord < |b| && b[m.coord] == Empty && IsColour(m.colour)
    requires Taken(b, b2, m.colour, taken, at) && Turn(b, st, m.coord, m.colour) == b2[m.coord := m.colour]
    requires Walled(b, st, m.coord, Other(m.colour))
    ensures KoAfter(b, st, m) == if taken == 1 then Move(at, Other(m.colour)) else NO_MOVE
    ensures taken == 1 ==> TakesJust(b, st, m, at)
  {
    hide Turn;
    var t := Turn(b, st, m.coord, m.colour);
    if taken == 1 {
      assert at != m.coord;
      assert b[at := Empty][m.coord := m.colour] == b[m.coord := m.colour][at := Empty];
      assert TakesJust(b, st, m, at);
      forall x | TakesJust(b, st, m, x) ensures x == at { TakesOne(b, st, m, x, at); }
    } else {
      forall x ensures !TakesJust(b, st, m, x) { NotJustOne(b, st, m, b2, taken, at, x); }
    }
  }

  lemma NotJustOne(b: seq<Stone>, st: int, m: Move, b2: seq<Stone>, taken: int, at: int, x: int)
    requires 0 <= m.coord < |b| && b[m.coord] == Empty && IsColour(m.colour) && taken != 1
    requires Taken(b, b2, m.colour, taken, at) && Turn(b, st, m.coord, m.colour) == b2[m.coord := m.colour]
    ensures !TakesJust(b, st, m, x)
  {
    hide Turn;
    var t := Turn(b, st, m.coord, m.colour);
    if 0 <= x < |b| {
      var r := b[m.coord := m.colour][x := Empty];
      if taken >= 2 {
        var p, q :| 0 <= p < q < |b| && b[p] != Empty && b[q] != Empty && b2[p] == Empty && b2[q] == Empty;
        assert t[p] == Empty && t[q] == Empty;
        assert r[if x == p then q else p] != Empty;
      } else {
        assert t[x] == (if x == m.coord then m.colour else b[x]) && r[x] == Empty;
      }
    }
  }

  // ------------------------------------------------------------ one move

  /** A move outside an eye. */
  lemma OutsideRefines(s: State, ch: Chains, m: Move)
    requires Sized(s) && Quiet(K(s), ch) && BooksOK(s, 0, Empty, 0, PASS) && IsColour(m.colour)
    requires 0 <= m.coord < |s.b| && s.b[m.coord] == Empty && Inner(s, m.coord)
    requires !Walled(s.b, s.st, m.coord, Other(m.colour)) && !Eyelike(s, m.coord, Other(m.colour))
    ensures var (r, ok) := PlayStone(s, m);
      ok && r.b == Turn(s.b, s.st, m.coord, m.colour) && r.ko == NO_MOVE && Sound(r)
    ensures forall c :: IsColour(c) ==> Accounted(PlayStone(s, m).0, c) == Accounted(s, c) + One(c == m.colour)
  {
    hide Quiet, BooksOK, Down, StonesOf, Turn, Capture, PlayOutside, W, Walled, Eyelike;
    var ch1 := OutsideDown(s, ch, m);
    var (s1, own) := PlayOutside(s, m);
    OutsideKo(s, m);
    EndMove(K(s1), ch1, s.b, m.coord, m.colour, own);
    if s1.lib[own] == [] {
      SuicideBooks(s1, ch1, s.b, m.coord, m.colour, own);
      var r := Capture(s1, own);
      assert Quiet(K(r), ch1 - {own});
    } else {
      assert Quiet(K(s1), ch1);
    }
  }

  lemma OutsideKo(s: State, m: Move)
    requires Inner(s, m.coord)
    ensures PlayOutside(s, m).0.ko == NO_MOVE && PlayOutside(s, m).0.st == s.st && Sized(PlayOutside(s, m).0)
  {
  }

  lemma SuicideBooks(s: State, ch: Chains, b0: seq<Stone>, x: int, col: Stone, own: int)
    requires Sized(s) && Down(K(s), ch, b0, x, col, own) && IsColour(col) && s.lib[own] == []
    requires BooksOK(s, 0, Empty, 0, PASS)
    ensures own in ch && (forall j :: 0 <= j < |ch[own]| ==> s.st <= ch[own][j] < |s.g| - s.st)
    ensures K(Capture(s, own)) == Captured(K(s), own, ch[own])
    ensures BooksOK(Capture(s, own), 0, Empty, 0, PASS)
    ensures forall c :: IsColour(c) ==> Accounted(Capture(s, own), c) == Accounted(s, c)
    ensures Capture(s, own).ko == s.ko && Sized(Capture(s, own))
  {
    hide Reach, Maximal, LibsOK, Cover, Clear, BooksOK, StonesOf, Capture;
    var l := ch[own];
    assert ChainList(K(s), own, l);
    CaptureCore(s, own, l);
    assert s.g[0] == 0;
    TakeableChain(s, ch, QUIET, Other(col), own);
    assert Takeable(s, l, col, PASS);
    WholeCaptureBooks(s, own, l, col, 0, Empty, 0, PASS);
  }

  /** A move into an eye. */
  lemma EyeRefuses(s: State, ch: Chains, m: Move)
    requires Sized(s) && Quiet(K(s), ch) && IsColour(m.colour) && Inner(s, m.coord) && s.b[m.coord] == Empty
    requires Walled(s.b, s.st, m.coord, Other(m.colour))
    ensures PlayInEye(s, m).1 <==> Legal(s.b, s.st, s.ko, m)
    ensures !PlayInEye(s, m).1 ==> PlayInEye(s, m).0 == s
    ensures PlayInEye(s, m).1 ==> AtariNbs(s, m.coord, 4) != 0
  {
    hide Quiet, Turn, AtariNbs;
    if AtariNbs(s, m.coord, 4) == 0 { NoAtariSuicide(s, ch, m); } else { AtariSurvives(s, ch, m); }
  }

  lemma EyeRefines(s: State, ch: Chains, m: Move)
    requires Sized(s) && Quiet(K(s), ch) && BooksOK(s, 0, Empty, 0, PASS) && IsColour(m.colour)
    requires 0 <= m.coord < |s.b| && s.b[m.coord] == Empty && Inner(s, m.coord)
    requires Walled(s.b, s.st, m.coord, Other(m.colour)) && PlayInEye(s, m).1
    requires AtariNbs(s, m.coord, 4) != 0
    ensures var r := PlayInEye(s, m).0;
      r.b == Turn(s.b, s.st, m.coord, m.colour) && r.ko == KoAfter(s.b, s.st, m) && Sound(r)
    ensures forall c :: IsColour(c) ==> Accounted(PlayInEye(s, m).0, c) == Accounted(s, c) + One(c == m.colour)
  {
    hide Quiet, BooksOK, Down, StonesOf, Turn, EyeUpTo, PlayUpTo, TakeFree, Running, W, Walled, KoAfter, Taken,
         AtariNbs, NewGroup;
    var x, col := m.coord, m.colour;
    var s0 := TakeFree(s, x);
    var e := EyeUpTo(s0, x, col, 4);
    EyeAgrees(s, ch, m);
    assert Taken(s.b, e.s.b, col, e.taken, e.at);
    var ch1 := OutsideDown(s, ch, m);
    var o := PlayOutside(s, m).0;
    var r := PlayInEye(s, m).0;
    EyeEndsAlike(s, m);
    hide PlayInEye, PlayOutside;
    EndMove(K(o), ch1, s.b, x, col, x);
    AtariSurvives(s, ch, m);
    assert Quiet(K(r), ch1);
    SameBooks(o, r);
    KoIsRight(s.b, s.st, m, e.s.b, e.taken, e.at);
    assert Framed(s.b, s.st) by { QuietShape(K(s), ch); }
    if e.taken == 1 { TakenIsWalled(s.b, s.st, m, e.at); OtherTwice(col); }
  }

  /** With nothing joined, both kinds of move end the same way but for the ko. */
  lemma EyeEndsAlike(s: State, m: Move)
    requires Inner(s, m.coord) && IsColour(m.colour) && PlayInEye(s, m).1
    requires var s0 := TakeFree(s, m.coord);
      PlayUpTo(s0, m.coord, m.colour, 4) == (EyeUpTo(s0, m.coord, m.colour, 4).s, 0)
    ensures PlayOutside(s, m).1 == m.coord && Sized(PlayInEye(s, m).0)
    ensures var o := PlayOutside(s, m).0; var r := PlayInEye(s, m).0;
      r == o.(ko := r.ko, lastKo := r.lastKo, lastKoAge := r.lastKoAge)
    ensures var e := EyeUpTo(TakeFree(s, m.coord), m.coord, m.colour, 4); var r := PlayInEye(s, m).0;
      r.b == e.s.b[m.coord := m.colour] && r.ko == if e.taken == 1 then Move(e.at, Other(m.colour)) else NO_MOVE
  {
    hide EyeUpTo, PlayUpTo, TakeFree, EmptyNbs, AtariNbs, Commit, HashUpdate;
    var e := EyeUpTo(TakeFree(s, m.coord), m.coord, m.colour, 4);
    var ko := if e.taken == 1 then Move(e.at, Other(m.colour)) else NO_MOVE;
    var s1 := if e.taken == 1 then e.s.(lastKo := ko, lastKoAge := e.s.moves + 1) else e.s;
    var a := NewGroup(s1.(b := s1.b[m.coord := m.colour]), m.coord);
    var c := NewGroup(e.s.(b := e.s.b[m.coord := m.colour]), m.coord);
    assert a == c.(lastKo := s1.lastKo, lastKoAge := s1.lastKoAge);
    hide NewGroup;
    CommitAlike(c, a, m);
  }

  lemma CommitAlike(c: State, a: State, m: Move)
    requires Sized(c) && a == c.(lastKo := a.lastKo, lastKoAge := a.lastKoAge) && 0 <= m.coord < |c.keys|
    ensures var x := HashUpdate(Commit(c, m), m.coord, m.colour); var y := HashUpdate(Commit(a, m), m.coord, m.colour);
      y == x.(lastKo := a.lastKo, lastKoAge := a.lastKoAge) && x.b == c.b && x.ko == c.ko
  {
  }

  lemma OtherTwice(c: Stone)
    requires IsColour(c)
    ensures Other(Other(c)) == c && IsColour(Other(c))
  {
  }

  lemma QuietShape(c: Core, ch: Chains)
    requires Quiet(c, ch)
    ensures Framed(c.b, c.st) && |c.g| == |c.b|
  {
  }

  lemma SameBooks(s: State, r: State)
    requires r == s.(ko := r.ko, lastKo := r.lastKo, lastKoAge := r.lastKoAge)
    ensures BooksOK(r, 0, Empty, 0, PASS) == BooksOK(s, 0, Empty, 0, PASS)
    ensures forall c :: Accounted(r, c) == Accounted(s, c)
  {
    SameAtari(s, r);
    FreeIgnores(s, r, PASS);
  }

  /** The eye loop leaves the board as the general loop would. */
  lemma EyeAgrees(s: State, ch: Chains, m: Move)
    requires Sized(s) && Quiet(K(s), ch) && BooksOK(s, 0, Empty, 0, PASS) && IsColour(m.colour)
    requires 0 <= m.coord < |s.b| && s.b[m.coord] == Empty && Walled(s.b, s.st, m.coord, Other(m.colour))
    ensures Inner(s, m.coord)
    ensures var s0 := TakeFree(s, m.coord); var e := EyeUpTo(s0, m.coord, m.colour, 4);
      PlayUpTo(s0, m.coord, m.colour, 4) == (e.s, 0) && Taken(s.b, e.s.b, m.colour, e.taken, e.at)
  {
    hide Quiet, BooksOK, TakeFree, Running, Walled, EyeUpTo, PlayUpTo, Taken;
    TakeFreeBooks(s, m.coord, m.colour);
    var s0 := TakeFree(s, m.coord);
    ChainsFree(s, s0);
    var m0 := Mid(m.coord, Empty, 0, {}, 0);
    Begin(s0, ch, m.coord, m.colour);
    EyeUpToIsPlayUpTo(s0, ch, m0, m.colour, 4);
  }

  /** The board against the rules: a move is accepted exactly if it is legal, an accepted move
      leaves exactly the grid and the ko the rules prescribe, a refused one changes nothing,
      and everything the board maintains stays right. */
  lemma PlayRefinesStep(s: State, m: Move)
    requires Sound(s) && IsColour(m.colour) && (m.coord == PASS || 0 <= m.coord < |s.b|)
    ensures var (r, ok) := Play(s, m); var (g, legal) := Step(Game(s.b, s.ko), s.st, m);
      ok == legal && Game(r.b, r.ko) == g && Sound(r) && (!ok ==> r == s)
    ensures var (r, ok) := Play(s, m); ok && m.coord != PASS ==>
      forall c :: IsColour(c) ==> Accounted(r, c) == Accounted(s, c) + One(c == m.colour)
  {
    hide Quiet, BooksOK, StonesOf, Turn, PlayOutside, PlayInEye, Walled, KoAfter, Eyelike, PlayStone;
    var ch :| Quiet(K(s), ch);
    QuietShape(K(s), ch);
    if m.coord == PASS {
      PassSound(s, ch, m);
    } else if s.b[m.coord] == Empty {
      assert CountsOK(s, 0, Empty, 0) by { BooksCounts(s); }
      OtherTwice(m.colour);
      EyelikeIff(s, m.coord, Other(m.colour));
      PlaySplit(s, m);
      if Walled(s.b, s.st, m.coord, Other(m.colour)) {
        EyeRefuses(s, ch, m);
        if PlayInEye(s, m).1 { EyeRefines(s, ch, m); }
      } else {
        OutsideRefines(s, ch, m);
        OutsideLegal(s, m);
      }
    }
  }

  lemma BooksCounts(s: State)
    requires BooksOK(s, 0, Empty, 0, PASS)
    ensures Sized(s) && CountsOK(s, 0, Empty, 0)
  {
  }

  lemma PlaySplit(s: State, m: Move)
    requires Inner(s, m.coord) && IsColour(m.colour) && s.b[m.coord] == Empty
    ensures Play(s, m) == if Eyelike(s, m.coord, Other(m.colour)) then PlayInEye(s, m) else PlayStone(s, m)
  {
  }

  lemma OutsideLegal(s: State, m: Move)
    requires Inner(s, m.coord) && IsColour(m.colour) && s.b[m.coord] == Empty && KoOK(s.b, s.st, s.ko)
    requires !Walled(s.b, s.st, m.coord, Other(m.colour))
    ensures Legal(s.b, s.st, s.ko, m) && KoAfter(s.b, s.st, m) == NO_MOVE
  {
    if Lone(s.b, s.st, m.coord, m.colour) { OpenSurvives(s.b, s.st, m.coord, m.colour); }
  }

  lemma PassSound(s: State, ch: Chains, m: Move)
    requires Sound(s) && Quiet(K(s), ch) && m.coord == PASS && IsColour(m.colour)
    ensures var r := Play(s, m).0; Sound(r) && r.b == s.b && r.ko == NO_MOVE
  {
    hide Quiet;
    var r := Play(s, m).0;
    assert K(r) == K(s);
    SameAtari(s, r);
    FreeIgnores(s, r, PASS);
  }
}
