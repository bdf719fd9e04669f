/** The board's quick tests of a move agree with what playing it does. */
module Legality {
  import opened Grid
  import opened LibList
  import opened Engine
  import opened Invariant
  import opened Steps
  import opened Moves
  import opened Books
  import opened Rules
  import opened PlayTheorem
  import opened EyeMoves
  import opened BoardTheorem
  import opened Reachable
  import opened Undo
  import opened UndoTheorem

  predicate ValidPlay(s: State, m: Move)
    requires Sized(s) && 0 <= m.coord < |s.b| && (s.b[m.coord] == Empty ==> Inner(s, m.coord))
  {
    if s.b[m.coord] != Empty then false
    else if !Eyelike(s, m.coord, Other(m.colour)) then true
    else m != s.ko && AtariNbs(s, m.coord, 4) != 0
  }

  function ImmediateLibs(s: State, x: int): int
    requires 0 <= x < |s.n|
  {
    4 - s.n[x].black - s.n[x].white - s.n[x].off
  }

  /** Some neighbour of x from the k-th on has the colour c and a chain of one liberty. */
  predicate AtariFrom(s: State, x: int, c: Stone, k: int)
    requires 0 <= k <= 4 && Inner(s, x)
    decreases 4 - k
  {
    k < 4 && ((s.b[Nb(s.st, x, k)] == c && InAtari(s, s.g[Nb(s.st, x, k)]) == 1) || AtariFrom(s, x, c, k + 1))
  }

  predicate Roomy(s: State, h: int) { 0 <= h < |s.lib| && |s.lib[h]| > 1 }

  /** Some neighbour of x from the k-th on has the colour c and a chain of several liberties. */
  predicate RoomyFrom(s: State, x: int, c: Stone, k: int)
    requires 0 <= k <= 4 && Inner(s, x)
    decreases 4 - k
  {
    k < 4 && ((s.b[Nb(s.st, x, k)] == c && Roomy(s, s.g[Nb(s.st, x, k)])) || RoomyFrom(s, x, c, k + 1))
  }

  predicate ValidPlayNoSuicide(s: State, m: Move)
    requires Sized(s) && 0 <= m.coord < |s.b| && (s.b[m.coord] == Empty ==> Inner(s, m.coord))
  {
    if s.b[m.coord] != Empty then false
    else if ImmediateLibs(s, m.coord) >= 1 then true
    else if Eyelike(s, m.coord, Other(m.colour)) && m == s.ko then false
    else AtariFrom(s, m.coord, Other(m.colour), 0) || RoomyFrom(s, m.coord, m.colour, 0)
  }

  /** The self-atari test: a short cut, and otherwise a trial play taken back. */
  predicate SelfAtari(s: State, m: Move)
    requires Sized(s) && IsColour(m.colour) && 0 <= m.coord < |s.b|
  {
    if ImmediateLibs(s, m.coord) > 1 then false
    else
      var (r, ok, u) := QuickPlay(s, m);
      !(ok && m.coord < |r.g| && r.g[m.coord] != 0 && Roomy(r, r.g[m.coord]))
  }

  // ------------------------------------------------------------ the plain test

  lemma EmptyIsInner(s: State, x: int)
    requires Sound(s) && 0 <= x < |s.b| && s.b[x] == Empty
    ensures Inner(s, x) && Framed(s.b, s.st)
  {
    hide BooksOK, KoOK, Quiet, Framed;
    var ch :| Quiet(K(s), ch);
    QuietShape(K(s), ch);
    FramedAt(s.b, s.st, x);
  }

  /** A move passes the test exactly if the board accepts it, exactly if it is legal. */
  lemma ValidPlayIff(s: State, m: Move)
    requires Sound(s) && IsColour(m.colour) && 0 <= m.coord < |s.b|
    ensures Sized(s) && (s.b[m.coord] == Empty ==> Inner(s, m.coord))
    ensures ValidPlay(s, m) <==> Play(s, m).1
    ensures ValidPlay(s, m) <==> Legal(s.b, s.st, s.ko, m)
  {
    hide BooksOK, Quiet, KoOK, Legal, PlayOutside, EyeUpTo, AtariNbs, TakeFree, Eyelike, Capture;
    if s.b[m.coord] == Empty { EmptyIsInner(s, m.coord); }
    PlayRefinesStep(s, m);
  }

  // ------------------------------------------------------------ the stone stays

  ghost predicate Stays(s: State, m: Move)
    requires 0 <= m.coord < |s.b|
  {
    Legal(s.b, s.st, s.ko, m) && Turn(s.b, s.st, m.coord, m.colour)[m.coord] == m.colour
  }

  lemma FreeNeighbours(s: State, x: int)
    requires Sound(s) && 0 <= x < |s.b| && s.b[x] == Empty
    ensures Inner(s, x)
    ensures ImmediateLibs(s, x) == Around(s.b, s.st, x, Empty)
  {
    hide Quiet, KoOK, FreeOK, AtariOK;
    EmptyIsInner(s, x);
    assert s.n[x] == Expected(s.b, s.st, x, 0, Empty, 0);
  }

  lemma EmptyNeighbour(b: seq<Stone>, st: int, x: int) returns (y: int)
    requires Interior(b, st, x) && Around(b, st, x, Empty) >= 1
    ensures Adj(st, x, y) && 0 <= y < |b| && b[y] == Empty && y != x
  {
    y := if b[x - st] == Empty then x - st else if b[x - 1] == Empty then x - 1 else if b[x + 1] == Empty then x + 1
      else x + st;
  }

  /** Beside an empty point a move is legal unless it is the ko, and its stone stays. */
  lemma OpenStays(s: State, m: Move)
    requires Sound(s) && IsColour(m.colour) && 0 <= m.coord < |s.b| && s.b[m.coord] == Empty
    requires Interior(s.b, s.st, m.coord) && Around(s.b, s.st, m.coord, Empty) >= 1
    ensures Stays(s, m)
  {
    hide BooksOK, Quiet, Alive, Turn;
    var y := EmptyNeighbour(s.b, s.st, m.coord);
    assert !Walled(s.b, s.st, m.coord, Other(m.colour));
    assert Clear(s.b[m.coord := m.colour], s.st, Other(m.colour))[y] == Empty;
    SurvivesBeside(s.b, s.st, m.coord, m.colour, y);
  }

  lemma {:induction false} AtariFound(s: State, x: int, c: Stone, k: int) returns (y: int)
    requires 0 <= k <= 4 && Inner(s, x) && AtariFrom(s, x, c, k)
    ensures Adj(s.st, x, y) && 0 <= y < |s.b| && s.b[y] == c && InAtari(s, s.g[y]) == 1
    decreases 4 - k
  {
    y := Nb(s.st, x, k);
    if !(s.b[y] == c && InAtari(s, s.g[y]) == 1) { y := AtariFound(s, x, c, k + 1); }
  }

  lemma {:induction false} RoomyFound(s: State, x: int, c: Stone, k: int) returns (y: int)
    requires 0 <= k <= 4 && Inner(s, x) && RoomyFrom(s, x, c, k)
    ensures Adj(s.st, x, y) && 0 <= y < |s.b| && s.b[y] == c && Roomy(s, s.g[y])
    decreases 4 - k
  {
    y := Nb(s.st, x, k);
    if !(s.b[y] == c && Roomy(s, s.g[y])) { y := RoomyFound(s, x, c, k + 1); }
  }

  lemma NoneFound(s: State, x: int, c: Stone, d: Stone, y: int)
    requires Inner(s, x) && Adj(s.st, x, y) && 0 <= y < |s.b| && !AtariFrom(s, x, c, 0) && !RoomyFrom(s, x, d, 0)
    ensures s.b[y] == c ==> InAtari(s, s.g[y]) != 1
    ensures s.b[y] == d ==> !Roomy(s, s.g[y])
  {
    var k := NbAdj(s.st, x, y);
    assert !AtariFrom(s, x, c, 1) && !AtariFrom(s, x, c, 2) && !AtariFrom(s, x, c, 3);
    assert !RoomyFrom(s, x, d, 1) && !RoomyFrom(s, x, d, 2) && !RoomyFrom(s, x, d, 3);
  }

  /** Capturing a neighbour keeps the stone on the board. */
  lemma CapturingStays(s: State, ch: Chains, m: Move, y: int)
    requires Sized(s) && Quiet(K(s), ch) && IsColour(m.colour) && Inner(s, m.coord) && s.b[m.coord] == Empty
    requires Adj(s.st, m.coord, y) && 0 <= y < |s.b| && s.b[y] == Other(m.colour) && InAtari(s, s.g[y]) == 1
    ensures Turn(s.b, s.st, m.coord, m.colour)[m.coord] == m.colour
  {
    hide Quiet, W, Alive, InAtari, Turn;
    AtariChain(s, ch, m.coord, y);
    AtariDies(K(s), ch, m.coord, m.colour, y);
    SurvivesBeside(s.b, s.st, m.coord, m.colour, y);
  }

  /** Joining a chain with a second liberty keeps it on the board. */
  lemma RoomyStays(s: State, ch: Chains, m: Move, y: int)
    requires Sized(s) && Quiet(K(s), ch) && IsColour(m.colour) && Inner(s, m.coord) && s.b[m.coord] == Empty
    requires Adj(s.st, m.coord, y) && 0 <= y < |s.b| && s.b[y] == m.colour && Roomy(s, s.g[y])
    ensures Turn(s.b, s.st, m.coord, m.colour)[m.coord] == m.colour
  {
    hide Reach, Quiet, Turn, Alive;
    var c, x, col := K(s), m.coord, m.colour;
    var u := Clear(s.b[x := col], s.st, Other(col));
    OtherTwice(col);
    AlwaysInChains(c, ch, y);
    OthersLive(c, ch, x, Other(col), y);
    assert Alive(s.b[x := Other(col)], s.st, y);
    AliveWith(s.b, s.st, x, col, y, u);
    AdjacentAlike(u, s.st, x, y);
    assert u[x] == col;
    TurnKeeps(s.b, s.st, x, col);
  }

  lemma TurnKeeps(b: seq<Stone>, st: int, x: int, col: Stone)
    requires 0 <= x < |b| && IsColour(col) && Alive(Clear(b[x := col], st, Other(col)), st, x)
    ensures Turn(b, st, x, col)[x] == col
  {
    hide Alive;
  }

  lemma AlwaysInChains(c: Core, ch: Chains, y: int)
    requires Quiet(c, ch) && 0 <= y < |c.b| && IsColour(c.b[y])
    ensures W(c, ch, QUIET) && c.g[y] in ch && 0 <= c.g[y] < |c.lib|
  {
    hide Reach, LibsOK, Maximal, Conn, Lively;
    assert View(c, QUIET) == c.b;
    IdPositive(c, ch, c.g[y]);
  }

  /** A chain alive whatever stands on x is alive once the turn has cleared the other colour. */
  lemma AliveWith(b: seq<Stone>, st: int, x: int, col: Stone, y: int, u: seq<Stone>)
    requires 0 <= x < |b| && b[x] == Empty && IsColour(col) && 0 <= y < |b| && b[y] == col && x != y
    requires Alive(b[x := Other(col)], st, y) && u == Clear(b[x := col], st, Other(col))
    ensures Alive(u, st, y)
  {
    hide Reach;
    var v := b[x := Other(col)];
    var z :| IsLiberty(v, st, y, z);
    var w :| Reach(v, st, y, w) && Adj(st, w, z);
    assert forall p :: 0 <= p < |b| && v[p] == col ==> u[p] == col;
    ReachMono(v, u, st, y, w);
    assert u[z] == Empty;
    assert IsLiberty(u, st, y, z);
  }

  /** The points the new stone would be connected to: itself and the chains beside it. */
  ghost function Joining(c: Core, x: int, col: Stone): set<int> {
    set p | 0 <= p < |c.g|
         && (p == x || exists y :: 0 <= y < |c.b| == |c.g| && Adj(c.st, x, y) && c.b[y] == col && c.g[y] == c.g[p])
  }

  lemma JoiningClosed(c: Core, ch: Chains, x: int, col: Stone)
    requires W(c, ch, QUIET) && 0 <= x < |c.b| && c.b[x] == Empty && IsColour(col)
    ensures Closed(c.b[x := col], c.st, Joining(c, x, col))
  {
    hide Reach, LibsOK, Conn, Linked, Cover;
    assert View(c, QUIET) == c.b;
    var v, t := c.b[x := col], Joining(c, x, col);
    forall p, q | p in t && Adj(c.st, p, q) && 0 <= q < |v| && v[q] == v[p] ensures q in t {
      if p == x {
        assert q != x ==> c.b[q] == col && Adj(c.st, x, q);
      } else if q != x {
        var y :| 0 <= y < |c.b| && Adj(c.st, x, y) && c.b[y] == col && c.g[y] == c.g[p];
        JoiningHue(c, ch, y, p);
        assert c.b[p] == c.b[q];
      }
    }
  }

  lemma JoiningHue(c: Core, ch: Chains, y: int, p: int)
    requires W(c, ch, QUIET) && 0 <= y < |c.b| && 0 <= p < |c.b| && IsColour(c.b[y]) && c.g[p] == c.g[y]
    ensures c.b[p] == c.b[y]
  {
    SameChain(c, ch, y, p);
    hide W, Reach;
    ReachRange(c.b, c.st, y, p);
  }

  /** No empty point beside it, nothing to capture and no neighbour with a second liberty: the
      stone does not stay. */
  lemma Stifled(s: State, ch: Chains, m: Move)
    requires Sized(s) && Quiet(K(s), ch) && IsColour(m.colour) && Inner(s, m.coord) && s.b[m.coord] == Empty
    requires Around(s.b, s.st, m.coord, Empty) == 0
    requires !AtariFrom(s, m.coord, Other(m.colour), 0) && !RoomyFrom(s, m.coord, m.colour, 0)
    ensures Turn(s.b, s.st, m.coord, m.colour)[m.coord] == Empty
  {
    hide Alive, Turn, Quiet, AtariFrom, RoomyFrom, Around;
    var x, col := m.coord, m.colour;
    var v := s.b[x := col];
    var u := Clear(v, s.st, Other(col));
    forall p | 0 <= p < |s.b| && s.b[p] == Other(col) ensures Alive(v, s.st, p) { FarLives(s, ch, m, p); }
    assert u == v;
    StifledDead(s, ch, m);
    TurnDrops(s.b, s.st, x, col);
  }

  lemma TurnDrops(b: seq<Stone>, st: int, x: int, col: Stone)
    requires 0 <= x < |b| && IsColour(col) && !Alive(Clear(b[x := col], st, Other(col)), st, x)
    ensures Turn(b, st, x, col)[x] == Empty
  {
    hide Alive;
  }

  lemma FarLives(s: State, ch: Chains, m: Move, p: int)
    requires Sized(s) && Quiet(K(s), ch) && IsColour(m.colour) && Inner(s, m.coord) && s.b[m.coord] == Empty
    requires !AtariFrom(s, m.coord, Other(m.colour), 0) && !RoomyFrom(s, m.coord, m.colour, 0)
    requires 0 <= p < |s.b| && s.b[p] == Other(m.colour)
    ensures Alive(s.b[m.coord := m.colour], s.st, p)
  {
    hide Alive, Quiet, W, AtariFrom, RoomyFrom;
    var c, x, h := K(s), m.coord, s.g[p];
    AlwaysInChains(c, ch, p);
    if Touch(c, x, h) {
      var y := TouchNb(c, x, h);
      JoiningHue(c, ch, p, y);
      NoneFound(s, x, Other(m.colour), m.colour, y);
    }
    OthersLive(c, ch, x, m.colour, p);
  }

  lemma TouchNb(c: Core, x: int, h: int) returns (y: int)
    requires Touch(c, x, h)
    ensures Adj(c.st, x, y) && 0 <= y < |c.g| && c.g[y] == h
  {
    y := if c.g[x - c.st] == h then x - c.st else if c.g[x - 1] == h then x - 1
         else if c.g[x + 1] == h then x + 1 else x + c.st;
  }

  lemma StifledDead(s: State, ch: Chains, m: Move)
    requires Sized(s) && Quiet(K(s), ch) && IsColour(m.colour) && Inner(s, m.coord) && s.b[m.coord] == Empty
    requires Around(s.b, s.st, m.coord, Empty) == 0
    requires !AtariFrom(s, m.coord, Other(m.colour), 0) && !RoomyFrom(s, m.coord, m.colour, 0)
    ensures !Alive(s.b[m.coord := m.colour], s.st, m.coord)
  {
    hide Reach, Quiet, W, AtariFrom, RoomyFrom, Closed;
    var c, x, col := K(s), m.coord, m.colour;
    var v := s.b[x := col];
    assert W(c, ch, QUIET) by { QuietW(c, ch); }
    JoiningClosed(c, ch, x, col);
    forall z ensures !IsLiberty(v, s.st, x, z) {
      if w :| 0 <= z < |v| && v[z] == Empty && Reach(v, s.st, x, w) && Adj(s.st, w, z) {
        ReachRange(v, s.st, x, w);
        ReachClosed(v, s.st, Joining(c, x, col), x, w);
        StifledPoint(s, ch, m, w, z);
      }
    }
  }

  lemma QuietW(c: Core, ch: Chains)
    requires Quiet(c, ch)
    ensures W(c, ch, QUIET)
  {
    hide Lively;
  }

  lemma StifledPoint(s: State, ch: Chains, m: Move, w: int, z: int)
    requires Sized(s) && Quiet(K(s), ch) && IsColour(m.colour) && Inner(s, m.coord) && s.b[m.coord] == Empty
    requires Around(s.b, s.st, m.coord, Empty) == 0
    requires !AtariFrom(s, m.coord, Other(m.colour), 0) && !RoomyFrom(s, m.coord, m.colour, 0)
    requires w in Joining(K(s), m.coord, m.colour) && Adj(s.st, w, z) && 0 <= z < |s.b| && z != m.coord
    ensures s.b[z] != Empty
  {
    hide Reach, Quiet, W, AtariFrom, RoomyFrom;
    var c, x, col := K(s), m.coord, m.colour;
    if s.b[z] == Empty && w != x {
      var y :| 0 <= y < |s.b| && Adj(s.st, x, y) && s.b[y] == col && s.g[y] == s.g[w];
      NoneFound(s, x, Other(col), col, y);
      AlwaysInChains(c, ch, y);
      var h := s.g[y];
      BesideTouches(c, ch, w, z);
      BesideTouches(c, ch, y, x);
      assert |s.lib[h]| == 1 by { LibOf(c, ch, h); }
      OnlyLib(c, ch, x, h);
    }
  }

  lemma BesideTouches(c: Core, ch: Chains, w: int, z: int)
    requires W(c, ch, QUIET) && 0 <= w < |c.g| && 0 <= z < |c.b| && c.b[z] == Empty && Adj(c.st, w, z)
    ensures Touch(c, z, c.g[w]) && IsLib(c, QUIET, c.g[w], z)
  {
    hide Reach, LibsOK, Maximal, Conn, Linked, Cover, Stony;
  }

  /** The stricter test holds exactly if the board accepts the move and its stone stays. */
  lemma ValidPlayNoSuicideIff(s: State, m: Move)
    requires Sound(s) && IsColour(m.colour) && 0 <= m.coord < |s.b|
    ensures Sized(s) && (s.b[m.coord] == Empty ==> Inner(s, m.coord))
    ensures ValidPlayNoSuicide(s, m) <==> Stays(s, m)
    ensures Play(s, m).1 && Play(s, m).0.b[m.coord] == m.colour <==> Stays(s, m)
  {
    hide Sound, Play, Turn, AtariFrom, RoomyFrom, Around, Legal, Eyelike;
    ValidPlayIff(s, m);
    PlayRefinesStep(s, m);
    if s.b[m.coord] == Empty {
      NoSuicideCases(s, m);
    } else {
      assert !Legal(s.b, s.st, s.ko, m) by { OccupiedIllegal(s.b, s.st, s.ko, m); }
    }
  }

  lemma OccupiedIllegal(b: seq<Stone>, st: int, ko: Move, m: Move)
    requires 0 <= m.coord < |b| && b[m.coord] != Empty
    ensures !Legal(b, st, ko, m)
  {
  }

  lemma NoSuicideCases(s: State, m: Move)
    requires Sound(s) && IsColour(m.colour) && 0 <= m.coord < |s.b| && s.b[m.coord] == Empty && Inner(s, m.coord)
    ensures ValidPlayNoSuicide(s, m) <==> Stays(s, m)
  {
    hide BooksOK, Quiet, Turn, AtariFrom, RoomyFrom, Around, Walled, Eyelike, OneStoneSuicide, KoOK;
    FreeNeighbours(s, m.coord);
    var ch :| Quiet(K(s), ch);
    if ImmediateLibs(s, m.coord) >= 1 {
      OpenStays(s, m);
    } else {
      AroundNotNegative(s.b, s.st, m.coord);
      EyeAndKo(s, m);
      if AtariFrom(s, m.coord, Other(m.colour), 0) {
        var y := AtariFound(s, m.coord, Other(m.colour), 0);
        CapturingStays(s, ch, m, y);
        StayingLegal(s.b, s.st, m);
      } else if RoomyFrom(s, m.coord, m.colour, 0) {
        var y := RoomyFound(s, m.coord, m.colour, 0);
        RoomyStays(s, ch, m, y);
        StayingLegal(s.b, s.st, m);
      } else {
        Stifled(s, ch, m);
      }
    }
  }

  lemma AroundNotNegative(b: seq<Stone>, st: int, x: int)
    requires Interior(b, st, x)
    ensures Around(b, st, x, Empty) >= 0
  {
  }

  lemma StayingLegal(b: seq<Stone>, st: int, m: Move)
    requires 0 <= m.coord < |b| && IsColour(m.colour) && Turn(b, st, m.coord, m.colour)[m.coord] == m.colour
    ensures !OneStoneSuicide(b, st, m)
  {
    hide Turn;
  }

  /** The ko is only ever inside an eye. */
  lemma EyeAndKo(s: State, m: Move)
    requires Sound(s) && IsColour(m.colour) && 0 <= m.coord < |s.b| && s.b[m.coord] == Empty && Inner(s, m.coord)
    ensures m == s.ko ==> Eyelike(s, m.coord, Other(m.colour))
  {
    hide Quiet, Walled, Eyelike;
    EmptyIsInner(s, m.coord);
    BooksCounts(s);
    OtherTwice(m.colour);
    EyelikeIff(s, m.coord, Other(m.colour));
  }

  // ------------------------------------------------------------ self-atari

  ghost predicate TwoLiberties(b: seq<Stone>, st: int, x: int) {
    exists y, z :: y != z && IsLiberty(b, st, x, y) && IsLiberty(b, st, x, z)
  }

  lemma TwoEmpties(b: seq<Stone>, st: int, x: int) returns (y: int, z: int)
    requires Interior(b, st, x) && Around(b, st, x, Empty) >= 2
    ensures Adj(st, x, y) && Adj(st, x, z) && y != z && 0 <= y < |b| && 0 <= z < |b| && b[y] == Empty == b[z]
    ensures y != x && z != x
  {
    y := if b[x - st] == Empty then x - st else if b[x - 1] == Empty then x - 1 else x + 1;
    z := if b[x + st] == Empty then x + st else if b[x + 1] == Empty then x + 1 else x - 1;
  }

  /** The short cut: two empty points beside the stone are two liberties after the move. */
  lemma ShortCut(s: State, m: Move)
    requires Sound(s) && IsColour(m.colour) && 0 <= m.coord < |s.b| && s.b[m.coord] == Empty
    requires Interior(s.b, s.st, m.coord) && Around(s.b, s.st, m.coord, Empty) >= 2
    ensures Stays(s, m) && TwoLiberties(Turn(s.b, s.st, m.coord, m.colour), s.st, m.coord)
  {
    hide Sound, Reach, Around, Legal;
    OpenStays(s, m);
    var y, z := TwoEmpties(s.b, s.st, m.coord);
    var t := Turn(s.b, s.st, m.coord, m.colour);
    StaysEmpty(s.b, s.st, m.coord, m.colour, y);
    StaysEmpty(s.b, s.st, m.coord, m.colour, z);
    hide Turn;
    ReachRefl(t, s.st, m.coord);
    assert IsLiberty(t, s.st, m.coord, y) && IsLiberty(t, s.st, m.coord, z);
  }

  lemma StaysEmpty(b: seq<Stone>, st: int, x: int, col: Stone, y: int)
    requires 0 <= x < |b| && 0 <= y < |b| && b[y] == Empty && y != x && IsColour(col)
    ensures Turn(b, st, x, col)[y] == Empty
  {
    hide Alive;
  }

  /** A list of several entries means several liberties. */
  lemma RoomyIff(s: State, x: int)
    requires Sound(s) && 0 <= x < |s.b| && IsColour(s.b[x])
    ensures |s.g| == |s.b| && s.g[x] != 0 && (Roomy(s, s.g[x]) <==> TwoLiberties(s.b, s.st, x))
  {
    hide Sound, IsLiberty, Liberties;
    ListedLiberties(s, x);
    SeveralMeansSeveral(s.lib[s.g[x]], Liberties(s, x));
    forall y ensures y in Liberties(s, x) <==> IsLiberty(s.b, s.st, x, y) { InLiberties(s, x, y); }
  }

  lemma InLiberties(s: State, x: int, y: int)
    ensures y in Liberties(s, x) <==> IsLiberty(s.b, s.st, x, y)
  {
    hide Reach;
  }

  lemma SeveralMeansSeveral(l: seq<int>, L: set<int>)
    requires LibOK(l, L)
    ensures |l| > 1 <==> exists y, z :: y != z && y in L && z in L
  {
    if |l| > 1 {
      assert l[0] in l && l[1] in l && l[0] != l[1];
    } else {
      forall y, z | y in L && z in L ensures y == z {}
    }
  }

  lemma NotStanding(s: State, x: int)
    requires Sound(s) && 0 <= x < |s.b| && s.b[x] == Empty
    ensures |s.g| == |s.b| && s.g[x] == 0
  {
    hide BooksOK, KoOK, Reach, LibsOK, Maximal, Conn, Linked, Cover, Lively;
    var ch :| Quiet(K(s), ch);
    assert View(K(s), QUIET) == s.b;
  }

  /** On an empty point the test says no self-atari exactly if the board accepts the move and
      the stone then belongs to a chain with at least two liberties. */
  lemma SelfAtariIff(s: State, m: Move)
    requires Sound(Quick(s)) && IsColour(m.colour) && 0 <= m.coord < |s.b| && s.b[m.coord] == Empty
    ensures Sized(s)
    ensures !SelfAtari(s, m) <==> Stays(s, m) && TwoLiberties(Turn(s.b, s.st, m.coord, m.colour), s.st, m.coord)
  {
    var q := Quick(s);
    hide Sound, QuickPlay, Turn, Legal, TwoLiberties, Around, Step, Roomy;
    QuickSized(s);
    FreeNeighbours(q, m.coord);
    assert Interior(q.b, q.st, m.coord);
    if ImmediateLibs(s, m.coord) > 1 {
      ShortCut(q, m);
    } else {
      var (r, ok, u) := QuickPlay(s, m);
      QuickPlayRefinesStep(s, m);
      StepOf(s, m);
      QuickShape(s, m);
      if ok {
        TurnColour(s.b, s.st, m.coord, m.colour);
        if r.b[m.coord] == m.colour {
          RoomyIff(Quick(r), m.coord);
          RoomyQuick(r, r.g[m.coord]);
        } else {
          NotStanding(Quick(r), m.coord);
        }
      }
    }
  }

  lemma RoomyQuick(r: State, h: int)
    ensures Roomy(Quick(r), h) == Roomy(r, h)
  {
  }

  lemma StepOf(s: State, m: Move)
    requires Sized(s) && 0 <= m.coord < |s.b|
    ensures Step(Game(s.b, s.ko), s.st, m).1 == Legal(s.b, s.st, s.ko, m)
    ensures Legal(s.b, s.st, s.ko, m) ==> Step(Game(s.b, s.ko), s.st, m).0.b == Turn(s.b, s.st, m.coord, m.colour)
  {
    hide Turn, KoAfter, OneStoneSuicide;
  }

  lemma TurnColour(b: seq<Stone>, st: int, x: int, col: Stone)
    requires 0 <= x < |b| && IsColour(col)
    ensures var t := Turn(b, st, x, col)[x]; t == col || t == Empty
  {
    hide Alive;
  }
}
