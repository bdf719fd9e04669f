/** On a square board the ladder reader is exact: a finished answer is a ladder if and only if the chaser
    wins the game that is searched. */
module LadderExact {
  import opened Grid
  import opened LibList
  import opened Engine
  import opened Books
  import opened Rules
  import opened PlayTheorem
  import opened Reachable
  import opened Legality
  import opened KoTheorem
  import opened Undo
  import opened UndoTheorem
  import opened LadderRules
  import opened CounterCaptures
  import opened SearchedLadder
  import opened Ladder
  import EmptyBoard
  import FreeingCaptures
  import Nakade
  import Scoring

  // ------------------------------------------------------------ the board stays square

  lemma SquareTurn(v: seq<Stone>, st: int, c: int, k: Stone)
    requires Scoring.Square(v, st) && 0 <= c < |v| && v[c] == Empty && IsColour(k)
    ensures Scoring.Square(Turn(v, st, c, k), st)
  {
    hide Alive;
    OtherIs(k);
  }

  lemma SquareKept(s: State, m: Move)
    requires Sound(Quick(s)) && IsColour(m.colour) && 0 <= m.coord < |s.b| && Scoring.Square(s.b, s.st)
    ensures Sized(s) && (QuickPlay(s, m).1 ==> Scoring.Square(QuickPlay(s, m).0.b, s.st))
  {
    hide Sound, QuickPlay, Turn, Scoring.Square, Step;
    Played(s, m);
    if QuickPlay(s, m).1 { SquareTurn(s.b, s.st, m.coord, m.colour); }
  }

  // ------------------------------------------------------------ counter-captures

  /** What the reader finds among the counter-captures is accepted and frees the chain. */
  lemma NeverCaught(s: State, h: int, col: Stone, c: int)
    requires Sound(Quick(s)) && IsPrey(s, h, col) && Scoring.Square(s.b, s.st) && c in Counters(s, h)
    ensures Sized(s) && 0 <= c < |s.b| && 0 <= h < |s.b| && QuickPlay(s, Move(c, col)).1
    ensures var r := QuickPlay(s, Move(c, col)).0; |r.b| == |s.b| && !Caught(r.b, r.st, h, col)
  {
    hide Sound, QuickPlay, Step, Turn, Caught, Scoring.Square, Standing, Framed, CounterMove, Legal, Counters;
    PreyFacts(s, h, col);
    CounterCapturesExact(s, h, c);
    TryAccepted(s, c, col);
    StepLegal(s.b, s.st, s.ko, Move(c, col));
    Played(s, Move(c, col));
    SoundStanding(Quick(s));
    FreeingCaptures.CounterFrees(s.b, s.st, h, col, c);
  }

  // ------------------------------------------------------------ what the tests of the reader mean

  function LastPoint(s: State): int
    requires Sized(s)
  {
    s.recent[s.recentAt].coord
  }

  lemma StoneLast(q: State, m: Move)
    requires Inner(q, m.coord) && !q.full
    ensures var (r, ok) := PlayStone(q, m); ok ==> Sized(r) && r.recent[r.recentAt] == m
  {
    hide PlayUpTo, EyeUpTo, Capture, NewGroup, Eyelike, AtariNbs;
  }

  lemma LastIs(s: State, m: Move)
    requires Sized(s) && Offered(s, m) && m.coord != PASS && QuickPlay(s, m).1
    ensures var r := QuickPlay(s, m).0; Sized(r) && LastPoint(r) == m.coord
  {
    hide PlayStone, SaveUpTo, SaveSuicide, PlayOutside, Eyelike;
    PlayedOK(s, m);
    StoneLast(Quick(s), m);
  }

  /** The ko test of the reader is the one of the game. */
  lemma KoExact(s: State, h: int)
    requires Sound(Quick(s)) && IsGroup(s, h)
    ensures Sized(s) && (KoBeside(s, h) <==> KoNear(Position(s), LastPoint(s), s.st, h))
  {
    hide Sound, Reach, BesideUpTo;
    var last := LastPoint(s);
    ChainIsComponent(Quick(s), h);
    BesideIff(s, h, last, 4);
    if BesideUpTo(s, h, last, 4) {
      var k :| 0 <= k < 4 && 0 <= Nb(s.st, last, k) < |s.g| && s.g[Nb(s.st, last, k)] == h;
      assert Nb(s.st, last, k) in Component(s.b, s.st, h);
      NbIsAdj(s.st, last, k);
    }
    if KoNear(Position(s), last, s.st, h) {
      var z :| 0 <= z < |s.b| && Adj(s.st, last, z) && Reach(s.b, s.st, h, z);
      assert z in Component(s.b, s.st, h);
      var k := NbAdj(s.st, last, z);
    }
  }

  lemma {:induction false} BesideIff(s: State, h: int, c: int, k: int)
    requires Sized(s) && 0 <= k <= 4
    ensures BesideUpTo(s, h, c, k) <==>
      exists j {:trigger Nb(s.st, c, j)} :: 0 <= j < k && 0 <= Nb(s.st, c, j) < |s.g| && s.g[Nb(s.st, c, j)] == h
    decreases k
  {
    hide Nb;
    if k > 0 {
      BesideIff(s, h, c, k - 1);
      assert BesideUpTo(s, h, c, k) <==>
        BesideUpTo(s, h, c, k - 1) || (0 <= Nb(s.st, c, k - 1) < |s.g| && s.g[Nb(s.st, c, k - 1)] == h);
    }
  }

  /** The ataris the reader tries are those worth trying. */
  lemma AtarisExact(s: State, h: int, col: Stone, c: int)
    requires Sound(Quick(s)) && IsPrey(s, h, col) && h < |s.lib| && |s.lib[h]| == 2
    ensures 0 <= s.lib[h][0] < |s.n| && 0 <= s.lib[h][1] < |s.n|
    ensures c in Ataris(s, s.lib[h]) <==> WorthTrying(s.b, s.st, h, c)
  {
    hide Sound, Reach, LibSet, Wide, Spacious;
    PreyPoints(s, h, col);
    PreyLibs(s, h, col);
    var a, e := s.lib[h][0], s.lib[h][1];
    assert a in s.lib[h] && e in s.lib[h];
    TwoMembers(s.lib[h], LibSet(s.b, s.st, h), a);
    SpaciousExact(s, a, e);
    SpaciousExact(s, e, a);
    PairOf(LibSet(s.b, s.st, h), a, e);
  }

  lemma PairOf(t: set<int>, a: int, e: int)
    requires t == {a, e} && a != e
    ensures forall c, d :: c != d && t == {c, d} <==> (c == a && d == e) || (c == e && d == a)
  {
    forall c, d | c != d && t == {c, d} ensures (c == a && d == e) || (c == e && d == a) {
      assert c in t && d in t;
    }
  }

  lemma SpaciousExact(s: State, a: int, e: int)
    requires Sound(Quick(s)) && Sized(s) && 0 <= e < |s.b| && s.b[e] == Empty
    ensures Spacious(s, a, e) <==> Wide(s.b, s.st, a, e)
  {
    hide Sound;
    FreeNeighbours(Quick(s), e);
    Nakade.AdjacentIsAdj(s.st, a, e);
  }

  // ------------------------------------------------------------ the reader is exact

  /** The answers of the reader for a chain are those of the game, but for a chaser to move who has caught
      it already: there the reader answers with the length so far. */
  lemma {:induction false} ChaseExact(s: State, x: int, col: Stone, len: nat, fuel: nat)
    requires Sound(Quick(s)) && 0 <= x < |s.b| && IsColour(col) && Sized(s) && (s.b[x] == col || s.g[x] == 0)
    requires Scoring.Square(s.b, s.st) && (len > 0 || !Caught(s.b, s.st, x, col))
    ensures var v := Chase(s, x, col, len, fuel);
      v.Done? ==> (v.len != 0 <==> SearchWins(Position(s), s.st, x, col, fuel))
    decreases fuel, 2, 0
  {
    hide Sound, QuickPlay, IsPrey, LibOK, LibSet, Reach, OneLib, ChaseFrom, Ataris, WorthTrying, Holds, Scoring.Square;
    ChaseFacts(s, x, col);
    IdFacts(s, x);
    var h := s.g[x];
    if h != 0 {
      StoneFacts(s, x);
      if |s.lib[h]| == 2 {
        PreyPoints(s, h, col);
        ChaseFromExact(s, h, col, len, Ataris(s, s.lib[h]), 0, fuel);
        PreyWins(s, h, col, fuel);
        if SearchWins(Position(s), s.st, h, col, fuel) { SearchWinsTogether(Position(s), s.st, h, x, col, fuel); }
        if SearchWins(Position(s), s.st, x, col, fuel) { SearchWinsTogether(Position(s), s.st, x, h, col, fuel); }
      } else if |s.lib[h]| > 2 {
        ManyLibs(s, x, col, fuel);
      }
    }
  }

  /** A chain with more than two liberties is not won. */
  lemma ManyLibs(s: State, x: int, col: Stone, fuel: nat)
    requires Sound(Quick(s)) && 0 <= x < |s.b| && IsColour(col) && s.b[x] == col && Sized(s)
    requires 0 <= s.g[x] < |s.lib| && |s.lib[s.g[x]]| > 2
    ensures !SearchWins(Position(s), s.st, x, col, fuel)
  {
    hide Sound, Reach, LibSet, Wide, Holds;
    StoneFacts(s, x);
    var l, t := s.lib[s.g[x]], LibSet(s.b, s.st, x);
    assert l[0] in l && l[1] in l && l[2] in l;
    NotWon(Position(s), s.st, x, col, fuel, l[0], l[1], l[2]);
  }

  lemma NotTwo(t: set<int>, a: int, b: int, c: int)
    requires a in t && b in t && c in t && a != b && b != c && a != c
    ensures forall p, q :: t != {p, q}
  {
  }

  /** Some atari from the i-th on holds. */
  ghost predicate SomeHolds(s: State, h: int, col: Stone, tries: seq<int>, i: nat, fuel: nat)
    requires 0 <= h < |s.b|
  {
    fuel > 0 && exists j :: i <= j < |tries| && HoldsAt(s, h, col, tries[j], fuel - 1)
  }

  ghost predicate HoldsAt(s: State, h: int, col: Stone, c: int, fuel: nat)
    requires 0 <= h < |s.b|
  {
    0 <= c < |s.b| && Holds(Position(s), s.st, h, col, c, fuel)
  }

  /** A chain with two liberties is won by one of the ataris the reader tries. */
  lemma PreyWins(s: State, h: int, col: Stone, fuel: nat)
    requires Sound(Quick(s)) && IsPrey(s, h, col) && h < |s.lib| && |s.lib[h]| == 2
    ensures 0 < h < |s.b| && 0 <= s.lib[h][0] < |s.n| && 0 <= s.lib[h][1] < |s.n|
    ensures SearchWins(Position(s), s.st, h, col, fuel) <==> SomeHolds(s, h, col, Ataris(s, s.lib[h]), 0, fuel)
  {
    hide Sound, IsPrey, LibSet, Reach, OneLib, Ataris, WorthTrying, Holds;
    PreyPoints(s, h, col);
    PreyFacts(s, h, col);
    var tries := Ataris(s, s.lib[h]);
    if fuel > 0 {
      if c :| SearchAtari(Position(s), s.st, h, col, c, fuel) {
        AtarisExact(s, h, col, c);
        var j :| 0 <= j < |tries| && tries[j] == c;
        assert HoldsAt(s, h, col, tries[j], fuel - 1);
      }
      if j :| 0 <= j < |tries| && HoldsAt(s, h, col, tries[j], fuel - 1) {
        assert tries[j] in tries;
        AtarisExact(s, h, col, tries[j]);
        assert SearchAtari(Position(s), s.st, h, col, tries[j], fuel);
      }
    }
  }

  lemma {:induction false} ChaseFromExact(s: State, h: int, col: Stone, len: nat, tries: seq<int>, i: nat, fuel: nat)
    requires Sound(Quick(s)) && IsPrey(s, h, col) && h < |s.lib| && |s.lib[h]| == 2 && Scoring.Square(s.b, s.st)
    requires (forall c :: c in tries ==> c in s.lib[h]) && i <= |tries|
    ensures 0 < h < |s.b|
    ensures var v := ChaseFrom(s, h, col, len, tries, i, fuel);
      v.Done? ==> (v.len != 0 <==> SomeHolds(s, h, col, tries, i, fuel))
    decreases fuel, 1, |tries| - i
  {
    hide Sound, QuickPlay, IsPrey, Step, SearchLoses, Flee, Scoring.Square;
    PreyPoints(s, h, col);
    if i < |tries| {
      var c := tries[i];
      assert c in tries;
      ChaseFromExact(s, h, col, len, tries, i + 1, fuel);
      AfterMove(s, Move(c, Other(col)));
      SquareKept(s, Move(c, Other(col)));
      var (r, ok, u) := QuickPlay(s, Move(c, Other(col)));
      IdFacts(r, c);
      if ok {
        AtariFollows(s, h, col, c);
        if r.g[c] != 0 && fuel > 0 {
          FleeExact(r, h, col, len, fuel - 1);
          LastIs(s, Move(c, Other(col)));
        }
      }
    }
  }

  lemma {:induction false} FleeExact(s: State, h: int, col: Stone, len: nat, fuel: nat)
    requires Sound(Quick(s)) && IsPrey(s, h, col) && |s.lib[h]| == 1 && Scoring.Square(s.b, s.st)
    ensures 0 < h < |s.b| && Sized(s)
    ensures var v := Flee(s, h, col, len, fuel);
      v.Done? ==> (v.len != 0 <==> SearchLoses(Position(s), LastPoint(s), s.st, h, col, fuel))
    decreases fuel, 4, 0
  {
    hide Sound, QuickPlay, IsPrey, Step, SearchWins, Chase, Escapes, Counters, LibSet, OneLib, CounterMove, CanTry,
         KoBeside, KoNear, Scoring.Square, Reach;
    PreyFacts(s, h, col);
    KoExact(s, h);
    var l, q := s.lib[h][0], Counters(s, h);
    EscapesExact(s, h, col, q, 0, fuel);
    EscapeAccepted(s, h, col);
    ReplyLeaves(s, h, col, l);
    AfterMove(s, Move(l, col));
    SquareKept(s, Move(l, col));
    ChaseExact(QuickPlay(s, Move(l, col)).0, h, col, len + 1, fuel);
    RepliesAre(s, h, col, fuel);
  }

  /** The replies of the escaper are the escape and the counter-captures of the queue. */
  lemma RepliesAre(s: State, h: int, col: Stone, fuel: nat)
    requires Sound(Quick(s)) && IsPrey(s, h, col) && |s.lib[h]| == 1
    ensures 0 < h < |s.b| && Sized(s) && 0 <= s.lib[h][0] < |s.b|
    ensures (forall c :: 0 <= c < |s.b| && Reply(s.b, s.st, h, col, c) && Step(Position(s), s.st, Move(c, col)).1 ==>
        WonAfter(s, h, col, c, fuel)) <==>
      WonAfter(s, h, col, s.lib[h][0], fuel) && forall j :: 0 <= j < |Counters(s, h)| ==>
        SearchTried(s, h, col, Counters(s, h), j, fuel)
  {
    hide Sound, QuickPlay, IsPrey, Step, WonAfter, Counters, LibSet, CounterMove, CanTry, Legal;
    PreyFacts(s, h, col);
    EscapeAccepted(s, h, col);
    var l, q := s.lib[h][0], Counters(s, h);
    AfterMove(s, Move(l, col));
    forall c | 0 <= c < |s.b| && Step(Position(s), s.st, Move(c, col)).1
      ensures Reply(s.b, s.st, h, col, c) <==> c == l || c in q
    {
      CounterCapturesExact(s, h, c);
      StepLegal(s.b, s.st, s.ko, Move(c, col));
      assert LibSet(s.b, s.st, h) == {l};
      assert {c} == {l} <==> c == l by { assert c in {c}; }
    }
    forall j | 0 <= j < |q|
      ensures 0 <= q[j] < |s.b|
      ensures CanTry(s, q[j], col) && Step(Position(s), s.st, Move(q[j], col)).1
    {
      assert q[j] in q;
      CounterCapturesExact(s, h, q[j]);
      TryAccepted(s, q[j], col);
      StepLegal(s.b, s.st, s.ko, Move(q[j], col));
    }
    if forall j :: 0 <= j < |q| ==> SearchTried(s, h, col, q, j, fuel) {
      forall c | 0 <= c < |s.b| && c in q ensures WonAfter(s, h, col, c, fuel) {
        var j :| 0 <= j < |q| && q[j] == c;
        assert SearchTried(s, h, col, q, j, fuel);
      }
    }
  }

  /** The chaser wins the searched game after the escaper's move at c. */
  ghost predicate WonAfter(s: State, h: int, col: Stone, c: int, fuel: nat)
    requires 0 <= h < |s.b| && 0 <= c < |s.b|
  {
    var g := Step(Position(s), s.st, Move(c, col)).0; |g.b| == |s.b| && SearchWins(g, s.st, h, col, fuel)
  }

  ghost predicate SearchTried(s: State, h: int, col: Stone, moves: seq<int>, j: int, fuel: nat)
    requires 0 <= h < |s.b| && 0 <= j < |moves|
  {
    CanTry(s, moves[j], col) ==> WonAfter(s, h, col, moves[j], fuel)
  }

  lemma {:induction false} EscapesExact(s: State, h: int, col: Stone, moves: seq<int>, i: nat, fuel: nat)
    requires Sound(Quick(s)) && IsPrey(s, h, col) && i <= |moves| && Scoring.Square(s.b, s.st)
    requires forall c :: c in moves ==> c in Counters(s, h)
    ensures 0 < h < |s.b|
    ensures var e := Escapes(s, h, col, moves, i, fuel);
      e.Done? ==> (e.len == 0 <==> forall j :: i <= j < |moves| ==> SearchTried(s, h, col, moves, j, fuel))
    decreases fuel, 3, |moves| - i
  {
    hide Sound, QuickPlay, IsPrey, Step, SearchWins, Chase, CanTry, Counters, Caught, Scoring.Square;
    PreyPoints(s, h, col);
    if i < |moves| {
      var c := moves[i];
      EscapesExact(s, h, col, moves, i + 1, fuel);
      assert c in moves;
      NeverCaught(s, h, col, c);
      TryAccepted(s, c, col);
      ReplyLeaves(s, h, col, c);
      AfterMove(s, Move(c, col));
      SquareKept(s, Move(c, col));
      ChaseExact(QuickPlay(s, Move(c, col)).0, h, col, 0, fuel);
      assert SearchTried(s, h, col, moves, i, fuel) <==>
        SearchWins(Position(QuickPlay(s, Move(c, col)).0), s.st, h, col, fuel);
    }
  }

  // ------------------------------------------------------------ a finished answer decides the game

  /** The chaser to move: a finished answer other than 0 means a win, and 0 means that there is none. */
  lemma ChaseDecides(s: State, x: int, col: Stone, len: nat, fuel: nat)
    requires Sound(Quick(s)) && 0 <= x < |s.b| && IsColour(col) && Sized(s) && (s.b[x] == col || s.g[x] == 0)
    requires Scoring.Square(s.b, s.st) && (len > 0 || !Caught(s.b, s.st, x, col))
    ensures var v := Chase(s, x, col, len, fuel);
      v.Done? ==> (v.len != 0 <==> Won(Position(s), s.st, x, col))
  {
    hide Sound, IsPrey, Chase, Caught, SearchWins, Scoring.Square;
    ChaseExact(s, x, col, len, fuel);
    if d: nat :| SearchWins(Position(s), s.st, x, col, d) {
      var more := d + fuel;
      SearchWinsMore(Position(s), s.st, x, col, d, more);
      ChaseMore(s, x, col, len, fuel, more);
      ChaseExact(s, x, col, len, more);
    }
  }

  /** The escaper to move, in atari. */
  lemma FleeDecides(s: State, h: int, col: Stone, len: nat, fuel: nat)
    requires Sound(Quick(s)) && IsPrey(s, h, col) && |s.lib[h]| == 1 && Scoring.Square(s.b, s.st)
    ensures 0 < h < |s.b| && Sized(s)
    ensures var v := Flee(s, h, col, len, fuel);
      v.Done? ==> (v.len != 0 <==> Lost(Position(s), LastPoint(s), s.st, h, col))
  {
    hide Sound, IsPrey, Flee, SearchLoses, Scoring.Square;
    FleeExact(s, h, col, len, fuel);
    if d: nat :| SearchLoses(Position(s), LastPoint(s), s.st, h, col, d) {
      var more := d + fuel;
      SearchLosesMore(Position(s), LastPoint(s), s.st, h, col, d, more);
      FleeMore(s, h, col, len, fuel, more);
      FleeExact(s, h, col, len, more);
    }
  }

  /** The entry for a chain in atari: it must have two empty points beside its liberty. */
  lemma MiddleLadderDecides(s: State, h: int, col: Stone, fuel: nat)
    requires Sound(Quick(s)) && IsPrey(s, h, col) && |s.lib[h]| == 1 && Scoring.Square(s.b, s.st)
    ensures 0 < h < |s.b| && Sized(s) && Inner(s, s.lib[h][0])
    ensures var v := MiddleLadder(s, h, col, fuel); v.Done? ==>
      (v.len != 0 <==> Around(s.b, s.st, s.lib[h][0], Empty) == 2
                       && Lost(Position(s), LastPoint(s), s.st, h, col))
  {
    hide Sound, Flee, Lost, Scoring.Square, LibSet;
    FleeDecides(s, h, col, 0, fuel);
    OnlyLib(s, h);
    FreeNeighbours(Quick(s), s.lib[h][0]);
  }

  /** The entry for a chasing move: a ladder exactly if, in the searched game, it is legal, its stone stays
      and no reply answers it. */
  lemma WouldBeDecides(s: State, h: int, col: Stone, c: int, fuel: nat)
    requires Sound(Quick(s)) && IsPrey(s, h, col) && h < |s.lib| && |s.lib[h]| == 2 && c in s.lib[h]
    requires Scoring.Square(s.b, s.st)
    ensures 0 < h < |s.b| && 0 <= c < |s.b|
    ensures var v := WouldBe(s, h, col, c, fuel); v.Done? ==> (v.len != 0 <==> Decisive(Position(s), s.st, h, col, c))
  {
    hide Sound, QuickPlay, IsPrey, ValidPlayNoSuicide, Step, Lost, Flee, Turn, Legal, Scoring.Square;
    PreyPoints(s, h, col);
    PreyLibs(s, h, col);
    var m := Move(c, Other(col));
    StayAccepted(s, m);
    ValidPlayNoSuicideIff(Quick(s), m);
    NoSuicideSame(s, m);
    StepLegal(s.b, s.st, s.ko, m);
    Played(s, m);
    if ValidPlayNoSuicide(s, m) {
      AtariFollows(s, h, col, c);
      SquareKept(s, m);
      LastIs(s, m);
      FleeDecides(QuickPlay(s, m).0, h, col, 0, fuel);
    }
  }

  // ------------------------------------------------------------ the ataris left out

  /** After an escape every empty point beside it is a liberty of the chain. */
  lemma EscapeOpens(v: seq<Stone>, st: int, h: int, e: int, col: Stone, z: int)
    requires IsColour(col) && 0 <= h < |v| && v[h] == col && 0 <= e < |v| && v[e] == Empty && e in LibSet(v, st, h)
    requires Adj(st, e, z) && z != e && 0 <= z < |v| && v[z] == Empty
    ensures var w := Turn(v, st, e, col); w[h] == col && z in LibSet(w, st, h)
  {
    hide Reach, Adj, LibSet, Alive, Clear, FreeingCaptures.Taken1;
    var u := FreeingCaptures.Taken1(v, st, e, col);
    var p := FreeingCaptures.LibertyBeside(v, st, h, e);
    FreeingCaptures.StillJoined(v, st, e, col, h, p);
    FreeingCaptures.PointAfter(v, st, e, col, h);
    FreeingCaptures.PointAfter(v, st, e, col, z);
    LibertyEmpty(v, st, h, e) by { FreeingCaptures.LibIs(v, st, h, e); }
    ReachRange(u, st, h, p);
    ReachStep(u, st, h, p, e);
    FreeingCaptures.InLibs(u, st, h, e, z);
    AliveByLib(u, st, h, z);
    ClearLibs(u, st, col, h);
    assert Turn(v, st, e, col) == Clear(u, st, col) by { FreeingCaptures.TurnIsClear(v, st, e, col); }
  }

  /** Three empty points beside e other than c. */
  lemma ThreeBeside(b: seq<Stone>, st: int, c: int, e: int) returns (x: int, y: int, z: int)
    requires Wide(b, st, c, e)
    ensures x != y && y != z && x != z && x != c && y != c && z != c && x != e && y != e && z != e
    ensures Adj(st, e, x) && Adj(st, e, y) && Adj(st, e, z)
    ensures 0 <= x < |b| && 0 <= y < |b| && 0 <= z < |b| && b[x] == Empty && b[y] == Empty && b[z] == Empty
  {
    var n, w, o, s := e - st, e - 1, e + 1, e + st;
    x := if b[n] == Empty && n != c then n else w;
    z := if b[s] == Empty && s != c then s else o;
    y := if b[w] == Empty && w != c && w != x then w else if b[o] == Empty && o != c && o != z then o else n;
  }

  /** An atari the reader does not try never holds: the escape has three liberties. */
  lemma WideNeverHolds(s: State, h: int, col: Stone, c: int, d: nat)
    requires Sound(Quick(s)) && IsPrey(s, h, col) && h < |s.lib| && |s.lib[h]| == 2 && c in s.lib[h]
    requires 0 <= s.lib[h][0] < |s.n| && 0 <= s.lib[h][1] < |s.n| && c !in Ataris(s, s.lib[h])
    ensures 0 < h < |s.b| && 0 <= c < |s.b| && !Holds(Position(s), s.st, h, col, c, d)
  {
    hide Sound, QuickPlay, Turn, LibSet, Reach, Step, SearchWins, Wide, Ataris, Alive, KoNear, Adj;
    PreyPoints(s, h, col);
    PreyLibs(s, h, col);
    var m := Move(c, Other(col));
    AfterMove(s, m);
    Played(s, m);
    if Holds(Position(s), s.st, h, col, c, d) {
      var r := QuickPlay(s, m).0;
      IdFacts(r, c);
      OtherIs(col);
      AtariFollows(s, h, col, c);
      var e := OtherLib(s, h, col, c);
      SoundStanding(Quick(s));
      AtariLeaves(s.b, s.st, c, e, Other(col), h);
      var x, y, z := ThreeBeside(s.b, s.st, c, e);
      EscapeWide(s, h, col, c, e, x);
      EscapeWide(s, h, col, c, e, y);
      EscapeWide(s, h, col, c, e, z);
      EscapeAccepted(r, h, col);
      OnlyLib(r, h);
      assert e in LibSet(r.b, r.st, h);
      AfterMove(r, Move(e, col));
      Played(r, Move(e, col));
      NotWon(Position(QuickPlay(r, Move(e, col)).0), s.st, h, col, d, x, y, z);
      assert Reply(r.b, r.st, h, col, e);
    }
  }

  lemma OtherLib(s: State, h: int, col: Stone, c: int) returns (e: int)
    requires Sound(Quick(s)) && IsPrey(s, h, col) && h < |s.lib| && |s.lib[h]| == 2 && c in s.lib[h]
    requires 0 <= s.lib[h][0] < |s.n| && 0 <= s.lib[h][1] < |s.n| && c !in Ataris(s, s.lib[h])
    ensures e != c && LibSet(s.b, s.st, h) == {c, e} && Wide(s.b, s.st, c, e) && 0 <= e < |s.b| && s.b[e] == Empty
  {
    hide Sound, LibSet, Wide, Ataris;
    PreyLibs(s, h, col);
    AtarisExact(s, h, col, c);
    TwoMembers(s.lib[h], LibSet(s.b, s.st, h), c);
    e := if s.lib[h][0] == c then s.lib[h][1] else s.lib[h][0];
  }

  /** An empty point beside the escape is a liberty after atari and escape. */
  lemma EscapeWide(s: State, h: int, col: Stone, c: int, e: int, z: int)
    requires Sound(Quick(s)) && IsPrey(s, h, col) && 0 <= c < |s.b| && c != e && z != c && z != e && 0 <= h < |s.b|
    requires QuickPlay(s, Move(c, Other(col))).1 && IsColour(Other(col))
    requires 0 <= z < |s.b| && s.b[z] == Empty && Adj(s.st, e, z) && 0 <= e < |s.b| && s.b[e] == Empty
    requires var r := QuickPlay(s, Move(c, Other(col))).0; IsPrey(r, h, col) && LibSet(r.b, r.st, h) == {e}
    ensures |QuickPlay(s, Move(c, Other(col))).0.b| == |s.b|
    ensures var w := Turn(QuickPlay(s, Move(c, Other(col))).0.b, s.st, e, col); w[h] == col && z in LibSet(w, s.st, h)
  {
    hide Sound, QuickPlay, Turn, LibSet, Reach, Adj, Step;
    Played(s, Move(c, Other(col)));
    TurnPoint(s.b, s.st, c, Other(col), z);
    TurnPoint(s.b, s.st, c, Other(col), e);
    EscapeOpens(QuickPlay(s, Move(c, Other(col))).0.b, s.st, h, e, col, z);
  }

  /** A chain with three liberties is not won. */
  lemma NotWon(g: Game, st: int, h: int, col: Stone, d: nat, x: int, y: int, z: int)
    requires 0 <= h < |g.b| && g.b[h] == col && x != y && y != z && x != z
    requires x in LibSet(g.b, st, h) && y in LibSet(g.b, st, h) && z in LibSet(g.b, st, h)
    ensures !SearchWins(g, st, h, col, d)
  {
    hide LibSet, Wide, Holds;
    NotTwo(LibSet(g.b, st, h), x, y, z);
    assert forall c :: !WorthTrying(g.b, st, h, c);
  }

  // ------------------------------------------------------------ every board of a game is square

  lemma {:induction false} GameStaysSquare(g: Game, st: int, ms: seq<Move>)
    requires Playable(|g.b|, ms) && Scoring.Square(g.b, st)
    ensures Scoring.Square(GameAfter(g, st, ms).b, st)
    decreases ms
  {
    hide Scoring.Square, Turn, KoAfter, OneStoneSuicide;
    if ms != [] {
      var m := ms[|ms| - 1];
      GameStaysSquare(g, st, ms[..|ms| - 1]);
      assert Playable(|g.b|, [m]);
      var g1 := GameAfter(g, st, ms[..|ms| - 1]);
      if m.coord != PASS && Legal(g1.b, st, g1.ko, m) { SquareTurn(g1.b, st, m.coord, m.colour); }
    }
  }

  lemma EmptyGridSquare(st: int)
    requires st >= 3
    ensures Scoring.Square(EmptyBoard.EmptyGrid(st), st)
  {
    var v := EmptyBoard.EmptyGrid(st);
    forall x, y | 0 <= x < st && 0 <= y < st
      ensures var p := Scoring.At(st, x, y); 0 <= p < |v| && (v[p] == Off <==> Scoring.Edge(st, x, y))
    {
      PlaceOnGrid(st, x, y);
    }
  }

  lemma PlaceOnGrid(st: int, x: int, y: int)
    requires st >= 3 && 0 <= x < st && 0 <= y < st
    ensures var p := Scoring.At(st, x, y);
      0 <= p < st * st && (EmptyBoard.Margin(st, p) <==> Scoring.Edge(st, x, y))
  {
    EmptyBoard.Times(y, st - 1, st);
    EmptyBoard.Times(1, y, st);
    EmptyBoard.DivMod(st, y, Scoring.At(st, x, y));
    if y < st - 1 { EmptyBoard.Times(y, st - 2, st); }
    EmptyBoard.Times(0, y, st);
  }

  /** So the answers decide the searched game on every board a game from the empty one reaches. */
  lemma ReachedSquare(st: int, keys: seq<Key>, rules: Ruleset, ms: seq<Move>)
    requires st >= 3 && |keys| == st * st && Playable(st * st, ms)
    ensures var s := Cleared(EmptyBoard.EmptyGrid(st), st, keys, rules);
      Sized(s) && Sound(After(s, ms)) && Scoring.Square(After(s, ms).b, st)
  {
    hide Scoring.Square, Sound, Cleared, Bare;
    var v := EmptyBoard.EmptyGrid(st);
    EmptyBoard.EmptyGridBare(st);
    EmptyGridSquare(st);
    RunFromEmpty(v, st, keys, rules, ms);
    GameStaysSquare(Game(v, NO_MOVE), st, ms);
  }
}
