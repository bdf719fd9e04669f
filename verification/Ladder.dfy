/** The ladder reader as a search of the game: what it answers, and what an answer means by the
    rules. Depth is bounded by `fuel`, which the source does not do. */
module Ladder {
  import opened Grid
  import opened LibList
  import opened Engine
  import opened Invariant
  import opened Books
  import opened Rules
  import opened PlayTheorem
  import opened Legality
  import opened KoTheorem
  import opened Undo
  import opened UndoTrace
  import opened UndoPlay
  import opened UndoStones
  import opened UndoCore
  import opened UndoSuicides
  import opened UndoTheorem
  import opened LadderRules
  import opened CounterCaptures
  import BoardUndo
  import Nakade

  // ------------------------------------------------------------ moves of a ladder

  lemma {:induction false} TurnPoint(v: seq<Stone>, st: int, c: int, k: Stone, z: int)
    requires 0 <= c < |v| && IsColour(k) && 0 <= z < |v|
    ensures var w := Turn(v, st, c, k); w[z] == Empty || w[z] == v[c := k][z]
  {
    hide Alive;
  }

  /** After an accepted quick play the board is sound and shows the turn. */
  lemma Played(s: State, m: Move)
    requires Sound(Quick(s)) && IsColour(m.colour) && 0 <= m.coord < |s.b|
    ensures Sized(s)
    ensures var (r, ok, u) := QuickPlay(s, m); Sound(Quick(r)) && |r.b| == |s.b| && r.st == s.st && Sized(r)
    ensures var (r, ok, u) := QuickPlay(s, m);
      ok == Step(Game(s.b, s.ko), s.st, m).1 && Game(r.b, r.ko) == Step(Game(s.b, s.ko), s.st, m).0
    ensures var (r, ok, u) := QuickPlay(s, m); ok ==> s.b[m.coord] == Empty && r.b == Turn(s.b, s.st, m.coord, m.colour)
  {
    hide Sound, QuickPlay, Step, Turn;
    QuickPlayRefinesStep(s, m);
    QuickShape(s, m);
    if QuickPlay(s, m).1 { StepIs(Game(s.b, s.ko), s.st, m); }
  }

  lemma AcceptsPlay(s: State, m: Move) returns (ch: Chains)
    requires Sound(Quick(s)) && IsColour(m.colour) && 0 <= m.coord < |s.b| && Sized(s) && QuickPlay(s, m).1
    ensures Accepts(s, ch, m) && Sized(Play(Quick(s), m).0)
  {
    hide Quiet, QuickPlay, BooksOK, KoOK, Play;
    PlayedOK(s, m);
    ch :| Quiet(K(Quick(s)), ch);
    BoardUndo.AcceptsNow(s, ch, m);
    AcceptsFacts(s, ch, m);
  }

  /** A chain of the other colour that is still there keeps its id. */
  lemma IdKept(s: State, m: Move, h: int)
    requires Sound(Quick(s)) && IsColour(m.colour) && 0 <= m.coord < |s.b| && IsGroup(s, h)
    requires s.b[h] == Other(m.colour) && QuickPlay(s, m).1
    requires var r := QuickPlay(s, m).0; |r.b| == |s.b| && r.b[m.coord] == m.colour && r.b[h] == s.b[h]
    ensures var r := QuickPlay(s, m).0; h < |r.g| && r.g[h] == h
  {
    hide Sound, QuickPlay, Play, Put, Drowns, PlayOutside, PlayUpTo, PlayRecord, AfterQuick, Accepts, Step;
    var q := Quick(s);
    var ch := AcceptsPlay(s, m);
    AcceptsFacts(s, ch, m);
    Played(s, m);
    var u := QuickPlay(s, m).2;
    PlayedOK(s, m);
    var r := Play(q, m).0;
    BoardUndo.WhichCase(s, ch, m, u);
    QuietCore(s, r, u);
    BoardUndo.StayedFacts(s, ch, m);
    QuietCore(s, r, PlayRecord(q, m));
    var v := PlayRecord(q, m);
    var s0 := PlayUpTo(q, m.coord, m.colour, 4).0;
    PutId(q, ch, m, s0, v, h);
    CoreParts(PlayOutside(q, m).0);
    CoreParts(r);
  }

  lemma PutId(q: State, ch: Chains, m: Move, s: State, v: Record, h: int)
    requires Put(q, ch, m, s, v) && 0 < h < |q.b| && q.g[h] == h && q.b[h] == Other(m.colour) && |q.b| == |q.g|
    requires h < |PlayOutside(q, m).0.b| && PlayOutside(q, m).0.b[h] == q.b[h] && h != m.coord
    ensures h < |PlayOutside(q, m).0.g| && PlayOutside(q, m).0.g[h] == h
  {
    hide Put, PlayPoint, RecordOK, PlayOutside, Before, Linked, Cover, W, MergesOK, EnemiesOK, TraceP, TraceLib,
         MergedIds, EnemyIds, Dead;
    PutFacts(q, ch, m, s, v);
    PutColour(q, ch, m, s, v);
    PutDrawn(q, ch, m, s, v);
    BeforeOK(q, ch, m.coord, m.colour, v, 4);
    BeforeIds(K(q), ch, m.coord, m.colour, v);
    IdApart(K(q), ch, m.colour, v, h);
    OtherIs(m.colour);
  }

  /** The chain h of colour col, and its liberty list as a set. */
  ghost predicate IsPrey(s: State, h: int, col: Stone) { IsGroup(s, h) && s.b[h] == col && IsColour(col) }

  lemma PreyLibs(s: State, h: int, col: Stone)
    requires Sound(Quick(s)) && IsPrey(s, h, col) && |s.lib[h]| <= REFILL
    ensures |s.lib[h]| > 0 && forall c :: c in s.lib[h] <==> c in LibSet(s.b, s.st, h)
    ensures Distinct(s.lib[h]) && forall c :: c in s.lib[h] ==> 0 <= c < |s.b| && s.b[c] == Empty && Inner(s, c)
  {
    hide Sound, Reach, IsLiberty;
    StoneFacts(s, h);
    forall c | c in s.lib[h] ensures 0 <= c < |s.b| && s.b[c] == Empty && Inner(s, c) {
      LibertyEmpty(s.b, s.st, h, c);
      EmptyIsInner(Quick(s), c);
    }
  }

  /** After an atari whose stone stays, the chain is there under its id with one liberty left. */
  lemma AtariFollows(s: State, h: int, col: Stone, c: int)
    requires Sound(Quick(s)) && IsPrey(s, h, col) && |s.lib[h]| == 2 && c in s.lib[h] && 0 <= c < |s.b|
    requires QuickPlay(s, Move(c, Other(col))).1
    ensures var r := QuickPlay(s, Move(c, Other(col))).0;
      |r.g| == |s.b| && Sound(Quick(r)) && r.st == s.st && |r.b| == |s.b|
    ensures var r := QuickPlay(s, Move(c, Other(col))).0;
      r.g[c] != 0 ==> r.b[c] == Other(col) && IsPrey(r, h, col) && |r.lib[h]| == 1
  {
    hide Sound, QuickPlay, Step, Turn, LibSet, Reach, LibOK, Alive, KoAfter;
    var k := Other(col);
    var m := Move(c, k);
    OtherIs(col);
    Played(s, m);
    PreyLibs(s, h, col);
    var r := QuickPlay(s, m).0;
    TurnPoint(s.b, s.st, c, k, c);
    IdFacts(r, c);
    if r.g[c] != 0 {
      SoundStanding(Quick(s));
      var d := if s.lib[h][0] == c then s.lib[h][1] else s.lib[h][0];
      assert LibSet(s.b, s.st, h) == {c, d} by { TwoMembers(s.lib[h], LibSet(s.b, s.st, h), c); }
      AtariLeaves(s.b, s.st, c, d, k, h);
      IdKept(s, m, h);
      StoneFacts(r, h);
    }
  }

  lemma TwoMembers(l: seq<int>, t: set<int>, c: int)
    requires |l| == 2 && c in l && Distinct(l) && forall x :: x in l <==> x in t
    ensures var d := if l[0] == c then l[1] else l[0]; t == {c, d} && c != d && d in l
  {
    assert l[0] in l && l[1] in l;
    forall x ensures x in t <==> x == l[0] || x == l[1] { assert x in l <==> x == l[0] || x == l[1]; }
  }

  /** The escape of a chain in atari is always accepted. */
  lemma EscapeAccepted(s: State, h: int, col: Stone)
    requires Sound(Quick(s)) && IsPrey(s, h, col) && |s.lib[h]| == 1
    ensures 0 <= s.lib[h][0] < |s.b| && QuickPlay(s, Move(s.lib[h][0], col)).1
  {
    hide Sound, QuickPlay, Step, Turn, Reach, LibOK, LibSet, OneStoneSuicide, Lone, Walled;
    OnlyLib(s, h);
    var c := s.lib[h][0];
    assert c in LibSet(s.b, s.st, h);
    NoneEmpty(s, c);
    BesideChain(s.b, s.st, h, c);
    KoWalled(Quick(s));
    Played(s, Move(c, col));
    OtherIs(col);
    LegalBeside(s.b, s.st, s.ko, Move(c, col));
  }

  /** A liberty of a chain has a neighbour of its colour. */
  lemma BesideChain(b: seq<Stone>, st: int, h: int, c: int)
    requires c in LibSet(b, st, h) && IsColour(b[h]) && 0 <= h < |b| && Interior(b, st, c)
    ensures !Lone(b, st, c, b[h]) && !Walled(b, st, c, Other(b[h]))
  {
    hide Reach;
    var y :| Reach(b, st, h, y) && Adj(st, y, c);
    ReachRange(b, st, h, y);
  }

  lemma KoWalled(s: State)
    requires Sound(s)
    ensures KoOK(s.b, s.st, s.ko)
  {
    hide Quiet, BooksOK, KoOK;
  }

  lemma LegalBeside(b: seq<Stone>, st: int, ko: Move, m: Move)
    requires 0 <= m.coord < |b| && b[m.coord] == Empty && IsColour(m.colour) && KoOK(b, st, ko)
    requires !Lone(b, st, m.coord, m.colour) && !Walled(b, st, m.coord, Other(m.colour))
    ensures Legal(b, st, ko, m) && Step(Game(b, ko), st, m).1
  {
    hide Lone, Walled, Turn, KoAfter;
  }

  /** After a move of its own colour a chain is there, or all of it is gone. */
  lemma ReplyLeaves(s: State, h: int, col: Stone, c: int)
    requires Sound(Quick(s)) && IsPrey(s, h, col) && 0 <= c < |s.b| && QuickPlay(s, Move(c, col)).1
    ensures var r := QuickPlay(s, Move(c, col)).0;
      Sound(Quick(r)) && |r.b| == |s.b| == |r.g| && r.st == s.st && (r.b[h] == col || r.g[h] == 0)
  {
    hide Sound, QuickPlay, Step, Turn;
    Played(s, Move(c, col));
    TurnPoint(s.b, s.st, c, col, h);
    IdFacts(QuickPlay(s, Move(c, col)).0, h);
  }

  // ------------------------------------------------------------ the reader

  /** The answer of the reader: the length of a ladder that works, 0 for none. */
  datatype Verdict = Unfinished | Done(len: nat)

  /** The last move, which set a ko, was played next to the chain. */
  predicate KoBeside(s: State, h: int)
    requires Sized(s)
  {
    s.ko.coord != PASS && BesideUpTo(s, h, s.recent[s.recentAt].coord, 4)
  }

  predicate BesideUpTo(s: State, h: int, c: int, k: int)
    requires Sized(s) && 0 <= k <= 4
  {
    k > 0 && (BesideUpTo(s, h, c, k - 1) || (0 <= Nb(s.st, c, k - 1) < |s.g| && s.g[Nb(s.st, c, k - 1)] == h))
  }

  /** After the atari the escape has too much free space. */
  predicate Spacious(s: State, atari: int, escape: int)
    requires 0 <= escape < |s.n|
  {
    ImmediateLibs(s, escape) > 2 + if Nakade.Adjacent(s.st, atari, escape) then 1 else 0
  }

  /** The ataris worth trying, the more promising one first. */
  function Ataris(s: State, l: seq<int>): (r: seq<int>)
    requires |l| == 2 && 0 <= l[0] < |s.n| && 0 <= l[1] < |s.n|
    ensures forall c :: c in r ==> c in l
  {
    var kept := (if Spacious(s, l[0], l[1]) then [] else [l[0]]) + (if Spacious(s, l[1], l[0]) then [] else [l[1]]);
    if |kept| == 2 && ImmediateLibs(s, l[0]) < ImmediateLibs(s, l[1]) then [l[1], l[0]] else kept
  }

  lemma ChaseFacts(s: State, x: int, col: Stone)
    requires Sound(Quick(s)) && 0 <= x < |s.b| && IsColour(col) && Sized(s) && (s.b[x] == col || s.g[x] == 0)
    ensures 0 <= s.g[x] < |s.lib| && (s.g[x] != 0 ==> IsPrey(s, s.g[x], col) && s.lib[s.g[x]] != [])
  {
    hide Sound, LibOK, LibSet, Reach, OneLib;
    IdFacts(s, x);
    if s.g[x] != 0 { StoneFacts(s, x); }
  }

  lemma PreyPoints(s: State, h: int, col: Stone)
    requires Sound(Quick(s)) && IsPrey(s, h, col)
    ensures Sized(s) && 0 < h < |s.b| == |s.lib| == |s.n| && IsColour(col) && IsColour(Other(col)) && s.b[h] == col
    ensures |s.lib[h]| <= REFILL ==> forall c :: c in s.lib[h] ==> 0 <= c < |s.b|
    ensures |s.lib[h]| == 2 ==> 0 <= s.lib[h][0] < |s.n| && 0 <= s.lib[h][1] < |s.n|
  {
    hide Sound;
    OtherIs(col);
    if |s.lib[h]| <= REFILL { PreyLibs(s, h, col); }
    if |s.lib[h]| == 2 { assert s.lib[h][0] in s.lib[h] && s.lib[h][1] in s.lib[h]; }
  }

  /** The chaser to move: x is a stone of the chain, or where one was. */
  ghost function Chase(s: State, x: int, col: Stone, len: nat, fuel: nat): Verdict
    requires Sound(Quick(s)) && 0 <= x < |s.b| && IsColour(col) && Sized(s) && (s.b[x] == col || s.g[x] == 0)
    decreases fuel, 2, 0
  {
    hide Sound, QuickPlay, IsPrey;
    ChaseFacts(s, x, col);
    var h := s.g[x];
    if h == 0 then Done(len)
    else if |s.lib[h]| == 1 then Done(len)
    else if |s.lib[h]| > 2 then Done(0)
    else
      PreyPoints(s, h, col);
      ChaseFrom(s, h, col, len, Ataris(s, s.lib[h]), 0, fuel)
  }

  ghost function ChaseFrom(s: State, h: int, col: Stone, len: nat, tries: seq<int>, i: nat, fuel: nat): Verdict
    requires Sound(Quick(s)) && IsPrey(s, h, col) && h < |s.lib| && |s.lib[h]| == 2
    requires (forall c :: c in tries ==> c in s.lib[h]) && i <= |tries|
    decreases fuel, 1, |tries| - i
  {
    hide Sound, QuickPlay, IsPrey;
    if i == |tries| then Done(0)
    else
      var c := tries[i];
      PreyPoints(s, h, col);
      assert c in tries;
      var (r, ok, u) := QuickPlay(s, Move(c, Other(col)));
      if !ok then ChaseFrom(s, h, col, len, tries, i + 1, fuel)
      else
        AtariFollows(s, h, col, c);
        if r.g[c] == 0 then ChaseFrom(s, h, col, len, tries, i + 1, fuel)
        else if fuel == 0 then Unfinished
        else
          var w := Flee(r, h, col, len, fuel - 1);
          if w.Unfinished? || w.len != 0 then w else ChaseFrom(s, h, col, len, tries, i + 1, fuel)
  }

  /** The escaper to move, with the chain h in atari. */
  ghost function Flee(s: State, h: int, col: Stone, len: nat, fuel: nat): Verdict
    requires Sound(Quick(s)) && IsPrey(s, h, col) && |s.lib[h]| == 1
    decreases fuel, 4, 0
  {
    hide Sound, QuickPlay, IsPrey, KoBeside, Counters;
    PreyPoints(s, h, col);
    if KoBeside(s, h) then Done(0)
    else
      var e := Escapes(s, h, col, Counters(s, h), 0, fuel);
      if e.Unfinished? then Unfinished
      else if e.len != 0 then Done(0)
      else
        EscapeAccepted(s, h, col);
        var c := s.lib[h][0];
        ReplyLeaves(s, h, col, c);
        Played(s, Move(c, col));
        Chase(QuickPlay(s, Move(c, col)).0, h, col, len + 1, fuel)
  }

  /** Whether some counter-capture from the i-th on escapes: 1 for yes. */
  ghost function Escapes(s: State, h: int, col: Stone, moves: seq<int>, i: nat, fuel: nat): Verdict
    requires Sound(Quick(s)) && IsPrey(s, h, col) && i <= |moves|
    decreases fuel, 3, |moves| - i
  {
    hide Sound, QuickPlay, IsPrey, ValidPlay;
    PreyPoints(s, h, col);
    if i == |moves| then Done(0)
    else
      var c := moves[i];
      if !CanTry(s, c, col) then Escapes(s, h, col, moves, i + 1, fuel)
      else
        TryAccepted(s, c, col);
        ReplyLeaves(s, h, col, c);
        Played(s, Move(c, col));
        var w := Chase(QuickPlay(s, Move(c, col)).0, h, col, 0, fuel);
        if w.Unfinished? then w
        else if w.len == 0 then Done(1)
        else Escapes(s, h, col, moves, i + 1, fuel)
  }

  predicate CanTry(s: State, c: int, col: Stone) {
    Sized(s) && 0 <= c < |s.b| && (s.b[c] == Empty ==> Inner(s, c)) && ValidPlay(s, Move(c, col))
  }

  /** A counter-capture that passes the quick test is never refused. */
  lemma TryAccepted(s: State, c: int, col: Stone)
    requires Sound(Quick(s)) && IsColour(col) && 0 <= c < |s.b|
    ensures CanTry(s, c, col) <==> QuickPlay(s, Move(c, col)).1
    ensures CanTry(s, c, col) <==> Legal(s.b, s.st, s.ko, Move(c, col))
  {
    hide Sound, QuickPlay, Legal, ValidPlay;
    var m := Move(c, col);
    Played(s, m);
    ValidPlayIff(Quick(s), m);
    ValidSame(s, m);
    StepLegal(s.b, s.st, s.ko, m);
  }

  lemma StepLegal(b: seq<Stone>, st: int, ko: Move, m: Move)
    requires 0 <= m.coord < |b|
    ensures Step(Game(b, ko), st, m).1 <==> Legal(b, st, ko, m)
  {
    hide Legal, Turn, KoAfter;
  }

  // ------------------------------------------------------------ what an answer means

  function Position(s: State): Game { Game(s.b, s.ko) }

  /** The position after a move the quick board accepts. */
  lemma AfterMove(s: State, m: Move)
    requires Sound(Quick(s)) && IsColour(m.colour) && 0 <= m.coord < |s.b|
    ensures Sized(s) && QuickPlay(s, m).1 == Step(Position(s), s.st, m).1
    ensures Position(QuickPlay(s, m).0) == Step(Position(s), s.st, m).0 && QuickPlay(s, m).0.st == s.st
    ensures |QuickPlay(s, m).0.b| == |s.b| && Sound(Quick(QuickPlay(s, m).0)) && Sized(QuickPlay(s, m).0)
  {
    hide Sound, QuickPlay, Step;
    Played(s, m);
  }

  lemma PreyFacts(s: State, h: int, col: Stone)
    requires Sound(Quick(s)) && IsPrey(s, h, col)
    ensures Sized(s) && 0 < h < |s.b| == |s.lib| && s.b[h] == col && IsColour(col) && IsGroup(s, h)
    ensures |s.lib[h]| == 1 <==> OneLib(s.b, s.st, h)
    ensures |s.lib[h]| == 1 ==> LibSet(s.b, s.st, h) == {s.lib[h][0]}
  {
    hide Sound, Reach, LibOK, LibSet;
    StoneFacts(s, h);
    if |s.lib[h]| == 1 { OnlyLib(s, h); }
  }

  /** An answer other than 0 means that the chaser wins. */
  lemma {:induction false} ChaseSound(s: State, x: int, col: Stone, len: nat, fuel: nat)
    requires Sound(Quick(s)) && 0 <= x < |s.b| && IsColour(col) && Sized(s) && (s.b[x] == col || s.g[x] == 0)
    ensures var v := Chase(s, x, col, len, fuel); v.Done? && v.len != 0 ==> ChaserWins(Position(s), s.st, x, col, fuel)
    decreases fuel, 2, 0
  {
    hide Sound, QuickPlay, IsPrey, LibOK, LibSet, Reach, OneLib, ChaseFrom, Attack, Ataris;
    ChaseFacts(s, x, col);
    IdFacts(s, x);
    var h := s.g[x];
    if h != 0 {
      StoneFacts(s, x);
      if |s.lib[h]| == 2 {
        PreyPoints(s, h, col);
        ChaseFromSound(s, h, col, len, Ataris(s, s.lib[h]), 0, fuel);
        if ChaserWins(Position(s), s.st, h, col, fuel) { WinsTogether(Position(s), s.st, h, x, col, fuel); }
      }
    }
  }

  lemma {:induction false} ChaseFromSound(s: State, h: int, col: Stone, len: nat, tries: seq<int>, i: nat, fuel: nat)
    requires Sound(Quick(s)) && IsPrey(s, h, col) && h < |s.lib| && |s.lib[h]| == 2
    requires (forall c :: c in tries ==> c in s.lib[h]) && i <= |tries|
    ensures 0 < h < |s.b|
    ensures var v := ChaseFrom(s, h, col, len, tries, i, fuel); v.Done? && v.len != 0 ==> ChaserWins(Position(s),
        s.st, h, col, fuel)
    decreases fuel, 1, |tries| - i
  {
    hide Sound, QuickPlay, IsPrey, Step, EscaperLoses, Flee, Caught;
    PreyPoints(s, h, col);
    if i < |tries| {
      var c := tries[i];
      assert c in tries;
      ChaseFromSound(s, h, col, len, tries, i + 1, fuel);
      AfterMove(s, Move(c, Other(col)));
      var (r, ok, u) := QuickPlay(s, Move(c, Other(col)));
      if ok {
        AtariFollows(s, h, col, c);
        if r.g[c] != 0 && fuel > 0 {
          FleeSound(r, h, col, len, fuel - 1);
          if EscaperLoses(Position(r), r.st, h, col, fuel - 1) {
            assert Attack(Position(s), s.st, h, col, c, fuel);
          }
        }
      }
    }
  }

  /** What the answer of the walk says about its parts. */
  lemma FleeParts(s: State, h: int, col: Stone, len: nat, fuel: nat)
    requires Sound(Quick(s)) && IsPrey(s, h, col) && |s.lib[h]| == 1 && Flee(s, h, col, len, fuel).Done?
    requires Flee(s, h, col, len, fuel).len != 0
    ensures Escapes(s, h, col, Counters(s, h), 0, fuel) == Done(0)
    ensures var c := s.lib[h][0]; 0 <= c < |s.b| && QuickPlay(s, Move(c, col)).1
    ensures var r := QuickPlay(s, Move(s.lib[h][0], col)).0;
      Sound(Quick(r)) && |r.b| == |s.b| && Sized(r) && (r.b[h] == col || r.g[h] == 0)
    ensures Flee(s, h, col, len, fuel) == Chase(QuickPlay(s, Move(s.lib[h][0], col)).0, h, col, len + 1, fuel)
  {
    hide Sound, QuickPlay, IsPrey, KoBeside, Counters, Chase, Escapes;
    PreyPoints(s, h, col);
    EscapeAccepted(s, h, col);
    ReplyLeaves(s, h, col, s.lib[h][0]);
    Played(s, Move(s.lib[h][0], col));
  }

  lemma {:induction false} FleeSound(s: State, h: int, col: Stone, len: nat, fuel: nat)
    requires Sound(Quick(s)) && IsPrey(s, h, col) && |s.lib[h]| == 1
    ensures 0 < h < |s.b|
    ensures var v := Flee(s, h, col, len, fuel); v.Done? && v.len != 0 ==> EscaperLoses(Position(s), s.st, h, col, fuel)
    decreases fuel, 4, 0
  {
    hide Sound, QuickPlay, IsPrey, Step, ChaserWins, Flee, Chase, Escapes, Counters, LibSet, OneLib, CounterMove,
         CanTry;
    PreyFacts(s, h, col);
    var v := Flee(s, h, col, len, fuel);
    if v.Done? && v.len != 0 {
      FleeParts(s, h, col, len, fuel);
      var l, q := s.lib[h][0], Counters(s, h);
      EscapesSound(s, h, col, q, 0, fuel);
      AfterMove(s, Move(l, col));
      ChaseSound(QuickPlay(s, Move(l, col)).0, h, col, len + 1, fuel);
      forall c | 0 <= c < |s.b| && Reply(s.b, s.st, h, col, c) && Step(Position(s), s.st, Move(c, col)).1
        ensures |Step(Position(s), s.st, Move(c, col)).0.b| == |s.b|
        ensures ChaserWins(Step(Position(s), s.st, Move(c, col)).0, s.st, h, col, fuel)
      {
        AfterMove(s, Move(c, col));
        if LibSet(s.b, s.st, h) == {c} {
          assert c in {l};
        } else {
          TryAccepted(s, c, col);
          CounterCapturesExact(s, h, c);
          StepLegal(s.b, s.st, s.ko, Move(c, col));
          var j :| 0 <= j < |q| && q[j] == c;
          assert Tried(s, h, col, q, j, fuel);
        }
      }
    }
  }

  /** The chaser wins after the j-th counter-capture, if it can be played. */
  ghost predicate Tried(s: State, h: int, col: Stone, moves: seq<int>, j: int, fuel: nat)
    requires 0 <= h < |s.b| && 0 <= j < |moves|
  {
    CanTry(s, moves[j], col) ==>
      var g := Step(Position(s), s.st, Move(moves[j], col)).0; |g.b| == |s.b| && ChaserWins(g, s.st, h, col, fuel)
  }

  lemma {:induction false} EscapesSound(s: State, h: int, col: Stone, moves: seq<int>, i: nat, fuel: nat)
    requires Sound(Quick(s)) && IsPrey(s, h, col) && i <= |moves|
    ensures 0 < h < |s.b|
    ensures Escapes(s, h, col, moves, i, fuel) == Done(0) ==> forall j :: i <= j < |moves| ==>
      Tried(s, h, col, moves, j, fuel)
    decreases fuel, 3, |moves| - i
  {
    hide Sound, QuickPlay, IsPrey, Step, ChaserWins, Chase, ValidPlay;
    PreyPoints(s, h, col);
    if i < |moves| {
      var c := moves[i];
      EscapesSound(s, h, col, moves, i + 1, fuel);
      if CanTry(s, c, col) {
        TryAccepted(s, c, col);
        ReplyLeaves(s, h, col, c);
        AfterMove(s, Move(c, col));
        ChaseSound(QuickPlay(s, Move(c, col)).0, h, col, 0, fuel);
      }
    }
  }

  // ------------------------------------------------------------ depth

  /** An answer does not change with more fuel: running out is the only thing fuel decides. */
  lemma {:induction false} ChaseMore(s: State, x: int, col: Stone, len: nat, fuel: nat, more: nat)
    requires Sound(Quick(s)) && 0 <= x < |s.b| && IsColour(col) && Sized(s) && (s.b[x] == col || s.g[x] == 0)
    requires fuel <= more
    ensures Chase(s, x, col, len, fuel).Done? ==> Chase(s, x, col, len, more) == Chase(s, x, col, len, fuel)
    decreases fuel, 2, 0
  {
    hide Sound, QuickPlay, IsPrey, ChaseFrom, Ataris;
    ChaseFacts(s, x, col);
    var h := s.g[x];
    if h != 0 && |s.lib[h]| == 2 {
      PreyPoints(s, h, col);
      ChaseFromMore(s, h, col, len, Ataris(s, s.lib[h]), 0, fuel, more);
    }
  }

  lemma {:induction false} ChaseFromMore(s: State, h: int, col: Stone, len: nat, tries: seq<int>, i: nat, fuel: nat,
      more: nat)
    requires Sound(Quick(s)) && IsPrey(s, h, col) && h < |s.lib| && |s.lib[h]| == 2
    requires (forall c :: c in tries ==> c in s.lib[h]) && i <= |tries| && fuel <= more
    ensures ChaseFrom(s, h, col, len, tries, i, fuel).Done? ==>
      ChaseFrom(s, h, col, len, tries, i, more) == ChaseFrom(s, h, col, len, tries, i, fuel)
    decreases fuel, 1, |tries| - i
  {
    hide Sound, QuickPlay, IsPrey, Flee;
    PreyPoints(s, h, col);
    if i < |tries| {
      var c := tries[i];
      assert c in tries;
      ChaseFromMore(s, h, col, len, tries, i + 1, fuel, more);
      var (r, ok, u) := QuickPlay(s, Move(c, Other(col)));
      if ok {
        AtariFollows(s, h, col, c);
        if r.g[c] != 0 && fuel > 0 { FleeMore(r, h, col, len, fuel - 1, more - 1); }
      }
    }
  }

  lemma {:induction false} FleeMore(s: State, h: int, col: Stone, len: nat, fuel: nat, more: nat)
    requires Sound(Quick(s)) && IsPrey(s, h, col) && |s.lib[h]| == 1 && fuel <= more
    ensures Flee(s, h, col, len, fuel).Done? ==> Flee(s, h, col, len, more) == Flee(s, h, col, len, fuel)
    decreases fuel, 4, 0
  {
    hide Sound, QuickPlay, IsPrey, KoBeside, Counters, Chase, Escapes;
    PreyPoints(s, h, col);
    EscapesMore(s, h, col, Counters(s, h), 0, fuel, more);
    EscapeAccepted(s, h, col);
    ReplyLeaves(s, h, col, s.lib[h][0]);
    Played(s, Move(s.lib[h][0], col));
    ChaseMore(QuickPlay(s, Move(s.lib[h][0], col)).0, h, col, len + 1, fuel, more);
  }

  lemma {:induction false} EscapesMore(s: State, h: int, col: Stone, moves: seq<int>, i: nat, fuel: nat, more: nat)
    requires Sound(Quick(s)) && IsPrey(s, h, col) && i <= |moves| && fuel <= more
    ensures Escapes(s, h, col, moves, i, fuel).Done? ==>
      Escapes(s, h, col, moves, i, more) == Escapes(s, h, col, moves, i, fuel)
    decreases fuel, 3, |moves| - i
  {
    hide Sound, QuickPlay, IsPrey, Chase, ValidPlay;
    PreyPoints(s, h, col);
    if i < |moves| {
      var c := moves[i];
      EscapesMore(s, h, col, moves, i + 1, fuel, more);
      if CanTry(s, c, col) {
        TryAccepted(s, c, col);
        ReplyLeaves(s, h, col, c);
        Played(s, Move(c, col));
        ChaseMore(QuickPlay(s, Move(c, col)).0, h, col, 0, fuel, more);
      }
    }
  }

  // ------------------------------------------------------------ the length handed down

  predicate SameAnswer(v: Verdict, w: Verdict) {
    v.Unfinished? == w.Unfinished? && (v.Done? ==> (v.len == 0 <==> w.len == 0))
  }

  /** Whether an answer is finished, and whether it is 0, does not depend on the length so far, unless the
      chain is caught already and one of the lengths is 0. */
  lemma {:induction false} ChaseLen(s: State, x: int, col: Stone, len: nat, other: nat, fuel: nat)
    requires Sound(Quick(s)) && 0 <= x < |s.b| && IsColour(col) && Sized(s) && (s.b[x] == col || s.g[x] == 0)
    requires (len > 0 && other > 0) || !Caught(s.b, s.st, x, col)
    ensures SameAnswer(Chase(s, x, col, len, fuel), Chase(s, x, col, other, fuel))
    decreases fuel, 2, 0
  {
    hide Sound, QuickPlay, IsPrey, LibOK, LibSet, Reach, OneLib, ChaseFrom, Ataris;
    ChaseFacts(s, x, col);
    IdFacts(s, x);
    var h := s.g[x];
    if h != 0 {
      StoneFacts(s, x);
      if |s.lib[h]| == 2 {
        PreyPoints(s, h, col);
        ChaseFromLen(s, h, col, len, other, Ataris(s, s.lib[h]), 0, fuel);
      }
    }
  }

  lemma {:induction false} ChaseFromLen(s: State, h: int, col: Stone, len: nat, other: nat, tries: seq<int>, i: nat,
      fuel: nat)
    requires Sound(Quick(s)) && IsPrey(s, h, col) && h < |s.lib| && |s.lib[h]| == 2
    requires (forall c :: c in tries ==> c in s.lib[h]) && i <= |tries|
    ensures SameAnswer(ChaseFrom(s, h, col, len, tries, i, fuel), ChaseFrom(s, h, col, other, tries, i, fuel))
    decreases fuel, 1, |tries| - i
  {
    hide Sound, QuickPlay, IsPrey, Flee;
    PreyPoints(s, h, col);
    if i < |tries| {
      var c := tries[i];
      assert c in tries;
      ChaseFromLen(s, h, col, len, other, tries, i + 1, fuel);
      var (r, ok, u) := QuickPlay(s, Move(c, Other(col)));
      if ok {
        AtariFollows(s, h, col, c);
        if r.g[c] != 0 && fuel > 0 { FleeLen(r, h, col, len, other, fuel - 1); }
      }
    }
  }

  lemma {:induction false} FleeLen(s: State, h: int, col: Stone, len: nat, other: nat, fuel: nat)
    requires Sound(Quick(s)) && IsPrey(s, h, col) && |s.lib[h]| == 1
    ensures SameAnswer(Flee(s, h, col, len, fuel), Flee(s, h, col, other, fuel))
    decreases fuel, 4, 0
  {
    hide Sound, QuickPlay, IsPrey, KoBeside, Counters, Chase, Escapes;
    PreyPoints(s, h, col);
    EscapeAccepted(s, h, col);
    ReplyLeaves(s, h, col, s.lib[h][0]);
    Played(s, Move(s.lib[h][0], col));
    ChaseLen(QuickPlay(s, Move(s.lib[h][0], col)).0, h, col, len + 1, other + 1, fuel);
  }

  /** The reader's entry for a chain in atari: it must have two empty points beside its liberty. */
  ghost function MiddleLadder(s: State, h: int, col: Stone, fuel: nat): Verdict
    requires Sound(Quick(s)) && IsPrey(s, h, col) && |s.lib[h]| == 1 && 0 <= s.lib[h][0] < |s.n|
  {
    if ImmediateLibs(s, s.lib[h][0]) != 2 then Done(0) else Flee(s, h, col, 0, fuel)
  }

  /** A chain said to be in a ladder is lost, whatever the escaper tries. */
  lemma MiddleLadderSound(s: State, h: int, col: Stone, fuel: nat)
    requires Sound(Quick(s)) && IsPrey(s, h, col) && |s.lib[h]| == 1 && 0 <= s.lib[h][0] < |s.n|
    ensures 0 < h < |s.b|
    ensures var v := MiddleLadder(s, h, col, fuel);
      v.Done? && v.len != 0 ==> EscaperLoses(Position(s), s.st, h, col, fuel)
  {
    hide Sound, Flee, EscaperLoses;
    FleeSound(s, h, col, 0, fuel);
  }

  // ------------------------------------------------------------ would it be a ladder

  /** A chaser's move at one of two liberties, read out. */
  ghost function WouldBe(s: State, h: int, col: Stone, c: int, fuel: nat): Verdict
    requires Sound(Quick(s)) && IsPrey(s, h, col) && h < |s.lib| && |s.lib[h]| == 2 && c in s.lib[h]
  {
    hide Sound, QuickPlay, IsPrey, ValidPlayNoSuicide;
    PreyPoints(s, h, col);
    PreyLibs(s, h, col);
    if !ValidPlayNoSuicide(s, Move(c, Other(col))) then Done(0)
    else
      StayAccepted(s, Move(c, Other(col)));
      AtariFollows(s, h, col, c);
      Flee(QuickPlay(s, Move(c, Other(col))).0, h, col, 0, fuel)
  }

  lemma StayAccepted(s: State, m: Move)
    requires Sound(Quick(s)) && IsColour(m.colour) && 0 <= m.coord < |s.b|
    ensures Sized(s) && (s.b[m.coord] == Empty ==> Inner(s, m.coord))
    ensures ValidPlayNoSuicide(s, m) ==>
      QuickPlay(s, m).1 && |QuickPlay(s, m).0.g| == |s.b| && QuickPlay(s, m).0.g[m.coord] != 0
  {
    hide Sound, QuickPlay, ValidPlayNoSuicide, Step, Turn, Legal;
    Played(s, m);
    ValidPlayNoSuicideIff(Quick(s), m);
    NoSuicideSame(s, m);
    StepLegal(s.b, s.st, s.ko, m);
    IdFacts(QuickPlay(s, m).0, m.coord);
  }

  lemma NoSuicideSame(s: State, m: Move)
    requires Sized(s) && 0 <= m.coord < |s.b| && (s.b[m.coord] == Empty ==> Inner(s, m.coord))
    ensures ValidPlayNoSuicide(Quick(s), m) == ValidPlayNoSuicide(s, m)
  {
    if s.b[m.coord] == Empty {
      AtariFromSame(s, m.coord, Other(m.colour), 0);
      RoomyFromSame(s, m.coord, m.colour, 0);
    }
  }

  lemma {:induction false} AtariFromSame(s: State, x: int, c: Stone, k: int)
    requires 0 <= k <= 4 && Inner(s, x)
    ensures Inner(Quick(s), x) && AtariFrom(Quick(s), x, c, k) == AtariFrom(s, x, c, k)
    decreases 4 - k
  {
    if k < 4 { AtariFromSame(s, x, c, k + 1); }
  }

  lemma {:induction false} RoomyFromSame(s: State, x: int, c: Stone, k: int)
    requires 0 <= k <= 4 && Inner(s, x)
    ensures Inner(Quick(s), x) && RoomyFrom(Quick(s), x, c, k) == RoomyFrom(s, x, c, k)
    decreases 4 - k
  {
    if k < 4 { RoomyFromSame(s, x, c, k + 1); }
  }

  /** If the chasing move is said to work, it is an atari no reply answers. */
  lemma WouldBeSound(s: State, h: int, col: Stone, c: int, fuel: nat)
    requires Sound(Quick(s)) && IsPrey(s, h, col) && h < |s.lib| && |s.lib[h]| == 2 && c in s.lib[h]
    ensures 0 < h < |s.b|
    ensures var v := WouldBe(s, h, col, c, fuel); v.Done? && v.len != 0 ==> Attack(Position(s), s.st, h, col, c,
        fuel + 1)
  {
    hide Sound, QuickPlay, IsPrey, ValidPlayNoSuicide, Step, EscaperLoses, Flee;
    PreyPoints(s, h, col);
    PreyLibs(s, h, col);
    var m := Move(c, Other(col));
    StayAccepted(s, m);
    if ValidPlayNoSuicide(s, m) {
      AtariFollows(s, h, col, c);
      AfterMove(s, m);
      FleeSound(QuickPlay(s, m).0, h, col, 0, fuel);
    }
  }
}
