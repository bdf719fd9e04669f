/** What the board remembers of the moves: the last four of them, the passes, the captures, the last ko,
    and the bits of the hash. All of it is read off the game the rules make of the moves. */
module MoveRecord {
  import opened Grid
  import opened Engine
  import opened Books
  import opened Rules
  import opened PlayTheorem
  import opened BoardTheorem
  import opened Reachable
  import opened Undo
  import opened UndoTheorem

  /** The entry of a ring of four that is j places behind the one at `at`. */
  function Behind(ring: seq<Move>, at: int, j: int): Move
    requires |ring| == 4 && 0 <= at < 4 && 0 <= j < 4
  {
    ring[(4 + at - j) % 4]
  }

  /** The move played j moves before the last one. */
  function Ago(s: State, j: int): Move
    requires Sized(s) && 0 <= j < 4
  {
    Behind(s.recent, s.recentAt, j)
  }

  // ------------------------------------------------------------ one move

  /** r remembers the move m and, one place further back, what s remembered. */
  predicate Remembers(s: State, m: Move, r: State)
    requires Sized(s) && Sized(r)
  {
    Ago(r, 0) == m && Ago(r, 1) == Ago(s, 0) && Ago(r, 2) == Ago(s, 1) && Ago(r, 3) == Ago(s, 2)
  }

  /** The quick board only remembers two moves; the places of the others are not touched. */
  predicate QuickRemembers(s: State, m: Move, r: State)
    requires Sized(s) && Sized(r)
  {
    Ago(r, 0) == m && Ago(r, 1) == Ago(s, 0) && Ago(r, 2) == Ago(s, 2) && Ago(r, 3) == Ago(s, 3)
    && r.recentAt == s.recentAt
  }

  /** A ko set by the move is the last ko, with the number of the move. */
  predicate KoNoted(s: State, r: State) {
    if r.ko != NO_MOVE then r.lastKo == r.ko && r.lastKoAge == r.moves
    else r.lastKo == s.lastKo && r.lastKoAge == s.lastKoAge
  }

  /** What else changes with an accepted move m: the move number, the passes of its colour, and the last ko
      if it sets one. */
  predicate Counted(s: State, m: Move, r: State) {
    && r.moves == s.moves + 1
    && r.passes.black == s.passes.black + One(m.coord == PASS && m.colour == Black)
    && r.passes.white == s.passes.white + One(m.coord == PASS && m.colour == White)
    && KoNoted(s, r) && r.full == s.full && r.keys == s.keys && r.rules == s.rules
  }

  predicate Recorded(s: State, m: Move, r: State)
    requires Sized(s) && Sized(r)
  {
    if s.full then Remembers(s, m, r) else QuickRemembers(s, m, r)
  }

  lemma RingTurns(ring: seq<Move>, at: int, m: Move)
    requires |ring| == 4 && 0 <= at < 4
    ensures var i := (at + 1) % 4; var r := ring[i := m];
      Behind(r, i, 0) == m && Behind(r, i, 1) == Behind(ring, at, 0) && Behind(r, i, 2) == Behind(ring, at, 1)
      && Behind(r, i, 3) == Behind(ring, at, 2)
    ensures var r := ring[(4 + at - 1) % 4 := ring[at]][at := m];
      Behind(r, at, 0) == m && Behind(r, at, 1) == Behind(ring, at, 0) && Behind(r, at, 2) == Behind(ring, at, 2)
      && Behind(r, at, 3) == Behind(ring, at, 3)
  {
  }

  /** Recording a move after steps that left the record alone. */
  lemma Committed(s: State, q: State, m: Move)
    requires Sized(s) && SameShape(s, q) && q.recent == s.recent && q.recentAt == s.recentAt
    ensures var r := Commit(q, m); Sized(r) && Recorded(s, m, r)
  {
    hide Behind;
    RingTurns(s.recent, s.recentAt, m);
  }

  lemma KeptRecorded(s: State, m: Move, q: State, r: State)
    requires Sized(s) && Sized(q) && Sized(r) && q.recent == r.recent && q.recentAt == r.recentAt
    requires Recorded(s, m, q)
    ensures Recorded(s, m, r)
  {
  }

  lemma OutsideRecorded(s: State, m: Move)
    requires Inner(s, m.coord) && IsColour(m.colour)
    ensures var (r, grp) := PlayOutside(s, m);
      Sized(r) && Recorded(s, m, r) && Counted(s, m, r) && r.ko == NO_MOVE
  {
    hide PlayUpTo, NewGroup, TakeFree, KeyOf, Xor, Recorded;
    var (s1, grp) := PlayUpTo(TakeFree(s, m.coord), m.coord, m.colour, 4);
    var s2 := s1.(b := s1.b[m.coord := m.colour]);
    var s3 := if grp == 0 then NewGroup(s2, m.coord) else s2;
    assert Kept(s, s3);
    Committed(s, s3, m);
    KeptRecorded(s, m, Commit(s3, m), PlayOutside(s, m).0);
  }

  lemma EyeRecorded(s: State, m: Move)
    requires Inner(s, m.coord) && IsColour(m.colour)
    ensures var r := EnteredEye(s, m); Sized(r) && Recorded(s, m, r) && Counted(s, m, r)
  {
    hide EyeUpTo, NewGroup, TakeFree, KeyOf, Xor, Recorded;
    var e := EyeUpTo(TakeFree(s, m.coord), m.coord, m.colour, 4);
    var ko := if e.taken == 1 then Move(e.at, Other(m.colour)) else NO_MOVE;
    var s1 := if e.taken == 1 then e.s.(lastKo := ko, lastKoAge := e.s.moves + 1) else e.s;
    var s2 := NewGroup(s1.(b := s1.b[m.coord := m.colour]), m.coord);
    Committed(s, s2, m);
    KeptRecorded(s, m, Commit(s2, m), EnteredEye(s, m));
  }

  lemma StoneRecorded(s: State, m: Move)
    requires Inner(s, m.coord) && IsColour(m.colour)
    ensures var (r, ok) := PlayStone(s, m); Sized(r) && (ok ==> Counted(s, m, r) && Recorded(s, m, r))
  {
    hide PlayOutside, EnteredEye, Capture, Eyelike, AtariNbs, Recorded;
    OutsideRecorded(s, m);
    EyeRecorded(s, m);
    var (s1, grp) := PlayOutside(s, m);
    KeptRecorded(s, m, s1, if s1.lib[grp] == [] then Capture(s1, grp) else s1);
  }

  lemma PassRecorded(s: State, m: Move)
    requires Sized(s) && IsColour(m.colour) && m.coord == PASS
    ensures var (r, ok) := Play(s, m); Sized(r) && Counted(s, m, r) && Recorded(s, m, r)
  {
    hide PlayStone, Recorded;
    var s1 := s.(passes := Bump(s.passes, m.colour, 1));
    var s2 := if s.rules == Siming then s1.(caps := Bump(s1.caps, Other(m.colour), 1)) else s1;
    Committed(s, s2.(ko := NO_MOVE), m);
  }

  /** An accepted move is the last one remembered. */
  lemma MoveRecorded(s: State, m: Move)
    requires Sized(s) && Offered(s, m)
    ensures var (r, ok) := Play(s, m); Sized(r) && (ok ==> Counted(s, m, r) && Recorded(s, m, r))
  {
    hide PlayStone, Recorded;
    if m.coord == PASS { PassRecorded(s, m); } else if Inner(s, m.coord) { StoneRecorded(s, m); }
  }

  /** So it is for a move tried on the quick board. */
  lemma TrialRecorded(s: State, m: Move)
    requires Sound(Quick(s)) && Offered(s, m)
    ensures Sized(s)
    ensures var (r, ok, u) := QuickPlay(s, m); Sized(r) && (ok ==> QuickRemembers(s, m, r) && KoNoted(s, r))
    ensures var (r, ok, u) := QuickPlay(s, m); ok ==> r.moves == s.moves + 1 && r.full == s.full
  {
    hide Sound, Play;
    QuickSized(s);
    MoveRecorded(Quick(s), m);
    if m.coord == PASS { QuickPasses(s, m); } else { PlayedOK(s, m); }
  }

  // ------------------------------------------------------------ runs

  /** The moves the rules accept, in order. */
  ghost function Accepted(g: Game, st: int, ms: seq<Move>): (r: seq<Move>)
    requires Playable(|g.b|, ms)
    decreases ms
  {
    if ms == [] then []
    else
      var m := ms[|ms| - 1];
      assert Playable(|g.b|, [m]);
      Accepted(g, st, ms[..|ms| - 1])
      + if Step(GameAfter(g, st, ms[..|ms| - 1]), st, m).1 then [m] else []
  }

  /** How many of the moves are passes, and how many stones, of the colour col. */
  function PassesIn(l: seq<Move>, col: Stone): nat {
    if l == [] then 0 else PassesIn(l[..|l| - 1], col) + One(l[|l| - 1] == Move(PASS, col))
  }

  function StonesIn(l: seq<Move>, col: Stone): nat {
    if l == [] then 0
    else StonesIn(l[..|l| - 1], col) + One(l[|l| - 1].coord != PASS && l[|l| - 1].colour == col)
  }

  /** The last four moves of the board are the last ones accepted. */
  lemma {:induction false} LastMovesKept(s: State, ms: seq<Move>, j: int)
    requires Sound(s) && s.full && Playable(|s.b|, ms) && 0 <= j < 4
    ensures Sized(s)
    ensures var r, l := After(s, ms), Accepted(Game(s.b, s.ko), s.st, ms);
      r.full && Ago(r, j) == if j < |l| then l[|l| - 1 - j] else Ago(s, j - |l|)
    decreases ms
  {
    hide Play, Step, Sound, GameAfter, After;
    SoundIsSized(s);
    RunRefinesGame(s, ms);
    if ms == [] {
      assert After(s, ms) == s by { AfterNone(s); }
    } else {
      var l := ms[..|ms| - 1];
      var m := ms[|ms| - 1];
      RunRefinesGame(s, l);
      AfterNext(s, ms);
      LastMovesKept(s, l, j);
      if j > 0 { LastMovesKept(s, l, j - 1); }
      PlayRefinesStep(After(s, l), m);
      MoveRecorded(After(s, l), m);
    }
  }

  lemma SoundIsSized(s: State)
    requires Sound(s)
    ensures Sized(s)
  {
    hide Quiet, BooksOK, KoOK;
  }

  lemma AfterNone(s: State)
    requires Sized(s)
    ensures After(s, []) == s
  {
  }

  lemma AfterNext(s: State, ms: seq<Move>)
    requires Sized(s) && Playable(|s.b|, ms) && ms != []
    ensures var s1, m := After(s, ms[..|ms| - 1]), ms[|ms| - 1]; Offered(s1, m) && After(s, ms) == Play(s1, m).0
  {
    hide Play;
    assert ms[|ms| - 1] in ms;
  }

  /** Moves, passes and captures after a run. The stones of a colour that were put down are on the board or
      among the captures of the other; under Siming rules each pass adds a capture for the other. */
  lemma {:induction false} RunRecorded(s: State, ms: seq<Move>)
    requires Sound(s) && Playable(|s.b|, ms)
    ensures Sized(s)
    ensures var r, l := After(s, ms), Accepted(Game(s.b, s.ko), s.st, ms);
      r.moves == s.moves + |l| && r.rules == s.rules && r.keys == s.keys && r.full == s.full
      && r.passes.black == s.passes.black + PassesIn(l, Black) && r.passes.white == s.passes.white + PassesIn(l, White)
    ensures var r, l := After(s, ms), Accepted(Game(s.b, s.ko), s.st, ms);
      StonesOf(r.b, Black) + r.caps.white == StonesOf(s.b, Black) + s.caps.white + StonesIn(l, Black)
        + if s.rules == Siming then PassesIn(l, Black) else 0
    ensures var r, l := After(s, ms), Accepted(Game(s.b, s.ko), s.st, ms);
      StonesOf(r.b, White) + r.caps.black == StonesOf(s.b, White) + s.caps.black + StonesIn(l, White)
        + if s.rules == Siming then PassesIn(l, White) else 0
    decreases ms
  {
    hide Play, Step, Sound, GameAfter, After, StonesOf;
    SoundIsSized(s);
    if ms == [] {
      AfterNone(s);
    } else {
      var l := ms[..|ms| - 1];
      var m := ms[|ms| - 1];
      RunRefinesGame(s, l);
      AfterNext(s, ms);
      RunRecorded(s, l);
      var s1 := After(s, l);
      PlayRefinesStep(s1, m);
      MoveRecorded(s1, m);
      OneAccounted(s1, m);
      var a, b := Accepted(Game(s.b, s.ko), s.st, l), Accepted(Game(s.b, s.ko), s.st, ms);
      assert b == a || (b == a + [m] && b[..|b| - 1] == a);
    }
  }

  /** What one offered move does to the account of both colours. */
  lemma OneAccounted(s: State, m: Move)
    requires Sound(s) && Offered(s, m) && Sized(s)
    ensures var (r, ok) := Play(s, m);
      StonesOf(r.b, Black) + r.caps.white == StonesOf(s.b, Black) + s.caps.white
        + One(ok && m.colour == Black && (m.coord != PASS || s.rules == Siming))
    ensures var (r, ok) := Play(s, m);
      StonesOf(r.b, White) + r.caps.black == StonesOf(s.b, White) + s.caps.black
        + One(ok && m.colour == White && (m.coord != PASS || s.rules == Siming))
  {
    hide Sound, StonesOf, Step, PlayStone;
    PlayRefinesStep(s, m);
    assert Accounted(Play(s, m).0, Black) == StonesOf(Play(s, m).0.b, Black) + Play(s, m).0.caps.white;
    assert Accounted(Play(s, m).0, White) == StonesOf(Play(s, m).0.b, White) + Play(s, m).0.caps.black;
    assert Accounted(s, Black) == StonesOf(s.b, Black) + s.caps.white;
    assert Accounted(s, White) == StonesOf(s.b, White) + s.caps.black;
  }

  /** The whole record from the empty board. */
  lemma RecordFromEmpty(v: seq<Stone>, st: int, keys: seq<Key>, rules: Ruleset, ms: seq<Move>)
    requires Bare(v, st) && |keys| == |v| && Playable(|v|, ms)
    ensures Sized(Cleared(v, st, keys, rules))
    ensures var r, l := After(Cleared(v, st, keys, rules), ms), Accepted(Game(v, NO_MOVE), st, ms);
      r.moves == |l| && forall j :: 0 <= j < 4 ==> Ago(r, j) == if j < |l| then l[|l| - 1 - j] else NO_MOVE
    ensures var r, l := After(Cleared(v, st, keys, rules), ms), Accepted(Game(v, NO_MOVE), st, ms);
      r.passes == Tally(PassesIn(l, Black), PassesIn(l, White)) && r.rules == rules && r.keys == keys && r.full
    ensures var r, l := After(Cleared(v, st, keys, rules), ms), Accepted(Game(v, NO_MOVE), st, ms);
      r.caps.white == StonesIn(l, Black) - StonesOf(r.b, Black) + if rules == Siming then r.passes.black else 0
    ensures var r, l := After(Cleared(v, st, keys, rules), ms), Accepted(Game(v, NO_MOVE), st, ms);
      r.caps.black == StonesIn(l, White) - StonesOf(r.b, White) + if rules == Siming then r.passes.white else 0
  {
    hide Sound, After, Accepted, StonesOf, PassesIn, StonesIn;
    var s := Cleared(v, st, keys, rules);
    ClearedSound(v, st, keys, rules);
    NoStonesHash(v, keys);
    RunRecorded(s, ms);
    forall j | 0 <= j < 4
      ensures var l := Accepted(Game(v, NO_MOVE), st, ms);
        Ago(After(s, ms), j) == if j < |l| then l[|l| - 1 - j] else NO_MOVE
    {
      LastMovesKept(s, ms, j);
    }
  }

  // ------------------------------------------------------------ the bits of the hash

  /** The stone at x brings this bit of its key. */
  predicate Brings(b: seq<Stone>, keys: seq<Key>, x: int, bit: int)
    requires |b| == |keys| && 0 <= x < |b|
  {
    (b[x] == Black && bit in keys[x].black) || (b[x] == White && bit in keys[x].white)
  }

  function Bringers(b: seq<Stone>, keys: seq<Key>, bit: int): set<int>
    requires |b| == |keys|
  {
    set x | 0 <= x < |b| && Brings(b, keys, x, bit)
  }

  lemma BringsIsKey(b: seq<Stone>, keys: seq<Key>, x: int, bit: int)
    requires |b| == |keys| && 0 <= x < |b|
    ensures Brings(b, keys, x, bit) <==> bit in KeyOf(keys[x], b[x])
  {
  }

  /** The last point of the board joins the stones that bring the bit, or does not. */
  lemma LastBringer(b: seq<Stone>, keys: seq<Key>, bit: int, n: nat)
    requires |b| == |keys| == n + 1
    ensures var t := Bringers(b[..n], keys[..n], bit);
      Bringers(b, keys, bit) == (if Brings(b, keys, n, bit) then t + {n} else t) && n !in t
  {
    forall x | 0 <= x < n ensures Brings(b, keys, x, bit) == Brings(b[..n], keys[..n], x, bit) { }
    hide Brings;
  }

  lemma {:induction false} XorIsParity(b: seq<Stone>, keys: seq<Key>, bit: int)
    requires |b| == |keys|
    ensures bit in XorAll(b, keys) <==> |Bringers(b, keys, bit)| % 2 == 1
    decreases |b|
  {
    hide Brings, KeyOf;
    var n := |b| - 1;
    if n < 0 {
      assert Bringers(b, keys, bit) == {};
    } else {
      XorIsParity(b[..n], keys[..n], bit);
      LastBringer(b, keys, bit, n);
      BringsIsKey(b, keys, n, bit);
      hide Bringers;
      assert XorAll(b, keys) == Xor(XorAll(b[..n], keys[..n]), KeyOf(keys[n], b[n]));
    }
  }

  /** On a sound full board a bit is in the hash exactly if an odd number of stones bring it. */
  lemma HashIsParity(s: State, bit: int)
    requires Sound(s) && s.full
    ensures |s.b| == |s.keys| && (bit in s.hash <==> |Bringers(s.b, s.keys, bit)| % 2 == 1)
  {
    hide Quiet, CountsOK, FreeOK, AtariOK, KoOK, XorAll, Bringers;
    XorIsParity(s.b, s.keys, bit);
  }
}
