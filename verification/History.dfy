/** The move history of a game board: two letters a move, replayed on a fresh board, and carried
    through the symmetries of the board. */
module History {
  import opened Grid
  import opened Engine
  import opened Rules
  import opened PlayTheorem
  import opened BoardTheorem
  import opened Legality
  import opened Symmetry
  import Reachable

  const RESIGN := -2
  const WINDOW := 8

  /** A move as the player names it: a point by row and column, a pass or a resignation. */
  predicate IsAction(a: int) { RESIGN <= a < SIZE * SIZE }

  function Letters(a: int): (r: string)
    requires IsAction(a)
    ensures |r| == 2
  {
    if a == PASS then "ZP" else if a == RESIGN then "ZR"
    else [(a % 19 + 65) as char, (a / 19 + 97) as char]
  }

  function ReadPoint(hi: char, lo: char): int { hi as int - 65 + (lo as int - 97) * 19 }

  function PointOf(pos: int): int { Coord(pos / 19, pos % 19) }

  predicate OnBoardPos(pos: int) { 0 <= pos < SIZE * SIZE }

  function ColourAt(step: int): Stone { if step % 2 == 0 then Black else White }

  function NextColour(h: string): Stone { if (|h| % 4) / 2 == 0 then Black else White }

  /** The wrapper object: the board, the history, and a window of recent hashes. */
  datatype Table = Table(s: State, history: string, hash8: seq<Word>, repeated: bool)

  predicate Board19(s: State) { Sized(s) && s.st == STRIDE && |s.b| == POINTS }

  lemma PointInside(pos: int)
    requires OnBoardPos(pos)
    ensures Symmetry.Playable(PointOf(pos)) && STRIDE < PointOf(pos) < POINTS - STRIDE
  {
    CoordParts(pos / 19, pos % 19);
  }

  /** The hash of the position goes into the window, unless it is there already. */
  function Noted(t: Table): Table {
    if t.s.hash in t.hash8 then t.(repeated := true)
    else if |t.hash8| < WINDOW then t.(hash8 := t.hash8 + [t.s.hash])
    else t.(hash8 := t.hash8[1..] + [t.s.hash])
  }

  function Stone19(t: Table, pos: int, col: Stone): (r: (Table, bool))
    requires Board19(t.s) && OnBoardPos(pos) && IsColour(col)
    ensures Board19(r.0.s) && r.0.history == t.history
  {
    PointInside(pos);
    var m := Move(PointOf(pos), col);
    var ok := ValidPlay(t.s, m);
    var s1 := if ok then Play(t.s, m).0 else t.s;
    (Noted(t.(s := s1)), ok)
  }

  /** A move for the colour to play; passes and resignations only go into the history. */
  function ApplyMove(t: Table, a: int): (r: (Table, bool))
    requires Board19(t.s) && IsAction(a)
    ensures Board19(r.0.s)
  {
    if a >= 0 then
      var (t1, ok) := Stone19(t, a, NextColour(t.history));
      (if ok then t1.(history := t1.history + Letters(a)) else t1, ok)
    else (t.(history := t.history + Letters(a)), true)
  }

  /** The assertion on a replayed move either holds or stops the program. */
  datatype Replay = Stopped | Replayed(t: Table)

  predicate Readable(h: string) {
    |h| % 2 == 0 && forall k :: 0 <= k < |h| / 2 ==> ReadableAt(h, k)
  }

  predicate ReadableAt(h: string, k: int)
    requires 0 <= k < |h| / 2
  {
    h[2 * k] == 'Z' || OnBoardPos(ReadPoint(h[2 * k], h[2 * k + 1]))
  }

  /** One more move of the history; the colours alternate, black first. */
  function Replay1(t: Table, hi: char, lo: char, step: nat): (r: Replay)
    requires Board19(t.s) && (hi == 'Z' || OnBoardPos(ReadPoint(hi, lo)))
    ensures r.Replayed? ==> Board19(r.t.s) && r.t.history == t.history
  {
    if hi == 'Z' then Replayed(t)
    else
      var (t1, ok) := Stone19(t, ReadPoint(hi, lo), ColourAt(step));
      if ok then Replayed(t1) else Stopped
  }

  function ReplayUpTo(t: Table, h: string, k: nat): (r: Replay)
    requires Board19(t.s) && Readable(h) && k <= |h| / 2
    ensures r.Replayed? ==> Board19(r.t.s) && r.t.history == t.history
  {
    if k == 0 then Replayed(t)
    else
      var r := ReplayUpTo(t, h, k - 1);
      assert ReadableAt(h, k - 1);
      if r.Stopped? then r else Replay1(r.t, h[2 * (k - 1)], h[2 * (k - 1) + 1], k - 1)
  }

  function ApplyHistory(t: Table, h: string): Replay
    requires Board19(t.s) && Readable(h)
  {
    ReplayUpTo(t.(history := h), h, |h| / 2)
  }

  // ------------------------------------------------------------ runs

  predicate Actions(l: seq<int>) { forall i :: 0 <= i < |l| ==> IsAction(l[i]) }

  function Run(t: Table, l: seq<int>): (r: Table)
    requires Board19(t.s) && Actions(l)
    ensures Board19(r.s)
    decreases l
  {
    if l == [] then t else ApplyMove(Run(t, l[..|l| - 1]), l[|l| - 1]).0
  }

  /** Some move of the run was refused. */
  predicate Refusal(t: Table, l: seq<int>)
    requires Board19(t.s) && Actions(l)
    decreases l
  {
    l != [] && (Refusal(t, l[..|l| - 1]) || !ApplyMove(Run(t, l[..|l| - 1]), l[|l| - 1]).1)
  }

  ghost predicate Sane(t: Table) { Sound(t.s) && t.s.hash in t.hash8 && |t.history| % 2 == 0 && Readable(t.history) }

  lemma LettersRead(a: int)
    requires OnBoardPos(a)
    ensures Letters(a)[0] != 'Z' && ReadPoint(Letters(a)[0], Letters(a)[1]) == a
  {
  }

  lemma NotedHolds(t: Table)
    ensures var r := Noted(t); r.s.hash in r.hash8 && r.s == t.s && r.history == t.history
    ensures t.s.hash in t.hash8 ==> Noted(t) == t.(repeated := true)
    ensures forall h :: Noted(t.(history := h)) == Noted(t).(history := h)
    ensures forall x :: Noted(t.(repeated := x)) == Noted(t).(repeated := x || t.s.hash in t.hash8)
  {
    var r := Noted(t);
    assert r.hash8 != [] ==> r.hash8[|r.hash8| - 1] in r.hash8;
  }

  /** A stone is accepted exactly if it is legal; the board stays sound either way, and a refused
      stone changes nothing but the repetition flag, which it always sets. */
  lemma StoneSane(t: Table, pos: int, col: Stone)
    requires Board19(t.s) && OnBoardPos(pos) && IsColour(col) && Sound(t.s)
    ensures 0 <= PointOf(pos) < POINTS
    ensures var (r, ok) := Stone19(t, pos, col); var (g, legal) := Step(Game(t.s.b, t.s.ko), STRIDE,
        Move(PointOf(pos), col));
      Sound(r.s) && r.s.hash in r.hash8 && ok == legal && Game(r.s.b, r.s.ko) == g
    ensures var (r, ok) := Stone19(t, pos, col); !ok && t.s.hash in t.hash8 ==> r == t.(repeated := true)
  {
    hide Sound, Play, ValidPlay, Noted, Legal, Turn, KoAfter;
    PointInside(pos);
    var m := Move(PointOf(pos), col);
    ValidPlayIff(t.s, m);
    PlayRefinesStep(t.s, m);
    NotedHolds(t.(s := if ValidPlay(t.s, m) then Play(t.s, m).0 else t.s));
  }

  /** Neither the history nor an earlier repetition changes what a stone does to the board. */
  lemma StoneElsewhere(t: Table, pos: int, col: Stone, h: string, x: bool)
    requires Board19(t.s) && OnBoardPos(pos) && IsColour(col)
    ensures var (r, ok) := Stone19(t, pos, col); var (r', ok') := Stone19(t.(history := h, repeated := x), pos, col);
      ok' == ok && r' == r.(history := h, repeated := r'.repeated) && (x ==> r'.repeated)
    ensures var (r, ok) := Stone19(t, pos, col); var (r', ok') := Stone19(t.(history := h, repeated := x), pos, col);
      (x ==> t.repeated) ==> r.repeated == (r'.repeated || t.repeated)
  {
    hide Sound, Play, ValidPlay;
  }

  // ------------------------------------------------------------ replaying a history

  lemma ReadableParts(h: string, a: int)
    requires Readable(h) && IsAction(a)
    ensures Readable(h + Letters(a)) && |h + Letters(a)| / 2 == |h| / 2 + 1
    ensures var k := |h| / 2; (h + Letters(a))[2 * k] == Letters(a)[0] && (h + Letters(a))[2 * k + 1] == Letters(a)[1]
  {
    var h', k := h + Letters(a), |h| / 2;
    if a >= 0 { LettersRead(a); }
    forall j | 0 <= j < k + 1 ensures ReadableAt(h', j) {
      if j < k { assert ReadableAt(h, j) && h'[2 * j] == h[2 * j] && h'[2 * j + 1] == h[2 * j + 1]; }
    }
  }

  /** Replaying a longer history does the same to the moves it has in common. */
  lemma {:induction false} ReplayPrefix(t: Table, h: string, h': string, k: nat)
    requires Board19(t.s) && Readable(h) && Readable(h') && h <= h' && k <= |h| / 2
    ensures var r := ReplayUpTo(t.(history := h), h, k); var r' := ReplayUpTo(t.(history := h'), h', k);
      r'.Stopped? == r.Stopped? && (r.Replayed? ==> r'.t == r.t.(history := h'))
  {
    hide Stone19;
    if k > 0 {
      ReplayPrefix(t, h, h', k - 1);
      assert ReadableAt(h, k - 1);
      var r := ReplayUpTo(t.(history := h), h, k - 1);
      if r.Replayed? && h[2 * (k - 1)] != 'Z' {
        StoneReplayed(r.t, ReadPoint(h[2 * (k - 1)], h[2 * (k - 1) + 1]), ColourAt(k - 1), h');
      }
    }
  }

  lemma StoneReplayed(t: Table, pos: int, col: Stone, h: string)
    requires Board19(t.s) && OnBoardPos(pos) && IsColour(col)
    ensures var (r, ok) := Stone19(t, pos, col); Stone19(t.(history := h), pos, col) == (r.(history := h), ok)
  {
    hide Play, ValidPlay;
  }

  lemma ReplayNone(t: Table, h: string)
    requires Board19(t.s) && Readable(h)
    ensures ReplayUpTo(t, h, 0) == Replayed(t)
  {
  }

  lemma ReplayNext(t: Table, h: string, k: nat)
    requires Board19(t.s) && Readable(h) && k < |h| / 2 && ReplayUpTo(t, h, k).Replayed?
    ensures ReadableAt(h, k) && ReplayUpTo(t, h, k + 1) == Replay1(ReplayUpTo(t, h, k).t, h[2 * k], h[2 * k + 1], k)
  {
    hide Stone19;
    assert ReadableAt(h, k);
  }

  ghost predicate Fresh(t: Table) {
    Board19(t.s) && Sound(t.s) && t.history == "" && t.s.hash in t.hash8 && !t.repeated
  }

  lemma ColoursAgree(h: string)
    requires |h| % 2 == 0
    ensures NextColour(h) == ColourAt(|h| / 2)
  {
  }

  lemma RunSane(t: Table, l: seq<int>)
    requires Fresh(t) && Actions(l)
    ensures Sane(Run(t, l))
    decreases l
  {
    hide Sound, Stone19, Noted;
    if l != [] {
      RunSane(t, l[..|l| - 1]);
      var r, a := Run(t, l[..|l| - 1]), l[|l| - 1];
      ReadableParts(r.history, a);
      if a >= 0 { StoneSane(r, a, NextColour(r.history)); }
    }
  }

  /** The table r is what replaying its history gives, but for the repetition flag. */
  ghost predicate Rebuilt(t: Table, r: Table, refused: bool)
    requires Board19(t.s) && Readable(r.history)
  {
    var q := ApplyHistory(t, r.history);
    q.Replayed? && q.t == r.(repeated := q.t.repeated) && r.repeated == (q.t.repeated || refused)
  }

  lemma StepRebuilt(t: Table, r: Table, a: int, refused: bool)
    requires Board19(t.s) && Sane(r) && Board19(r.s) && IsAction(a) && Rebuilt(t, r, refused)
    requires Readable(ApplyMove(r, a).0.history)
    ensures var (r', ok) := ApplyMove(r, a); Rebuilt(t, r', refused || !ok)
  {
    hide Stone19, Sound, Letters, Readable, ReadPoint;
    var (r', ok) := ApplyMove(r, a);
    var q := ApplyHistory(t, r.history).t;
    if a >= 0 {
      StoneSane(r, a, NextColour(r.history));
      StoneElsewhere(r, a, NextColour(r.history), r'.history, q.repeated);
      LettersRead(a);
    }
    if ok {
      var k := |r.history| / 2;
      ReadableParts(r.history, a);
      ReplayPrefix(t, r.history, r'.history, k);
      ReplayNext(t.(history := r'.history), r'.history, k);
      ColoursAgree(r.history);
      if a < 0 { LettersPass(a); }
    }
  }

  lemma LettersPass(a: int)
    requires IsAction(a) && a < 0
    ensures Letters(a)[0] == 'Z'
  {
  }

  /** Replaying the history of any run on a fresh board rebuilds the board, the history and the
      hash window. Only the repetition flag may differ, and exactly by the refused moves, which
      raise it without leaving a trace in the history. */
  lemma {:induction false} ReplayRebuilds(t: Table, l: seq<int>)
    requires Fresh(t) && Actions(l)
    ensures Readable(Run(t, l).history) && Rebuilt(t, Run(t, l), Refusal(t, l))
    decreases l
  {
    hide Sound, Sane, ApplyMove, Rebuilt;
    RunSane(t, l);
    SaneReads(Run(t, l));
    if l == [] {
      EmptyRebuilt(t);
    } else {
      ReplayRebuilds(t, l[..|l| - 1]);
      RunSane(t, l[..|l| - 1]);
      StepRebuilt(t, Run(t, l[..|l| - 1]), l[|l| - 1], Refusal(t, l[..|l| - 1]));
    }
  }

  lemma SaneReads(t: Table)
    requires Sane(t)
    ensures Readable(t.history)
  {
  }

  lemma EmptyRebuilt(t: Table)
    requires Fresh(t)
    ensures Readable(t.history) && Rebuilt(t, t, false)
  {
  }

  /** The whole object is rebuilt if and only if no move was refused, or the replay raises the flag by
      itself. */
  lemma RebuiltExactly(t: Table, l: seq<int>)
    requires Fresh(t) && Actions(l)
    ensures Readable(Run(t, l).history) && ApplyHistory(t, Run(t, l).history).Replayed?
    ensures var q := ApplyHistory(t, Run(t, l).history);
      q == Replayed(Run(t, l)) <==> (Refusal(t, l) ==> q.t.repeated)
  {
    hide Sound, ApplyMove, ApplyHistory;
    ReplayRebuilds(t, l);
  }

  /** Without refused moves the whole object is rebuilt. */
  lemma AcceptedRunRebuilt(t: Table, l: seq<int>)
    requires Fresh(t) && Actions(l) && !Refusal(t, l)
    ensures Readable(Run(t, l).history) && ApplyHistory(t, Run(t, l).history) == Replayed(Run(t, l))
  {
    ReplayRebuilds(t, l);
  }

  /** The hashes a run puts into the window, one after the other. */
  function Stored(t: Table, l: seq<int>): seq<Word>
    requires Board19(t.s) && Actions(l)
    decreases l
  {
    if l == [] then []
    else
      var r, a := Run(t, l[..|l| - 1]), l[|l| - 1];
      var s1 := ApplyMove(r, a).0.s;
      Stored(t, l[..|l| - 1]) + if a >= 0 && s1.hash !in r.hash8 then [s1.hash] else []
  }

  /** The window always holds the last hashes stored, as many as it has places. */
  lemma {:induction false} WindowIsLast(t: Table, l: seq<int>)
    requires Board19(t.s) && Actions(l) && |t.hash8| == WINDOW
    ensures var all := t.hash8 + Stored(t, l); Run(t, l).hash8 == all[|all| - WINDOW..]
    decreases l
  {
    hide ApplyMove;
    if l == [] {
      assert t.hash8 + Stored(t, l) == t.hash8;
    } else {
      WindowIsLast(t, l[..|l| - 1]);
      MoveStores(Run(t, l[..|l| - 1]), l[|l| - 1]);
      LastOnes(t.hash8 + Stored(t, l[..|l| - 1]), ApplyMove(Run(t, l[..|l| - 1]), l[|l| - 1]).0.s.hash);
      assert t.hash8 + Stored(t, l) == t.hash8 + Stored(t, l[..|l| - 1]) + Stored(t, l)[|Stored(t, l[..|l| - 1])|..];
    }
  }

  /** What one move does to a full window. */
  lemma MoveStores(t: Table, a: int)
    requires Board19(t.s) && IsAction(a) && |t.hash8| == WINDOW
    ensures var r := ApplyMove(t, a).0;
      r.hash8 == if a >= 0 && r.s.hash !in t.hash8 then t.hash8[1..] + [r.s.hash] else t.hash8
  {
    hide Play, ValidPlay;
  }

  lemma LastOnes(all: seq<Word>, x: Word)
    requires |all| >= WINDOW
    ensures (all + [x])[|all| + 1 - WINDOW..] == all[|all| - WINDOW..][1..] + [x]
  {
  }

  lemma {:induction false} ReplayStops(t: Table, h: string, j: nat, k: nat)
    requires Board19(t.s) && Readable(h) && j <= k <= |h| / 2 && ReplayUpTo(t, h, j).Stopped?
    ensures ReplayUpTo(t, h, k).Stopped?
    decreases k
  {
    hide Stone19;
    if j < k { ReplayStops(t, h, j, k - 1); }
  }
}
