/** The score of the board from white's side, and why the formula for Japanese rules, which starts from
    areas, counts territory and prisoners. */
module TerritoryScore {
  import opened Grid
  import opened Engine
  import opened Books
  import opened PlayTheorem
  import opened Reachable
  import opened Scoring
  import opened MoveRecord
  import opened Rules

  function Compensation(rules: Ruleset, handicap: nat): int {
    match rules
    case Siming => 0
    case Japanese => if handicap != 0 then handicap - 1 else 0
    case Aga => if handicap != 0 then handicap - 1 else 0
    case _ => handicap
  }

  /** The score for the points counted for the two colours. */
  function Score(s: State, komi: real, handicap: nat, black: int, white: int): real
    requires Sized(s)
  {
    var area := komi + (Compensation(s.rules, handicap) + white - black) as real;
    if s.rules == Japanese then
      area + (One(s.recent[s.recentAt].colour == Black) + (s.passes.white - s.passes.black)) as real
    else area
  }

  /** Points that carry a stone counted for col. */
  ghost function Stones(s: State, m0: seq<Owner>, col: Stone): set<int>
    requires |m0| == |s.b|
  {
    set x | 0 <= x < |s.b| && s.b[x] != Empty && m0[x] == Held(col)
  }

  method OfficialResult(s: State, dead: seq<int>, komi: real, handicap: nat, ownermap: array<Owner>)
    returns (score: real, ghost m0: seq<Owner>)
    requires Sound(s) && s.full && ownermap.Length == |s.b| && Names(s, dead)
    modifies ownermap
    ensures Sized(s) && StartsAs(s, dead, m0)
    ensures !HasStone(s.b) ==> score == komi
    ensures HasStone(s.b) && s.rules != StonesOnly ==>
      score == Score(s, komi, handicap, |Area(s, m0, Black)|, |Area(s, m0, White)|)
    ensures HasStone(s.b) && s.rules == StonesOnly ==>
      score == komi + (handicap + |Stones(s, m0, White)| - |Stones(s, m0, Black)|) as real
  {
    hide Sound, Area, OwnerRight, HasStone, Stones, Names;
    SoundIsSized(s);
    var blank, black, white, dame;
    blank, black, white, dame, m0 := OfficialScore(s, dead, ownermap);
    if blank { return komi, m0; }
    score := Score(s, komi, handicap, black, white);
    if s.rules == StonesOnly {
      OnlyStones(s, dead, m0, ownermap[..], Black);
      OnlyStones(s, dead, m0, ownermap[..], White);
    }
  }

  lemma OnlyStones(s: State, dead: seq<int>, m0: seq<Owner>, m: seq<Owner>, col: Stone)
    requires StartsAs(s, dead, m0) && |m| == |s.b|
    requires forall x :: 0 <= x < |s.b| ==> m[x] == if s.b[x] == Empty then Dame else m0[x]
    ensures Tallied(m, Held(col), |m|) == |Stones(s, m0, col)|
  {
    var t := set x | 0 <= x < |m| && m[x] == Held(col);
    assert t == Stones(s, m0, col);
    TalliedIsSize(m, Held(col), |m|);
  }

  // ------------------------------------------------------------ territory and prisoners

  /** What surrounds nothing but col: empty points of its area, and points of dead stones of the other. */
  ghost function Territory(s: State, m0: seq<Owner>, col: Stone): set<int>
    requires |m0| == |s.b|
  {
    set x | 0 <= x < |s.b| && Counts1(s, m0, x, col) && s.b[x] != col
  }

  /** Stones of the colour col on the board that are dead. */
  ghost function DeadStones(s: State, m0: seq<Owner>, col: Stone): set<int>
    requires |m0| == |s.b|
  {
    set x | 0 <= x < |s.b| && s.b[x] == col && m0[x] != Held(col)
  }

  ghost function OnBoard(b: seq<Stone>, col: Stone): set<int> { set x | 0 <= x < |b| && b[x] == col }

  lemma LastOn(b: seq<Stone>, col: Stone, n: nat)
    requires |b| == n + 1
    ensures var t := OnBoard(b[..n], col); n !in t && OnBoard(b, col) == if b[n] == col then t + {n} else t
  {
  }

  lemma {:induction false} StonesCounted(b: seq<Stone>, col: Stone)
    ensures StonesOf(b, col) == |OnBoard(b, col)|
    decreases |b|
  {
    if |b| > 0 {
      var n := |b| - 1;
      LastOn(b, col, n);
      hide OnBoard;
      StonesCounted(b[..n], col);
    } else {
      assert OnBoard(b, col) == {};
    }
  }

  lemma Apart(a: set<int>, b: set<int>, c: set<int>)
    requires a + b == c && a !! b
    ensures |c| == |a| + |b|
  {
  }

  ghost function Living(s: State, m0: seq<Owner>, col: Stone): set<int>
    requires |m0| == |s.b|
  {
    set x | 0 <= x < |s.b| && s.b[x] == col && m0[x] == Held(col)
  }

  lemma AreaParts(s: State, m0: seq<Owner>, col: Stone)
    requires |m0| == |s.b| && IsColour(col)
    ensures Territory(s, m0, col) + Living(s, m0, col) == Area(s, m0, col)
    ensures Territory(s, m0, col) !! Living(s, m0, col)
  {
    hide Reaches;
  }

  lemma BoardParts(s: State, m0: seq<Owner>, col: Stone)
    requires |m0| == |s.b|
    ensures Living(s, m0, col) + DeadStones(s, m0, col) == OnBoard(s.b, col)
    ensures Living(s, m0, col) !! DeadStones(s, m0, col)
  {
  }

  /** An area is territory and living stones. */
  lemma AreaIsTerritory(s: State, m0: seq<Owner>, col: Stone)
    requires |m0| == |s.b| && IsColour(col)
    ensures |Area(s, m0, col)| == |Territory(s, m0, col)| + StonesOf(s.b, col) - |DeadStones(s, m0, col)|
  {
    hide StonesOf;
    StonesCounted(s.b, col);
    AreaParts(s, m0, col);
    BoardParts(s, m0, col);
    hide Area, Territory, DeadStones, OnBoard, Living;
    Apart(Territory(s, m0, col), Living(s, m0, col), Area(s, m0, col));
    Apart(Living(s, m0, col), DeadStones(s, m0, col), OnBoard(s.b, col));
  }

  /** Territory and prisoners of white less those of black. */
  ghost function TerritoryCount(s: State, m0: seq<Owner>, komi: real): real
    requires |m0| == |s.b|
  {
    komi + (|Territory(s, m0, White)| + |DeadStones(s, m0, Black)| + s.caps.white
            - |Territory(s, m0, Black)| - |DeadStones(s, m0, White)| - s.caps.black) as real
  }

  function MovesOf(l: seq<Move>, col: Stone): nat {
    if l == [] then 0 else MovesOf(l[..|l| - 1], col) + One(l[|l| - 1].colour == col)
  }

  lemma {:induction false} MovesSplit(l: seq<Move>, col: Stone)
    ensures MovesOf(l, col) == PassesIn(l, col) + StonesIn(l, col)
    decreases l
  {
    if l != [] { MovesSplit(l[..|l| - 1], col); }
  }

  function LastIsBlack(l: seq<Move>): bool { l != [] && l[|l| - 1].colour == Black }

  /** The record of the board agrees with the list of the moves accepted. */
  ghost predicate RecordOf(s: State, l: seq<Move>) {
    && Sized(s) && s.passes == Tally(PassesIn(l, Black), PassesIn(l, White))
    && s.caps.white == StonesIn(l, Black) - StonesOf(s.b, Black)
    && s.caps.black == StonesIn(l, White) - StonesOf(s.b, White)
    && Ago(s, 0) == if l == [] then NO_MOVE else l[|l| - 1]
  }

  lemma ScoreIsCount(s: State, l: seq<Move>, m0: seq<Owner>, komi: real, handicap: nat)
    requires RecordOf(s, l) && s.rules == Japanese && |m0| == |s.b|
    ensures Score(s, komi, handicap, |Area(s, m0, Black)|, |Area(s, m0, White)|) == TerritoryCount(s, m0, komi)
      <==> MovesOf(l, Black) - MovesOf(l, White) == Compensation(Japanese, handicap) + One(LastIsBlack(l))
  {
    hide StonesOf, PassesIn, StonesIn, MovesOf, Area, Territory, DeadStones;
    AreaIsTerritory(s, m0, Black);
    AreaIsTerritory(s, m0, White);
    MovesSplit(l, Black);
    MovesSplit(l, White);
    assert Ago(s, 0) == s.recent[s.recentAt];
    assert (s.recent[s.recentAt].colour == Black) == LastIsBlack(l);
  }

  lemma RecordNow(v: seq<Stone>, st: int, keys: seq<Key>, ms: seq<Move>)
    requires Bare(v, st) && |keys| == |v| && Playable(|v|, ms)
    ensures Sized(Cleared(v, st, keys, Japanese))
    ensures var s := After(Cleared(v, st, keys, Japanese), ms);
      RecordOf(s, Accepted(Game(v, NO_MOVE), st, ms)) && s.rules == Japanese && |s.b| == |v|
  {
    hide After, Accepted, StonesOf, PassesIn, StonesIn, Cleared, Sound, Ago;
    RecordFromEmpty(v, st, keys, Japanese, ms);
    RunFromEmpty(v, st, keys, Japanese, ms);
    SoundIsSized(After(Cleared(v, st, keys, Japanese), ms));
  }

  /** After any moves from the empty board the Japanese score is the count of territory and prisoners if
      and only if black made as many moves more than white as the handicap and the last move explain. */
  lemma JapaneseExact(v: seq<Stone>, st: int, keys: seq<Key>, ms: seq<Move>, m0: seq<Owner>, komi: real, handicap: nat)
    requires Bare(v, st) && |keys| == |v| && Playable(|v|, ms) && |m0| == |v|
    ensures Sized(Cleared(v, st, keys, Japanese))
    ensures var s := After(Cleared(v, st, keys, Japanese), ms); Sized(s) && |s.b| == |m0|
    ensures var s, l := After(Cleared(v, st, keys, Japanese), ms), Accepted(Game(v, NO_MOVE), st, ms);
      Score(s, komi, handicap, |Area(s, m0, Black)|, |Area(s, m0, White)|) == TerritoryCount(s, m0, komi)
      <==> MovesOf(l, Black) - MovesOf(l, White) == Compensation(Japanese, handicap) + One(LastIsBlack(l))
  {
    hide After, Accepted, MovesOf, Area, Cleared, RecordOf, Score, TerritoryCount;
    RecordNow(v, st, keys, ms);
    ScoreIsCount(After(Cleared(v, st, keys, Japanese), ms), Accepted(Game(v, NO_MOVE), st, ms), m0, komi, handicap);
  }

  /** The colours of a game with a handicap: that many black stones first, then white and black by turns;
      without one, black begins. */
  function TurnOf(k: nat, handicap: nat): Stone {
    if k < handicap then Black
    else if (k - handicap) % 2 == (if handicap == 0 then 0 else 1) then Black else White
  }

  ghost predicate ByTurns(l: seq<Move>, handicap: nat) {
    handicap <= |l| && forall k :: 0 <= k < |l| ==> l[k].colour == TurnOf(k, handicap)
  }

  lemma {:induction false} TurnsAdd(l: seq<Move>, handicap: nat, n: nat)
    requires n <= |l| && forall k :: 0 <= k < |l| ==> l[k].colour == TurnOf(k, handicap)
    ensures MovesOf(l[..n], Black) - MovesOf(l[..n], White) ==
      if n <= handicap then n else Compensation(Japanese, handicap) + One(l[n - 1].colour == Black)
    decreases n
  {
    if n > 0 {
      TurnsAdd(l, handicap, n - 1);
      assert l[..n][..|l[..n]| - 1] == l[..n - 1] && l[..n][|l[..n]| - 1] == l[n - 1];
    }
  }

  /** In a game by turns, handicap stones first, the Japanese score is exact. */
  lemma JapaneseScore(v: seq<Stone>, st: int, keys: seq<Key>, ms: seq<Move>, m0: seq<Owner>, komi: real, handicap: nat)
    requires Bare(v, st) && |keys| == |v| && Playable(|v|, ms) && |m0| == |v|
    requires ByTurns(Accepted(Game(v, NO_MOVE), st, ms), handicap)
    ensures Sized(Cleared(v, st, keys, Japanese))
    ensures var s := After(Cleared(v, st, keys, Japanese), ms);
      Sized(s) && |s.b| == |m0|
      && Score(s, komi, handicap, |Area(s, m0, Black)|, |Area(s, m0, White)|) == TerritoryCount(s, m0, komi)
  {
    hide After, Accepted, MovesOf, Area, Territory, DeadStones, Cleared, Bare, TerritoryCount, Score;
    var l := Accepted(Game(v, NO_MOVE), st, ms);
    JapaneseExact(v, st, keys, ms, m0, komi, handicap);
    TurnsAdd(l, handicap, |l|);
    assert l[..|l|] == l;
    if l == [] { assert MovesOf(l, Black) == MovesOf(l, White) == 0 by { NoMoves(); } }
  }

  lemma NoMoves()
    ensures MovesOf([], Black) == 0 && MovesOf([], White) == 0
  {
  }
}
