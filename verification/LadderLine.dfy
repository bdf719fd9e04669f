/** The length the ladder reader hands back: the number of ataris, each followed by the escape, on a line
    of play that ends with the chain caught. */
module LadderLine {
  import opened Grid
  import opened LibList
  import opened Engine
  import opened Books
  import opened Rules
  import opened PlayTheorem
  import opened Reachable
  import opened Legality
  import opened KoTheorem
  import opened Undo
  import opened UndoTheorem
  import opened LadderRules
  import opened CounterCaptures
  import opened Ladder

  /** The chaser, to move, catches the chain of x after k ataris, each answered by running. */
  ghost predicate Line(g: Game, st: int, x: int, col: Stone, k: nat)
    requires 0 <= x < |g.b|
    decreases k, 0
  {
    if k == 0 then Caught(g.b, st, x, col) else exists c, e :: AtariLine(g, st, x, col, c, e, k)
  }

  /** The chain has the liberties c and e; the chaser plays c, and the chain runs at e. */
  ghost predicate AtariLine(g: Game, st: int, x: int, col: Stone, c: int, e: int, k: nat)
    requires 0 <= x < |g.b| && k > 0
    decreases k - 1, 2
  {
    0 <= c < |g.b| && c != e && g.b[x] == col && LibSet(g.b, st, x) == {c, e}
    && Step(g, st, Move(c, Other(col))).1
    && var g' := Step(g, st, Move(c, Other(col))).0;
      |g'.b| == |g.b| && g'.b[c] == Other(col) && RunLine(g', st, x, col, e, k - 1)
  }

  /** The chain is in atari and runs at its liberty e. */
  ghost predicate RunLine(g: Game, st: int, x: int, col: Stone, e: int, k: nat)
    requires 0 <= x < |g.b|
    decreases k, 1
  {
    0 <= e < |g.b| && g.b[x] == col && LibSet(g.b, st, x) == {e} && Step(g, st, Move(e, col)).1
    && var g' := Step(g, st, Move(e, col)).0; |g'.b| == |g.b| && Line(g', st, x, col, k)
  }

  // ------------------------------------------------------------ stones of one chain share a line

  lemma {:induction false} LineTogether(g: Game, st: int, x: int, y: int, col: Stone, k: nat)
    requires IsColour(col) && Together(g.b, st, x, y, col) && Line(g, st, x, col, k)
    ensures Line(g, st, y, col, k)
    decreases k, 0
  {
    hide Step, LibSet, Reach, RunLine;
    if g.b[x] == col {
      ReachRange(g.b, st, x, y);
      LibSetSame(g.b, st, x, y);
      if k > 0 {
        var c, e :| AtariLine(g, st, x, col, c, e, k);
        StepTogether(g, st, Move(c, Other(col)), x, y, col);
        RunTogether(Step(g, st, Move(c, Other(col))).0, st, x, y, col, e, k - 1);
        assert AtariLine(g, st, y, col, c, e, k);
      }
    }
  }

  lemma {:induction false} RunTogether(g: Game, st: int, x: int, y: int, col: Stone, e: int, k: nat)
    requires IsColour(col) && Together(g.b, st, x, y, col) && RunLine(g, st, x, col, e, k)
    ensures RunLine(g, st, y, col, e, k)
    decreases k, 1
  {
    hide Step, LibSet, Reach, Line;
    ReachRange(g.b, st, x, y);
    LibSetSame(g.b, st, x, y);
    StepTogether(g, st, Move(e, col), x, y, col);
    LineTogether(Step(g, st, Move(e, col)).0, st, x, y, col, k);
  }

  // ------------------------------------------------------------ the answers

  /** An answer other than 0 counts the ataris of such a line, added to the length so far. */
  lemma {:induction false} ChaseLine(s: State, x: int, col: Stone, len: nat, fuel: nat)
    requires Sound(Quick(s)) && 0 <= x < |s.b| && IsColour(col) && Sized(s) && (s.b[x] == col || s.g[x] == 0)
    ensures var v := Chase(s, x, col, len, fuel);
      v.Done? && v.len != 0 ==> v.len >= len && Line(Position(s), s.st, x, col, v.len - len)
    decreases fuel, 2, 0
  {
    hide Sound, QuickPlay, IsPrey, LibOK, LibSet, Reach, OneLib, ChaseFrom, AtariLine, Ataris;
    ChaseFacts(s, x, col);
    IdFacts(s, x);
    var h := s.g[x];
    if h != 0 {
      StoneFacts(s, x);
      if |s.lib[h]| == 2 {
        PreyPoints(s, h, col);
        ChaseFromLine(s, h, col, len, Ataris(s, s.lib[h]), 0, fuel);
        var v := ChaseFrom(s, h, col, len, Ataris(s, s.lib[h]), 0, fuel);
        if v.Done? && v.len != 0 { LineTogether(Position(s), s.st, h, x, col, v.len - len); }
      }
    }
  }

  lemma {:induction false} ChaseFromLine(s: State, h: int, col: Stone, len: nat, tries: seq<int>, i: nat, fuel: nat)
    requires Sound(Quick(s)) && IsPrey(s, h, col) && h < |s.lib| && |s.lib[h]| == 2
    requires (forall c :: c in tries ==> c in s.lib[h]) && i <= |tries|
    ensures 0 < h < |s.b|
    ensures var v := ChaseFrom(s, h, col, len, tries, i, fuel);
      v.Done? && v.len != 0 ==> v.len > len && Line(Position(s), s.st, h, col, v.len - len)
    decreases fuel, 1, |tries| - i
  {
    hide Sound, QuickPlay, IsPrey, Step, RunLine, Flee, LibSet, AtariLine;
    PreyPoints(s, h, col);
    if i < |tries| {
      var c := tries[i];
      assert c in tries;
      ChaseFromLine(s, h, col, len, tries, i + 1, fuel);
      var (r, ok, u) := QuickPlay(s, Move(c, Other(col)));
      if ok {
        AtariFollows(s, h, col, c);
        if r.g[c] != 0 && fuel > 0 {
          PreyPoints(r, h, col);
          FleeLine(r, h, col, len, fuel - 1);
          var w := Flee(r, h, col, len, fuel - 1);
          if w.Done? && w.len != 0 { AtariBefore(s, h, col, c, w.len - len); }
        }
      }
    }
  }

  /** An atari of the reader in front of the line of the escape. */
  lemma AtariBefore(s: State, h: int, col: Stone, c: int, k: nat)
    requires Sound(Quick(s)) && IsPrey(s, h, col) && h < |s.lib| && |s.lib[h]| == 2 && c in s.lib[h] && 0 <= c < |s.b|
    requires k > 0 && QuickPlay(s, Move(c, Other(col))).1
    requires var r := QuickPlay(s, Move(c, Other(col))).0;
      c < |r.g| && r.g[c] != 0 && IsPrey(r, h, col) && h < |r.lib| && |r.lib[h]| == 1 && h < |r.b|
      && RunLine(Position(r), r.st, h, col, r.lib[h][0], k - 1)
    ensures 0 < h < |s.b| && Line(Position(s), s.st, h, col, k)
  {
    hide Sound, QuickPlay, Step, Turn, LibSet, Reach, RunLine;
    PreyPoints(s, h, col);
    PreyLibs(s, h, col);
    OtherIs(col);
    var m := Move(c, Other(col));
    AfterMove(s, m);
    Played(s, m);
    var r := QuickPlay(s, m).0;
    AtariFollows(s, h, col, c);
    SoundStanding(Quick(s));
    TwoMembers(s.lib[h], LibSet(s.b, s.st, h), c);
    var e := if s.lib[h][0] == c then s.lib[h][1] else s.lib[h][0];
    AtariLeaves(s.b, s.st, c, e, Other(col), h);
    PreyFacts(r, h, col);
    assert e in LibSet(r.b, r.st, h);
    assert AtariLine(Position(s), s.st, h, col, c, e, k);
  }

  lemma {:induction false} FleeLine(s: State, h: int, col: Stone, len: nat, fuel: nat)
    requires Sound(Quick(s)) && IsPrey(s, h, col) && |s.lib[h]| == 1
    ensures 0 < h < |s.b|
    ensures var v := Flee(s, h, col, len, fuel);
      v.Done? && v.len != 0 ==> v.len > len && RunLine(Position(s), s.st, h, col, s.lib[h][0], v.len - len - 1)
    decreases fuel, 4, 0
  {
    hide Sound, QuickPlay, IsPrey, Step, Line, Flee, Chase, LibSet, OneLib;
    PreyFacts(s, h, col);
    var v := Flee(s, h, col, len, fuel);
    if v.Done? && v.len != 0 {
      FleeParts(s, h, col, len, fuel);
      var l := s.lib[h][0];
      AfterMove(s, Move(l, col));
      ChaseLine(QuickPlay(s, Move(l, col)).0, h, col, len + 1, fuel);
    }
  }

  // ------------------------------------------------------------ the order of the ataris

  /** With two ataris worth trying, the one with more empty points around goes first; when they have the
      same number, the order is that of the liberty list. */
  lemma AtariOrder(s: State, h: int, col: Stone)
    requires Sound(Quick(s)) && IsPrey(s, h, col) && h < |s.lib| && |s.lib[h]| == 2
    ensures 0 <= s.lib[h][0] < |s.n| && 0 <= s.lib[h][1] < |s.n| && s.st >= 3
    ensures var l := s.lib[h]; s.st <= l[0] < |s.b| - s.st && s.st <= l[1] < |s.b| - s.st
    ensures var l, r := s.lib[h], Ataris(s, s.lib[h]);
      |r| == 2 ==>
        if Around(s.b, s.st, l[0], Empty) < Around(s.b, s.st, l[1], Empty) then r == [l[1], l[0]] else r == l
    ensures |Ataris(s, s.lib[h])| <= 2
  {
    hide Sound, LibSet, Spacious;
    PreyPoints(s, h, col);
    PreyLibs(s, h, col);
    var l := s.lib[h];
    assert l[0] in l && l[1] in l && l == [l[0], l[1]];
    FreeNeighbours(Quick(s), l[0]);
    FreeNeighbours(Quick(s), l[1]);
  }

  // ------------------------------------------------------------ unfinished readings

  /** From a chaser to move, a line of d + 1 ataris by the rules, with a legal reply after all but the last. */
  ghost predicate Deep(g: Game, st: int, x: int, col: Stone, d: nat)
    requires 0 <= x < |g.b|
    decreases d, 2
  {
    exists c :: DeepAtari(g, st, x, col, c, d)
  }

  /** The atari at c is legal, its stone stays, and the line goes on from there. */
  ghost predicate DeepAtari(g: Game, st: int, x: int, col: Stone, c: int, d: nat)
    requires 0 <= x < |g.b|
    decreases d, 1
  {
    0 <= c < |g.b| && g.b[x] == col && c in LibSet(g.b, st, x) && Step(g, st, Move(c, Other(col))).1
    && var g' := Step(g, st, Move(c, Other(col))).0;
      |g'.b| == |g.b| && g'.b[c] == Other(col) && g'.b[x] == col && OneLib(g'.b, st, x)
      && (d > 0 ==> DeepReply(g', st, x, col, d - 1))
  }

  /** Some legal reply of the escaper, running or a counter-capture, after which the line goes on. */
  ghost predicate DeepReply(g: Game, st: int, x: int, col: Stone, d: nat)
    requires 0 <= x < |g.b|
    decreases d, 4
  {
    exists c :: DeepAfter(g, st, x, col, c, d)
  }

  ghost predicate DeepAfter(g: Game, st: int, x: int, col: Stone, c: int, d: nat)
    requires 0 <= x < |g.b|
    decreases d, 3
  {
    0 <= c < |g.b| && Reply(g.b, st, x, col, c) && Step(g, st, Move(c, col)).1
    && var g' := Step(g, st, Move(c, col)).0; |g'.b| == |g.b| && Deep(g', st, x, col, d)
  }

  lemma {:induction false} DeepTogether(g: Game, st: int, x: int, y: int, col: Stone, d: nat)
    requires IsColour(col) && Together(g.b, st, x, y, col) && Deep(g, st, x, col, d)
    ensures Deep(g, st, y, col, d)
    decreases d, 2
  {
    hide Step, LibSet, Reach, DeepReply;
    var c :| DeepAtari(g, st, x, col, c, d);
    ReachRange(g.b, st, x, y);
    LibSetSame(g.b, st, x, y);
    StepTogether(g, st, Move(c, Other(col)), x, y, col);
    var g' := Step(g, st, Move(c, Other(col))).0;
    ReachRange(g'.b, st, x, y);
    LibSetSame(g'.b, st, x, y);
    if d > 0 { DeepReplyTogether(g', st, x, y, col, d - 1); }
    assert DeepAtari(g, st, y, col, c, d);
  }

  lemma {:induction false} DeepReplyTogether(g: Game, st: int, x: int, y: int, col: Stone, d: nat)
    requires IsColour(col) && Together(g.b, st, x, y, col) && g.b[x] == col && DeepReply(g, st, x, col, d)
    ensures DeepReply(g, st, y, col, d)
    decreases d, 4
  {
    hide Step, Reach, Reply, Deep;
    var c :| DeepAfter(g, st, x, col, c, d);
    ReplySame(g.b, st, x, y, col, c);
    StepTogether(g, st, Move(c, col), x, y, col);
    DeepTogether(Step(g, st, Move(c, col)).0, st, x, y, col, d);
    assert DeepAfter(g, st, y, col, c, d);
  }

  /** A reading only stays unfinished with a line of more ataris than it has fuel. */
  lemma {:induction false} ChaseDeep(s: State, x: int, col: Stone, len: nat, fuel: nat)
    requires Sound(Quick(s)) && 0 <= x < |s.b| && IsColour(col) && Sized(s) && (s.b[x] == col || s.g[x] == 0)
    ensures Chase(s, x, col, len, fuel).Unfinished? ==> Deep(Position(s), s.st, x, col, fuel)
    decreases fuel, 2, 0
  {
    hide Sound, QuickPlay, IsPrey, LibOK, LibSet, Reach, OneLib, ChaseFrom, Ataris, Deep;
    ChaseFacts(s, x, col);
    IdFacts(s, x);
    var h := s.g[x];
    if h != 0 {
      StoneFacts(s, x);
      if |s.lib[h]| == 2 {
        PreyPoints(s, h, col);
        ChaseFromDeep(s, h, col, len, Ataris(s, s.lib[h]), 0, fuel);
        if Deep(Position(s), s.st, h, col, fuel) { DeepTogether(Position(s), s.st, h, x, col, fuel); }
      }
    }
  }

  lemma {:induction false} ChaseFromDeep(s: State, h: int, col: Stone, len: nat, tries: seq<int>, i: nat, fuel: nat)
    requires Sound(Quick(s)) && IsPrey(s, h, col) && h < |s.lib| && |s.lib[h]| == 2
    requires (forall c :: c in tries ==> c in s.lib[h]) && i <= |tries|
    ensures 0 < h < |s.b|
    ensures ChaseFrom(s, h, col, len, tries, i, fuel).Unfinished? ==> Deep(Position(s), s.st, h, col, fuel)
    decreases fuel, 1, |tries| - i
  {
    hide Sound, QuickPlay, IsPrey, Step, Flee, LibSet, DeepAtari, DeepReply;
    PreyPoints(s, h, col);
    if i < |tries| {
      var c := tries[i];
      assert c in tries;
      ChaseFromDeep(s, h, col, len, tries, i + 1, fuel);
      var (r, ok, u) := QuickPlay(s, Move(c, Other(col)));
      if ok {
        AtariFollows(s, h, col, c);
        if r.g[c] != 0 {
          PreyPoints(r, h, col);
          if fuel > 0 { FleeDeep(r, h, col, len, fuel - 1); }
          if fuel == 0 || DeepReply(Position(r), r.st, h, col, fuel - 1) { AtariDeep(s, h, col, c, fuel); }
        }
      }
    }
  }

  lemma AtariDeep(s: State, h: int, col: Stone, c: int, fuel: nat)
    requires Sound(Quick(s)) && IsPrey(s, h, col) && h < |s.lib| && |s.lib[h]| == 2 && c in s.lib[h] && 0 <= c < |s.b|
    requires QuickPlay(s, Move(c, Other(col))).1
    requires var r := QuickPlay(s, Move(c, Other(col))).0;
      c < |r.g| && r.g[c] != 0 && 0 <= h < |r.b| && (fuel > 0 ==> DeepReply(Position(r), r.st, h, col, fuel - 1))
    ensures 0 < h < |s.b| && DeepAtari(Position(s), s.st, h, col, c, fuel)
  {
    hide Sound, QuickPlay, Step, Turn, LibSet, Reach, DeepReply;
    PreyPoints(s, h, col);
    PreyLibs(s, h, col);
    AfterMove(s, Move(c, Other(col)));
    AtariFollows(s, h, col, c);
    PreyFacts(QuickPlay(s, Move(c, Other(col))).0, h, col);
  }

  lemma {:induction false} FleeDeep(s: State, h: int, col: Stone, len: nat, fuel: nat)
    requires Sound(Quick(s)) && IsPrey(s, h, col) && |s.lib[h]| == 1
    ensures 0 < h < |s.b|
    ensures Flee(s, h, col, len, fuel).Unfinished? ==> DeepReply(Position(s), s.st, h, col, fuel)
    decreases fuel, 4, 0
  {
    hide Sound, QuickPlay, IsPrey, Step, Chase, LibSet, OneLib, KoBeside, Counters, Escapes, Deep, CounterMove, CanTry;
    PreyFacts(s, h, col);
    EscapesDeep(s, h, col, Counters(s, h), 0, fuel);
    EscapeAccepted(s, h, col);
    var c := s.lib[h][0];
    ReplyLeaves(s, h, col, c);
    AfterMove(s, Move(c, col));
    ChaseDeep(QuickPlay(s, Move(c, col)).0, h, col, len + 1, fuel);
    if Deep(Position(QuickPlay(s, Move(c, col)).0), s.st, h, col, fuel) {
      assert Reply(s.b, s.st, h, col, c);
      assert DeepAfter(Position(s), s.st, h, col, c, fuel);
    }
    var q := Counters(s, h);
    if e :| 0 <= e < |q| && CanTry(s, q[e], col) && DeepTry(s, h, col, q[e], fuel) {
      var d := q[e];
      CounterCapturesExact(s, h, d);
      assert Reply(s.b, s.st, h, col, d);
      assert DeepAfter(Position(s), s.st, h, col, d, fuel);
    }
  }

  /** After the legal move at c the line goes on. */
  ghost predicate DeepTry(s: State, h: int, col: Stone, c: int, d: nat) {
    0 <= c < |s.b| && 0 <= h < |s.b| && Step(Position(s), s.st, Move(c, col)).1
    && var g := Step(Position(s), s.st, Move(c, col)).0; |g.b| == |s.b| && Deep(g, s.st, h, col, d)
  }

  lemma {:induction false} EscapesDeep(s: State, h: int, col: Stone, moves: seq<int>, i: nat, fuel: nat)
    requires Sound(Quick(s)) && IsPrey(s, h, col) && i <= |moves|
    ensures 0 < h < |s.b|
    ensures Escapes(s, h, col, moves, i, fuel).Unfinished? ==>
      exists j :: i <= j < |moves| && CanTry(s, moves[j], col) && DeepTry(s, h, col, moves[j], fuel)
    decreases fuel, 3, |moves| - i
  {
    hide Sound, QuickPlay, IsPrey, Step, Chase, ValidPlay, Deep;
    PreyPoints(s, h, col);
    if i < |moves| {
      var c := moves[i];
      EscapesDeep(s, h, col, moves, i + 1, fuel);
      if CanTry(s, c, col) {
        TryAccepted(s, c, col);
        ReplyLeaves(s, h, col, c);
        AfterMove(s, Move(c, col));
        ChaseDeep(QuickPlay(s, Move(c, col)).0, h, col, 0, fuel);
        if Chase(QuickPlay(s, Move(c, col)).0, h, col, 0, fuel).Unfinished? {
          assert DeepTry(s, h, col, moves[i], fuel);
        }
      }
    }
  }
}
