/** The ladder game as the reader searches it: the chaser tries only the ataris worth trying, and gives
    up when a ko has just been set beside the chain. The escaper may run or capture a chaser. */
module SearchedLadder {
  import opened Grid
  import opened Engine
  import opened Books
  import opened Rules
  import opened LadderRules

  /** After an atari at c the escape e has too much free space. */
  predicate Wide(b: seq<Stone>, st: int, c: int, e: int) {
    Interior(b, st, e) && Around(b, st, e, Empty) > 2 + if Adj(st, c, e) then 1 else 0
  }

  /** The chain of x has two liberties, and c is the one to play for the chaser. */
  ghost predicate WorthTrying(b: seq<Stone>, st: int, x: int, c: int) {
    exists e :: e != c && LibSet(b, st, x) == {c, e} && !Wide(b, st, c, e)
  }

  /** The last move, at the point `last`, set a ko and was played beside the chain of x. */
  ghost predicate KoNear(g: Game, last: int, st: int, x: int) {
    g.ko.coord != PASS && exists z :: 0 <= z < |g.b| && Adj(st, last, z) && Reach(g.b, st, x, z)
  }

  /** The chaser, to move, catches the chain of x within d ataris worth trying. */
  ghost predicate SearchWins(g: Game, st: int, x: int, col: Stone, d: nat)
    requires 0 <= x < |g.b|
    decreases d, 0
  {
    Caught(g.b, st, x, col) || (d > 0 && exists c :: SearchAtari(g, st, x, col, c, d))
  }

  ghost predicate SearchAtari(g: Game, st: int, x: int, col: Stone, c: int, d: nat)
    requires 0 <= x < |g.b| && d > 0
    decreases d - 1, 3
  {
    0 <= c < |g.b| && WorthTrying(g.b, st, x, c) && Holds(g, st, x, col, c, d - 1)
  }

  /** The chaser's move at c is legal, its stone stays, and the escaper has no good reply. */
  ghost predicate Holds(g: Game, st: int, x: int, col: Stone, c: int, d: nat)
    requires 0 <= x < |g.b| && 0 <= c < |g.b|
    decreases d, 2
  {
    Step(g, st, Move(c, Other(col))).1
    && var g' := Step(g, st, Move(c, Other(col))).0;
      |g'.b| == |g.b| && g'.b[c] == Other(col) && SearchLoses(g', c, st, x, col, d)
  }

  /** The chain of x is in atari without a ko beside it, and the chaser wins after every legal reply. */
  ghost predicate SearchLoses(g: Game, last: int, st: int, x: int, col: Stone, d: nat)
    requires 0 <= x < |g.b|
    decreases d, 1
  {
    && g.b[x] == col && OneLib(g.b, st, x) && !KoNear(g, last, st, x)
    && forall c :: 0 <= c < |g.b| && Reply(g.b, st, x, col, c) && Step(g, st, Move(c, col)).1 ==>
         |Step(g, st, Move(c, col)).0.b| == |g.b| && SearchWins(Step(g, st, Move(c, col)).0, st, x, col, d)
  }

  /** The chaser, to move, catches the chain of x. */
  ghost predicate Won(g: Game, st: int, x: int, col: Stone)
    requires 0 <= x < |g.b|
  {
    exists d: nat :: SearchWins(g, st, x, col, d)
  }

  /** The escaper, to move after `last`, loses the chain of x. */
  ghost predicate Lost(g: Game, last: int, st: int, x: int, col: Stone)
    requires 0 <= x < |g.b|
  {
    exists d: nat :: SearchLoses(g, last, st, x, col, d)
  }

  /** The chaser's move at c is legal, its stone stays, and the escaper loses after it. */
  ghost predicate Decisive(g: Game, st: int, x: int, col: Stone, c: int)
    requires 0 <= x < |g.b| && 0 <= c < |g.b|
  {
    Step(g, st, Move(c, Other(col))).1
    && var g' := Step(g, st, Move(c, Other(col))).0;
      |g'.b| == |g.b| && g'.b[c] == Other(col) && Lost(g', c, st, x, col)
  }

  // ------------------------------------------------------------ stones of one chain share their fate

  lemma TrySame(b: seq<Stone>, st: int, x: int, y: int, c: int)
    requires Reach(b, st, x, y) && WorthTrying(b, st, x, c)
    ensures WorthTrying(b, st, y, c)
  {
    hide Reach, LibSet, Wide;
    LibSetSame(b, st, x, y);
  }

  lemma KoSame(g: Game, last: int, st: int, x: int, y: int)
    requires Reach(g.b, st, x, y) && KoNear(g, last, st, x)
    ensures KoNear(g, last, st, y)
  {
    hide Reach, Adj;
    var z :| 0 <= z < |g.b| && Adj(st, last, z) && Reach(g.b, st, x, z);
    ReachSym(g.b, st, x, y);
    ReachTrans(g.b, st, y, x, z);
  }

  lemma {:induction false} SearchWinsTogether(g: Game, st: int, x: int, y: int, col: Stone, d: nat)
    requires IsColour(col) && Together(g.b, st, x, y, col) && SearchWins(g, st, x, col, d)
    ensures SearchWins(g, st, y, col, d)
    decreases d, 0
  {
    hide Step, LibSet, Reach, SearchLoses, WorthTrying;
    if g.b[x] == col {
      ReachRange(g.b, st, x, y);
      LibSetSame(g.b, st, x, y);
      if !Caught(g.b, st, x, col) {
        var c :| SearchAtari(g, st, x, col, c, d);
        assert Holds(g, st, x, col, c, d - 1);
        TrySame(g.b, st, x, y, c);
        StepTogether(g, st, Move(c, Other(col)), x, y, col);
        SearchLosesTogether(Step(g, st, Move(c, Other(col))).0, c, st, x, y, col, d - 1);
        assert Holds(g, st, y, col, c, d - 1);
        assert SearchAtari(g, st, y, col, c, d);
      }
    }
  }

  lemma {:induction false} SearchLosesTogether(g: Game, last: int, st: int, x: int, y: int, col: Stone, d: nat)
    requires IsColour(col) && Together(g.b, st, x, y, col) && SearchLoses(g, last, st, x, col, d)
    ensures SearchLoses(g, last, st, y, col, d)
    decreases d, 1
  {
    hide Step, LibSet, Reach, SearchWins, Reply, KoNear;
    ReachRange(g.b, st, x, y);
    LibSetSame(g.b, st, x, y);
    ReachSym(g.b, st, x, y);
    if KoNear(g, last, st, y) { KoSame(g, last, st, y, x); }
    forall c | 0 <= c < |g.b| && Reply(g.b, st, y, col, c) && Step(g, st, Move(c, col)).1
      ensures |Step(g, st, Move(c, col)).0.b| == |g.b| && SearchWins(Step(g, st, Move(c, col)).0, st, y, col, d)
    {
      ReplySame(g.b, st, y, x, col, c);
      StepTogether(g, st, Move(c, col), x, y, col);
      SearchWinsTogether(Step(g, st, Move(c, col)).0, st, x, y, col, d);
    }
  }

  // ------------------------------------------------------------ more ataris, and more freedom

  /** A win within d ataris is a win within more, and a win of the whole game. */
  lemma {:induction false} SearchWinsMore(g: Game, st: int, x: int, col: Stone, d: nat, more: nat)
    requires 0 <= x < |g.b| && SearchWins(g, st, x, col, d) && d <= more
    ensures SearchWins(g, st, x, col, more) && ChaserWins(g, st, x, col, more)
    decreases d, 0
  {
    hide Step, Caught, SearchLoses, EscaperLoses, WorthTrying;
    if !Caught(g.b, st, x, col) {
      var c :| SearchAtari(g, st, x, col, c, d);
      assert Holds(g, st, x, col, c, d - 1);
      SearchLosesMore(Step(g, st, Move(c, Other(col))).0, c, st, x, col, d - 1, more - 1);
      assert Holds(g, st, x, col, c, more - 1);
      assert SearchAtari(g, st, x, col, c, more) && Attack(g, st, x, col, c, more);
    }
  }

  lemma {:induction false} SearchLosesMore(g: Game, last: int, st: int, x: int, col: Stone, d: nat, more: nat)
    requires 0 <= x < |g.b| && SearchLoses(g, last, st, x, col, d) && d <= more
    ensures SearchLoses(g, last, st, x, col, more) && EscaperLoses(g, st, x, col, more)
    decreases d, 1
  {
    hide Step, SearchWins, ChaserWins, Reply, KoNear, OneLib;
    forall c | 0 <= c < |g.b| && Reply(g.b, st, x, col, c) && Step(g, st, Move(c, col)).1
      ensures |Step(g, st, Move(c, col)).0.b| == |g.b|
      ensures SearchWins(Step(g, st, Move(c, col)).0, st, x, col, more)
      ensures ChaserWins(Step(g, st, Move(c, col)).0, st, x, col, more)
    {
      SearchWinsMore(Step(g, st, Move(c, col)).0, st, x, col, d, more);
    }
  }
}
