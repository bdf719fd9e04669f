/** The wrapper the players use: a board together with the history of the game. */
module GameBoards {
  import opened Grid
  import opened Engine
  import opened Rules
  import opened PlayTheorem
  import opened Legality
  import opened UndoTheorem
  import opened Symmetry
  import opened History
  import opened SymmetricHistory
  import opened GoBoard

  lemma Slid(was: seq<Word>, cur: Word, now: seq<Word>)
    requires |now| == if |was| < WINDOW then |was| + 1 else |was|
    requires now == (was + [cur])[|was| + 1 - |now|..]
    ensures now == if |was| < WINDOW then was + [cur] else was[1..] + [cur]
  {
  }

  class GameBoard {
    const board: Board
    var history: string
    var hash8: seq<Word>
    var repeated: bool

    ghost predicate Valid()
      reads this, board, board.b, board.n, board.g, board.p, board.gi, board.fmap
    {
      board.Valid() && Board19(board.Snap()) && Sound(board.Snap())
    }

    /** The abstract value of the object. */
    ghost function Value(): Table
      reads this, board, board.b, board.n, board.g, board.p, board.gi, board.fmap
    {
      Table(board.Snap(), history, hash8, repeated)
    }

    constructor (keys: seq<Key>)
      requires |keys| == POINTS
      ensures Valid() && Fresh(Value()) && fresh(board)
      ensures Value() == NewTable(keys)
    {
      board := new Board(SIZE, keys, Chinese);
      history, hash8, repeated := "", [{}, {}, {}, {}, {}, {}, {}, {}], false;
    }

    method StoreHash(cur: Word)
      modifies this`hash8
      ensures |hash8| == if |old(hash8)| < WINDOW then |old(hash8)| + 1 else |old(hash8)|
      ensures cur in hash8 && hash8 == (old(hash8) + [cur])[|old(hash8)| + 1 - |hash8|..]
    {
      if |hash8| >= WINDOW { hash8 := hash8[1..]; }
      hash8 := hash8 + [cur];
    }

    method IsRepetition(cur: Word) returns (r: bool)
      ensures r == (cur in hash8)
    {
      r := false;
      var i := 0;
      while i < |hash8|
        invariant 0 <= i <= |hash8| && r == (cur in hash8[..i])
      {
        if hash8[i] == cur { r := true; }
        i := i + 1;
      }
      assert hash8[..i] == hash8;
    }

    /** The hash of the position goes into the window, or is found there. */
    method NoteHash(cur: Word)
      modifies this`hash8, this`repeated
      ensures cur in old(hash8) ==> hash8 == old(hash8) && repeated
      ensures cur !in old(hash8) ==> repeated == old(repeated)
      ensures cur !in old(hash8) ==>
        hash8 == if |old(hash8)| < WINDOW then old(hash8) + [cur] else old(hash8)[1..] + [cur]
    {
      var again := IsRepetition(cur);
      if !again {
        ghost var was := hash8;
        StoreHash(cur);
        Slid(was, cur, hash8);
      } else {
        repeated := true;
      }
    }

    method PutStone(pos: int, col: Stone) returns (ok: bool)
      requires Valid() && OnBoardPos(pos) && IsColour(col)
      modifies this`hash8, this`repeated, board, board.b, board.n, board.g, board.p, board.gi, board.fmap
      ensures Valid() && Board19(old(board.Snap())) && (Value(), ok) == Stone19(old(Value()), pos, col)
    {
      hide Sound, Engine.Play, ValidPlay, Step, Legal;
      PointInside(pos);
      var m := Move(Coord(pos / 19, pos % 19), col);
      QuickSound(board.Snap());
      ok := board.IsValidPlay(m);
      if ok { var accepted := board.Play(m); }
      NoteHash(board.hash);
    }

    /** A move of the game: a refused stone is not added to the history. */
    method ApplyMove(a: int) returns (ok: bool)
      requires Valid() && IsAction(a)
      modifies this, board, board.b, board.n, board.g, board.p, board.gi, board.fmap
      ensures Valid() && Board19(old(board.Snap())) && (Value(), ok) == History.ApplyMove(old(Value()), a)
    {
      hide Sound, Stone19;
      ok := true;
      if a >= 0 {
        ok := PutStone(a, NextColour(history));
        if ok { history := history + Letters(a); }
      } else {
        history := history + Letters(a);
      }
    }

    /** Replaying a history; `ok` is false where the source stops at its assertion. */
    method ApplyHistory(h: string) returns (ok: bool)
      requires Valid() && Readable(h)
      modifies this, board, board.b, board.n, board.g, board.p, board.gi, board.fmap
      ensures Valid() && Board19(old(board.Snap()))
      ensures ok == History.ApplyHistory(old(Value()), h).Replayed?
      ensures (ok ==> Replayed(Value()) == History.ApplyHistory(old(Value()), h))
    {
      hide Sound, Stone19, ReplayUpTo;
      ghost var t := Value().(history := h);
      history := h;
      ReplayNone(t, h);
      var step := 0;
      while step < |h| / 2
        invariant 0 <= step <= |h| / 2 && Valid() && ReplayUpTo(t, h, step) == Replayed(Value())
      {
        assert ReadableAt(h, step);
        ReplayNext(t, h, step);
        if h[2 * step] != 'Z' {
          var good := PutStone(ReadPoint(h[2 * step], h[2 * step + 1]), if step % 2 == 0 then Black else White);
          if !good {
            ReplayStops(t, h, step + 1, |h| / 2);
            return false;
          }
        }
        step := step + 1;
      }
      ok := true;
    }
  }
}
