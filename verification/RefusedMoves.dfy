/** A run with a refused move that a replay does not rebuild. */
module RefusedMoves {
  import opened Grid
  import opened Engine
  import opened Books
  import opened Rules
  import opened PlayTheorem
  import opened Legality
  import opened Symmetry
  import opened History
  import opened SymmetricHistory
  import opened PassKo
  import EmptyBoard
  import Reachable

  lemma StoneKeys(s: State, m: Move)
    requires Inner(s, m.coord)
    ensures PlayStone(s, m).0.keys == s.keys && PlayStone(s, m).0.full == s.full
  {
    hide PlayUpTo, EyeUpTo, Capture, NewGroup, Eyelike, AtariNbs;
  }

  lemma KeysKept(s: State, m: Move)
    requires Sized(s) && IsColour(m.colour) && 0 <= m.coord < |s.b|
    ensures Play(s, m).0.keys == s.keys && Play(s, m).0.full == s.full
  {
    hide PlayStone;
    if Inner(s, m.coord) { StoneKeys(s, m); }
  }

  function Lone22(): (v: seq<Stone>)
    ensures |v| == POINTS
  {
    EmptyBoard.EmptyGrid(STRIDE)[22 := Black]
  }

  lemma Lone22Airy()
    ensures Airy(Lone22(), STRIDE) && Lone22()[22] == Black && EmptyBoard.EmptyGrid(STRIDE)[22] == Empty
  {
    var v := Lone22();
    assert v[23] == Empty && Adj(STRIDE, 22, 23);
    assert forall x :: 0 <= x < |v| && IsColour(v[x]) ==> x == 22;
  }

  /** The first stone in the corner of a new object. */
  lemma FirstStone(keys: seq<Key>)
    requires |keys| == POINTS
    ensures Good(NewTable(keys)) && PointOf(0) == 22
    ensures var (r, ok) := Stone19(NewTable(keys), 0, Black);
      ok && r.s.b == Lone22() && Sound(r.s) && r.s.hash == keys[22].black
      && r == Noted(NewTable(keys).(s := r.s))
  {
    hide Sound, Step, Noted, Airy, Play, Legal, Stone19;
    var t, m := NewTable(keys), Move(22, Black);
    NewTableFresh(keys);
    Lone22Airy();
    AiryStep(EmptyBoard.EmptyGrid(STRIDE), STRIDE, m);
    StoneSane(t, 0, Black);
    KeysKept(t.s, m);
    StoneIs(t, 0, Black);
    var s1 := Stone19(t, 0, Black).0.s;
    HashOf(s1);
    FirstHash(keys);
  }

  lemma StoneIs(t: Table, pos: int, col: Stone)
    requires Board19(t.s) && OnBoardPos(pos) && IsColour(col) && Stone19(t, pos, col).1
    ensures 0 <= PointOf(pos) < POINTS
    ensures var r := Stone19(t, pos, col).0; r.s == Play(t.s, Move(PointOf(pos), col)).0 && r == Noted(t.(s := r.s))
  {
    hide Play, ValidPlay;
    PointInside(pos);
  }

  lemma HashOf(s: State)
    requires Sound(s) && s.full
    ensures |s.b| == |s.keys| && s.hash == XorAll(s.b, s.keys)
  {
    hide Quiet, CountsOK, FreeOK, AtariOK, KoOK, XorAll;
  }

  lemma FirstHash(keys: seq<Key>)
    requires |keys| == POINTS
    ensures XorAll(Lone22(), keys) == keys[22].black
  {
    hide XorAll;
    var v := EmptyBoard.EmptyGrid(STRIDE);
    Reachable.NoStonesHash(v, keys);
    XorUpdate(v, keys, 22, Black);
  }

  /** The same point twice: the second move is refused and raises the flag; replaying the history, which
      holds the first move only, does not. The key of the stone must not be zero. */
  lemma SamePointTwice(keys: seq<Key>)
    requires |keys| == POINTS && keys[22].black != {}
    ensures var t := NewTable(keys); Board19(t.s) && Actions([0, 0]) && Refusal(t, [0, 0]) && Run(t, [0, 0]).repeated
    ensures Run(NewTable(keys), [0, 0]).history == "Aa" && Readable("Aa")
    ensures var q := ApplyHistory(NewTable(keys), "Aa"); q.Replayed? && !q.t.repeated
  {
    hide Sound, Stone19, Run, Refusal, Lone22;
    NewTableFresh(keys);
    FirstStone(keys);
    Lone22Airy();
    var t := NewTable(keys);
    var t1 := ApplyMove(t, 0).0;
    RunTwo(t);
    assert t1.history == "Aa";
    SecondRefused(t1);
    StoneReplayed(t, 0, Black, "Aa");
    ReplayNone(t.(history := "Aa"), "Aa");
    ReplayNext(t.(history := "Aa"), "Aa", 0);
  }

  lemma RunTwo(t: Table)
    requires Board19(t.s)
    ensures var t1 := ApplyMove(t, 0).0;
      Actions([0, 0]) && Run(t, [0, 0]) == ApplyMove(t1, 0).0 && (!ApplyMove(t1, 0).1 ==> Refusal(t, [0, 0]))
  {
    hide ApplyMove;
    assert [0, 0][..1] == [0] && [0][..0] == [];
    assert Run(t, []) == t;
  }

  /** A stone on an occupied point is refused, and its unchanged hash is in the window. */
  lemma SecondRefused(t: Table)
    requires Good(t) && t.s.b[22] == Black && t.history == "Aa" && t.s.hash in t.hash8
    ensures var (r, ok) := ApplyMove(t, 0); !ok && r == t.(repeated := true)
  {
    hide Sound, Stone19;
    StoneSane(t, 0, White);
  }
}
