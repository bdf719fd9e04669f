/** The history of a game board read back: which actions it stands for, whose they were, and when the
    object reports a repetition. */
module Notation {
  import opened Grid
  import opened Engine
  import opened Rules
  import opened PlayTheorem
  import opened Symmetry
  import opened History
  import opened SymmetricHistory
  import Legality

  /** The action a pair of letters stands for: column A to S and row a to s, ZP or ZR. */
  function Named(hi: char, lo: char): int {
    if hi == 'Z' && lo == 'P' then PASS
    else if hi == 'Z' && lo == 'R' then RESIGN
    else hi as int - 'A' as int + 19 * (lo as int - 'a' as int)
  }

  /** The actions of a history, pair by pair. */
  function ReadBack(h: string): (l: seq<int>)
    ensures |l| == |h| / 2
    decreases |h|
  {
    if |h| < 2 then [] else [Named(h[0], h[1])] + ReadBack(h[2..])
  }

  /** The actions of a run that were accepted, in order. */
  function Taken(t: Table, l: seq<int>): seq<int>
    requires Board19(t.s) && Actions(l)
    decreases l
  {
    if l == [] then []
    else
      var a := l[|l| - 1];
      Taken(t, l[..|l| - 1]) + if ApplyMove(Run(t, l[..|l| - 1]), a).1 then [a] else []
  }

  /** A pass is written ZP and a resignation ZR; neither touches the board. */
  lemma PassesWritten(t: Table)
    requires Board19(t.s)
    ensures ApplyMove(t, PASS) == (t.(history := t.history + "ZP"), true)
    ensures ApplyMove(t, RESIGN) == (t.(history := t.history + "ZR"), true)
  {
  }

  lemma LettersName(a: int)
    requires IsAction(a)
    ensures Named(Letters(a)[0], Letters(a)[1]) == a
    ensures IsPass(Letters(a)[0], Letters(a)[1]) <==> a == PASS
    ensures IsPoint(Letters(a)[0], Letters(a)[1]) <==> a >= 0
  {
  }

  lemma {:induction false} ReadOneMore(h: string, hi: char, lo: char)
    requires |h| % 2 == 0
    ensures ReadBack(h + [hi, lo]) == ReadBack(h) + [Named(hi, lo)]
    decreases |h|
  {
    hide Named;
    if h == "" {
      assert h + [hi, lo] == [hi, lo] && [hi, lo][2..] == "";
    } else {
      ReadOneMore(h[2..], hi, lo);
      assert (h + [hi, lo])[2..] == h[2..] + [hi, lo];
      assert (h + [hi, lo])[0] == h[0] && (h + [hi, lo])[1] == h[1];
    }
  }

  lemma WrittenBy(t: Table, a: int)
    requires Board19(t.s) && IsAction(a)
    ensures var (r, ok) := ApplyMove(t, a); r.history == if ok then t.history + Letters(a) else t.history
    ensures a < 0 ==> ApplyMove(t, a).1 && ApplyMove(t, a).0.s == t.s
  {
    hide Stone19, Letters;
  }

  /** The history of any run reads back as its accepted actions, passes and resignations told apart. */
  lemma {:induction false} HistoryReads(t: Table, l: seq<int>)
    requires Fresh(t) && Actions(l)
    ensures |Run(t, l).history| % 2 == 0 && ReadBack(Run(t, l).history) == Taken(t, l)
    decreases l
  {
    hide ApplyMove, Sound, Named, Letters;
    if l != [] {
      var k, a := l[..|l| - 1], l[|l| - 1];
      HistoryReads(t, k);
      WrittenBy(Run(t, k), a);
      LettersName(a);
      var w := Letters(a);
      assert w == [w[0], w[1]];
      ReadOneMore(Run(t, k).history, w[0], w[1]);
    }
  }

  /** The history of a run is made of stones and passes exactly if nobody resigned. */
  lemma {:induction false} ProperExactly(t: Table, l: seq<int>)
    requires Fresh(t) && Actions(l)
    ensures Proper(Run(t, l).history) <==> RESIGN !in l
    ensures |Run(t, l).history| % 2 == 0
    decreases l
  {
    hide ApplyMove, Sound, Letters, Proper;
    if l == [] {
      assert Proper("") by { ProperNone(); }
    } else {
      var k, a := l[..|l| - 1], l[|l| - 1];
      ProperExactly(t, k);
      WrittenBy(Run(t, k), a);
      assert l == k + [a];
      ProperMore(Run(t, k).history, a);
      if a == RESIGN { assert RESIGN in l; }
    }
  }

  lemma ProperNone()
    ensures Proper("")
  {
  }

  lemma ProperMore(h: string, a: int)
    requires |h| % 2 == 0 && IsAction(a)
    ensures Proper(h + Letters(a)) <==> Proper(h) && a != RESIGN
  {
    hide Letters, IsPass, IsPoint;
    LettersName(a);
    var h', n := h + Letters(a), |h| / 2;
    assert |h'| / 2 == n + 1 && h'[2 * n] == Letters(a)[0] && h'[2 * n + 1] == Letters(a)[1];
    assert forall k :: 0 <= k < n ==> h'[2 * k] == h[2 * k] && h'[2 * k + 1] == h[2 * k + 1];
    assert forall k :: 0 <= k < n ==> ProperAt(h', k) == ProperAt(h, k);
    assert ProperAt(h', n) <==> a != RESIGN;
    if Proper(h) && a != RESIGN {
      forall k | 0 <= k < n + 1 ensures ProperAt(h', k) { if k < n { assert ProperAt(h, k); } }
    }
    if Proper(h') {
      forall k | 0 <= k < n ensures ProperAt(h, k) { assert ProperAt(h', k); }
      assert ProperAt(h', n);
    }
  }

  // ------------------------------------------------------------ whose move it is

  lemma MoveIsStone(t: Table, a: int)
    requires Board19(t.s) && IsAction(a) && a >= 0
    ensures ApplyMove(t, a).1 == Stone19(t, a, NextColour(t.history)).1
    ensures ApplyMove(t, a).0.s == Stone19(t, a, NextColour(t.history)).0.s
  {
    hide Stone19, Letters;
  }

  /** Where the point number a lies on the padded board: 21 to a row, after one row and one column. */
  function PlaceOf(a: int): int { (a / 19 + 1) * 21 + a % 19 + 1 }

  /** Black and white take turns in the accepted actions, passes and resignations included. A point of
      the board is accepted exactly if the stone of that colour is legal there, and is then played. */
  lemma PlayedByTurns(t: Table, l: seq<int>, a: int)
    requires Fresh(t) && Actions(l) && IsAction(a) && a >= 0
    ensures |Run(t, l).s.b| == POINTS && 0 <= PlaceOf(a) < POINTS
    ensures var r, col := Run(t, l), if |Taken(t, l)| % 2 == 0 then Black else White;
      var (g, legal) := Step(Game(r.s.b, r.s.ko), 21, Move(PlaceOf(a), col));
      var (q, ok) := ApplyMove(r, a);
      ok == legal && Game(q.s.b, q.s.ko) == g
  {
    hide Sound, Step, Stone19, ApplyMove, Run, Taken, Readable;
    HistoryReads(t, l);
    RunSane(t, l);
    var r := Run(t, l);
    assert PointOf(a) == PlaceOf(a);
    var k := |Taken(t, l)|;
    assert |r.history| == 2 * k;
    assert NextColour(r.history) == if k % 2 == 0 then Black else White;
    MoveIsStone(r, a);
    StoneSane(r, a, NextColour(r.history));
  }

  // ------------------------------------------------------------ repetition

  /** After the j-th action the position is one the window already had. */
  predicate RepeatsAt(t: Table, l: seq<int>, j: nat)
    requires Board19(t.s) && Actions(l) && j < |l|
  {
    l[j] >= 0 && ApplyMove(Run(t, l[..j]), l[j]).0.s.hash in Run(t, l[..j]).hash8
  }

  /** The object reports a repetition exactly if some point named in the run left a position of the
      window; refused moves and moves long ago count. */
  lemma {:induction false} RepeatedExactly(t: Table, l: seq<int>)
    requires Board19(t.s) && Actions(l)
    ensures Run(t, l).repeated <==> t.repeated || exists j :: 0 <= j < |l| && RepeatsAt(t, l, j)
    decreases l
  {
    hide ApplyMove, RepeatsAt;
    if l != [] {
      var k := l[..|l| - 1];
      RepeatedExactly(t, k);
      FlagRaised(t, l);
      forall j | 0 <= j < |k| ensures RepeatsAt(t, l, j) == RepeatsAt(t, k, j) { SameRepeat(t, l, j); }
      if j :| 0 <= j < |k| && RepeatsAt(t, k, j) { assert RepeatsAt(t, l, j); }
      if j :| 0 <= j < |l| && RepeatsAt(t, l, j) { assert j < |k| ==> RepeatsAt(t, k, j); }
    }
  }

  lemma SameRepeat(t: Table, l: seq<int>, j: nat)
    requires Board19(t.s) && Actions(l) && j < |l| - 1
    ensures RepeatsAt(t, l, j) == RepeatsAt(t, l[..|l| - 1], j)
  {
    hide ApplyMove;
    assert l[..|l| - 1][..j] == l[..j];
  }

  lemma FlagRaised(t: Table, l: seq<int>)
    requires Board19(t.s) && Actions(l) && l != []
    ensures Run(t, l).repeated == (Run(t, l[..|l| - 1]).repeated || RepeatsAt(t, l, |l| - 1))
  {
    hide ApplyMove;
    MoveFlag(Run(t, l[..|l| - 1]), l[|l| - 1]);
  }

  lemma MoveFlag(t: Table, a: int)
    requires Board19(t.s) && IsAction(a)
    ensures var r := ApplyMove(t, a).0; r.repeated == (t.repeated || (a >= 0 && r.s.hash in t.hash8))
  {
    hide Play, Legality.ValidPlay, Letters;
  }
}
