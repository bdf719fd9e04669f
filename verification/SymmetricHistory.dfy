/** A history carried through a symmetry of the board is the history of the carried game. */
module SymmetricHistory {
  import opened Grid
  import opened Engine
  import opened Rules
  import opened PlayTheorem
  import opened Symmetry
  import opened History
  import Reachable
  import EmptyBoard

  /** Arithmetic on characters wraps at a byte. */
  function Byte(x: int): char { (x % 256) as char }

  function Turned(sym: int, hi: char, lo: char): (r: string)
    ensures |r| == 2
  {
    if hi == 'Z' && lo == 'P' then "ZP"
    else var (row, col) := Rotate(sym, lo as int - 97, hi as int - 65); [Byte(col + 65), Byte(row + 97)]
  }

  function TurnedUpTo(h: string, sym: int, k: nat): (r: string)
    requires 2 * k <= |h|
    ensures |r| == 2 * k
  {
    if k == 0 then "" else TurnedUpTo(h, sym, k - 1) + Turned(sym, h[2 * (k - 1)], h[2 * (k - 1) + 1])
  }

  method TurnHistory(h: string, sym: int) returns (r: string)
    ensures r == TurnedUpTo(h, sym, |h| / 2)
  {
    r := "";
    var i := 0;
    while i < |h| / 2
      invariant 0 <= i <= |h| / 2 && r == TurnedUpTo(h, sym, i)
    {
      var hi, lo := h[2 * i], h[2 * i + 1];
      if hi == 'Z' && lo == 'P' {
        r := r + "ZP";
      } else {
        var (row, col) := Rotate(sym, lo as int - 97, hi as int - 65);
        r := r + [Byte(col + 65)] + [Byte(row + 97)];
      }
      i := i + 1;
    }
  }

  predicate IsPoint(hi: char, lo: char) { 'A' <= hi <= 'S' && 'a' <= lo <= 's' }

  predicate IsPass(hi: char, lo: char) { hi == 'Z' && lo == 'P' }

  /** A history of stones and passes. */
  predicate Proper(h: string) {
    |h| % 2 == 0 && forall k :: 0 <= k < |h| / 2 ==> ProperAt(h, k)
  }

  predicate ProperAt(h: string, k: int)
    requires 0 <= k < |h| / 2
  {
    IsPass(h[2 * k], h[2 * k + 1]) || IsPoint(h[2 * k], h[2 * k + 1])
  }

  lemma ByteIs(x: int)
    requires 0 <= x < 256
    ensures Byte(x) as int == x
  {
  }

  lemma TurnedParts(sym: int, hi: char, lo: char)
    requires IsPoint(hi, lo)
    ensures var r := Turned(sym, hi, lo);
      IsPoint(r[0], r[1]) && (r[1] as int - 97, r[0] as int - 65) == Rotate(sym, lo as int - 97, hi as int - 65)
  {
    hide Byte, Rotate;
    var (row, col) := Rotate(sym, lo as int - 97, hi as int - 65);
    MapsAreSymmetries(sym, lo as int - 97, hi as int - 65, 0, 0);
    ByteIs(col + 65);
    ByteIs(row + 97);
  }

  lemma PointTurned(sym: int, hi: char, lo: char)
    requires IsPoint(hi, lo)
    ensures var r := Turned(sym, hi, lo); IsPoint(r[0], r[1]) && Turned(Inverse(sym), r[0], r[1]) == [hi, lo]
  {
    hide Byte, Inverse, Rotate, Revert, Turned;
    TurnedParts(sym, hi, lo);
    var r := Turned(sym, hi, lo);
    TurnedParts(Inverse(sym), r[0], r[1]);
    var row, col := lo as int - 97, hi as int - 65;
    MapsAreSymmetries(sym, row, col, 0, 0);
    var (a, b) := Rotate(sym, row, col);
    MapsAreSymmetries(sym, a, b, 0, 0);
  }

  lemma PointRead(hi: char, lo: char)
    requires IsPoint(hi, lo)
    ensures OnBoardPos(ReadPoint(hi, lo)) && PointOf(ReadPoint(hi, lo)) == Coord(lo as int - 97, hi as int - 65)
    ensures hi != 'Z'
  {
  }

  lemma ImageCoord(sym: int, row: int, col: int)
    requires OnBoard(row, col)
    ensures var (a, b) := Rotate(sym, row, col); Image(sym, Coord(row, col)) == Coord(a, b)
  {
    hide Coord, Symmetry.Playable, Rotate;
    CoordParts(row, col);
  }

  /** The turned letters name the turned point. */
  lemma TurnedNames(sym: int, hi: char, lo: char)
    requires IsPoint(hi, lo)
    ensures var r := Turned(sym, hi, lo);
      OnBoardPos(ReadPoint(hi, lo)) && OnBoardPos(ReadPoint(r[0], r[1])) && r[0] != 'Z'
    ensures var r := Turned(sym, hi, lo); PointOf(ReadPoint(r[0], r[1])) == Image(sym, PointOf(ReadPoint(hi, lo)))
  {
    hide ReadPoint, PointOf, Coord, Image, Turned, Rotate;
    var row, col := lo as int - 97, hi as int - 65;
    var r := Turned(sym, hi, lo);
    PointTurned(sym, hi, lo);
    PointRead(hi, lo);
    PointRead(r[0], r[1]);
    TurnedParts(sym, hi, lo);
    ImageCoord(sym, row, col);
  }

  lemma {:induction false} TurnedAt(h: string, sym: int, n: nat, k: int)
    requires 0 <= k < n && 2 * n <= |h|
    ensures var r := TurnedUpTo(h, sym, n); [r[2 * k], r[2 * k + 1]] == Turned(sym, h[2 * k], h[2 * k + 1])
  {
    if k < n - 1 { TurnedAt(h, sym, n - 1, k); }
  }

  /** A symmetry and its inverse restore every history of stones and passes. */
  lemma TurnedBack(h: string, sym: int)
    requires Proper(h)
    ensures var r := TurnedUpTo(h, sym, |h| / 2); Proper(r) && TurnedUpTo(r, Inverse(sym), |r| / 2) == h
  {
    hide TurnedUpTo, Turned;
    var r := TurnedUpTo(h, sym, |h| / 2);
    var q := TurnedUpTo(r, Inverse(sym), |r| / 2);
    forall k | 0 <= k < |h| / 2 ensures ProperAt(r, k) && q[2 * k] == h[2 * k] && q[2 * k + 1] == h[2 * k + 1] {
      TurnedAt(h, sym, |h| / 2, k);
      TurnedAt(r, Inverse(sym), |r| / 2, k);
      assert ProperAt(h, k);
      TurnedPass(sym);
      TurnedPass(Inverse(sym));
      if IsPoint(h[2 * k], h[2 * k + 1]) { PointTurned(sym, h[2 * k], h[2 * k + 1]); }
    }
    forall i | 0 <= i < |h| ensures q[i] == h[i] { assert i == 2 * (i / 2) || i == 2 * (i / 2) + 1; }
  }

  lemma TurnedPass(sym: int)
    ensures Turned(sym, 'Z', 'P') == "ZP"
  {
  }

  /** A resignation is not carried over: all but two of the symmetries turn its letters into a
      move, which no replay can read. */
  lemma ResignationTurned(sym: int)
    ensures Turned(sym, 'Z', 'R')[0] == 'Z' <==> !(1 <= sym <= 5 || sym == 7)
    ensures var r := Turned(sym, 'Z', 'R'); r[0] != 'Z' ==> !OnBoardPos(ReadPoint(r[0], r[1]))
  {
  }

  // ------------------------------------------------------------ games

  ghost predicate Mirrored(sym: int, t: Table, u: Table) {
    Pictures(sym, t.s.b, u.s.b) && KoPictured(sym, t.s.ko, u.s.ko)
  }

  ghost predicate Good(t: Table) { Board19(t.s) && Sound(t.s) }

  lemma StoneMirrored(sym: int, t: Table, u: Table, pos: int, pos': int, col: Stone)
    requires Good(t) && Good(u) && Mirrored(sym, t, u) && OnBoardPos(pos) && OnBoardPos(pos') && IsColour(col)
    requires PointOf(pos') == Image(sym, PointOf(pos))
    ensures var (t1, ok) := Stone19(t, pos, col); var (u1, ok') := Stone19(u, pos', col);
      ok == ok' && Good(t1) && Good(u1) && Mirrored(sym, t1, u1)
  {
    hide Sound, Pictures, KoPictured, Step, Image, Stone19, PointOf;
    PointInside(pos);
    StoneSane(t, pos, col);
    StoneSane(u, pos', col);
    StonePictured(sym, Game(t.s.b, t.s.ko), Game(u.s.b, u.s.ko), Move(PointOf(pos), col));
  }

  lemma ProperReads(h: string)
    requires Proper(h)
    ensures Readable(h)
  {
    forall k | 0 <= k < |h| / 2 ensures ReadableAt(h, k) {
      assert ProperAt(h, k);
      if IsPoint(h[2 * k], h[2 * k + 1]) { PointRead(h[2 * k], h[2 * k + 1]); }
    }
  }

  lemma {:induction false} ReplayMirrored(sym: int, t: Table, u: Table, h: string, k: nat)
    requires Good(t) && Good(u) && Mirrored(sym, t, u) && Proper(h) && k <= |h| / 2
    ensures var r := TurnedUpTo(h, sym, |h| / 2); Readable(h) && Readable(r) && |r| == |h|
    ensures var a := ReplayUpTo(t, h, k); var b := ReplayUpTo(u, TurnedUpTo(h, sym, |h| / 2), k);
      a.Stopped? == b.Stopped? && (a.Replayed? ==> Good(a.t) && Good(b.t) && Mirrored(sym, a.t, b.t))
  {
    hide Sound, Stone19, Mirrored, TurnedUpTo, Turned, Good;
    var r := TurnedUpTo(h, sym, |h| / 2);
    ProperReads(h);
    TurnedBack(h, sym);
    ProperReads(r);
    GoodBoard(t);
    GoodBoard(u);
    if k > 0 {
      ReplayMirrored(sym, t, u, h, k - 1);
      TurnedAt(h, sym, |h| / 2, k - 1);
      assert ProperAt(h, k - 1);
      TurnedPass(sym);
      if ReplayUpTo(t, h, k - 1).Replayed? {
        ReplayNext(t, h, k - 1);
        ReplayNext(u, r, k - 1);
        var hi, lo := h[2 * (k - 1)], h[2 * (k - 1) + 1];
        if IsPoint(hi, lo) {
          TurnedNames(sym, hi, lo);
          StoneMirrored(sym, ReplayUpTo(t, h, k - 1).t, ReplayUpTo(u, r, k - 1).t, ReadPoint(hi, lo),
              ReadPoint(r[2 * (k - 1)], r[2 * (k - 1) + 1]), ColourAt(k - 1));
        }
      }
    }
  }

  lemma GoodBoard(t: Table)
    requires Good(t)
    ensures Board19(t.s)
  {
  }

  /** Replaying a turned history from the turned position succeeds exactly if the history itself
      does, and then leads to the turned position with the turned ko. */
  lemma TurnedHistoryTheorem(sym: int, t: Table, u: Table, h: string)
    requires Good(t) && Good(u) && Mirrored(sym, t, u) && Proper(h)
    ensures var r := TurnedUpTo(h, sym, |h| / 2); Readable(h) && Readable(r)
    ensures var a := ApplyHistory(t, h); var b := ApplyHistory(u, TurnedUpTo(h, sym, |h| / 2));
      a.Replayed? == b.Replayed? && (a.Replayed? ==> Mirrored(sym, a.t, b.t))
  {
    hide Sound;
    ReplayMirrored(sym, t.(history := h), u.(history := TurnedUpTo(h, sym, |h| / 2)), h, |h| / 2);
  }

  /** A board without stones is its own picture. */
  lemma BareMirrored(sym: int, t: Table, u: Table)
    requires |t.s.b| == POINTS && u.s.b == t.s.b && t.s.ko == u.s.ko == NO_MOVE
    requires forall x :: 0 <= x < POINTS ==> t.s.b[x] == if Symmetry.Playable(x) then Empty else Off
    ensures Mirrored(sym, t, u)
  {
    hide Symmetry.Playable, Image;
    forall x | 0 <= x < POINTS ensures 0 <= Image(sym, x) < POINTS && t.s.b[Image(sym, x)] == t.s.b[x] {
      ImagePlayable(sym, x);
    }
  }

  /** A freshly constructed table, whatever the hash keys. */
  function NewTable(keys: seq<Key>): Table {
    Table(Reachable.Cleared(EmptyBoard.EmptyGrid(STRIDE), STRIDE, keys, Chinese), "", Reachable.Zeros(WINDOW, {}),
        false)
  }

  lemma NewTableFresh(keys: seq<Key>)
    requires |keys| == POINTS
    ensures Fresh(NewTable(keys)) && Good(NewTable(keys))
  {
    hide Sound;
    EmptyBoard.EmptyGridBare(STRIDE);
    assert NewTable(keys).hash8[0] == {};
    Reachable.ClearedSound(EmptyBoard.EmptyGrid(STRIDE), STRIDE, keys, Chinese);
  }

  lemma MarginIs(x: int)
    requires 0 <= x < POINTS
    ensures EmptyBoard.Margin(STRIDE, x) <==> !Symmetry.Playable(x)
  {
  }

  /** From new tables: the turned history is accepted exactly if the history is, and the two
      games then show turned positions with turned kos. */
  lemma TurnedGame(sym: int, keys: seq<Key>, keys': seq<Key>, h: string)
    requires |keys| == |keys'| == POINTS && Proper(h)
    ensures Board19(NewTable(keys).s) && Board19(NewTable(keys').s) && Readable(h)
    ensures Readable(TurnedUpTo(h, sym, |h| / 2))
    ensures var a := ApplyHistory(NewTable(keys), h); var b := ApplyHistory(NewTable(keys'),
        TurnedUpTo(h, sym, |h| / 2));
      a.Replayed? == b.Replayed? && (a.Replayed? ==> Mirrored(sym, a.t, b.t))
  {
    hide Sound, Mirrored, EmptyBoard.Margin, Symmetry.Playable, ReplayUpTo;
    NewTableFresh(keys);
    NewTableFresh(keys');
    forall x | 0 <= x < POINTS ensures EmptyBoard.Margin(STRIDE, x) <==> !Symmetry.Playable(x) { MarginIs(x); }
    BareMirrored(sym, NewTable(keys), NewTable(keys'));
    TurnedHistoryTheorem(sym, NewTable(keys), NewTable(keys'), h);
  }

  // ------------------------------------------------------------ the rules

  /** The stones among the first k moves; passes are no moves of the board. */
  function StonesOf(h: string, k: nat): (r: seq<Move>)
    requires Readable(h) && k <= |h| / 2
    ensures Reachable.Playable(POINTS, r)
  {
    if k == 0 then []
    else if h[2 * (k - 1)] == 'Z' then StonesOf(h, k - 1)
    else
      assert ReadableAt(h, k - 1);
      var pos := ReadPoint(h[2 * (k - 1)], h[2 * (k - 1) + 1]);
      PointInside(pos);
      StonesOf(h, k - 1) + [Move(PointOf(pos), ColourAt(k - 1))]
  }

  /** A replay that succeeds shows the game the rules make of its stones. A pass does not reach
      the board, so it does not lift the ko ban either. */
  lemma {:induction false} ReplayFollowsRules(t: Table, h: string, k: nat)
    requires Good(t) && Readable(h) && k <= |h| / 2 && ReplayUpTo(t, h, k).Replayed?
    ensures Good(ReplayUpTo(t, h, k).t)
    ensures var r := ReplayUpTo(t, h, k).t; Game(r.s.b, r.s.ko) == Reachable.GameAfter(Game(t.s.b, t.s.ko), STRIDE,
        StonesOf(h, k))
  {
    hide Sound, Stone19, Step;
    if k > 0 {
      ReplayFollowsRules(t, h, k - 1);
      ReplayNext(t, h, k - 1);
      assert ReadableAt(h, k - 1);
      if h[2 * (k - 1)] != 'Z' {
        var pos := ReadPoint(h[2 * (k - 1)], h[2 * (k - 1) + 1]);
        StoneSane(ReplayUpTo(t, h, k - 1).t, pos, ColourAt(k - 1));
        var ms := StonesOf(h, k);
        assert ms[..|ms| - 1] == StonesOf(h, k - 1);
      }
    }
  }
}
