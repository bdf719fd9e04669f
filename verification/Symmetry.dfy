/** The eight symmetries of the 19x19 board: they carry positions to positions, moves to moves,
    and commute with the rules of the game. */
module Symmetry {
  import opened Grid
  import opened Engine
  import opened Rules

  const SIZE := 19
  const STRIDE := 21
  const POINTS := 441

  /** The maps by number; an unknown number means the identity. */
  function Rotate(sym: int, row: int, col: int): (int, int) {
    if sym == 1 then (col, 18 - row)
    else if sym == 2 then (18 - row, 18 - col)
    else if sym == 3 then (18 - col, row)
    else if sym == 4 then (row, 18 - col)
    else if sym == 5 then (18 - col, 18 - row)
    else if sym == 6 then (18 - row, col)
    else if sym == 7 then (col, row)
    else (row, col)
  }

  function Revert(sym: int, row: int, col: int): (int, int) {
    if sym == 1 then (18 - col, row)
    else if sym == 2 then (18 - row, 18 - col)
    else if sym == 3 then (col, 18 - row)
    else if sym == 4 then (row, 18 - col)
    else if sym == 5 then (18 - col, 18 - row)
    else if sym == 6 then (18 - row, col)
    else if sym == 7 then (col, row)
    else (row, col)
  }

  function Inverse(sym: int): int { if sym == 1 then 3 else if sym == 3 then 1 else sym }

  predicate OnBoard(row: int, col: int) { 0 <= row < SIZE && 0 <= col < SIZE }

  predicate Beside(r: int, c: int, r': int, c': int) {
    (r' == r && (c' == c + 1 || c' == c - 1)) || (c' == c && (r' == r + 1 || r' == r - 1))
  }

  /** Each map has its revert as inverse, stays on the board and keeps neighbours. */
  lemma MapsAreSymmetries(sym: int, r: int, c: int, r': int, c': int)
    ensures var (a, b) := Rotate(sym, r, c); Revert(sym, a, b) == (r, c) && (OnBoard(a, b) <==> OnBoard(r, c))
    ensures var (a, b) := Revert(sym, r, c); Rotate(sym, a, b) == (r, c)
    ensures Revert(sym, r, c) == Rotate(Inverse(sym), r, c)
    ensures var (a, b) := Rotate(sym, r, c); var (a', b') := Rotate(sym, r', c'); Beside(a, b, a', b') <==>
      Beside(r, c, r', c')
  {
  }

  /** Which map each number means: 1 is the quarter turn that carries the point beside the first corner
      down the last column, 4 the mirror that keeps the rows, 2 and 3 repeat the quarter turn, and 5 to 7
      are those turns after the mirror. */
  lemma MapNumbers(r: int, c: int)
    ensures Rotate(1, 0, 0) == (0, 18) && Rotate(1, 0, 1) == (1, 18) && Rotate(1, 1, 0) == (0, 17)
    ensures Rotate(4, r, c).0 == r && Rotate(4, 0, 0) == (0, 18) && Rotate(4, 0, 1) == (0, 17)
    ensures forall k :: 0 <= k < 4 ==>
      Composed(1, k, r, c) == Rotate((k + 1) % 4, r, c) && Composed(k, 4, r, c) == Rotate(4 + k, r, c)
    ensures Rotate(0, r, c) == (r, c) && forall k :: k < 0 || k > 7 ==> Rotate(k, r, c) == (r, c)
  {
  }

  /** The map numbered a after the map numbered b. */
  function Composed(a: int, b: int, r: int, c: int): (int, int) {
    var (x, y) := Rotate(b, r, c);
    Rotate(a, x, y)
  }

  /** No two numbers mean the same map: the point beside the first corner has eight images. */
  lemma MapsDiffer(a: int, b: int)
    requires 0 <= a < b < 8
    ensures Rotate(a, 0, 1) != Rotate(b, 0, 1)
  {
  }

  // ------------------------------------------------------------ coordinates

  function Coord(row: int, col: int): int { (row + 1) * STRIDE + col + 1 }

  predicate Playable(x: int) { STRIDE < x < POINTS - STRIDE && 1 <= x % STRIDE <= SIZE }

  function Image(sym: int, x: int): int {
    if Playable(x) then var (r, c) := Rotate(sym, x / STRIDE - 1, x % STRIDE - 1); Coord(r, c) else x
  }

  lemma CoordParts(row: int, col: int)
    requires OnBoard(row, col)
    ensures Playable(Coord(row, col)) && Coord(row, col) / STRIDE == row + 1 && Coord(row, col) % STRIDE == col + 1
  {
  }

  lemma PartsCoord(x: int)
    requires Playable(x)
    ensures OnBoard(x / STRIDE - 1, x % STRIDE - 1) && Coord(x / STRIDE - 1, x % STRIDE - 1) == x
  {
  }

  lemma ImagePlayable(sym: int, x: int)
    ensures Playable(Image(sym, x)) <==> Playable(x)
    ensures Image(Inverse(sym), Image(sym, x)) == x && Image(sym, Image(Inverse(sym), x)) == x
    ensures 0 <= x < POINTS ==> 0 <= Image(sym, x) < POINTS
  {
    if Playable(x) {
      ImageOf(sym, x);
      ImageOf(Inverse(sym), x);
    }
  }

  lemma ImageOf(sym: int, x: int)
    requires Playable(x)
    ensures Playable(Image(sym, x)) && 0 <= Image(sym, x) < POINTS && Image(Inverse(sym), Image(sym, x)) == x
  {
    PartsCoord(x);
    var (r, c) := Rotate(sym, x / STRIDE - 1, x % STRIDE - 1);
    MapsAreSymmetries(sym, x / STRIDE - 1, x % STRIDE - 1, 0, 0);
    MapsAreSymmetries(sym, r, c, 0, 0);
    CoordParts(r, c);
  }

  lemma AdjIsBeside(x: int, y: int)
    requires Playable(x) && Playable(y)
    ensures Adj(STRIDE, x, y) <==> Beside(x / STRIDE - 1, x % STRIDE - 1, y / STRIDE - 1, y % STRIDE - 1)
  {
    PartsCoord(x);
    PartsCoord(y);
  }

  lemma ImageParts(sym: int, x: int, row: int, col: int)
    requires Playable(x) && row == x / STRIDE - 1 && col == x % STRIDE - 1
    ensures OnBoard(row, col) && Playable(Image(sym, x))
    ensures (Image(sym, x) / STRIDE - 1, Image(sym, x) % STRIDE - 1) == Rotate(sym, row, col)
  {
    hide Rotate, Revert, Inverse;
    PartsCoord(x);
    ImageOf(sym, x);
    MapsAreSymmetries(sym, row, col, row, col);
    var (r, c) := Rotate(sym, row, col);
    CoordParts(r, c);
  }

  lemma ImageAdj(sym: int, x: int, y: int)
    requires Playable(x) && Playable(y)
    ensures Adj(STRIDE, Image(sym, x), Image(sym, y)) <==> Adj(STRIDE, x, y)
  {
    hide Adj, Beside, Image, Coord, Rotate, Revert, Playable, Inverse;
    ImageParts(sym, x, x / STRIDE - 1, x % STRIDE - 1);
    ImageParts(sym, y, y / STRIDE - 1, y % STRIDE - 1);
    MapsAreSymmetries(sym, x / STRIDE - 1, x % STRIDE - 1, y / STRIDE - 1, y % STRIDE - 1);
    AdjIsBeside(x, y);
    AdjIsBeside(Image(sym, x), Image(sym, y));
  }

  // ------------------------------------------------------------ positions

  /** w is the sym-image of v; only playable points carry anything. */
  ghost predicate Pictures(sym: int, v: seq<Stone>, w: seq<Stone>) {
    && |v| == |w| == POINTS && (forall x :: 0 <= x < POINTS && !Playable(x) ==> v[x] == Off)
    && forall x :: 0 <= x < POINTS ==> 0 <= Image(sym, x) < POINTS && w[Image(sym, x)] == v[x]
  }

  lemma PicturesBack(sym: int, v: seq<Stone>, w: seq<Stone>)
    requires Pictures(sym, v, w)
    ensures Pictures(Inverse(sym), w, v)
  {
    hide Image, Playable;
    forall x | 0 <= x < POINTS
      ensures 0 <= Image(Inverse(sym), x) < POINTS && v[Image(Inverse(sym), x)] == w[x]
      ensures (!Playable(x) ==> w[x] == Off)
    {
      ImagePlayable(sym, x);
      ImagePlayable(Inverse(sym), x);
      var y := Image(Inverse(sym), x);
      ImagePlayable(sym, y);
      assert w[Image(sym, y)] == v[y];
    }
  }

  lemma ReachPictured(sym: int, v: seq<Stone>, w: seq<Stone>, x: int, y: int)
    requires Pictures(sym, v, w) && Reach(v, STRIDE, x, y) && v[x] != Off && 0 <= x < POINTS
    ensures 0 <= y < POINTS && Reach(w, STRIDE, Image(sym, x), Image(sym, y))
  {
    hide Image, Playable, Adj;
    var q :| PathFromTo(v, STRIDE, q, x, y);
    var r := seq(|q|, i requires 0 <= i < |q| => Image(sym, q[i]));
    forall i | 0 <= i < |r| - 1 ensures Adj(STRIDE, r[i], r[i + 1]) {
      assert Adj(STRIDE, q[i], q[i + 1]) && v[q[i]] == v[x] && v[q[i + 1]] == v[x];
      ImageAdj(sym, q[i], q[i + 1]);
    }
    assert PathFromTo(w, STRIDE, r, Image(sym, x), Image(sym, y));
  }

  lemma AlivePictured(sym: int, v: seq<Stone>, w: seq<Stone>, x: int)
    requires Pictures(sym, v, w) && 0 <= x < POINTS && IsColour(v[x]) && Alive(v, STRIDE, x)
    ensures Alive(w, STRIDE, Image(sym, x))
  {
    hide Image, Playable, Adj, Reach;
    var z :| IsLiberty(v, STRIDE, x, z);
    var y :| Reach(v, STRIDE, x, y) && Adj(STRIDE, y, z);
    ReachRange(v, STRIDE, x, y);
    ReachPictured(sym, v, w, x, y);
    ImageAdj(sym, y, z);
    assert IsLiberty(w, STRIDE, Image(sym, x), Image(sym, z));
  }

  lemma AliveAlike(sym: int, v: seq<Stone>, w: seq<Stone>, x: int)
    requires Pictures(sym, v, w) && 0 <= x < POINTS && IsColour(v[x])
    ensures Alive(w, STRIDE, Image(sym, x)) <==> Alive(v, STRIDE, x)
  {
    hide Image, Playable, Alive;
    if Alive(v, STRIDE, x) { AlivePictured(sym, v, w, x); }
    if Alive(w, STRIDE, Image(sym, x)) {
      PicturesBack(sym, v, w);
      ImagePlayable(sym, x);
      AlivePictured(Inverse(sym), w, v, Image(sym, x));
    }
  }

  lemma ClearPictured(sym: int, v: seq<Stone>, w: seq<Stone>, col: Stone)
    requires Pictures(sym, v, w) && IsColour(col)
    ensures Pictures(sym, Clear(v, STRIDE, col), Clear(w, STRIDE, col))
  {
    hide Image, Playable, Alive;
    forall x | 0 <= x < POINTS ensures Clear(w, STRIDE, col)[Image(sym, x)] == Clear(v, STRIDE, col)[x] {
      if v[x] == col { AliveAlike(sym, v, w, x); }
    }
  }

  lemma PutPictured(sym: int, v: seq<Stone>, w: seq<Stone>, x: int, c: Stone)
    requires Pictures(sym, v, w) && 0 <= x < POINTS && Playable(x)
    ensures 0 <= Image(sym, x) < POINTS && Pictures(sym, v[x := c], w[Image(sym, x) := c])
  {
    hide Image, Playable;
    forall y | 0 <= y < POINTS && y != x ensures Image(sym, y) != Image(sym, x) {
      ImagePlayable(sym, y); ImagePlayable(sym, x);
    }
  }

  /** A turn on the image is the image of the turn. */
  lemma TurnPictured(sym: int, v: seq<Stone>, w: seq<Stone>, x: int, col: Stone)
    requires Pictures(sym, v, w) && 0 <= x < POINTS && Playable(x) && IsColour(col)
    ensures 0 <= Image(sym, x) < POINTS && Pictures(sym, Turn(v, STRIDE, x, col), Turn(w, STRIDE, Image(sym, x), col))
  {
    hide Image, Playable, Clear, Pictures;
    assert |v| == |w| == POINTS by { PicturesSize(sym, v, w); }
    PutPictured(sym, v, w, x, col);
    var v1, w1 := v[x := col], w[Image(sym, x) := col];
    ClearPictured(sym, v1, w1, Other(col));
    ClearPictured(sym, Clear(v1, STRIDE, Other(col)), Clear(w1, STRIDE, Other(col)), col);
  }

  lemma PicturesSize(sym: int, v: seq<Stone>, w: seq<Stone>)
    requires Pictures(sym, v, w)
    ensures |v| == |w| == POINTS
  {
  }

  // ------------------------------------------------------------ legality and ko

  lemma {:induction false} NeighbourPictured(sym: int, v: seq<Stone>, w: seq<Stone>, x: int, y: int) returns (z: int)
    requires Pictures(sym, v, w) && Playable(x) && 0 <= x < POINTS && Adj(STRIDE, x, y) && 0 <= y < POINTS
    requires v[y] != Off
    ensures Adj(STRIDE, Image(sym, x), z) && 0 <= z < POINTS && w[z] == v[y]
  {
    hide Image, Playable, Adj;
    z := Image(sym, y);
    ImageAdj(sym, x, y);
  }

  lemma LonePictured(sym: int, v: seq<Stone>, w: seq<Stone>, x: int, col: Stone)
    requires Pictures(sym, v, w) && Playable(x) && 0 <= x < POINTS && IsColour(col) && !Lone(v, STRIDE, x, col)
    ensures !Lone(w, STRIDE, Image(sym, x), col)
  {
    hide Image;
    var y := if v[x - STRIDE] == col then x - STRIDE else if v[x - 1] == col then x - 1
      else if v[x + 1] == col then x + 1 else x + STRIDE;
    var z := NeighbourPictured(sym, v, w, x, y);
  }

  lemma WalledPictured(sym: int, v: seq<Stone>, w: seq<Stone>, x: int, eye: Stone)
    requires Pictures(sym, v, w) && Playable(x) && 0 <= x < POINTS && IsColour(eye) && !Walled(v, STRIDE, x, eye)
    ensures !Walled(w, STRIDE, Image(sym, x), eye)
  {
    hide Image;
    var y := if !Wall(v[x - STRIDE], eye) then x - STRIDE else if !Wall(v[x - 1], eye) then x - 1
      else if !Wall(v[x + 1], eye) then x + 1 else x + STRIDE;
    var z := NeighbourPictured(sym, v, w, x, y);
  }

  function MoveImage(sym: int, m: Move): Move { if m.coord == PASS then m else m.(coord := Image(sym, m.coord)) }

  lemma {:induction false} NeighboursAlike(sym: int, v: seq<Stone>, w: seq<Stone>, x: int, col: Stone)
    requires Pictures(sym, v, w) && Playable(x) && 0 <= x < POINTS && IsColour(col)
    ensures Lone(w, STRIDE, Image(sym, x), col) <==> Lone(v, STRIDE, x, col)
    ensures Walled(w, STRIDE, Image(sym, x), col) <==> Walled(v, STRIDE, x, col)
  {
    hide Image, Playable, Lone, Walled, Pictures;
    ImagePlayable(sym, x);
    PicturesBack(sym, v, w);
    if !Lone(v, STRIDE, x, col) { LonePictured(sym, v, w, x, col); }
    if !Lone(w, STRIDE, Image(sym, x), col) { LonePictured(Inverse(sym), w, v, Image(sym, x), col); }
    if !Walled(v, STRIDE, x, col) { WalledPictured(sym, v, w, x, col); }
    if !Walled(w, STRIDE, Image(sym, x), col) { WalledPictured(Inverse(sym), w, v, Image(sym, x), col); }
  }

  /** The banned recapture, with its point on the board. */
  ghost predicate KoPictured(sym: int, ko: Move, ko': Move) {
    ko' == MoveImage(sym, ko) && (ko.coord == PASS || (0 <= ko.coord < POINTS && Playable(ko.coord)))
  }

  lemma LegalPictured(sym: int, v: seq<Stone>, w: seq<Stone>, ko: Move, ko': Move, m: Move)
    requires Pictures(sym, v, w) && KoPictured(sym, ko, ko') && IsColour(m.colour) && 0 <= m.coord < POINTS
    requires Playable(m.coord)
    ensures 0 <= Image(sym, m.coord) < POINTS && (Legal(w, STRIDE, ko', MoveImage(sym, m)) <==> Legal(v, STRIDE, ko, m))
  {
    var x := m.coord;
    TurnPictured(sym, v, w, x, m.colour);
    NeighboursAlike(sym, v, w, x, m.colour);
    ImagePlayable(sym, x);
    if ko.coord != PASS { ImagePlayable(sym, ko.coord); }
    hide Image, Playable, Turn, Lone;
    assert w[Image(sym, x)] == v[x];
    assert Turn(w, STRIDE, Image(sym, x), m.colour)[Image(sym, x)] == Turn(v, STRIDE, x, m.colour)[x];
  }

  /** Two pictures of the same position are equal. */
  lemma PictureUnique(sym: int, v: seq<Stone>, w: seq<Stone>, w': seq<Stone>)
    requires Pictures(sym, v, w) && Pictures(sym, v, w')
    ensures w == w'
  {
    hide Image, Playable;
    forall z | 0 <= z < POINTS ensures w[z] == w'[z] {
      ImagePlayable(Inverse(sym), z);
      ImagePlayable(sym, z);
      var y := Image(Inverse(sym), z);
      assert w[Image(sym, y)] == v[y] && w'[Image(sym, y)] == v[y];
    }
  }

  lemma TakesPictured(sym: int, v: seq<Stone>, w: seq<Stone>, m: Move, x: int)
    requires Pictures(sym, v, w) && IsColour(m.colour) && 0 <= m.coord < POINTS && Playable(m.coord)
    requires TakesJust(v, STRIDE, m, x)
    ensures Playable(x) && 0 <= Image(sym, m.coord) < POINTS && TakesJust(w, STRIDE, MoveImage(sym, m), Image(sym, x))
  {
    hide Image, Playable, Turn;
    TurnPictured(sym, v, w, m.coord, m.colour);
    PutPictured(sym, v, w, m.coord, m.colour);
    var v1, w1 := v[m.coord := m.colour], w[Image(sym, m.coord) := m.colour];
    PutPictured(sym, v1, w1, x, Empty);
    PictureUnique(sym, v1[x := Empty], w1[Image(sym, x) := Empty], Turn(w, STRIDE, Image(sym, m.coord), m.colour));
    assert w[Image(sym, x)] == v[x];
  }

  lemma KoTaken(b: seq<Stone>, st: int, m: Move, x: int)
    requires 0 <= m.coord < |b| && b[m.coord] == Empty && IsColour(m.colour) && TakesJust(b, st, m, x)
    ensures KoAfter(b, st, m) == if Walled(b, st, m.coord, Other(m.colour)) then Move(x, Other(m.colour)) else NO_MOVE
  {
    hide Walled, TakesJust;
    forall y | TakesJust(b, st, m, y) ensures y == x { TakesOne(b, st, m, x, y); }
  }

  lemma KoUntaken(b: seq<Stone>, st: int, m: Move)
    requires 0 <= m.coord < |b| && !exists x :: TakesJust(b, st, m, x)
    ensures KoAfter(b, st, m) == NO_MOVE
  {
    hide Walled, TakesJust;
  }

  lemma TakesBack(sym: int, v: seq<Stone>, w: seq<Stone>, m: Move, y: int)
    requires Pictures(sym, v, w) && IsColour(m.colour) && 0 <= m.coord < POINTS && Playable(m.coord)
    requires 0 <= Image(sym, m.coord) < POINTS && TakesJust(w, STRIDE, MoveImage(sym, m), y)
    ensures exists x :: TakesJust(v, STRIDE, m, x)
  {
    hide Image, Playable, TakesJust, Pictures;
    PicturesBack(sym, v, w);
    PicturesSize(sym, v, w);
    ImagePlayable(sym, m.coord);
    TakesPictured(Inverse(sym), w, v, MoveImage(sym, m), y);
    assert MoveImage(Inverse(sym), MoveImage(sym, m)) == m;
  }

  lemma PicturesAt(sym: int, v: seq<Stone>, w: seq<Stone>, x: int)
    requires Pictures(sym, v, w) && 0 <= x < POINTS
    ensures 0 <= Image(sym, x) < POINTS && w[Image(sym, x)] == v[x]
  {
  }

  lemma KoAfterPictured(sym: int, v: seq<Stone>, w: seq<Stone>, m: Move)
    requires Pictures(sym, v, w) && IsColour(m.colour) && 0 <= m.coord < POINTS && Playable(m.coord)
    requires |v| == POINTS && v[m.coord] == Empty
    ensures |w| == POINTS && 0 <= Image(sym, m.coord) < POINTS
    ensures KoPictured(sym, KoAfter(v, STRIDE, m), KoAfter(w, STRIDE, MoveImage(sym, m)))
  {
    var m' := MoveImage(sym, m);
    hide Image, Playable, Walled, TakesJust, Pictures, KoAfter;
    PicturesSize(sym, v, w);
    PicturesAt(sym, v, w, m.coord);
    OtherColour(m.colour);
    NeighboursAlike(sym, v, w, m.coord, Other(m.colour));
    if x :| TakesJust(v, STRIDE, m, x) {
      TakesPictured(sym, v, w, m, x);
      TakesRange(v, STRIDE, m, x);
      KoTaken(v, STRIDE, m, x);
      KoTaken(w, STRIDE, m', Image(sym, x));
    } else {
      KoUntaken(v, STRIDE, m);
      forall y ensures !TakesJust(w, STRIDE, m', y) {
        if TakesJust(w, STRIDE, m', y) { TakesBack(sym, v, w, m, y); }
      }
      KoUntaken(w, STRIDE, m');
    }
  }

  lemma OtherColour(c: Stone)
    requires IsColour(c)
    ensures IsColour(Other(c))
  {
  }

  lemma TakesRange(b: seq<Stone>, st: int, m: Move, x: int)
    requires 0 <= m.coord < |b| && TakesJust(b, st, m, x)
    ensures 0 <= x < |b|
  {
  }

  /** A legal stone on the image leads to the image of where it leads. */
  lemma StonePictured(sym: int, g: Game, h: Game, m: Move)
    requires Pictures(sym, g.b, h.b) && KoPictured(sym, g.ko, h.ko) && IsColour(m.colour) && 0 <= m.coord < POINTS
    requires Playable(m.coord)
    ensures |g.b| == |h.b| == POINTS && 0 <= Image(sym, m.coord) < POINTS
    ensures var (g', ok) := Step(g, STRIDE, m); var (h', ok') := Step(h, STRIDE, MoveImage(sym, m));
      ok == ok' && Pictures(sym, g'.b, h'.b) && KoPictured(sym, g'.ko, h'.ko)
  {
    hide Image, Playable, Turn, Pictures, KoPictured, KoAfter, Legal;
    PicturesSize(sym, g.b, h.b);
    LegalPictured(sym, g.b, h.b, g.ko, h.ko, m);
    TurnPictured(sym, g.b, h.b, m.coord, m.colour);
    if Legal(g.b, STRIDE, g.ko, m) {
      LegalEmpty(g.b, STRIDE, g.ko, m);
      KoAfterPictured(sym, g.b, h.b, m);
    }
  }

  lemma LegalEmpty(b: seq<Stone>, st: int, ko: Move, m: Move)
    requires 0 <= m.coord < |b| && Legal(b, st, ko, m)
    ensures b[m.coord] == Empty
  {
  }
}
