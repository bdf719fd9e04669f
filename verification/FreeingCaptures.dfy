/** On a square board a counter-capture that is no snapback frees the chain that makes it: the chain
    is there afterwards, with at least two liberties. */
module FreeingCaptures {
  import opened Grid
  import opened Rules
  import opened KoTheorem
  import opened LadderRules
  import Scoring

  /** Once col has played c and the other colour has been cleared. */
  ghost function Taken1(b: seq<Stone>, st: int, c: int, col: Stone): (v: seq<Stone>)
    requires 0 <= c < |b|
    ensures |v| == |b|
  {
    Clear(b[c := col], st, Other(col))
  }

  /** A capture at c, the one liberty of the chain of y, which touches the chain of x. */
  ghost predicate Captures(b: seq<Stone>, st: int, x: int, col: Stone, c: int, y: int, w: int) {
    && Framed(b, st) && Standing(b, st) && IsColour(col) && 0 <= x < |b| && b[x] == col
    && 0 <= c < |b| && b[c] == Empty && Reach(b, st, x, w) && Adj(st, w, y) && 0 <= y < |b| && b[y] == Other(col)
    && LibSet(b, st, y) == {c}
  }

  /** After the capture every empty point beside the chain of x is y. */
  ghost predicate OneWay(v: seq<Stone>, st: int, x: int, y: int) {
    forall p, z {:trigger Reach(v, st, x, p), Adj(st, p, z)} ::
      Reach(v, st, x, p) && Adj(st, p, z) && 0 <= z < |v| && v[z] == Empty ==> z == y
  }

  lemma PointAfter(b: seq<Stone>, st: int, c: int, col: Stone, z: int)
    requires 0 <= c < |b| && IsColour(col) && 0 <= z < |b|
    ensures var v := Taken1(b, st, c, col);
      (z != c && b[z] == col ==> v[z] == col) && (z != c && b[z] == Empty ==> v[z] == Empty)
      && (b[z] == Off && z != c ==> v[z] == Off) && v[c] == col
  {
    hide Alive;
  }

  /** A chain whose only liberty is c is gone. */
  lemma AllTaken(b: seq<Stone>, st: int, c: int, col: Stone, y: int, z: int)
    requires 0 <= c < |b| && b[c] == Empty && IsColour(col) && 0 <= y < |b| && b[y] == Other(col)
    requires LibSet(b, st, y) == {c} && Reach(b, st, y, z)
    ensures 0 <= z < |b| && Taken1(b, st, c, col)[z] == Empty
  {
    hide Reach, IsLiberty;
    OtherIs(col);
    ReachRange(b, st, y, z);
    LibSetSame(b, st, y, z);
    PlacedLibs(b, st, c, col, z);
    NoLibsDead(b[c := col], st, z);
  }

  lemma NoLibsDead(b: seq<Stone>, st: int, x: int)
    ensures Alive(b, st, x) <==> LibSet(b, st, x) != {}
  {
    if Alive(b, st, x) {
      var u :| IsLiberty(b, st, x, u);
      assert u in LibSet(b, st, x);
    }
  }

  /** Stones joined before the capture stay joined. */
  lemma StillJoined(b: seq<Stone>, st: int, c: int, col: Stone, x: int, p: int)
    requires 0 <= c < |b| && b[c] == Empty && IsColour(col) && 0 <= x < |b| && b[x] == col && Reach(b, st, x, p)
    ensures Reach(Taken1(b, st, c, col), st, x, p)
  {
    hide Reach, Alive;
    OtherIs(col);
    ReachMono(b, b[c := col], st, x, p);
    ReachMono(b[c := col], Taken1(b, st, c, col), st, x, p);
  }

  /** The capture leaves y as the only liberty only if the chain had c as its only one, which y touches. */
  lemma OnlyC(b: seq<Stone>, st: int, x: int, col: Stone, c: int, y: int, w: int)
    requires Captures(b, st, x, col, c, y, w) && OneWay(Taken1(b, st, c, col), st, x, y)
    ensures Reach(Taken1(b, st, c, col), st, x, c) && Adj(st, c, y)
    ensures exists p :: Reach(b, st, x, p) && Adj(st, p, c)
  {
    hide Reach, Adj, Taken1, LibSet, Alive;
    var v := Taken1(b, st, c, col);
    var u, p := LibertyOf(b, st, x);
    StillJoined(b, st, c, col, x, p);
    PointAfter(b, st, c, col, u);
    assert u == c;
    ReachRange(v, st, x, p);
    PointAfter(b, st, c, col, x);
    ReachStep(v, st, x, p, c);
    var yy := LibertyBeside(b, st, y, c);
    AllTaken(b, st, c, col, y, yy);
    AdjSym(st, yy, c);
    assert yy == y;
  }

  lemma AdjSym(st: int, x: int, y: int)
    ensures Adj(st, x, y) <==> Adj(st, y, x)
  {
  }

  lemma LibertyBeside(b: seq<Stone>, st: int, y: int, c: int) returns (p: int)
    requires c in LibSet(b, st, y)
    ensures Reach(b, st, y, p) && Adj(st, p, c)
  {
    hide Reach, Adj;
    p :| Reach(b, st, y, p) && Adj(st, p, c);
  }

  lemma LibIs(b: seq<Stone>, st: int, x: int, u: int)
    ensures u in LibSet(b, st, x) <==> IsLiberty(b, st, x, u)
  {
    hide Reach;
  }

  lemma TurnIsClear(b: seq<Stone>, st: int, c: int, col: Stone)
    requires 0 <= c < |b|
    ensures Turn(b, st, c, col) == Clear(Taken1(b, st, c, col), st, col)
  {
  }

  /** The fourth corner of a square whose other three corners are on the board. */
  lemma Corner(b: seq<Stone>, st: int, y: int, s: int, t: int)
    requires Scoring.Square(b, st) && 0 <= y < |b| && b[y] != Off && 0 <= s < |b| && b[s] != Off
    requires 0 <= t < |b| && b[t] != Off && (s == y - 1 || s == y + 1) && (t == y - st || t == y + st)
    ensures var z := s + t - y; 0 <= z < |b| && b[z] != Off && Adj(st, s, z) && Adj(st, t, z)
  {
    hide Scoring.Square;
    var a, r := Scoring.Coordinates(b, st, y);
    var a', r' := a + s - y, if t == y - st then r - 1 else r + 1;
    Rows(st, r);
    OnBoard(b, st, a', r);
    OnBoard(b, st, a, r');
    OnBoard(b, st, a', r');
  }

  lemma Rows(st: int, r: int)
    ensures (r - 1) * st == r * st - st && (r + 1) * st == r * st + st
  {
  }

  lemma OnBoard(b: seq<Stone>, st: int, a: int, r: int)
    requires Scoring.Square(b, st) && 0 <= a < st && 0 <= r < st
    ensures 0 <= Scoring.At(st, a, r) < |b| && (b[Scoring.At(st, a, r)] == Off <==> Scoring.Edge(st, a, r))
  {
    hide Scoring.At, Scoring.Edge;
  }

  /** Two adjacent points of the same taken chain: the corner beside them is a second way out. */
  lemma SecondWay(b: seq<Stone>, st: int, x: int, col: Stone, c: int, y: int, w: int, t: int, s: int, z: int)
    requires Captures(b, st, x, col, c, y, w)
    requires Reach(b, st, y, t) && t != y && Reach(Taken1(b, st, c, col), st, x, s)
    requires 0 <= z < |b| && z != y && b[z] != Off && Adj(st, s, z) && Adj(st, t, z)
    ensures !OneWay(Taken1(b, st, c, col), st, x, y)
  {
    hide Reach, Adj, Taken1, LibSet, Alive, Standing;
    var v := Taken1(b, st, c, col);
    AllTaken(b, st, c, col, y, t);
    PointAfter(b, st, c, col, z);
    PointAfter(b, st, c, col, x);
    AdjSym(st, t, z);
    ReachRange(b, st, y, t);
    ReachRange(v, st, x, s);
    if b[z] == Other(col) {
      ReachStep(b, st, y, t, z);
      AllTaken(b, st, c, col, y, z);
    } else if v[z] == col {
      ReachStep(v, st, x, s, z);
    }
  }

  /** A taken chain of several stones leaves a second liberty. */
  lemma ManyFree(b: seq<Stone>, st: int, x: int, col: Stone, c: int, y: int, w: int, t: int)
    requires Scoring.Square(b, st) && Captures(b, st, x, col, c, y, w)
    requires Reach(b, st, y, t) && Adj(st, y, t) && t != y
    ensures !OneWay(Taken1(b, st, c, col), st, x, y)
  {
    hide Reach, Taken1, LibSet, Alive, Standing, Scoring.Square;
    if OneWay(Taken1(b, st, c, col), st, x, y) {
      OnlyC(b, st, x, col, c, y, w);
      StillJoined(b, st, c, col, x, w);
      ReachRange(b, st, x, w);
      ReachRange(b, st, y, t);
      OtherIs(col);
      // One of c and w lies across from t at a corner of y.
      var s := if (t - y == 1 || t - y == -1) == (c - y == 1 || c - y == -1) then w else c;
      if t == y - st || t == y + st {
        Corner(b, st, y, s, t);
      } else {
        Corner(b, st, y, t, s);
      }
      SecondWay(b, st, x, col, c, y, w, t, s, s + t - y);
    }
  }

  /** A single stone taken without a second liberty is a snapback. */
  lemma LoneIsSnap(b: seq<Stone>, st: int, x: int, col: Stone, c: int, y: int, w: int)
    requires Captures(b, st, x, col, c, y, w) && OneWay(Taken1(b, st, c, col), st, x, y)
    requires Component(b, st, y) == {y}
    ensures Snap(b, st, y, c)
  {
    hide Reach, Adj, Taken1, LibSet, Alive, Standing;
    var v := Taken1(b, st, c, col);
    OnlyC(b, st, x, col, c, y, w);
    OtherIs(col);
    FramedPoint(b, st, c);
    var p :| Reach(b, st, x, p) && Adj(st, p, c);
    ReachRange(b, st, x, p);
    WayIn(b, st, c, p, col);
    forall k | 0 <= k < 4 ensures SnapSide(b, st, y, Nb(st, c, k)) && b[Nb(st, c, k)] != Empty {
      SideOfC(b, st, x, col, c, y, w, k);
    }
    NoneIsLone(b, st, c);
  }

  lemma FramedPoint(b: seq<Stone>, st: int, c: int)
    requires Framed(b, st) && 0 <= c < |b| && b[c] == Empty
    ensures Interior(b, st, c)
  {
  }

  lemma WayIn(b: seq<Stone>, st: int, c: int, p: int, col: Stone)
    requires Interior(b, st, c) && 0 <= p < |b| && b[p] == col && IsColour(col) && Adj(st, p, c)
    ensures !Walled(b, st, c, Other(col))
  {
  }

  lemma NoneIsLone(b: seq<Stone>, st: int, c: int)
    requires Interior(b, st, c) && forall k :: 0 <= k < 4 ==> b[Nb(st, c, k)] != Empty
    ensures Lone(b, st, c, Empty)
  {
    assert b[Nb(st, c, 0)] != Empty && b[Nb(st, c, 1)] != Empty && b[Nb(st, c, 2)] != Empty && b[Nb(st, c, 3)] != Empty;
  }

  lemma SideOfC(b: seq<Stone>, st: int, x: int, col: Stone, c: int, y: int, w: int, k: int)
    requires Captures(b, st, x, col, c, y, w) && OneWay(Taken1(b, st, c, col), st, x, y) && 0 <= k < 4
    ensures 0 <= Nb(st, c, k) < |b| && b[Nb(st, c, k)] != Empty && SnapSide(b, st, y, Nb(st, c, k))
  {
    hide Reach, Adj, Taken1, LibSet, Alive;
    var v := Taken1(b, st, c, col);
    var z := Nb(st, c, k);
    OnlyC(b, st, x, col, c, y, w);
    OtherIs(col);
    FramedPoint(b, st, c);
    BesideC(b, st, c, k);
    PointAfter(b, st, c, col, z);
    if b[z] == Other(col) && z != y && OneLib(b, st, z) {
      InLibs(b, st, z, z, c);
      assert LibSet(b, st, z) == {c};
      AllTaken(b, st, c, col, z, z);
    }
    if b[z] == col {
      InLibs(b, st, z, z, c);
      PointAfter(b, st, c, col, x);
      ReachRange(v, st, x, c);
      ReachStep(v, st, x, c, z);
      forall u | u in LibSet(b, st, z) ensures u == c { FarLib(b, st, x, col, c, y, z, u); }
      assert LibSet(b, st, z) == {c};
    }
  }

  lemma BesideC(b: seq<Stone>, st: int, c: int, k: int)
    requires Interior(b, st, c) && 0 <= k < 4
    ensures var z := Nb(st, c, k); 0 <= z < |b| && z != c && Adj(st, c, z) && Adj(st, z, c) && Reach(b, st, z, z)
  {
    hide Reach;
    ReachRefl(b, st, Nb(st, c, k));
  }

  lemma InLibs(b: seq<Stone>, st: int, x: int, p: int, u: int)
    requires Reach(b, st, x, p) && Adj(st, p, u) && 0 <= u < |b| && b[u] == Empty
    ensures u in LibSet(b, st, x)
  {
    hide Reach, Adj;
  }

  /** A liberty, other than c, of a stone that joins through c is a second way out. */
  lemma FarLib(b: seq<Stone>, st: int, x: int, col: Stone, c: int, y: int, z: int, u: int)
    requires 0 <= c < |b| && b[c] == Empty && IsColour(col) && 0 <= z < |b| && b[z] == col && 0 <= y < |b|
    requires b[y] == Other(col) && OneWay(Taken1(b, st, c, col), st, x, y) && Reach(Taken1(b, st, c, col), st, x, z)
    requires u in LibSet(b, st, z)
    ensures u == c
  {
    hide Reach, Adj, Taken1, Alive;
    var v := Taken1(b, st, c, col);
    var p := LibertyBeside(b, st, z, u);
    StillJoined(b, st, c, col, z, p);
    ReachTrans(v, st, x, z, p);
    PointAfter(b, st, c, col, u);
  }

  /** A counter-capture frees the chain. */
  lemma CounterFrees(b: seq<Stone>, st: int, x: int, col: Stone, c: int)
    requires Scoring.Square(b, st) && Framed(b, st) && Standing(b, st) && IsColour(col) && 0 <= x < |b| && b[x] == col
    requires 0 <= c < |b| && b[c] == Empty && CounterMove(b, st, x, col, c)
    ensures !Caught(Turn(b, st, c, col), st, x, col)
  {
    hide Reach, Adj, LibSet, Alive, Snap, Standing, Framed, Scoring.Square, Clear, OneLib;
    var y, w {:trigger Adj(st, w, y)} :| Reach(b, st, x, w) && Adj(st, w, y) && 0 <= y < |b| && b[y] == Other(col)
      && LibSet(b, st, y) == {c} && !Snap(b, st, y, c);
    assert Captures(b, st, x, col, c, y, w);
    FreedTurn(b, st, x, col, c, y, w);
    var v := Turn(b, st, c, col);
    if OneLib(v, st, x) {
      OneMeansOneWay(b, st, x, col, c, y, w);
      if exists t :: t in Component(b, st, y) && t != y && Adj(st, y, t) {
        var t :| t in Component(b, st, y) && t != y && Adj(st, y, t);
        ManyFree(b, st, x, col, c, y, w, t);
      } else {
        AloneIs(b, st, y);
        LoneIsSnap(b, st, x, col, c, y, w);
      }
    }
  }

  /** A point without a neighbour in its component is all of it. */
  lemma AloneIs(b: seq<Stone>, st: int, y: int)
    requires 0 <= y < |b| && forall t {:trigger Adj(st, y, t)} :: t in Component(b, st, y) && t != y ==> !Adj(st, y, t)
    ensures Component(b, st, y) == {y}
  {
    hide Reach, Adj;
    ReachRefl(b, st, y);
    forall z | Adj(st, y, z) && 0 <= z < |b| && b[z] == b[y] ensures z == y { ReachStep(b, st, y, y, z); }
    assert Closed(b, st, {y});
    forall t | t in Component(b, st, y) ensures t == y { ReachClosed(b, st, {y}, y, t); }
  }

  /** The chain is there, with the liberties it has once the other colour is cleared, y among them. */
  lemma FreedTurn(b: seq<Stone>, st: int, x: int, col: Stone, c: int, y: int, w: int)
    requires Captures(b, st, x, col, c, y, w)
    ensures Turn(b, st, c, col)[x] == col && LibSet(Turn(b, st, c, col), st, x) == LibSet(Taken1(b, st, c, col), st, x)
    ensures y in LibSet(Taken1(b, st, c, col), st, x)
  {
    hide Reach, Adj, LibSet, Alive, Standing, Clear;
    var v := Taken1(b, st, c, col);
    StillJoined(b, st, c, col, x, w);
    PointAfter(b, st, c, col, x);
    ReachRefl(b, st, y);
    AllTaken(b, st, c, col, y, y);
    InLibs(v, st, x, w, y);
    AliveByLib(v, st, x, y);
    ClearLibs(v, st, col, x);
  }

  lemma OneMeansOneWay(b: seq<Stone>, st: int, x: int, col: Stone, c: int, y: int, w: int)
    requires Captures(b, st, x, col, c, y, w) && OneLib(Turn(b, st, c, col), st, x)
    ensures OneWay(Taken1(b, st, c, col), st, x, y)
  {
    hide Reach, Adj, LibSet, Alive, Standing, Clear;
    var v := Taken1(b, st, c, col);
    FreedTurn(b, st, x, col, c, y, w);
    var l :| LibSet(v, st, x) == {l};
    forall p, z | Reach(v, st, x, p) && Adj(st, p, z) && 0 <= z < |v| && v[z] == Empty ensures z == y {
      InLibs(v, st, x, p, z);
    }
  }
}
