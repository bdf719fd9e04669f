/** Simple ko is exact: the banned recapture is the one reply that would bring back the
    position before the move. */
module KoTheorem {
  import opened Grid
  import opened Engine
  import opened Invariant
  import opened Moves
  import opened Books
  import opened Rules
  import opened PlayTheorem
  import opened EyeMoves
  import opened BoardTheorem

  /** Every stone has a liberty. */
  ghost predicate Standing(b: seq<Stone>, st: int) {
    forall x {:trigger Alive(b, st, x)} :: 0 <= x < |b| && IsColour(b[x]) ==> Alive(b, st, x)
  }

  lemma SoundStanding(s: State)
    requires Sound(s)
    ensures Standing(s.b, s.st) && Framed(s.b, s.st)
  {
    hide Alive, Reach, BooksOK, W;
    var ch :| Quiet(K(s), ch);
    QuietShape(K(s), ch);
    forall x | 0 <= x < |s.b| && IsColour(s.b[x]) ensures Alive(s.b, s.st, x) { AliveIff(K(s), ch, x); }
  }

  /** A turn only empties points, but for the stone it puts down. */
  lemma TurnOnlyEmpties(b: seq<Stone>, st: int, x: int, col: Stone, p: int)
    requires 0 <= x < |b| && 0 <= p < |b| && IsColour(col)
    ensures var r := Turn(b, st, x, col)[p]; r == Empty || r == (if p == x then col else b[p])
  {
    hide Alive;
  }

  // ------------------------------------------------------------ the recapture restores

  /** A chain that does not touch x keeps its liberties when a stone is put on x. */
  lemma KeepsLiberty(b: seq<Stone>, st: int, x: int, col: Stone, p: int)
    requires 0 <= x < |b| && b[x] == Empty && IsColour(col) && Walled(b, st, x, Other(col))
    requires 0 <= p < |b| && b[p] == col && Alive(b, st, p)
    ensures Alive(b[x := col], st, p)
  {
    hide Reach;
    var z :| IsLiberty(b, st, p, z);
    var y :| Reach(b, st, p, y) && Adj(st, y, z);
    ReachRange(b, st, p, y);
    ReachMono(b, b[x := col], st, p, y);
    assert z != x;
    assert IsLiberty(b[x := col], st, p, z);
  }

  lemma RecaptureRestores(b: seq<Stone>, st: int, m: Move, y: int)
    requires Standing(b, st) && 0 <= m.coord < |b| && b[m.coord] == Empty && IsColour(m.colour)
    requires Walled(b, st, m.coord, Other(m.colour)) && TakesJust(b, st, m, y)
    ensures Turn(Turn(b, st, m.coord, m.colour), st, y, Other(m.colour)) == b
  {
    hide Alive, Turn;
    var x, col := m.coord, m.colour;
    var p1 := Turn(b, st, x, col);
    assert y != x;
    assert p1[y := Other(col)] == b[x := col];
    var b1 := b[x := col];
    LoneDies(b1, st, x, col);
    forall p | 0 <= p < |b| && p != x && b1[p] == col ensures Alive(b1, st, p) { KeepsLiberty(b, st, x, col, p); }
    assert Clear(b1, st, col) == b;
    assert Clear(b, st, Other(col)) == b;
    assert Other(Other(col)) == col;
    TurnIs(p1, st, y, Other(col));
  }

  lemma TurnIs(b: seq<Stone>, st: int, c: int, col: Stone)
    requires 0 <= c < |b|
    ensures Turn(b, st, c, col) == Clear(Clear(b[c := col], st, Other(col)), st, col)
  {
  }

  // ------------------------------------------------------------ nothing else does

  /** After a legal move its stone is on the board, or a chain of its colour has gone. */
  lemma StoneOrSuicide(b: seq<Stone>, st: int, m: Move) returns (w: int)
    requires Framed(b, st) && 0 <= m.coord < |b| && b[m.coord] == Empty && IsColour(m.colour)
    requires !OneStoneSuicide(b, st, m)
    ensures 0 <= w < |b|
    ensures var p1 := Turn(b, st, m.coord, m.colour);
      (w == m.coord && p1[w] == m.colour) || (b[w] == m.colour && p1[w] == Empty)
  {
    hide Alive;
    var x, col := m.coord, m.colour;
    var u := Clear(b[x := col], st, Other(col));
    w := x;
    if Turn(b, st, x, col)[x] != col {
      assert !Alive(u, st, x);
      w := if b[x - st] == col then x - st else if b[x - 1] == col then x - 1 else if b[x + 1] == col then x + 1
        else x + st;
      assert b[w] == col && w != x && u[w] == col;
      if Alive(u, st, w) { AdjacentAlike(u, st, x, w); }
    }
  }

  /** The one liberty of a chain the reply captures is the point of the reply, so that stone stays. */
  lemma ReplyStays(p1: seq<Stone>, st: int, z: int, hue: Stone, x: int)
    requires 0 <= z < |p1| && p1[z] == Empty && IsColour(hue) && 0 <= x < |p1| && p1[x] == Other(hue)
    requires Alive(p1, st, x) && Turn(p1, st, z, hue)[x] == Empty
    ensures Turn(p1, st, z, hue)[z] == hue
    ensures !Alive(p1[z := hue], st, x)
    ensures forall l :: IsLiberty(p1, st, x, l) ==> l == z
  {
    hide Reach, Turn;
    var v := p1[z := hue];
    assert !Alive(v, st, x) by { DeadInReply(p1, st, z, hue, x); }
    forall l | IsLiberty(p1, st, x, l) ensures l == z && Turn(p1, st, z, hue)[z] == hue {
      var y :| Reach(p1, st, x, y) && Adj(st, y, l);
      ReachRange(p1, st, x, y);
      ReachMono(p1, v, st, x, y);
      assert l != z ==> IsLiberty(v, st, x, l);
      if Alive(v, st, y) { AliveAlong(v, st, x, y); }
      assert Clear(v, st, Other(hue))[y] == Empty;
      assert Adj(st, z, y);
      SurvivesBeside(p1, st, z, hue, y);
    }
  }

  lemma DeadInReply(p1: seq<Stone>, st: int, z: int, hue: Stone, x: int)
    requires 0 <= z < |p1| && p1[z] == Empty && IsColour(hue) && 0 <= x < |p1| && p1[x] == Other(hue)
    requires Turn(p1, st, z, hue)[x] == Empty
    ensures !Alive(p1[z := hue], st, x)
  {
    hide Alive;
  }

  lemma AliveAlong(v: seq<Stone>, st: int, x: int, y: int)
    requires Reach(v, st, x, y) && Alive(v, st, y)
    ensures Alive(v, st, x)
  {
    hide Reach;
    var z :| IsLiberty(v, st, y, z);
    var w :| Reach(v, st, y, w) && Adj(st, w, z);
    ReachTrans(v, st, x, y, w);
    assert IsLiberty(v, st, x, z);
  }

  /** A reply that brings back the old position retakes the single stone taken, from a point
      walled in by its colour. */
  lemma RestoringIsRecapture(b: seq<Stone>, st: int, m: Move, z: int)
    requires Framed(b, st) && 0 <= m.coord < |b| && b[m.coord] == Empty && IsColour(m.colour)
    requires !OneStoneSuicide(b, st, m)
    requires var p1 := Turn(b, st, m.coord, m.colour);
      Standing(p1, st) && 0 <= z < |b| && p1[z] == Empty && Turn(p1, st, z, Other(m.colour)) == b
    ensures TakesJust(b, st, m, z) && Walled(b, st, m.coord, Other(m.colour))
  {
    var x, col, hue := m.coord, m.colour, Other(m.colour);
    var p1 := Turn(b, st, x, col);
    var w := StoneOrSuicide(b, st, m);
    hide Alive, Turn, OneStoneSuicide;
    TurnOnlyEmpties(p1, st, z, hue, w);
    assert p1[x] == col && Other(hue) == col && z != x;
    ReplyStays(p1, st, z, hue, x);
    assert b[z] == hue;
    forall p | 0 <= p < |b| && p != x && p != z ensures p1[p] == b[p] {
      TurnOnlyEmpties(b, st, x, col, p);
      TurnOnlyEmpties(p1, st, z, hue, p);
    }
    assert p1 == b[x := col][z := Empty];
    forall n | Adj(st, x, n) ensures 0 <= n < |b| && Wall(b[n], hue) { WalledBeside(b, st, m, z, n, p1); }
    assert Adj(st, x, x - st) && Adj(st, x, x - 1) && Adj(st, x, x + 1) && Adj(st, x, x + st);
  }

  lemma WalledBeside(b: seq<Stone>, st: int, m: Move, z: int, n: int, p1: seq<Stone>)
    requires Framed(b, st) && 0 <= m.coord < |b| && b[m.coord] == Empty && IsColour(m.colour) && Adj(st, m.coord, n)
    requires 0 <= z < |b| && z != m.coord && b[z] == Other(m.colour) && p1 == b[m.coord := m.colour][z := Empty]
    requires Turn(p1, st, z, Other(m.colour)) == b && !Alive(p1[z := Other(m.colour)], st, m.coord)
    requires forall l :: IsLiberty(p1, st, m.coord, l) ==> l == z
    ensures 0 <= n < |b| && Wall(b[n], Other(m.colour))
  {
    var x, col, hue := m.coord, m.colour, Other(m.colour);
    hide Alive, Turn, Reach;
    var v := p1[z := hue];
    if b[n] == col && Alive(v, st, n) { AdjacentAlike(v, st, x, n); }
    assert b[n] == col ==> v[n] == Other(hue) && !Alive(v, st, n);
    TurnIs(p1, st, z, hue);
    ReachRefl(p1, st, x);
    EmptyBeside(p1, st, x, n);
  }

  lemma EmptyBeside(v: seq<Stone>, st: int, x: int, n: int)
    requires Reach(v, st, x, x) && Adj(st, x, n) && 0 <= n < |v|
    ensures v[n] == Empty ==> IsLiberty(v, st, x, n)
  {
    hide Reach, Adj;
  }

  /** On the grid: of all replies of the other colour, exactly the one banned as ko would bring
      back the position before the move. */
  lemma KoIsExact(b: seq<Stone>, st: int, m: Move, z: int)
    requires Framed(b, st) && Standing(b, st) && 0 <= m.coord < |b| && b[m.coord] == Empty && IsColour(m.colour)
    requires !OneStoneSuicide(b, st, m) && Standing(Turn(b, st, m.coord, m.colour), st)
    requires 0 <= z < |b| && Turn(b, st, m.coord, m.colour)[z] == Empty
    ensures Turn(Turn(b, st, m.coord, m.colour), st, z, Other(m.colour)) == b <==>
      KoAfter(b, st, m) == Move(z, Other(m.colour))
  {
    hide Turn, Standing, OneStoneSuicide, Walled;
    if Turn(Turn(b, st, m.coord, m.colour), st, z, Other(m.colour)) == b {
      RestoringIsRecapture(b, st, m, z);
      forall y | TakesJust(b, st, m, y) ensures y == z { TakesOne(b, st, m, y, z); }
    }
    if KoAfter(b, st, m) == Move(z, Other(m.colour)) {
      var y :| TakesJust(b, st, m, y);
      forall y' | TakesJust(b, st, m, y') ensures y' == y { TakesOne(b, st, m, y', y); }
      RecaptureRestores(b, st, m, y);
    }
  }

  /** On the board: after an accepted stone, a reply of the other colour would bring back the
      old position exactly if the board has it as its ko; so no accepted reply does. */
  lemma NoReplyRestores(s: State, m: Move, r: Move)
    requires Sound(s) && IsColour(m.colour) && 0 <= m.coord < |s.b| && Play(s, m).1
    requires r.colour == Other(m.colour) && (r.coord == PASS || 0 <= r.coord < |s.b|)
    ensures var s1 := Play(s, m).0; Sound(s1) && |s1.b| == |s.b| && Sized(s1)
    ensures var s1 := Play(s, m).0;
      r.coord != PASS && s1.b[r.coord] == Empty ==> (Turn(s1.b, s.st, r.coord, r.colour) == s.b <==> r == s1.ko)
    ensures var s1 := Play(s, m).0; Play(s1, r).1 ==> Play(s1, r).0.b != s.b
  {
    var s1 := Play(s, m).0;
    hide Play, Turn, Sound, KoAfter, OneStoneSuicide, Standing;
    PlayRefinesStep(s, m);
    SoundSized(s);
    SoundSized(s1);
    SoundStanding(s);
    SoundStanding(s1);
    OtherTwice(m.colour);
    PlayRefinesStep(s1, r);
    if r.coord != PASS && s1.b[r.coord] == Empty { KoIsExact(s.b, s.st, m, r.coord); }
    var w := StoneOrSuicide(s.b, s.st, m);
    assert s1.b[w] != s.b[w];
  }

  lemma SoundSized(s: State)
    requires Sound(s)
    ensures Sized(s)
  {
    hide BooksOK, Quiet, KoOK;
  }
}
