/** Ladders by the rules: when the chaser of a chain in atari wins, whatever the escaper tries. */
module LadderRules {
  import opened Grid
  import opened Engine
  import opened Rules

  /** The liberties of the chain of x. */
  ghost function LibSet(b: seq<Stone>, st: int, x: int): set<int> {
    set z | 0 <= z < |b| && IsLiberty(b, st, x, z)
  }

  ghost predicate OneLib(b: seq<Stone>, st: int, x: int) { exists z :: LibSet(b, st, x) == {z} }

  /** Capturing the single stone y at c would be a snapback: the capturing stone is taken back. */
  ghost predicate Snap(b: seq<Stone>, st: int, y: int, c: int) {
    && 0 <= y < |b| && Interior(b, st, c) && Lone(b, st, c, Empty) && Component(b, st, y) == {y}
      && !Walled(b, st, c, b[y])
    && forall k :: 0 <= k < 4 ==> SnapSide(b, st, y, Nb(st, c, k))
  }

  /** A neighbour of the point that does not help the capturing stone. */
  ghost predicate SnapSide(b: seq<Stone>, st: int, y: int, z: int)
    requires 0 <= y < |b|
  {
    0 <= z < |b| && (z != y && b[z] == b[y] ==> !OneLib(b, st, z)) && (b[z] == Other(b[y]) ==> OneLib(b, st, z))
  }

  /** Playing c captures a chain in atari next to the chain of x, and not in a snapback. */
  ghost predicate CounterMove(b: seq<Stone>, st: int, x: int, col: Stone, c: int) {
    exists y, w {:trigger Adj(st, w, y)} :: Reach(b, st, x, w) && Adj(st, w, y) && 0 <= y < |b| && b[y] == Other(col)
      && LibSet(b, st, y) == {c} && !Snap(b, st, y, c)
  }

  /** What the escaper may try: run, or capture one of the chasers. */
  ghost predicate Reply(b: seq<Stone>, st: int, x: int, col: Stone, c: int) {
    LibSet(b, st, x) == {c} || CounterMove(b, st, x, col, c)
  }

  ghost predicate Caught(b: seq<Stone>, st: int, x: int, col: Stone)
    requires 0 <= x < |b|
  {
    b[x] != col || OneLib(b, st, x)
  }

  /** The chaser, to move, catches the chain of x within d ataris. */
  ghost predicate ChaserWins(g: Game, st: int, x: int, col: Stone, d: nat)
    requires 0 <= x < |g.b|
    decreases d, 0
  {
    Caught(g.b, st, x, col) || (d > 0 && exists c :: Attack(g, st, x, col, c, d))
  }

  /** A legal atari whose stone stays and that no reply answers. */
  ghost predicate Attack(g: Game, st: int, x: int, col: Stone, c: int, d: nat)
    requires 0 <= x < |g.b| && d > 0
    decreases d - 1, 2
  {
    0 <= c < |g.b| && Step(g, st, Move(c, Other(col))).1
    && var g' := Step(g, st, Move(c, Other(col))).0;
      |g'.b| == |g.b| && g'.b[c] == Other(col) && EscaperLoses(g', st, x, col, d - 1)
  }

  /** The chain of x is in atari, and after every legal reply the chaser still wins. */
  ghost predicate EscaperLoses(g: Game, st: int, x: int, col: Stone, d: nat)
    requires 0 <= x < |g.b|
    decreases d, 1
  {
    && g.b[x] == col && OneLib(g.b, st, x)
    && forall c :: 0 <= c < |g.b| && Reply(g.b, st, x, col, c) && Step(g, st, Move(c, col)).1 ==>
         |Step(g, st, Move(c, col)).0.b| == |g.b| && ChaserWins(Step(g, st, Move(c, col)).0, st, x, col, d)
  }

  // ------------------------------------------------------------ stones of one chain share their fate

  lemma LibSetSame(b: seq<Stone>, st: int, x: int, y: int)
    requires Reach(b, st, x, y)
    ensures LibSet(b, st, x) == LibSet(b, st, y)
  {
    hide Reach, Adj;
    ReachSym(b, st, x, y);
    forall z | 0 <= z < |b| ensures IsLiberty(b, st, x, z) <==> IsLiberty(b, st, y, z) {
      if IsLiberty(b, st, x, z) {
        var w :| Reach(b, st, x, w) && Adj(st, w, z);
        ReachTrans(b, st, y, x, w);
      }
      if IsLiberty(b, st, y, z) {
        var w :| Reach(b, st, y, w) && Adj(st, w, z);
        ReachTrans(b, st, x, y, w);
      }
    }
  }

  lemma ReplySame(b: seq<Stone>, st: int, x: int, y: int, col: Stone, c: int)
    requires Reach(b, st, x, y) && Reply(b, st, x, col, c)
    ensures Reply(b, st, y, col, c)
  {
    hide Reach, Adj, Snap, LibSet;
    LibSetSame(b, st, x, y);
    ReachSym(b, st, x, y);
    if LibSet(b, st, x) != {c} {
      var z, w :| Reach(b, st, x, w) && Adj(st, w, z) && 0 <= z < |b| && b[z] == Other(col) && LibSet(b, st, z) == {c}
        && !Snap(b, st, z, c);
      ReachTrans(b, st, y, x, w);
    }
  }

  /** Connected stones x and y of colour col, or both gone. */
  ghost predicate Together(b: seq<Stone>, st: int, x: int, y: int, col: Stone) {
    0 <= x < |b| && 0 <= y < |b| && if b[x] == col then Reach(b, st, x, y) else b[y] != col
  }

  lemma AliveSame(v: seq<Stone>, st: int, x: int, y: int)
    requires Reach(v, st, x, y) && Alive(v, st, x)
    ensures Alive(v, st, y)
  {
    hide Reach;
    LibSetSame(v, st, x, y);
    var z :| IsLiberty(v, st, x, z);
    assert z in LibSet(v, st, x);
  }

  lemma ClearTogether(v: seq<Stone>, st: int, k: Stone, x: int, y: int, col: Stone)
    requires Together(v, st, x, y, col) && IsColour(col)
    ensures Together(Clear(v, st, k), st, x, y, col)
  {
    hide Reach, Alive;
    var w := Clear(v, st, k);
    if v[x] == col {
      ReachRange(v, st, x, y);
      ReachSym(v, st, x, y);
      if Alive(v, st, x) { AliveSame(v, st, x, y); }
      if Alive(v, st, y) { AliveSame(v, st, y, x); }
      if w[x] == col {
        var t := Component(v, st, x);
        ComponentClosed(v, st, x);
        ReachRefl(v, st, x);
        forall z | z in t ensures w[z] == v[z] {
          ReachRange(v, st, x, z);
          if Alive(v, st, x) { AliveSame(v, st, x, z); }
        }
        ReachWithin(v, w, st, t, x, y);
      }
    }
  }

  lemma TurnTogether(v: seq<Stone>, st: int, c: int, k: Stone, x: int, y: int, col: Stone)
    requires Together(v, st, x, y, col) && IsColour(col) && IsColour(k) && 0 <= c < |v| && v[c] == Empty && v[x] == col
    ensures Together(Turn(v, st, c, k), st, x, y, col)
  {
    hide Reach, Clear;
    ReachRange(v, st, x, y);
    var v1 := v[c := k];
    ReachMono(v, v1, st, x, y);
    ClearTogether(v1, st, Other(k), x, y, col);
    ClearTogether(Clear(v1, st, Other(k)), st, k, x, y, col);
  }

  lemma StepIs(g: Game, st: int, m: Move)
    requires 0 <= m.coord < |g.b| && Step(g, st, m).1
    ensures g.b[m.coord] == Empty && Step(g, st, m).0.b == Turn(g.b, st, m.coord, m.colour)
  {
    hide Turn, KoAfter, OneStoneSuicide;
  }

  lemma StepTogether(g: Game, st: int, m: Move, x: int, y: int, col: Stone)
    requires 0 <= m.coord < |g.b| && Step(g, st, m).1 && IsColour(m.colour) && IsColour(col)
    requires Together(g.b, st, x, y, col) && g.b[x] == col
    ensures Together(Step(g, st, m).0.b, st, x, y, col)
  {
    hide Step, Turn, Together;
    StepIs(g, st, m);
    TurnTogether(g.b, st, m.coord, m.colour, x, y, col);
  }

  lemma {:induction false} WinsTogether(g: Game, st: int, x: int, y: int, col: Stone, d: nat)
    requires IsColour(col) && Together(g.b, st, x, y, col) && ChaserWins(g, st, x, col, d)
    ensures ChaserWins(g, st, y, col, d)
    decreases d, 0
  {
    hide Step, LibSet, Reach, EscaperLoses;
    if g.b[x] == col {
      ReachRange(g.b, st, x, y);
      LibSetSame(g.b, st, x, y);
      if !Caught(g.b, st, x, col) {
        var c :| Attack(g, st, x, col, c, d);
        var g' := Step(g, st, Move(c, Other(col))).0;
        StepTogether(g, st, Move(c, Other(col)), x, y, col);
        LosesTogether(g', st, x, y, col, d - 1);
        assert Attack(g, st, y, col, c, d);
      }
    }
  }

  lemma {:induction false} LosesTogether(g: Game, st: int, x: int, y: int, col: Stone, d: nat)
    requires IsColour(col) && Together(g.b, st, x, y, col) && EscaperLoses(g, st, x, col, d)
    ensures EscaperLoses(g, st, y, col, d)
    decreases d, 1
  {
    hide Step, LibSet, Reach, ChaserWins, Reply;
    ReachRange(g.b, st, x, y);
    LibSetSame(g.b, st, x, y);
    ReachSym(g.b, st, x, y);
    forall c | 0 <= c < |g.b| && Reply(g.b, st, y, col, c) && Step(g, st, Move(c, col)).1
      ensures |Step(g, st, Move(c, col)).0.b| == |g.b| && ChaserWins(Step(g, st, Move(c, col)).0, st, y, col, d)
    {
      ReplySame(g.b, st, y, x, col, c);
      StepTogether(g, st, Move(c, col), x, y, col);
      WinsTogether(Step(g, st, Move(c, col)).0, st, x, y, col, d);
    }
  }

  // ------------------------------------------------------------ an atari leaves one liberty

  /** Every chain has a liberty. */
  ghost predicate AllAlive(b: seq<Stone>, st: int, k: Stone) {
    forall x {:trigger Alive(b, st, x)} :: 0 <= x < |b| && b[x] == k ==> Alive(b, st, x)
  }

  lemma ReachKeeps(v: seq<Stone>, w: seq<Stone>, st: int, x: int, y: int)
    requires |v| == |w| && 0 <= x < |v| && v[x] == w[x] && Reach(v, st, x, y)
    requires forall z :: 0 <= z < |v| && v[z] == v[x] ==> w[z] == v[z]
    ensures Reach(w, st, x, y)
  {
    hide Reach;
    ReachMono(v, w, st, x, y);
  }

  lemma PlacedLibs(v: seq<Stone>, st: int, c: int, k: Stone, x: int)
    requires 0 <= c < |v| && v[c] == Empty && IsColour(k) && 0 <= x < |v| && IsColour(v[x]) && v[x] != k
    ensures LibSet(v[c := k], st, x) == LibSet(v, st, x) - {c}
  {
    hide Reach, Adj;
    var w := v[c := k];
    forall z | 0 <= z < |v| ensures IsLiberty(w, st, x, z) <==> IsLiberty(v, st, x, z) && z != c {
      if IsLiberty(w, st, x, z) {
        var y :| Reach(w, st, x, y) && Adj(st, y, z);
        ReachKeeps(w, v, st, x, y);
      }
      if IsLiberty(v, st, x, z) && z != c {
        var y :| Reach(v, st, x, y) && Adj(st, y, z);
        ReachKeeps(v, w, st, x, y);
      }
    }
  }

  lemma ClearLibs(v: seq<Stone>, st: int, k: Stone, x: int)
    requires 0 <= x < |v| && IsColour(k) && v[x] == k && Alive(v, st, x)
    ensures LibSet(Clear(v, st, k), st, x) == LibSet(v, st, x) && Clear(v, st, k)[x] == k
  {
    hide Reach, Adj, Alive;
    var w := Clear(v, st, k);
    var t := Component(v, st, x);
    ComponentClosed(v, st, x);
    ReachRefl(v, st, x);
    forall z | z in t ensures w[z] == v[z] {
      ReachRange(v, st, x, z);
      AliveSame(v, st, x, z);
    }
    forall z | 0 <= z < |v| ensures IsLiberty(w, st, x, z) <==> IsLiberty(v, st, x, z) {
      if IsLiberty(w, st, x, z) {
        var y :| Reach(w, st, x, y) && Adj(st, y, z);
        ReachKeeps(w, v, st, x, y);
        ReachRange(v, st, x, y);
        if v[z] == k {
          ReachStep(v, st, x, y, z);
          AliveSame(v, st, x, z);
        }
      }
      if IsLiberty(v, st, x, z) {
        var y :| Reach(v, st, x, y) && Adj(st, y, z);
        ReachWithin(v, w, st, t, x, y);
      }
    }
  }

  /** Chains of the colour played stay alive if the played stone does. */
  lemma OwnAlive(v: seq<Stone>, st: int, c: int, k: Stone, z: int)
    requires 0 <= c < |v| && v[c] == Empty && IsColour(k) && AllAlive(v, st, k)
    requires var v2 := Clear(v[c := k], st, Other(k)); v2[c] == k && Alive(v2, st, c) && 0 <= z < |v| && v2[z] == k
    ensures Alive(Clear(v[c := k], st, Other(k)), st, z)
  {
    hide Reach, Adj, Alive, IsLiberty;
    var v1 := v[c := k];
    var v2 := Clear(v1, st, Other(k));
    OtherIs(k);
    if z != c {
      assert v[z] == k;
      var u, y := LibertyOf(v, st, z);
      ReachKeeps(v, v1, st, z, y);
      ReachKeeps(v1, v2, st, z, y);
      if u == c {
        ReachStep(v2, st, z, y, c) by { ReachRange(v2, st, z, y); }
        ReachSym(v2, st, z, c);
        AliveSame(v2, st, c, z);
      } else {
        HasLiberty(v2, st, z, y, u);
      }
    }
  }

  lemma OtherIs(k: Stone)
    requires IsColour(k)
    ensures IsColour(Other(k)) && Other(k) != k && Other(Other(k)) == k
  {
  }

  lemma LibertyOf(v: seq<Stone>, st: int, z: int) returns (u: int, y: int)
    requires Alive(v, st, z)
    ensures 0 <= u < |v| && v[u] == Empty && Reach(v, st, z, y) && Adj(st, y, u)
  {
    hide Reach, Adj;
    u :| IsLiberty(v, st, z, u);
    y :| Reach(v, st, z, y) && Adj(st, y, u);
  }

  lemma HasLiberty(v: seq<Stone>, st: int, z: int, y: int, u: int)
    requires 0 <= u < |v| && v[u] == Empty && Reach(v, st, z, y) && Adj(st, y, u)
    ensures Alive(v, st, z)
  {
    hide Reach, Adj;
    assert IsLiberty(v, st, z, u);
  }

  /** The opponent plays one of two liberties and stays: one is left. */
  lemma AtariLeaves(v: seq<Stone>, st: int, c: int, d: int, k: Stone, x: int)
    requires 0 <= x < |v| && IsColour(k) && v[x] == Other(k) && LibSet(v, st, x) == {c, d} && c != d
    requires AllAlive(v, st, k)
    requires 0 <= c < |v| && v[c] == Empty && Turn(v, st, c, k)[c] == k
    ensures var w := Turn(v, st, c, k); w[x] == Other(k) && LibSet(w, st, x) == {d}
  {
    hide LibSet, Alive, AllAlive;
    OtherIs(k);
    var v1 := v[c := k];
    var v2 := Clear(v1, st, Other(k));
    PlacedLibs(v, st, c, k, x);
    assert LibSet(v1, st, x) == {d};
    AliveByLib(v1, st, x, d);
    ClearLibs(v1, st, Other(k), x);
    forall z | 0 <= z < |v| && v2[z] == k ensures Alive(v2, st, z) { OwnAlive(v, st, c, k, z); }
    assert Turn(v, st, c, k) == v2;
  }

  lemma AliveByLib(v: seq<Stone>, st: int, x: int, d: int)
    requires d in LibSet(v, st, x)
    ensures Alive(v, st, x)
  {
  }
}
