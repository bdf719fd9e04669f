/** The wrapper notes passes in the history but does not play them on the board, so the ko ban outlives
    them. When this shows: exactly when a retake is tried right after a pass. */
module PassKo {
  import opened Grid
  import opened Engine
  import opened Rules
  import opened Books
  import opened PlayTheorem
  import opened EyeMoves
  import opened KoTheorem
  import opened Symmetry
  import opened History
  import opened SymmetricHistory
  import EmptyBoard
  import Reachable

  // ------------------------------------------------------------ the history by the rules

  predicate PassAt(h: string, k: int)
    requires 0 < k <= |h| / 2
  {
    h[2 * (k - 1)] == 'Z'
  }

  /** The first k moves of a history, passes included. */
  function WithPasses(h: string, k: nat): (r: seq<Move>)
    requires Readable(h) && k <= |h| / 2
    ensures |r| == k && Reachable.Playable(POINTS, r)
  {
    if k == 0 then []
    else if PassAt(h, k) then WithPasses(h, k - 1) + [Move(PASS, ColourAt(k - 1))]
    else
      assert ReadableAt(h, k - 1);
      var pos := ReadPoint(h[2 * (k - 1)], h[2 * (k - 1) + 1]);
      PointInside(pos);
      WithPasses(h, k - 1) + [Move(PointOf(pos), ColourAt(k - 1))]
  }

  /** The game the rules make of the first k moves, from the position of t. */
  ghost function ByRules(t: Table, h: string, k: nat): (g: Game)
    requires Board19(t.s) && Readable(h) && k <= |h| / 2
    ensures |g.b| == POINTS
  {
    Reachable.GameAfter(Game(t.s.b, t.s.ko), STRIDE, WithPasses(h, k))
  }

  lemma ByRulesNext(t: Table, h: string, k: nat)
    requires Board19(t.s) && Readable(h) && 0 < k <= |h| / 2
    ensures ByRules(t, h, k) == Step(ByRules(t, h, k - 1), STRIDE, WithPasses(h, k)[k - 1]).0
  {
    hide Step;
    assert WithPasses(h, k)[..k - 1] == WithPasses(h, k - 1);
  }

  lemma OtherBan(b: seq<Stone>, m: Move, ko: Move)
    requires 0 <= m.coord < |b| && IsColour(m.colour) && Legal(b, STRIDE, ko, m)
    ensures Step(Game(b, NO_MOVE), STRIDE, m).0 == Step(Game(b, ko), STRIDE, m).0
  {
    hide Turn, KoAfter, OneStoneSuicide;
  }

  /** Replayed and by the rules, the grids are equal; right after a pass the rules ban nothing, the board
      still bans what it did. */
  lemma {:induction false} ReplayAndRules(t: Table, h: string, k: nat)
    requires Good(t) && Readable(h) && k <= |h| / 2 && ReplayUpTo(t, h, k).Replayed?
    ensures var r := ReplayUpTo(t, h, k).t; Good(r) && ByRules(t, h, k).b == r.s.b
    ensures ByRules(t, h, k).ko == if k > 0 && PassAt(h, k) then NO_MOVE else ReplayUpTo(t, h, k).t.s.ko
  {
    hide Sound, Stone19, Legal, Turn, KoAfter;
    if k > 0 {
      ReplayAndRules(t, h, k - 1);
      ReplayNext(t, h, k - 1);
      ByRulesNext(t, h, k);
      assert ReadableAt(h, k - 1);
      if !PassAt(h, k) {
        var pos := ReadPoint(h[2 * (k - 1)], h[2 * (k - 1) + 1]);
        var r := ReplayUpTo(t, h, k - 1).t;
        StoneSane(r, pos, ColourAt(k - 1));
        OtherBan(r.s.b, Move(PointOf(pos), ColourAt(k - 1)), r.s.ko);
      }
    }
  }

  /** The next stone is judged differently by the rules and by the wrapper if and only if it is the banned
      retake, the move before was a pass, and the retake is no suicide. */
  lemma PassKoExact(t: Table, h: string, k: nat, pos: int)
    requires Good(t) && Readable(h) && k <= |h| / 2 && ReplayUpTo(t, h, k).Replayed? && OnBoardPos(pos)
    ensures 0 <= PointOf(pos) < POINTS && Good(ReplayUpTo(t, h, k).t)
    ensures var r := ReplayUpTo(t, h, k).t; var m := Move(PointOf(pos), ColourAt(k));
      Step(ByRules(t, h, k), STRIDE, m).1 != Stone19(r, pos, ColourAt(k)).1 <==>
        k > 0 && PassAt(h, k) && m == r.s.ko && !OneStoneSuicide(r.s.b, STRIDE, m)
  {
    hide Sound, Stone19, Turn, KoAfter, OneStoneSuicide;
    PointInside(pos);
    ReplayAndRules(t, h, k);
    StoneSane(ReplayUpTo(t, h, k).t, pos, ColourAt(k));
    BanIsEmpty(ReplayUpTo(t, h, k).t.s);
  }

  lemma BanIsEmpty(s: State)
    requires Sound(s)
    ensures s.ko == NO_MOVE || (0 <= s.ko.coord < |s.b| && s.b[s.ko.coord] == Empty)
  {
    hide Quiet, BooksOK, Walled;
  }

  // ------------------------------------------------------------ a game in which it shows

  /** Every stone has an empty neighbour. */
  ghost predicate Airy(v: seq<Stone>, st: int) {
    forall x {:trigger v[x]} :: 0 <= x < |v| && IsColour(v[x]) ==>
      exists z {:trigger Adj(st, x, z)} :: Adj(st, x, z) && 0 <= z < |v| && v[z] == Empty
  }

  lemma AiryAlive(v: seq<Stone>, st: int, x: int, z: int)
    requires 0 <= x < |v| && Adj(st, x, z) && 0 <= z < |v| && v[z] == Empty
    ensures Alive(v, st, x)
  {
    ReachRefl(v, st, x);
    assert IsLiberty(v, st, x, z) by { hide Adj, Reach; }
  }

  lemma AiryClear(v: seq<Stone>, st: int, col: Stone)
    requires Airy(v, st) && IsColour(col)
    ensures Clear(v, st, col) == v
  {
    hide Alive, Adj;
    forall x | 0 <= x < |v| && v[x] == col ensures Alive(v, st, x) {
      var z {:trigger Adj(st, x, z)} :| Adj(st, x, z) && 0 <= z < |v| && v[z] == Empty;
      AiryAlive(v, st, x, z);
    }
  }

  /** A stone that leaves every stone an empty neighbour takes nothing and sets no ko. */
  lemma AiryStep(v: seq<Stone>, st: int, m: Move)
    requires 0 <= m.coord < |v| && IsColour(m.colour) && v[m.coord] == Empty && Airy(v[m.coord := m.colour], st)
    ensures Step(Game(v, NO_MOVE), st, m) == (Game(v[m.coord := m.colour], NO_MOVE), true)
  {
    hide Clear, Airy;
    var w := v[m.coord := m.colour];
    AiryClear(w, st, m.colour);
    AiryClear(w, st, Other(m.colour)) by { assert IsColour(Other(m.colour)); }
    forall x | 0 <= x < |v| && v[x] == Other(m.colour) ensures w[x := Empty] != w { assert w[x := Empty][x] == Empty; }
  }

  function Corner(n: nat): (v: seq<Stone>)
    ensures |v| == POINTS
  {
    var v := EmptyBoard.EmptyGrid(STRIDE);
    var v1 := if n > 0 then v[24 := Black] else v;
    var v2 := if n > 1 then v1[43 := White] else v1;
    var v3 := if n > 2 then v2[44 := Black] else v2;
    if n > 3 then v3[22 := Black] else v3
  }

  lemma CornerAiry(n: nat)
    ensures Airy(Corner(n), STRIDE)
  {
    var v := Corner(n);
    assert v[25] == Empty && v[64] == Empty && v[65] == Empty && v[23] == Empty;
    forall x | 0 <= x < |v| && IsColour(v[x])
      ensures exists z {:trigger Adj(STRIDE, x, z)} :: Adj(STRIDE, x, z) && 0 <= z < |v| && v[z] == Empty
    {
      assert x == 24 || x == 43 || x == 44 || x == 22;
      assert Adj(STRIDE, 24, 25) && Adj(STRIDE, 43, 64) && Adj(STRIDE, 44, 65) && Adj(STRIDE, 22, 23);
    }
  }

  lemma CornerNext(n: nat)
    requires n < 4
    ensures var x := if n == 0 then 24 else if n == 1 then 43 else if n == 2 then 44 else 22;
      Corner(n)[x] == Empty && Corner(n + 1) == Corner(n)[x := if n == 1 then White else Black]
  {
  }

  /** The white stone in the corner takes the black one, and sets the ko. */
  lemma CornerKo()
    ensures var v, m := Corner(4), Move(23, White);
      Standing(v, STRIDE) && Turn(v, STRIDE, 23, White) == v[23 := White][22 := Empty]
      && Step(Game(v, NO_MOVE), STRIDE, m) == (Game(v[23 := White][22 := Empty], Move(22, Black)), true)
    ensures var w := Corner(4)[23 := White][22 := Empty];
      Turn(w, STRIDE, 22, Black) == Corner(4) && !OneStoneSuicide(w, STRIDE, Move(22, Black))
  {
    hide Clear, Alive, Turn;
    var v, m := Corner(4), Move(23, White);
    CornerAiry(4);
    forall x | 0 <= x < |v| && IsColour(v[x]) ensures Alive(v, STRIDE, x) { AiryIsAlive(v, STRIDE, x); }
    CornerTurn();
    assert TakesJust(v, STRIDE, m, 22);
    assert Walled(v, STRIDE, 23, Black);
    KoTaken(v, STRIDE, m, 22);
    RecaptureRestores(v, STRIDE, m, 22);
  }

  lemma AiryIsAlive(v: seq<Stone>, st: int, x: int)
    requires Airy(v, st) && 0 <= x < |v| && IsColour(v[x])
    ensures Alive(v, st, x)
  {
    hide Alive, Adj;
    var z {:trigger Adj(st, x, z)} :| Adj(st, x, z) && 0 <= z < |v| && v[z] == Empty;
    AiryAlive(v, st, x, z);
  }

  lemma CornerTurn()
    ensures Turn(Corner(4), STRIDE, 23, White) == Corner(4)[23 := White][22 := Empty]
  {
    hide Alive;
    var v := Corner(4)[23 := White];
    var w := v[22 := Empty];
    LoneDies(v, STRIDE, 22, Black);
    AiryAlive(v, STRIDE, 24, 25);
    AiryAlive(v, STRIDE, 44, 65);
    assert Clear(v, STRIDE, Black) == w;
    AiryAlive(w, STRIDE, 23, 22);
    AiryAlive(w, STRIDE, 43, 64);
    assert Clear(w, STRIDE, White) == w;
  }

  const KO_GAME := "CaAbBbZPAaBaZPZP"

  lemma KoGameReadable()
    ensures |KO_GAME| == 16 && Readable(KO_GAME)
    ensures forall k {:trigger PassAt(KO_GAME, k)} :: 0 < k <= 8 ==>
      (PassAt(KO_GAME, k) <==> k == 4 || k == 7 || k == 8)
    ensures Placed(1) == 24 && Placed(2) == 43 && Placed(3) == 44 && Placed(5) == 22 && Placed(6) == 23
  {
  }

  /** The point of the k-th move of the game. */
  function Placed(k: int): int
    requires 0 < k <= 8
  {
    PointOf(ReadPoint(KO_GAME[2 * (k - 1)], KO_GAME[2 * (k - 1) + 1]))
  }

  /** The first k moves of the game are replayed and lead to this position. */
  ghost predicate Leads(t: Table, k: nat, v: seq<Stone>, ko: Move)
    requires Good(t) && k <= 8
  {
    KoGameReadable();
    var r := ReplayUpTo(t, KO_GAME, k); r.Replayed? && Good(r.t) && r.t.s.b == v && r.t.s.ko == ko
  }

  /** A legal stone is replayed. */
  lemma StoneReplays(t: Table, k: nat, v: seq<Stone>, ko: Move)
    requires Good(t) && 0 < k <= 8 && !PassAt(KO_GAME, k) && Leads(t, k - 1, v, ko)
    requires |v| == POINTS && 0 <= Placed(k) < POINTS && Step(Game(v, ko), STRIDE, Move(Placed(k), ColourAt(k - 1))).1
    ensures var g := Step(Game(v, ko), STRIDE, Move(Placed(k), ColourAt(k - 1))).0; Leads(t, k, g.b, g.ko)
  {
    hide Sound, Stone19, Step;
    KoGameReadable();
    assert ReadableAt(KO_GAME, k - 1);
    ReplayNext(t, KO_GAME, k - 1);
    var pos := ReadPoint(KO_GAME[2 * (k - 1)], KO_GAME[2 * (k - 1) + 1]);
    StoneSane(ReplayUpTo(t, KO_GAME, k - 1).t, pos, ColourAt(k - 1));
  }

  lemma PassReplays(t: Table, k: nat, v: seq<Stone>, ko: Move)
    requires Good(t) && 0 < k <= 8 && PassAt(KO_GAME, k) && Leads(t, k - 1, v, ko)
    ensures Leads(t, k, v, ko)
  {
    hide Sound;
    KoGameReadable();
    ReplayNext(t, KO_GAME, k - 1);
  }

  /** The game on a new object: the last stone sets a ko, and two passes follow. */
  lemma KoGameReplays(keys: seq<Key>)
    requires |keys| == POINTS
    ensures Good(NewTable(keys)) && Leads(NewTable(keys), 8, Corner(4)[23 := White][22 := Empty], Move(22, Black))
  {
    hide Sound, Step, Leads, Placed, PassAt, Good, Corner;
    NewTableFresh(keys);
    KoGameReadable();
    var t := NewTable(keys);
    assert Leads(t, 0, Corner(0), NO_MOVE) by { StartLeads(keys); }
    NextCorner(t, 1, 0);
    NextCorner(t, 2, 1);
    NextCorner(t, 3, 2);
    PassReplays(t, 4, Corner(3), NO_MOVE);
    NextCorner(t, 5, 3);
    CornerKo();
    StoneReplays(t, 6, Corner(4), NO_MOVE);
    PassReplays(t, 7, Corner(4)[23 := White][22 := Empty], Move(22, Black));
    PassReplays(t, 8, Corner(4)[23 := White][22 := Empty], Move(22, Black));
  }

  lemma StartLeads(keys: seq<Key>)
    requires |keys| == POINTS
    ensures Good(NewTable(keys)) && Leads(NewTable(keys), 0, Corner(0), NO_MOVE)
  {
    hide Sound;
    NewTableFresh(keys);
    KoGameReadable();
    ReplayNone(NewTable(keys), KO_GAME);
  }

  /** The k-th move puts the next stone of the corner. */
  lemma NextCorner(t: Table, k: nat, n: nat)
    requires Good(t) && ((k == n + 1 && n < 3) || (k == 5 && n == 3)) && Leads(t, k - 1, Corner(n), NO_MOVE)
    ensures Leads(t, k, Corner(n + 1), NO_MOVE)
  {
    hide Sound, Step, Leads, Airy, Corner, Placed, PassAt;
    KoGameReadable();
    CornerAiry(n + 1);
    CornerNext(n);
    var m := Move(Placed(k), ColourAt(k - 1));
    AiryStep(Corner(n), STRIDE, m);
    StoneReplays(t, k, Corner(n), NO_MOVE);
  }

  /** After that game the wrapper refuses the retake and the rules allow it. */
  lemma PassesDisagree(keys: seq<Key>)
    requires |keys| == POINTS
    ensures Good(NewTable(keys)) && Readable(KO_GAME) && |KO_GAME| == 16
    ensures var r := ReplayUpTo(NewTable(keys), KO_GAME, 8);
      r.Replayed? && Board19(r.t.s) && r.t.s.ko == Move(22, Black) && PointOf(0) == 22 && !Stone19(r.t, 0, Black).1
    ensures Step(ByRules(NewTable(keys), KO_GAME, 8), STRIDE, Move(22, Black)).1
  {
    hide Sound, Step, Stone19, OneStoneSuicide;
    KoGameReadable();
    KoGameReplays(keys);
    CornerKo();
    var t := NewTable(keys);
    assert PassAt(KO_GAME, 8);
    StoneSane(ReplayUpTo(t, KO_GAME, 8).t, 0, Black);
    PassKoExact(t, KO_GAME, 8, 0);
    Banned(Corner(4)[23 := White][22 := Empty], Move(22, Black));
  }

  lemma Banned(b: seq<Stone>, m: Move)
    requires 0 <= m.coord < |b|
    ensures !Step(Game(b, m), STRIDE, m).1 || m.coord == PASS
  {
    hide Turn, KoAfter;
  }
}
