/** The empty board, runs of moves from it, and what holds in every board a run reaches. */
module Reachable {
  import opened Grid
  import opened LibList
  import opened Engine
  import opened Invariant
  import opened Steps
  import opened Moves
  import opened Books
  import opened Rules
  import opened PlayTheorem
  import opened BoardTheorem

  // ------------------------------------------------------------ the empty board

  /** A framed grid without stones. */
  ghost predicate Bare(v: seq<Stone>, st: int) { Framed(v, st) && forall x :: 0 <= x < |v| ==> !IsColour(v[x]) }

  /** The empty points among the first k, in order. */
  function FreePoints(v: seq<Stone>, k: nat): seq<int>
    requires k <= |v|
  {
    if k == 0 then [] else FreePoints(v, k - 1) + if v[k - 1] == Empty then [k - 1] else []
  }

  function Zeros<T>(n: nat, z: T): seq<T> { seq(n, i => z) }

  function StartCounts(v: seq<Stone>, st: int): seq<Counts>
    requires st >= 3
  {
    seq(|v|, x requires 0 <= x < |v| =>
      if v[x] != Off && Interior(v, st, x) then CountsAt(v, st, x)
      else Counts(0, 0, 0))
  }

  /** A cleared board over the grid v. */
  function Cleared(v: seq<Stone>, st: int, keys: seq<Key>, rules: Ruleset): State
    requires st >= 3
  {
    State(st, v, StartCounts(v, st), Zeros(|v|, 0), Zeros(|v|, 0), Zeros(|v|, []),
          Tally(0, 0), Tally(0, 0), 0, rules, [NO_MOVE, NO_MOVE, NO_MOVE, NO_MOVE], 0, NO_MOVE, NO_MOVE, 0,
          true, FreePoints(v, |v|), seq(|v|, x requires 0 <= x < |v| => if v[x] == Empty then |FreePoints(v, x)|
            else 0),
          [], {}, keys, [])
  }

  lemma {:induction false} FreePointsAre(v: seq<Stone>, k: nat)
    requires k <= |v|
    ensures var f := FreePoints(v, k); Distinct(f) && (forall x :: x in f <==> 0 <= x < k && v[x] == Empty)
    ensures var f := FreePoints(v, k); forall i :: 0 <= i < |f| ==> 0 <= f[i] < k && |FreePoints(v, f[i])| == i
  {
    if k > 0 { FreePointsAre(v, k - 1); }
  }

  lemma {:induction false} NoStonesHash(v: seq<Stone>, keys: seq<Key>)
    requires |v| == |keys| && forall x :: 0 <= x < |v| ==> !IsColour(v[x])
    ensures XorAll(v, keys) == {} && StonesOf(v, Black) == 0 && StonesOf(v, White) == 0
    decreases |v|
  {
    if |v| > 0 { NoStonesHash(v[..|v| - 1], keys[..|v| - 1]); }
  }

  lemma ClearedQuiet(v: seq<Stone>, st: int, keys: seq<Key>, rules: Ruleset)
    requires Bare(v, st) && |keys| == |v|
    ensures Quiet(K(Cleared(v, st, keys, rules)), map[])
  {
    hide Reach;
    var c := K(Cleared(v, st, keys, rules));
    assert View(c, QUIET) == v;
    assert v[0] == Off;
  }

  lemma ClearedSound(v: seq<Stone>, st: int, keys: seq<Key>, rules: Ruleset)
    requires Bare(v, st) && |keys| == |v|
    ensures var s := Cleared(v, st, keys, rules); Sound(s) && Accounted(s, Black) == 0 && Accounted(s, White) == 0
  {
    var s := Cleared(v, st, keys, rules);
    ClearedQuiet(v, st, keys, rules);
    hide Quiet, XorAll, StonesOf;
    FreePointsAre(v, |v|);
    NoStonesHash(v, keys);
    assert FreeOK(s, PASS) by { hide CountsOK, FreePoints; }
    hide FreeOK, FreePoints;
    assert CountsOK(s, 0, Empty, 0);
    assert AtariOK(s);
  }

  // ------------------------------------------------------------ runs

  predicate Playable(n: int, ms: seq<Move>) {
    forall i :: 0 <= i < |ms| ==> IsColour(ms[i].colour) && (ms[i].coord == PASS || 0 <= ms[i].coord < n)
  }

  /** The board after offering it the moves one by one; refused ones are dropped. */
  function After(s: State, ms: seq<Move>): (r: State)
    requires Sized(s) && Playable(|s.b|, ms)
    ensures Sized(r) && |r.b| == |s.b| && r.st == s.st
    decreases ms
  {
    if ms == [] then s
    else
      var s1 := After(s, ms[..|ms| - 1]);
      var m := ms[|ms| - 1];
      assert Playable(|s.b|, [m]);
      Play(s1, m).0
  }

  /** The game the same moves make by the rules. */
  ghost function GameAfter(g: Game, st: int, ms: seq<Move>): (r: Game)
    requires Playable(|g.b|, ms)
    ensures |r.b| == |g.b|
    decreases ms
  {
    if ms == [] then g
    else
      var m := ms[|ms| - 1];
      assert Playable(|g.b|, [m]);
      Step(GameAfter(g, st, ms[..|ms| - 1]), st, m).0
  }

  /** How many of the moves were stones of colour col that the board accepted. */
  function StonesPut(s: State, ms: seq<Move>, col: Stone): nat
    requires Sized(s) && Playable(|s.b|, ms)
    decreases ms
  {
    if ms == [] then 0
    else
      var s1 := After(s, ms[..|ms| - 1]);
      var m := ms[|ms| - 1];
      assert Playable(|s.b|, [m]);
      StonesPut(s, ms[..|ms| - 1], col) + if Play(s1, m).1 && m.coord != PASS && m.colour == col then 1 else 0
  }

  lemma PassesAccounted(s: State, m: Move)
    requires Sized(s) && m.coord == PASS && IsColour(m.colour) && s.rules != Siming
    ensures forall c :: Accounted(Play(s, m).0, c) == Accounted(s, c)
  {
    hide StonesOf;
  }

  lemma RulesKept(s: State, m: Move)
    requires Sized(s) && IsColour(m.colour) && (m.coord == PASS || 0 <= m.coord < |s.b|)
    ensures Play(s, m).0.rules == s.rules
  {
    hide PlayUpTo, EyeUpTo, Capture, NewGroup, Eyelike, AtariNbs, TakeFree;
  }

  /** Over any run from any sound board: the board stays sound, shows exactly the game the rules
      make of the moves, and accounts for every stone put down, captures and suicides included. */
  lemma {:induction false} RunRefinesGame(s: State, ms: seq<Move>)
    requires Sound(s) && Playable(|s.b|, ms)
    ensures Sized(s) && Sound(After(s, ms)) && After(s, ms).rules == s.rules
    ensures Game(After(s, ms).b, After(s, ms).ko) == GameAfter(Game(s.b, s.ko), s.st, ms)
    ensures s.rules != Siming ==> forall c :: IsColour(c) ==>
      Accounted(After(s, ms), c) == Accounted(s, c) + StonesPut(s, ms, c)
    decreases ms
  {
    hide Play, Step, Quiet, BooksOK, StonesOf;
    if ms != [] {
      var m := ms[|ms| - 1];
      RunRefinesGame(s, ms[..|ms| - 1]);
      var s1 := After(s, ms[..|ms| - 1]);
      assert Playable(|s.b|, [m]);
      PlayRefinesStep(s1, m);
      RulesKept(s1, m);
      if m.coord == PASS && s.rules != Siming { PassesAccounted(s1, m); }
    }
  }

  /** From the empty board: a board any run reaches is sound and is the rules' board. */
  lemma RunFromEmpty(v: seq<Stone>, st: int, keys: seq<Key>, rules: Ruleset, ms: seq<Move>)
    requires Bare(v, st) && |keys| == |v| && Playable(|v|, ms)
    ensures var s := Cleared(v, st, keys, rules); Sized(s) && Sound(After(s, ms))
    ensures var r := After(Cleared(v, st, keys, rules), ms); Game(r.b, r.ko) == GameAfter(Game(v, NO_MOVE), st, ms)
    ensures var s := Cleared(v, st, keys, rules); rules != Siming ==>
      forall c :: IsColour(c) ==> StonesPut(s, ms, c) == StonesOf(After(s, ms).b, c) + TallyOf(After(s, ms).caps,
          Other(c))
  {
    var s := Cleared(v, st, keys, rules);
    ClearedSound(v, st, keys, rules);
    RunRefinesGame(s, ms);
  }

  function Both(t: Tally): int { t.black + t.white }

  /** A move is counted exactly if it is accepted, and among the passes exactly if it is one. */
  lemma MovesCounted(s: State, m: Move)
    requires Sized(s) && IsColour(m.colour) && (m.coord == PASS || 0 <= m.coord < |s.b|)
    ensures var (r, ok) := Play(s, m);
      r.moves == s.moves + One(ok) && Both(r.passes) == Both(s.passes) + One(m.coord == PASS)
  {
    hide PlayUpTo, EyeUpTo, Capture, NewGroup, Eyelike, AtariNbs, TakeFree;
  }

  /** Stones on the board and captures of both colours. */
  function AllStones(s: State): int { Accounted(s, Black) + Accounted(s, White) }

  lemma {:induction false} RunCounts(s: State, ms: seq<Move>)
    requires Sound(s) && Playable(|s.b|, ms) && s.rules != Siming
    ensures Sized(s)
    ensures var r := After(s, ms); r.moves - Both(r.passes) - AllStones(r) == s.moves - Both(s.passes) - AllStones(s)
    decreases ms
  {
    hide Play, Step, Quiet, BooksOK, Accounted;
    if ms != [] {
      var m := ms[|ms| - 1];
      RunCounts(s, ms[..|ms| - 1]);
      RunRefinesGame(s, ms[..|ms| - 1]);
      var s1 := After(s, ms[..|ms| - 1]);
      assert Playable(|s.b|, [m]);
      PlayRefinesStep(s1, m);
      MovesCounted(s1, m);
      if m.coord == PASS { PassesAccounted(s1, m); }
    }
  }

  /** Off Siming rules the moves that were no passes are the stones on the board and the captures. */
  lemma MovesAreStones(v: seq<Stone>, st: int, keys: seq<Key>, rules: Ruleset, ms: seq<Move>)
    requires Bare(v, st) && |keys| == |v| && Playable(|v|, ms) && rules != Siming
    ensures Sized(Cleared(v, st, keys, rules))
    ensures var r := After(Cleared(v, st, keys, rules), ms);
      r.moves - Both(r.passes) == StonesOf(r.b, Black) + StonesOf(r.b, White) + r.caps.black + r.caps.white
  {
    ClearedSound(v, st, keys, rules);
    RunCounts(Cleared(v, st, keys, rules), ms);
  }

  // ------------------------------------------------------------ what the arrays mean

  /** l runs through the links from x to the end, each stone once. */
  ghost predicate Threads(p: seq<int>, x: int, l: seq<int>) {
    |l| > 0 && l[0] == x && Distinct(l) && Links(p, l)
  }

  lemma ChainSound(s: State, x: int) returns (ch: Chains)
    requires Sound(s) && 0 <= x < |s.b| && IsColour(s.b[x])
    ensures Quiet(K(s), ch) && s.g[x] in ch && ChainOf(s, s.g[x]) == ch[s.g[x]] && ChainList(K(s), s.g[x], ch[s.g[x]])
    ensures 0 < s.g[x] < |s.lib| == |s.b| == |s.g| && s.b[s.g[x]] == s.b[x] && View(K(s), QUIET) == s.b
  {
    hide LibsOK, Lively, BooksOK, Reach, Framed, Maximal, Conn, ChainList, KoOK;
    ch :| Quiet(K(s), ch);
    SameHue(K(s), ch, QUIET, s.g[x], x);
    WalkIsChain(K(s), s.g[x], ch[s.g[x]]);
  }

  lemma ComponentIds(c: Core, ch: Chains, x: int, y: int)
    requires W(c, ch, QUIET) && 0 <= x < |c.b| == |c.g| && IsColour(c.b[x])
    ensures y in Component(c.b, c.st, x) <==> 0 <= y < |c.g| && c.g[y] == c.g[x]
  {
    hide Reach, W;
    if 0 <= y < |c.b| { SameChain(c, ch, x, y); }
  }

  lemma ListIds(c: Core, ch: Chains, h: int, y: int)
    requires W(c, ch, QUIET) && h in ch && h != 0
    ensures y in ch[h] <==> 0 <= y < |c.g| && c.g[y] == h
  {
    hide Reach, LibsOK, Conn, Maximal, Stony;
    assert ChainList(c, h, ch[h]);
  }

  /** The list linked from the id of a stone is its chain: each stone of the component once,
      ended by 0; and the ids tell chains apart. */
  lemma ChainIsComponent(s: State, x: int)
    requires Sound(s) && 0 <= x < |s.b| && IsColour(s.b[x])
    ensures |s.g| == |s.b| && Threads(s.p, s.g[x], ChainOf(s, s.g[x]))
    ensures forall y :: y in ChainOf(s, s.g[x]) <==> y in Component(s.b, s.st, x)
    ensures forall y :: y in Component(s.b, s.st, x) <==> 0 <= y < |s.b| && s.g[y] == s.g[x]
  {
    hide Sound, W, Lively, Reach, Component;
    var ch := ChainSound(s, x);
    forall y ensures y in Component(s.b, s.st, x) <==> 0 <= y < |s.b| && s.g[y] == s.g[x] { ComponentIds(K(s), ch, x,
        y); }
    forall y ensures y in ChainOf(s, s.g[x]) <==> 0 <= y < |s.b| && s.g[y] == s.g[x] { ListIds(K(s), ch, s.g[x], y); }
  }

  /** The liberties of the chain of x. */
  ghost function Liberties(s: State, x: int): set<int> {
    set z | 0 <= z < |s.b| && IsLiberty(s.b, s.st, x, z)
  }

  /** The liberty list of a chain holds distinct true liberties, never none, and all of them when
      it has at most five entries. */
  lemma ListedLiberties(s: State, x: int)
    requires Sound(s) && 0 <= x < |s.b| && IsColour(s.b[x])
    ensures |s.g| == |s.b| && 0 < s.g[x] < |s.lib| && LibOK(s.lib[s.g[x]], Liberties(s, x)) && s.lib[s.g[x]] != []
  {
    hide Sound, W, Lively, Reach, IsLiberty, IsLib;
    var ch := ChainSound(s, x);
    var c, h := K(s), s.g[x];
    forall z | 0 <= z < |s.b| ensures z in Libs(c, QUIET, h) <==> IsLiberty(s.b, s.st, x, z) {
      if IsLib(c, QUIET, h, z) { LibMakesAlive(c, ch, x, z); }
      if IsLiberty(s.b, s.st, x, z) { LibertyListed(c, ch, x, z); }
    }
    assert Libs(c, QUIET, h) == Liberties(s, x);
    LibOf(c, ch, h);
  }

  lemma LibOf(c: Core, ch: Chains, h: int)
    requires Quiet(c, ch) && h in ch && 0 <= h < |c.lib|
    ensures LibOK(c.lib[h], Libs(c, QUIET, h)) && c.lib[h] != []
  {
    hide Reach, Linked, Cover, Conn, Maximal, Stony;
  }

  /** A list of length one means exactly one liberty. */
  lemma AtariMeansOneLiberty(s: State, x: int)
    requires Sound(s) && 0 <= x < |s.b| && IsColour(s.b[x])
    ensures |s.g| == |s.b| && 0 < s.g[x] < |s.lib|
    ensures |s.lib[s.g[x]]| == 1 <==> exists z :: Liberties(s, x) == {z}
  {
    hide Sound, Liberties, LibOK;
    ListedLiberties(s, x);
    OneMeansOne(s.lib[s.g[x]], Liberties(s, x));
  }

  lemma OneMeansOne(l: seq<int>, L: set<int>)
    requires LibOK(l, L) && l != []
    ensures |l| == 1 <==> exists z :: L == {z}
  {
    assert l[0] in l && l[0] in L;
    if |l| == 1 {
      forall z ensures z in L <==> z == l[0] {}
      assert L == {l[0]};
    } else {
      assert l[1] in l && l[1] in L && l[0] != l[1];
    }
  }

  /** A list that no chain owns is empty. */
  lemma UnusedListsEmpty(s: State, h: int)
    requires Sound(s) && 0 <= h < |s.b| && !(IsColour(s.b[h]) && s.g[h] == h)
    ensures h < |s.lib| && s.lib[h] == []
  {
    hide BooksOK, Reach, Conn, Maximal, LibOK, Lively, KoOK;
    var ch :| Quiet(K(s), ch);
    assert View(K(s), QUIET) == s.b;
    if h in ch { IdPositive(K(s), ch, h); }
  }

  function CountsAt(b: seq<Stone>, st: int, x: int): Counts
    requires Interior(b, st, x)
  {
    Counts(Around(b, st, x, Black), Around(b, st, x, White), Around(b, st, x, Off))
  }

  /** The side indexes: free points, chains in atari, neighbour counts and hash. */
  lemma IndexesExact(s: State)
    requires Sound(s) && s.full
    ensures Sized(s) && Distinct(s.free) && forall x :: x in s.free <==> 0 <= x < |s.b| && s.b[x] == Empty
    ensures forall i :: 0 <= i < |s.free| ==> 0 <= s.free[i] < |s.fmap| && s.fmap[s.free[i]] == i
    ensures Distinct(s.atari)
    ensures forall h :: h in s.atari <==> 0 <= h < |s.b| && IsColour(s.b[h]) && s.g[h] == h && |s.lib[h]| == 1
    ensures forall x :: 0 <= x < |s.b| && s.b[x] != Off ==> Interior(s.b, s.st, x) && s.n[x] == CountsAt(s.b, s.st, x)
    ensures s.hash == XorAll(s.b, s.keys)
  {
    hide Quiet, KoOK, XorAll, Framed;
    assert Framed(s.b, s.st) by { var ch :| Quiet(K(s), ch); QuietShape(K(s), ch); }
    forall h | h in s.atari ensures IsColour(s.b[h]) && s.g[h] == h {
      if !(IsColour(s.b[h]) && s.g[h] == h) { UnusedListsEmpty(s, h); }
    }
    forall x | 0 <= x < |s.b| && s.b[x] != Off ensures s.st < x < |s.b| - s.st { FramedAt(s.b, s.st, x); }
  }

  lemma FramedAt(v: seq<Stone>, st: int, x: int)
    requires Framed(v, st) && 0 <= x < |v| && v[x] != Off
    ensures st < x < |v| - st
  {
  }
}
