/** The captures a chain in atari can answer with: of neighbours in atari themselves, unless the
    capture would be a snapback. The lists the board keeps decide this as the rules do. */
module CounterCaptures {
  import opened Grid
  import opened LibList
  import opened Engine
  import opened Invariant
  import opened Steps
  import opened Books
  import opened Moves
  import opened Rules
  import opened PlayTheorem
  import opened EyeMoves
  import opened BoardTheorem
  import opened Reachable
  import opened Legality
  import opened KoTheorem
  import opened UndoTheorem
  import opened LadderRules

  // ------------------------------------------------------------ what the lists say

  ghost predicate IsGroup(s: State, h: int) {
    Sized(s) && 0 < h < |s.b| && IsColour(s.b[h]) && s.g[h] == h
  }

  lemma NoStoneNoId(s: State, x: int)
    requires Sound(s) && 0 <= x < |s.b|
    ensures Sized(s) && (!IsColour(s.b[x]) ==> s.g[x] == 0)
  {
    hide BooksOK, KoOK, Linked, Cover, Conn, Maximal, LibsOK, Lively;
    var ch :| Quiet(K(s), ch);
    assert View(K(s), QUIET) == s.b;
  }

  lemma StoneFacts(s: State, x: int)
    requires Sound(Quick(s)) && 0 <= x < |s.b| && IsColour(s.b[x])
    ensures Sized(s) && var h := s.g[x];
      IsGroup(s, h) && s.b[h] == s.b[x] && Reach(s.b, s.st, x, h) && Reach(s.b, s.st, h, x)
    ensures var l := s.lib[s.g[x]]; LibOK(l, LibSet(s.b, s.st, x)) && l != []
    ensures |s.lib[s.g[x]]| == 1 <==> OneLib(s.b, s.st, x)
  {
    hide Sound, Liberties, Reach, LibOK, LibSet;
    var q := Quick(s);
    NoStoneNoId(q, x);
    var ch := ChainSound(q, x);
    ListedLiberties(q, x);
    AtariMeansOneLiberty(q, x);
    SetsAgree(q, x);
    ChainAlike(q, ch, x);
  }

  lemma SetsAgree(s: State, x: int)
    ensures Liberties(s, x) == LibSet(s.b, s.st, x)
  {
    hide IsLiberty;
  }

  lemma ChainAlike(s: State, ch: Chains, x: int)
    requires Quiet(K(s), ch) && Sized(s) && 0 <= x < |s.b| && IsColour(s.b[x]) && s.g[x] in ch
    ensures IsGroup(s, s.g[x]) && s.b[s.g[x]] == s.b[x] && Reach(s.b, s.st, x, s.g[x]) && Reach(s.b, s.st, s.g[x], x)
  {
    hide Reach, Conn, Maximal, LibsOK, Stony, Lively, Cover;
    var h := s.g[x];
    IdPositive(K(s), ch, h);
    SameChain(K(s), ch, x, h);
    ReachRange(s.b, s.st, x, h);
    ReachSym(s.b, s.st, x, h);
  }

  /** Group id 0 stands for no stone. */
  lemma IdFacts(s: State, x: int)
    requires Sound(Quick(s)) && 0 <= x < |s.b|
    ensures Sized(s) && 0 <= s.g[x] < |s.b| && (s.g[x] == 0 <==> !IsColour(s.b[x]))
  {
    hide Sound, LibOK, LibSet, Reach;
    NoStoneNoId(Quick(s), x);
    if IsColour(s.b[x]) { StoneFacts(s, x); }
  }

  /** The one liberty of a chain in atari. */
  lemma OnlyLib(s: State, x: int)
    requires Sound(Quick(s)) && 0 <= x < |s.b| && IsColour(s.b[x]) && Sized(s) && 0 <= s.g[x] < |s.lib|
    requires |s.lib[s.g[x]]| == 1
    ensures var c := s.lib[s.g[x]][0]; LibSet(s.b, s.st, x) == {c} && 0 <= c < |s.b| && s.b[c] == Empty && Inner(s, c)
  {
    hide Sound, Reach, IsLiberty;
    StoneFacts(s, x);
    var l := s.lib[s.g[x]];
    var z :| LibSet(s.b, s.st, x) == {z};
    assert l[0] in l;
    assert IsLiberty(s.b, s.st, x, l[0]);
    LibertyEmpty(s.b, s.st, x, l[0]);
    EmptyIsInner(Quick(s), l[0]);
  }

  lemma LibertyEmpty(b: seq<Stone>, st: int, x: int, z: int)
    requires IsLiberty(b, st, x, z)
    ensures 0 <= z < |b| && b[z] == Empty
  {
  }

  // ------------------------------------------------------------ snapback

  /** A neighbour z of the capturing point that is no way out: as the lists have it. */
  predicate SideOK(s: State, h: int, z: int)
    requires Sized(s) && 0 <= h < |s.b|
  {
    0 <= z < |s.b|
    && (s.b[z] == Off || s.g[z] == h
        || (!(s.b[z] == s.b[h] && InAtari(s, s.g[z]) == 1) && !(s.b[z] == Other(s.b[h]) && Roomy(s, s.g[z]))))
  }

  /** Whether capturing the chain h, which is in atari, would be a snapback. */
  predicate Snapback(s: State, h: int)
    requires Sized(s) && 0 <= h < |s.b| && |s.lib[h]| == 1 && Inner(s, s.lib[h][0])
  {
    var c := s.lib[h][0];
    ImmediateLibs(s, c) <= 0 && s.p[h] == 0 && !Eyelike(s, c, s.b[h]) && SidesOK(s, h, c, 4)
  }

  predicate SidesOK(s: State, h: int, c: int, k: int)
    requires Sized(s) && 0 <= h < |s.b| && 0 <= k <= 4
  {
    k > 0 ==> SidesOK(s, h, c, k - 1) && SideOK(s, h, Nb(s.st, c, k - 1))
  }

  lemma SidesAll(s: State, h: int, c: int)
    requires Sized(s) && 0 <= h < |s.b|
    ensures SidesOK(s, h, c, 4) <==> forall k :: 0 <= k < 4 ==> SideOK(s, h, Nb(s.st, c, k))
  {
    hide SideOK, Nb;
    assert SidesOK(s, h, c, 4) == (SidesOK(s, h, c, 3) && SideOK(s, h, Nb(s.st, c, 3)));
    assert SidesOK(s, h, c, 3) == (SidesOK(s, h, c, 2) && SideOK(s, h, Nb(s.st, c, 2)));
    assert SidesOK(s, h, c, 2) == (SidesOK(s, h, c, 1) && SideOK(s, h, Nb(s.st, c, 1)));
    assert SidesOK(s, h, c, 1) == SideOK(s, h, Nb(s.st, c, 0));
  }

  /** A chain is one stone exactly if its id has no next stone. */
  lemma OneStone(s: State, h: int)
    requires Sound(Quick(s)) && IsGroup(s, h)
    ensures s.p[h] == 0 <==> Component(s.b, s.st, h) == {h}
  {
    hide Sound, Reach, Component;
    var q := Quick(s);
    ChainIsComponent(q, h);
    NoStoneAtZero(q);
    OneLink(q, h);
  }

  lemma NoStoneAtZero(s: State)
    requires Sound(s)
    ensures Sized(s) && s.g[0] == 0
  {
    hide Sound, Framed;
    SoundSized(s);
    SoundStanding(s);
    NoStoneNoId(s, 0);
    OffAtZero(s.b, s.st);
  }

  lemma OffAtZero(b: seq<Stone>, st: int)
    requires Framed(b, st)
    ensures b[0] == Off
  {
  }

  lemma OneLink(s: State, h: int)
    requires Sized(s) && 0 < h < |s.b| && Threads(s.p, h, ChainOf(s, h))
    requires 0 !in Component(s.b, s.st, h) && forall y :: y in ChainOf(s, h) <==> y in Component(s.b, s.st, h)
    ensures s.p[h] == 0 <==> Component(s.b, s.st, h) == {h}
  {
    hide Reach, Component, ChainOf;
    var l := ChainOf(s, h);
    assert s.p[l[0]] == if 1 < |l| then l[1] else 0;
    if |l| == 1 {
      forall y ensures y in Component(s.b, s.st, h) <==> y == h {}
    } else {
      assert l[1] in l && l[1] != l[0];
      assert l[1] in Component(s.b, s.st, h);
    }
  }

  lemma SideExact(s: State, h: int, z: int)
    requires Sound(Quick(s)) && IsGroup(s, h) && Component(s.b, s.st, h) == {h} && 0 <= z < |s.b| && s.b[z] != Empty
    ensures SideOK(s, h, z) <==> SnapSide(s.b, s.st, h, z)
  {
    hide Sound, Reach, LibOK, LibSet, OneLib;
    IdFacts(s, z);
    if IsColour(s.b[z]) {
      StoneFacts(s, z);
      ChainIsComponent(Quick(s), h);
      assert s.g[z] == h <==> z in Component(s.b, s.st, h);
    }
  }

  lemma NoneEmpty(s: State, c: int)
    requires Sound(Quick(s)) && 0 <= c < |s.b| && s.b[c] == Empty
    ensures Inner(s, c) && (ImmediateLibs(s, c) <= 0 <==> Lone(s.b, s.st, c, Empty)) && Interior(s.b, s.st, c)
  {
    hide Sound;
    FreeNeighbours(Quick(s), c);
  }

  lemma EyeTestQuick(s: State, c: int, eye: Stone)
    requires Sound(Quick(s)) && 0 <= c < |s.b| && s.b[c] == Empty && IsColour(eye)
    ensures Inner(s, c) && (Eyelike(s, c, eye) <==> Walled(s.b, s.st, c, eye))
  {
    hide Quiet, KoOK, Eyelike, Walled;
    var q := Quick(s);
    BooksCounts(q);
    var ch :| Quiet(K(q), ch);
    QuietShape(K(q), ch);
    EyelikeIff(q, c, eye);
    assert Eyelike(q, c, eye) == Eyelike(s, c, eye) by { SameEye(s, c, eye); }
  }

  lemma SameEye(s: State, c: int, eye: Stone)
    requires 0 <= c < |s.n|
    ensures Eyelike(Quick(s), c, eye) == Eyelike(s, c, eye)
  {
  }

  /** The snapback test decides what the rules call one. */
  lemma SnapbackExact(s: State, h: int)
    requires Sound(Quick(s)) && IsGroup(s, h) && |s.lib[h]| == 1
    ensures Inner(s, s.lib[h][0]) && (Snapback(s, h) <==> Snap(s.b, s.st, h, s.lib[h][0]))
  {
    hide Sound, Reach, LibOK, LibSet, Component, SideOK, SnapSide, Walled, Eyelike, Lone, IsLiberty;
    OnlyLib(s, h);
    var c := s.lib[h][0];
    NoneEmpty(s, c);
    EyeTestQuick(s, c, s.b[h]);
    OneStone(s, h);
    SidesAll(s, h, c);
    if Component(s.b, s.st, h) == {h} && Lone(s.b, s.st, c, Empty) {
      forall k | 0 <= k < 4 ensures SideOK(s, h, Nb(s.st, c, k)) <==> SnapSide(s.b, s.st, h, Nb(s.st, c, k)) {
        SideFull(s.b, s.st, c, k);
        SideExact(s, h, Nb(s.st, c, k));
      }
    }
  }

  lemma SideFull(b: seq<Stone>, st: int, c: int, k: int)
    requires Lone(b, st, c, Empty) && 0 <= k < 4
    ensures 0 <= Nb(st, c, k) < |b| && b[Nb(st, c, k)] != Empty
  {
  }

  // ------------------------------------------------------------ the captures

  predicate WorthCapture(s: State, h: int, col: Stone)
    requires Sized(s) && 0 <= h < |s.b| && |s.lib[h]| == 1 && Inner(s, s.lib[h][0])
  {
    ValidPlay(s, Move(s.lib[h][0], col)) && !Snapback(s, h)
  }

  /** The chain at z is worth capturing for the colour col. */
  predicate Takes(s: State, col: Stone, z: int)
    requires Sized(s)
  {
    0 <= z < |s.b| && s.b[z] == Other(col) && 0 <= s.g[z] < |s.b| && |s.lib[s.g[z]]| == 1
      && Inner(s, s.lib[s.g[z]][0]) && WorthCapture(s, s.g[z], col)
  }

  /** One more move for the queue, unless it is there. */
  function Queued(q: seq<int>, c: int): seq<int> { if c in q then q else q + [c] }

  function CounterNbs(s: State, col: Stone, x: int, q: seq<int>, k: int): seq<int>
    requires Sized(s) && 0 <= k <= 4
  {
    if k == 0 then q
    else
      var q1, z := CounterNbs(s, col, x, q, k - 1), Nb(s.st, x, k - 1);
      if Takes(s, col, z) then Queued(q1, s.lib[s.g[z]][0]) else q1
  }

  function CounterUpTo(s: State, col: Stone, stones: seq<int>, i: int): seq<int>
    requires Sized(s) && 0 <= i <= |stones|
  {
    if i == 0 then [] else CounterNbs(s, col, stones[i - 1], CounterUpTo(s, col, stones, i - 1), 4)
  }

  /** The counter-captures of the chain h, in the order they are found. */
  function Counters(s: State, h: int): seq<int>
    requires Sized(s) && 0 <= h < |s.b|
  {
    CounterUpTo(s, s.b[h], ChainOf(s, h), |ChainOf(s, h)|)
  }

  predicate TakesAt(s: State, col: Stone, z: int, c: int)
    requires Sized(s)
  {
    Takes(s, col, z) && s.lib[s.g[z]][0] == c
  }

  lemma {:induction false} NbsQueued(s: State, col: Stone, x: int, q: seq<int>, k: int, c: int)
    requires Sized(s) && 0 <= k <= 4
    ensures c in CounterNbs(s, col, x, q, k) <==>
      c in q || exists j {:trigger Nb(s.st, x, j)} :: 0 <= j < k && TakesAt(s, col, Nb(s.st, x, j), c)
    decreases k
  {
    hide Takes, Nb;
    if k > 0 { NbsQueued(s, col, x, q, k - 1, c); }
  }

  /** Some neighbour of x is a chain worth capturing at c. */
  ghost predicate TakesBeside(s: State, col: Stone, x: int, c: int)
    requires Sized(s)
  {
    exists z {:trigger Adj(s.st, x, z)} :: Adj(s.st, x, z) && TakesAt(s, col, z, c)
  }

  lemma BesideQueued(s: State, col: Stone, x: int, q: seq<int>, c: int)
    requires Sized(s)
    ensures c in CounterNbs(s, col, x, q, 4) <==> c in q || TakesBeside(s, col, x, c)
  {
    hide TakesAt, CounterNbs, Adj;
    NbsQueued(s, col, x, q, 4, c);
    if TakesBeside(s, col, x, c) {
      var z {:trigger Adj(s.st, x, z)} :| Adj(s.st, x, z) && TakesAt(s, col, z, c);
      var j := NbAdj(s.st, x, z);
    }
    forall j | 0 <= j < 4 ensures Adj(s.st, x, Nb(s.st, x, j)) { NbIsAdj(s.st, x, j); }
  }

  lemma NbIsAdj(st: int, x: int, j: int)
    requires 0 <= j < 4
    ensures Adj(st, x, Nb(st, x, j))
  {
  }

  lemma {:induction false} UpToQueued(s: State, col: Stone, stones: seq<int>, i: int, c: int)
    requires Sized(s) && 0 <= i <= |stones|
    ensures c in CounterUpTo(s, col, stones, i) <==> exists j :: 0 <= j < i && TakesBeside(s, col, stones[j], c)
    decreases i
  {
    hide TakesBeside, CounterNbs;
    if i > 0 {
      UpToQueued(s, col, stones, i - 1, c);
      BesideQueued(s, col, stones[i - 1], CounterUpTo(s, col, stones, i - 1), c);
    }
  }

  lemma TakesExact(s: State, col: Stone, z: int)
    requires Sound(Quick(s)) && IsColour(col) && 0 <= z < |s.b|
    ensures Sized(s) && |s.g| == |s.lib| == |s.b|
    ensures Takes(s, col, z) ==> 0 <= s.g[z] < |s.b| && s.lib[s.g[z]] != []
    ensures Takes(s, col, z) <==>
      s.b[z] == Other(col) && exists c ::
        LibSet(s.b, s.st, z) == {c} && !Snap(s.b, s.st, z, c) && 0 <= c < |s.b| && Legal(s.b, s.st, s.ko, Move(c, col))
    ensures Takes(s, col, z) ==> LibSet(s.b, s.st, z) == {s.lib[s.g[z]][0]}
  {
    hide Sound, Reach, LibOK, LibSet, Component, Snap, Snapback, ValidPlay, Legal, IsLiberty;
    OtherIs(col);
    IdFacts(s, z);
    if s.b[z] == Other(col) {
      StoneFacts(s, z);
      var h := s.g[z];
      if |s.lib[h]| == 1 {
        OnlyLib(s, z);
        SnapbackExact(s, h);
        var c := s.lib[h][0];
        SnapSame(s.b, s.st, z, h, c);
        ValidPlayIff(Quick(s), Move(c, col));
        ValidSame(s, Move(c, col));
      }
    }
  }

  lemma ValidSame(s: State, m: Move)
    requires Sized(s) && 0 <= m.coord < |s.b| && (s.b[m.coord] == Empty ==> Inner(s, m.coord))
    ensures ValidPlay(Quick(s), m) == ValidPlay(s, m)
  {
    AtariSame(s, m.coord, 4);
  }

  lemma {:induction false} AtariSame(s: State, c: int, k: int)
    requires 0 <= k <= 4
    ensures Inner(s, c) ==> Inner(Quick(s), c) && AtariNbs(Quick(s), c, k) == AtariNbs(s, c, k)
    decreases k
  {
    if k > 0 { AtariSame(s, c, k - 1); }
  }

  lemma SnapSame(b: seq<Stone>, st: int, z: int, h: int, c: int)
    requires Reach(b, st, z, h) && Reach(b, st, h, z) && 0 <= z < |b| && 0 <= h < |b|
    ensures Snap(b, st, z, c) <==> Snap(b, st, h, c)
  {
    hide Reach, SnapSide, Lone, Walled;
    assert h in Component(b, st, z) && z in Component(b, st, h);
  }

  lemma TakesAtMeans(s: State, col: Stone, z: int, c: int)
    requires Sound(Quick(s)) && IsColour(col) && 0 <= z < |s.b|
    ensures Sized(s) && (TakesAt(s, col, z, c) <==>
      s.b[z] == Other(col) && LibSet(s.b, s.st, z) == {c} && !Snap(s.b, s.st, z, c) && 0 <= c < |s.b|
        && Legal(s.b, s.st, s.ko, Move(c, col)))
  {
    hide Sound, Takes, LibSet, Snap, Legal;
    TakesExact(s, col, z);
    if Takes(s, col, z) {
      assert LibSet(s.b, s.st, z) == {s.lib[s.g[z]][0]};
      forall d, e | LibSet(s.b, s.st, z) == {d} && LibSet(s.b, s.st, z) == {e} ensures d == e { assert d in {e}; }
    }
  }

  /** The list holds exactly the legal captures of neighbouring chains in atari that are no
      snapback. */
  lemma CounterCapturesExact(s: State, h: int, c: int)
    requires Sound(Quick(s)) && IsGroup(s, h)
    ensures c in Counters(s, h) <==>
      CounterMove(s.b, s.st, h, s.b[h], c) && 0 <= c < |s.b| && Legal(s.b, s.st, s.ko, Move(c, s.b[h]))
  {
    hide Sound, Reach, TakesAt, Legal, Snap, LibSet, CounterUpTo, ChainOf, Adj;
    var col, l := s.b[h], ChainOf(s, h);
    ChainIsComponent(Quick(s), h);
    SameChainOf(s, h);
    UpToQueued(s, col, l, |l|, c);
    if c in Counters(s, h) {
      var j :| 0 <= j < |l| && TakesBeside(s, col, l[j], c);
      assert l[j] in l && l[j] in Component(s.b, s.st, h);
      var z {:trigger Adj(s.st, l[j], z)} :| Adj(s.st, l[j], z) && TakesAt(s, col, z, c);
      TakesOnBoard(s, col, z, c);
      TakesAtMeans(s, col, z, c);
    }
    if CounterMove(s.b, s.st, h, col, c) && 0 <= c < |s.b| && Legal(s.b, s.st, s.ko, Move(c, col)) {
      var y, w {:trigger Adj(s.st, w, y)} :| Reach(s.b, s.st, h, w) && Adj(s.st, w, y) && 0 <= y < |s.b|
        && s.b[y] == Other(col) && LibSet(s.b, s.st, y) == {c} && !Snap(s.b, s.st, y, c);
      TakesAtMeans(s, col, y, c);
      ReachRange(s.b, s.st, h, w);
      assert w in Component(s.b, s.st, h) && w in l;
      var j :| 0 <= j < |l| && l[j] == w;
      assert TakesBeside(s, col, l[j], c);
    }
  }

  lemma SameChainOf(s: State, h: int)
    ensures ChainOf(Quick(s), h) == ChainOf(s, h)
  {
  }

  lemma TakesOnBoard(s: State, col: Stone, z: int, c: int)
    requires Sized(s) && TakesAt(s, col, z, c)
    ensures 0 <= z < |s.b|
  {
    hide WorthCapture;
  }
}
