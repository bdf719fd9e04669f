/** The board as the program keeps it: arrays updated in place. Every method leaves exactly the
    state that the engine's function of the same step computes from the old one. */
module GoBoard {
  import opened Grid
  import opened LibList
  import opened Engine
  import opened Invariant
  import opened Steps
  import opened Captures
  import opened Moves
  import opened Books
  import opened Refinement
  import opened Rules
  import opened PlayTheorem
  import opened EyeMoves
  import opened BoardTheorem
  import opened Legality
  import opened Reachable
  import opened EmptyBoard
  import opened UndoTheorem
  import CounterCaptures

  /** `libs` entries of `lib` are in use, the rest is zero. */
  datatype GroupInfo = GroupInfo(libs: nat, lib: seq<int>)
  const NO_GROUP := GroupInfo(0, [0, 0, 0, 0, 0, 0, 0, 0, 0, 0])

  predicate InfoOK(i: GroupInfo, size: int) {
    && |i.lib| == KEEP && i.libs <= KEEP
    && forall k :: 0 <= k < KEEP ==> 0 <= i.lib[k] < size && (i.lib[k] == 0 <==> k >= i.libs)
  }

  /** One more entry in use. */
  function Pushed(i: GroupInfo, c: int): GroupInfo
    requires i.libs < |i.lib|
  {
    GroupInfo(i.libs + 1, i.lib[i.libs := c])
  }

  lemma PushedOK(i: GroupInfo, c: int, size: int)
    requires InfoOK(i, size) && i.libs < KEEP && 0 < c < size
    ensures i.libs < |i.lib| && InfoOK(Pushed(i, c), size) && ListOf(Pushed(i, c)) == ListOf(i) + [c]
  {
  }

  lemma InUse(i: GroupInfo, c: int, size: int)
    requires InfoOK(i, size) && c != 0
    ensures c in i.lib <==> c in ListOf(i)
    ensures |ListOf(i)| == i.libs <= |i.lib| == KEEP
  {
    var l := ListOf(i);
    if c in i.lib {
      var k :| 0 <= k < |i.lib| && i.lib[k] == c;
      assert l[k] == c;
    }
    if c in l {
      var k :| 0 <= k < |l| && l[k] == c;
      assert i.lib[k] == c;
    }
  }

  /** The k-th entry gone, the last one moved into its place. */
  function Struck(i: GroupInfo, k: int): GroupInfo
    requires 0 <= k < i.libs <= |i.lib|
  {
    GroupInfo(i.libs - 1, i.lib[k := i.lib[i.libs - 1]][i.libs - 1 := 0])
  }

  lemma StruckOK(i: GroupInfo, c: int, k: int, size: int)
    requires InfoOK(i, size) && c != 0 && 0 <= k < KEEP && i.lib[k] == c && c !in i.lib[..k]
    ensures 0 <= k < i.libs <= |i.lib| && InfoOK(Struck(i, k), size)
    ensures c in ListOf(i) && ListOf(Struck(i, k)) == SwapRemove(ListOf(i), c)
  {
    var l := ListOf(i);
    assert l[..k] == i.lib[..k];
    IndexIs(l, c, k);
    assert i.lib[k := i.lib[i.libs - 1]][i.libs - 1 := 0][..i.libs - 1] == l[k := l[|l| - 1]][..|l| - 1];
  }

  lemma ChainIgnoresLib(c: Core, grp: int, l: seq<int>, lib: seq<seq<int>>)
    requires ChainList(c, grp, l)
    ensures ChainList(c.(lib := lib), grp, l)
  {
  }

  lemma RefillIs(s: State, grp: int, l: seq<int>, lib: seq<int>, avoid: int)
    requires ChainList(K(s), grp, l)
    ensures Refilled(s, grp, lib, avoid) == Fill(lib, EmptyAround(s.b, s.st, l, |l|), avoid)
    ensures |Refilled(s, grp, lib, avoid)| >= |lib|
  {
    WalkIsChain(K(s), grp, l);
    FillLonger(lib, EmptyAround(s.b, s.st, l, |l|), avoid);
  }

  function ListOf(i: GroupInfo): seq<int> { if i.libs <= |i.lib| then i.lib[..i.libs] else [] }

  function ListsOf(gi: seq<GroupInfo>): (r: seq<seq<int>>)
    ensures |r| == |gi|
  {
    seq(|gi|, h requires 0 <= h < |gi| => ListOf(gi[h]))
  }

  lemma ListsUpdate(gi: seq<GroupInfo>, h: int, i: GroupInfo)
    requires 0 <= h < |gi|
    ensures ListsOf(gi[h := i]) == ListsOf(gi)[h := ListOf(i)]
  {
  }

  lemma ListAt(gi: seq<GroupInfo>, h: int)
    requires 0 <= h < |gi|
    ensures ListsOf(gi)[h] == ListOf(gi[h])
  {
  }

  lemma IndexIs(l: seq<int>, x: int, i: int)
    requires 0 <= i < |l| && l[i] == x && x !in l[..i]
    ensures x in l && Index(l, x) == i
  {
    var j := Index(l, x);
    forall k | 0 <= k < i ensures l[k] != x { assert l[..i][k] == l[k]; }
    forall k | 0 <= k < j ensures l[k] != x { assert l[..j][k] == l[k]; }
  }

  // ------------------------------------------------------------ refilling a list

  lemma {:induction false} FillSplit(l: seq<int>, c1: seq<int>, c2: seq<int>, avoid: int)
    ensures Fill(l, c1 + c2, avoid) == Fill(Fill(l, c1, avoid), c2, avoid)
    decreases c2
  {
    if c2 == [] {
      assert c1 + c2 == c1;
    } else {
      FillSplit(l, c1, c2[..|c2| - 1], avoid);
      assert (c1 + c2)[..|c1 + c2| - 1] == c1 + c2[..|c2| - 1];
    }
  }

  lemma {:induction false} FillFull(l: seq<int>, c: seq<int>, avoid: int)
    requires |l| >= KEEP
    ensures Fill(l, c, avoid) == l
    decreases c
  {
    if c != [] { FillFull(l, c[..|c| - 1], avoid); }
  }

  function AroundFrom(b: seq<Stone>, st: int, l: seq<int>, i: int): seq<int>
    requires 0 <= i <= |l|
    decreases |l| - i
  {
    if i == |l| then [] else EmptyNbs(b, st, l[i], 4) + AroundFrom(b, st, l, i + 1)
  }

  lemma {:induction false} AroundSplit(b: seq<Stone>, st: int, l: seq<int>, i: int)
    requires 0 <= i <= |l|
    ensures EmptyAround(b, st, l, |l|) == EmptyAround(b, st, l, i) + AroundFrom(b, st, l, i)
    decreases |l| - i
  {
    hide EmptyNbs;
    if i < |l| { AroundSplit(b, st, l, i + 1); }
  }

  /** A list that is full before the scan is over stays as it is. */
  lemma FillStops(l: seq<int>, b: seq<Stone>, st: int, stones: seq<int>, i: int, avoid: int)
    requires 0 <= i <= |stones| && |Fill(l, EmptyAround(b, st, stones, i), avoid)| >= KEEP
    ensures Fill(l, EmptyAround(b, st, stones, |stones|), avoid) == Fill(l, EmptyAround(b, st, stones, i), avoid)
  {
    AroundSplit(b, st, stones, i);
    var rest := AroundFrom(b, st, stones, i);
    FillSplit(l, EmptyAround(b, st, stones, i), rest, avoid);
    FillFull(Fill(l, EmptyAround(b, st, stones, i), avoid), rest, avoid);
  }

  lemma FillNone(l: seq<int>, b: seq<Stone>, st: int, c: int, avoid: int)
    ensures Fill(l, EmptyNbs(b, st, c, 0), avoid) == l
  {
  }

  lemma FillNothing(l: seq<int>, b: seq<Stone>, st: int, stones: seq<int>, avoid: int)
    ensures Fill(l, EmptyAround(b, st, stones, 0), avoid) == l
  {
  }

  lemma ChainStarts(c: Core, grp: int, l: seq<int>)
    requires ChainList(c, grp, l)
    ensures |l| > 0 && l[0] == grp
  {
  }

  lemma FillNext(l: seq<int>, b: seq<Stone>, st: int, c: int, k: int, avoid: int)
    requires 0 <= k < 4
    ensures var y := Nb(st, c, k); var r := Fill(l, EmptyNbs(b, st, c, k), avoid);
      Fill(l, EmptyNbs(b, st, c, k + 1), avoid) == if 0 <= y < |b| && b[y] == Empty && y != avoid then AddL(r, y) else r
  {
    var e := EmptyNbs(b, st, c, k);
    var y := Nb(st, c, k);
    assert (e + [y])[..|e|] == e;
    assert e + [] == e;
  }

  /** The stones of a chain, as a walk along the links meets them. */
  lemma LinkNext(c: Core, grp: int, l: seq<int>, i: int)
    requires ChainList(c, grp, l) && 0 <= i < |l|
    ensures c.st < l[i] < |c.b| - c.st && 0 < l[i] < |c.p| && c.p[l[i]] == (if i + 1 < |l| then l[i + 1] else 0)
    ensures l[0] == grp && |c.p| == |c.b|
  {
    assert Pt(c, l[i]);
  }

  // ------------------------------------------------------------ facts about the engine's steps

  lemma NbsInAtari(s: State, grp: int, c: int, col: Stone, k: int)
    requires 0 <= k <= 4 && Inner(s, c) && (s.full ==> AtariOK(s))
    ensures var r := RemoveNbs(s, grp, c, col, k); (r.full ==> AtariOK(r)) && r == s.(n := r.n, lib := r.lib,
        atari := r.atari)
  {
    RemoveNbsBooks(s, grp, c, col, k);
  }

  lemma StoneInAtari(s: State, grp: int, c: int)
    requires Inner(s, c) && (s.full ==> AtariOK(s))
    ensures var r := RemoveStone(s, grp, c); (r.full ==> AtariOK(r)) && r.p == s.p && r.full == s.full
  {
    hide AtariOK, RemoveNbs;
    var s1 := Engine.HashUpdate(s.(b := s.b[c := Empty], g := s.g[c := 0]), c, s.b[c]);
    SameAtari(s, s1);
    NbsInAtari(s1, grp, c, s.b[c], 4);
    var s2 := RemoveNbs(s1, grp, c, s.b[c], 4);
    SameAtari(s2, Engine.AddFree(s2, c));
  }

  lemma {:induction false} CaptureInAtari(s: State, grp: int, l: seq<int>, i: int)
    requires 0 <= i <= |l| && (forall j :: 0 <= j < |l| ==> Inner(s, l[j])) && (s.full ==> AtariOK(s))
    ensures var r := CaptureUpTo(s, grp, l, i); (r.full ==> AtariOK(r)) && r.p == s.p && r.full == s.full
    decreases i
  {
    hide AtariOK, RemoveStone;
    if i > 0 {
      CaptureInAtari(s, grp, l, i - 1);
      var s1 := CaptureUpTo(s, grp, l, i - 1);
      assert Inner(s, l[i - 1]);
      var s2 := s1.(caps := Bump(s1.caps, Other(s1.b[l[i - 1]]), 1));
      SameAtari(s1, s2);
      StoneInAtari(s2, grp, l[i - 1]);
    }
  }

  lemma NoneTold(s: State, grp: int, c: int, col: Stone)
    requires Inner(s, c)
    ensures RemoveNbs(s, grp, c, col, 0) == s
  {
  }

  lemma NextTold(s: State, grp: int, c: int, col: Stone, k: int, t: State)
    requires 0 <= k < 4 && Inner(s, c) && t == RemoveNbs(s, grp, c, col, k)
    ensures var y := Nb(s.st, c, k); var t1 := t.(n := t.n[y := BumpN(t.n[y], col, -1)]); var h := t1.g[y];
      RemoveNbs(s, grp, c, col, k + 1) == if 0 < h < |t1.lib| && h != grp then Engine.AddLib(t1, h, c) else t1
  {
  }

  lemma CaptureNone(s: State, grp: int, l: seq<int>)
    requires forall j :: 0 <= j < |l| ==> Inner(s, l[j])
    ensures CaptureUpTo(s, grp, l, 0) == s
  {
  }

  lemma CaptureMore(s: State, grp: int, l: seq<int>, i: int)
    requires 0 <= i < |l| && forall j :: 0 <= j < |l| ==> Inner(s, l[j])
    ensures Inner(CaptureUpTo(s, grp, l, i), l[i])
    ensures var t := CaptureUpTo(s, grp, l, i);
      CaptureUpTo(s, grp, l, i + 1) == Engine.RemoveStone(t.(caps := Bump(t.caps, Other(t.b[l[i]]), 1)), grp, l[i])
  {
    hide Engine.RemoveStone;
    assert Inner(s, l[i]);
  }

  lemma CaptureEnds(s: State, grp: int, l: seq<int>, t: State)
    requires Sized(s) && Walkable(s, grp) && ChainOf(s, grp) == l && (forall j :: 0 <= j < |l| ==> Inner(s, l[j]))
    requires t == CaptureUpTo(s, grp, l, |l|)
    ensures 0 <= grp < |t.lib| && Engine.Capture(s, grp) == t.(lib := t.lib[grp := []])
  {
    hide CaptureUpTo;
    CaptureUpToCore(s, grp, l, |l|);
  }

  lemma NoGroup(size: int)
    ensures size > 0 ==> InfoOK(NO_GROUP, size) && ListOf(NO_GROUP) == []
  {
  }

  lemma NoneAdded(s: State, grp: int, c: int)
    requires Inner(s, c) && 0 <= grp < |s.lib|
    ensures AddEmptyNbs(s, grp, c, 0) == s
  {
  }

  lemma NextAdded(s: State, grp: int, c: int, k: int)
    requires 0 <= k < 4 && Inner(s, c) && 0 <= grp < |s.lib|
    ensures var y := Nb(s.st, c, k); var t := AddEmptyNbs(s, grp, c, k);
      AddEmptyNbs(s, grp, c, k + 1) == if s.b[y] == Empty then Engine.AddLib(t, grp, y) else t
    ensures AddEmptyNbs(s, grp, c, k).b == s.b
  {
    AddEmptyNbsBooks(s, grp, c, k);
  }

  lemma NoneAppended(s: State, to: int, l: seq<int>)
    requires Sized(s) && 0 <= to < |s.lib|
    ensures Engine.AppendLibs(s, to, l, 0) == s
  {
  }

  lemma NextAppended(s: State, to: int, l: seq<int>, i: int)
    requires Sized(s) && 0 <= to < |s.lib| && 0 <= i < |l|
    ensures Engine.AppendLibs(s, to, l, i + 1) == Engine.AddLib(Engine.AppendLibs(s, to, l, i), to, l[i])
  {
  }

  lemma {:induction false} RestAppended(s: State, to: int, l: seq<int>, i: int, j: int)
    requires Sized(s) && 0 <= to < |s.lib| && 0 <= i <= j <= |l| && |Engine.AppendLibs(s, to, l, i).lib[to]| >= KEEP
    ensures Engine.AppendLibs(s, to, l, j) == Engine.AppendLibs(s, to, l, i)
    decreases j
  {
    if i < j { RestAppended(s, to, l, i, j - 1); }
  }

  lemma EntryAt(i: GroupInfo, k: int, size: int)
    requires InfoOK(i, size) && 0 <= k < i.libs
    ensures i.libs <= |i.lib| && |ListOf(i)| == i.libs && ListOf(i)[k] == i.lib[k] && 0 < i.lib[k] < size
  {
  }

  lemma NoneRelabelled(g: seq<int>, l: seq<int>, to: int)
    requires forall j :: 0 <= j < |l| ==> 0 <= l[j] < |g|
    ensures Relabel(g, l, to, 0) == g
  {
  }

  lemma NextRelabelled(g: seq<int>, l: seq<int>, to: int, i: int)
    requires 0 <= i < |l| && forall j :: 0 <= j < |l| ==> 0 <= l[j] < |g|
    ensures Relabel(g, l, to, i + 1) == Relabel(g, l, to, i)[l[i] := to]
  {
  }

  /** Merging, as its parts. */
  lemma MergeParts(s: State, to: int, from: int, l: seq<int>)
    requires Sized(s) && 0 <= to < |s.lib| && 0 <= from < |s.lib| && ChainList(K(s), from, l)
    ensures |l| > 0 && forall j :: 0 <= j < |l| ==> 0 <= l[j] < |s.g|
    ensures var lib := s.lib[from];
      var s1 := Engine.AppendLibs(if |lib| == 1 then Engine.AtariRemove(s, from) else s, to, lib, |lib|);
      var last := l[|l| - 1];
      Engine.Merge(s, to, from) == s1.(g := Relabel(s1.g, l, to, |l|), p := s1.p[last := s1.p[to]][to := from],
        lib := s1.lib[from := []], lasts := if s.full then s.lasts else s.lasts + [last])
  {
    hide Engine.AppendLibs, Relabel;
    MergeCore(s, to, from, l);
  }

  lemma NotFullNoAtari(s: State, from: int)
    ensures !s.full ==> Engine.AtariRemove(s, from) == s
  {
  }

  lemma WithoutFrom(s: State, from: int)
    requires s.full && AtariOK(s) && 0 <= from < |s.lib|
    ensures AtariBut(if |s.lib[from]| == 1 then Engine.AtariRemove(s, from) else s, from)
  {
    if |s.lib[from]| == 1 { SwapRemoveMembers(s.atari, from); }
  }

  lemma RemoveKeepsChain(s: State, from: int, l: seq<int>)
    requires ChainList(K(s), from, l)
    ensures ChainList(K(Engine.AtariRemove(s, from)), from, l) && (Sized(s) ==> Sized(Engine.AtariRemove(s, from)))
    ensures |Engine.AtariRemove(s, from).lib| == |s.lib|
  {
    hide ChainList, SwapRemove;
  }

  lemma AppendKeepsChain(s: State, to: int, lib: seq<int>, from: int, l: seq<int>)
    requires Sized(s) && 0 <= to < |s.lib| && ChainList(K(s), from, l)
    ensures var s1 := Engine.AppendLibs(s, to, lib, |lib|); ChainList(K(s1), from, l) && s1.g == s.g && s1.p == s.p
  {
    AppendLibsBut(s, to, lib, |lib|, -1);
    ChainIgnoresLib(K(s), from, l, Engine.AppendLibs(s, to, lib, |lib|).lib);
  }

  lemma NoEmpty(b: seq<Stone>, st: int, c: int)
    ensures EmptyNbs(b, st, c, 0) == []
  {
  }

  lemma NextEmpty(b: seq<Stone>, st: int, c: int, k: int)
    requires 0 <= k < 4
    ensures var y := Nb(st, c, k);
      EmptyNbs(b, st, c, k + 1) == EmptyNbs(b, st, c, k) + if 0 <= y < |b| && b[y] == Empty then [y] else []
  {
  }

  lemma PlayPlace(s: State, ch: Chains, m: Mid, b0: seq<Stone>, col: Stone, grp: int)
    requires Running(s, ch, m, b0, col, grp) && m.k < 4
    ensures Inner(s, m.coord) && 0 <= grp < |s.b| && 0 < m.coord < |s.b| && 0 <= m.k
    ensures 0 <= Nb(s.st, m.coord, m.k) < |s.b|
    ensures 0 <= s.g[Nb(s.st, m.coord, m.k)] < |s.b|
  {
    hide W, Progress, Lively;
    NeighbourFacts(K(s), ch, m, col, grp);
  }

  lemma PlayChain(s: State, ch: Chains, m: Mid, b0: seq<Stone>, col: Stone, grp: int)
    requires Running(s, ch, m, b0, col, grp) && m.k < 4 && 0 <= m.k && 0 <= Nb(s.st, m.coord, m.k) < |s.b|
    requires s.g[Nb(s.st, m.coord, m.k)] != 0
    ensures var h := s.g[Nb(s.st, m.coord, m.k)]; h in ch && ChainList(K(s), h, ch[h]) && 0 < h < |s.b|
  {
    hide Progress, Lively, Conn, Maximal, LibsOK, Stony, ChainList;
    IdPositive(K(s), ch, s.g[Nb(s.st, m.coord, m.k)]);
  }

  lemma LibOnlyChain(s: State, t: State, h: int, l: seq<int>)
    requires OnlyLibs(s, t) && ChainList(K(s), h, l)
    ensures ChainList(K(t), h, l)
  {
    ChainIgnoresLib(K(s), h, l, t.lib);
  }

  /** What happens at a neighbour once its chain h has given up the played point. */
  function MetChain(s: State, coord: int, col: Stone, ncolor: Stone, y: int, h: int, grp: int): (State, int)
    requires Inner(s, coord) && 0 <= y < |s.b| && 0 <= grp < |s.b| && 0 <= h < |s.b|
  {
    if ncolor == col && h != grp then
      if grp == 0 then (Engine.AddToGroup(s, h, y, coord), h) else (Engine.Merge(s, grp, h), grp)
    else if ncolor == Other(col) && s.lib[h] == [] then (Engine.Capture(s, h), grp)
    else (s, grp)
  }

  lemma PlayOneIs(s: State, coord: int, col: Stone, y: int, grp: int)
    requires Inner(s, coord) && 0 <= y < |s.b| && 0 <= grp < |s.b| && 0 <= s.g[y] < |s.b|
    ensures var s1 := s.(n := s.n[y := BumpN(s.n[y], col, 1)]); var h := s.g[y];
      Engine.PlayOne(s, coord, col, y, grp) == if h == 0 then (s1, grp) else MetChain(Engine.RemoveLib(s1, h, coord),
          coord, col, s.b[y], y, h, grp)
  {
    hide Engine.RemoveLib, Engine.AddToGroup, Engine.Merge, Engine.Capture;
  }

  lemma RunningInside(s: State, ch: Chains, m: Mid, b0: seq<Stone>, col: Stone, grp: int)
    requires Running(s, ch, m, b0, col, grp)
    ensures Inner(s, m.coord) && IsColour(col)
  {
    hide W, Progress, Lively;
  }

  /** The point is on the free list, where fmap says. */
  lemma Ready(s: State, ch: Chains, m: Move)
    requires Sized(s) && Quiet(K(s), ch) && BooksOK(s, 0, Empty, 0, PASS) && 0 <= m.coord < |s.b|
    requires s.b[m.coord] == Empty && IsColour(m.colour)
    ensures Inner(s, m.coord) && (s.full ==> AtariOK(s))
    ensures s.full ==> 0 <= s.fmap[m.coord] < |s.free| && 0 <= s.free[|s.free| - 1] < |s.b|
  {
    hide Quiet, CountsOK, AtariOK, XorAll;
    Begin(s, ch, m.coord, m.colour);
    Starts(s, ch, Mid(m.coord, Empty, 0, {}, 0), m.colour);
    if s.full { assert m.coord in s.free; }
  }

  lemma AfterTaking(s: State, ch: Chains, m: Move)
    requires Sized(s) && Quiet(K(s), ch) && BooksOK(s, 0, Empty, 0, PASS) && 0 <= m.coord < |s.b|
    requires s.b[m.coord] == Empty && IsColour(m.colour)
    ensures var s0 := Engine.TakeFree(s, m.coord);
      Running(s0, ch, Mid(m.coord, Empty, 0, {}, 0), s0.b, m.colour, 0) && (s0.full ==> AtariOK(s0)) && s0.b == s.b
  {
    hide Quiet, CountsOK, AtariOK, XorAll, Engine.TakeFree, Running;
    TakeFreeBooks(s, m.coord, m.colour);
    var s0 := Engine.TakeFree(s, m.coord);
    ChainsFree(s, s0);
    Begin(s0, ch, m.coord, m.colour);
  }

  /** After the loop the played point has no list yet unless the stone joined a chain. */
  lemma LoopEnd(s0: State, ch: Chains, m: Move, b0: seq<Stone>)
    requires Running(s0, ch, Mid(m.coord, Empty, 0, {}, 0), s0.b, m.colour, 0)
    ensures Inner(s0, m.coord)
    ensures var (s1, grp) := PlayUpTo(s0, m.coord, m.colour, 4);
      Inner(s1, m.coord) && (grp == 0 ==> s1.lib[m.coord] == [])
  {
    hide Running, PlayUpTo;
    RunningInside(s0, ch, Mid(m.coord, Empty, 0, {}, 0), s0.b, m.colour, 0);
    var ch1, m1 := PlayUpToRuns(s0, ch, Mid(m.coord, Empty, 0, {}, 0), m.colour, 4);
    var (s1, grp) := PlayUpTo(s0, m.coord, m.colour, 4);
    RunningInside(s1, ch1, m1, s0.b, m.colour, grp);
    if grp == 0 { NoListYet(s1, ch1, m1, s0.b, m.colour); }
  }

  lemma NoListYet(s: State, ch: Chains, m: Mid, b0: seq<Stone>, col: Stone)
    requires Running(s, ch, m, b0, col, 0) && m.k == 4
    ensures s.lib[m.coord] == []
  {
    hide W, Progress, Lively;
    PlaceFounded(K(s), ch, m, col);
  }

  lemma AtariKept(s: State, r: State)
    requires r.lib == s.lib && r.atari == s.atari && r.full == s.full && (s.full ==> AtariOK(s))
    ensures r.full ==> AtariOK(r)
  {
    SameAtari(s, r);
  }

  lemma IdsInRange(c: Core, ch: Chains)
    requires Quiet(c, ch)
    ensures |c.g| == |c.lib| && forall y :: 0 <= y < |c.g| ==> 0 <= c.g[y] < |c.lib|
  {
    hide Reach, LibsOK, Maximal, Conn, Stony, Lively;
    forall y | 0 <= y < |c.g| ensures 0 <= c.g[y] < |c.lib| { if c.g[y] != 0 { IdPositive(c, ch, c.g[y]); } }
  }

  lemma EyeEnd(s0: State, ch: Chains, m: Move)
    requires Running(s0, ch, Mid(m.coord, Empty, 0, {}, 0), s0.b, m.colour, 0)
    requires Walled(s0.b, s0.st, m.coord, Other(m.colour))
    ensures Inner(s0, m.coord) && Inner(EyeUpTo(s0, m.coord, m.colour, 4).s, m.coord)
    ensures EyeUpTo(s0, m.coord, m.colour, 4).s.lib[m.coord] == []
  {
    hide Running, EyeUpTo, PlayUpTo, Walled, EyeMoves.Taken;
    LoopEnd(s0, ch, m, s0.b);
    EyeUpToIsPlayUpTo(s0, ch, Mid(m.coord, Empty, 0, {}, 0), m.colour, 4);
  }

  lemma EyeTest(s: State, ch: Chains, m: Move)
    requires Sized(s) && Quiet(K(s), ch) && BooksOK(s, 0, Empty, 0, PASS) && 0 <= m.coord < |s.b|
    requires s.b[m.coord] == Empty && IsColour(m.colour)
    ensures Eyelike(s, m.coord, Other(m.colour)) <==> Walled(s.b, s.st, m.coord, Other(m.colour))
    ensures Eyelike(s, m.coord, Other(m.colour)) <==> CountOf(s.n[m.coord], Other(m.colour)) + s.n[m.coord].off == 4
  {
    hide Quiet, Walled;
    QuietShape(K(s), ch);
    BooksCounts(s);
    OtherTwice(m.colour);
    EyelikeIff(s, m.coord, Other(m.colour));
  }

  lemma DownList(s: State, ch: Chains, b0: seq<Stone>, x: int, col: Stone, own: int)
    requires Down(K(s), ch, b0, x, col, own)
    ensures own in ch && ChainList(K(s), own, ch[own]) && 0 < own < |s.lib|
  {
    hide Clear, Lively, Cover, Stony, Conn, Maximal, LibsOK, ChainList;
  }

  lemma PassIs(s: State, m: Move)
    requires Sized(s) && m.coord == PASS && IsColour(m.colour)
    ensures var s1 := s.(passes := Bump(s.passes, m.colour, 1), ko := NO_MOVE);
      Engine.Play(s, m).0 == Commit(if s.rules == Siming then s1.(caps := Bump(s.caps, Other(m.colour), 1)) else s1, m)
  {
    hide Engine.PlayStone;
  }

  lemma EyelikeIs(s: State, c: int, eye: Stone)
    requires 0 <= c < |s.n|
    ensures Eyelike(s, c, eye) <==> CountOf(s.n[c], eye) + s.n[c].off == 4
  {
  }

  class Board {
    const st: int
    const b: array<Stone>
    const n: array<Counts>
    const g: array<int>
    const p: array<int>
    const gi: array<GroupInfo>
    const fmap: array<int>
    const keys: seq<Key>
    var caps: Tally
    var passes: Tally
    var moves: int
    var rules: Ruleset
    var recent: seq<Move>
    var recentAt: int
    var ko: Move
    var lastKo: Move
    var lastKoAge: int
    var full: bool
    var free: seq<int>
    var atari: seq<int>
    var hash: Word
    var lasts: seq<int>

    ghost predicate Valid()
      reads this, b, n, g, p, gi, fmap
    {
      && st >= 3 && b.Length > 0 && n.Length == g.Length == p.Length == gi.Length == fmap.Length == |keys| == b.Length
      && |recent| == 4 && 0 <= recentAt < 4
      && g != p && g != fmap && p != fmap
      && (forall h :: 0 <= h < gi.Length ==> InfoOK(gi[h], b.Length)) && b[0] == Off
    }

    /** The abstract state. */
    ghost function Snap(): (s: State)
      reads this, b, n, g, p, gi, fmap
    {
      State(st, b[..], n[..], g[..], p[..], ListsOf(gi[..]), caps, passes, moves, rules, recent, recentAt,
            ko, lastKo, lastKoAge, full, free, fmap[..], atari, hash, keys, lasts)
    }

    // ------------------------------------------------------------ a new board

    /** The first and the last row of the margin. */
    method DrawRows()
      requires st >= 3 && b.Length == st * st >= 9 && b.Length - st >= st
      requires forall x :: 0 <= x < b.Length ==> b[x] == Empty
      modifies b
      ensures forall x :: 0 <= x < b.Length ==> b[x] == if x < st || x >= b.Length - st then Off else Empty
    {
      var top := b.Length - st;
      var i := 0;
      while i < st
        invariant 0 <= i <= st
        invariant forall x :: 0 <= x < b.Length ==> b[x] == if x < i || top <= x < top + i then Off else Empty
      {
        b[i], b[top + i] := Off, Off;
        i := i + 1;
      }
    }

    /** The ends of every row. */
    method DrawEnds()
      requires st >= 3 && b.Length == st * st
      requires forall x :: 0 <= x < b.Length ==> b[x] == if Edged(st, 0, x) then Off else Empty
      modifies b
      ensures forall x :: 0 <= x < b.Length ==> b[x] == if Edged(st, st, x) then Off else Empty
    {
      hide Edged;
      var i := 0;
      ghost var r := 0;
      RowFits(st, 0);
      while i <= b.Length - st
        invariant 0 <= r <= st && i == r * st && (i <= b.Length - st <==> r < st)
        invariant forall x :: 0 <= x < b.Length ==> b[x] == if Edged(st, r, x) then Off else Empty
        decreases st - r
      {
        RowEnds(st, r, r + 1, i, b.Length);
        b[i], b[i + st - 1] := Off, Off;
        i := i + st;
        r := r + 1;
        RowFits(st, r);
      }
    }

    method DrawMargin()
      requires st >= 3 && b.Length == st * st && forall x :: 0 <= x < b.Length ==> b[x] == Empty
      modifies b
      ensures b[..] == EmptyGrid(st)
    {
      EmptyGridBare(st);
      Times(3, st, st);
      DrawRows();
      NoEnds(st);
      DrawEnds();
      AllEdged(st);
    }

    method CountNeighbours()
      requires st >= 3 && n.Length == b.Length && Bare(b[..], st)
      requires forall x :: 0 <= x < n.Length ==> n[x] == Counts(0, 0, 0)
      modifies n
      ensures n[..] == StartCounts(b[..], st)
    {
      hide CountUpTo, CountsAt;
      var c := 0;
      while c < b.Length
        invariant 0 <= c <= b.Length
        invariant forall x :: 0 <= x < c ==> n[x] == StartCounts(b[..], st)[x]
        invariant forall x :: c <= x < n.Length ==> n[x] == Counts(0, 0, 0)
      {
        if b[c] != Off {
          FramedAt(b[..], st, c);
          NoneCounted(b[..], st, c);
          var k := 0;
          while k < 4
            invariant 0 <= k <= 4 && n[c] == CountUpTo(b[..], st, c, k)
            invariant forall x :: 0 <= x < n.Length && x != c ==> n[x] == if x < c then StartCounts(b[..], st)[x]
              else Counts(0, 0, 0)
          {
            OneCounted(b[..], st, c, k);
            n[c] := Inc(n[c], b[Nb(st, c, k)]);
            k := k + 1;
          }
          CountsAll(b[..], st, c);
        }
        c := c + 1;
      }
    }

    method FreeAll()
      requires b.Length == fmap.Length && full && free == [] && forall x :: 0 <= x < fmap.Length ==> fmap[x] == 0
      modifies this`free, fmap
      ensures free == FreePoints(b[..], b.Length)
      ensures forall x :: 0 <= x < fmap.Length ==> fmap[x] == if b[x] == Empty then |FreePoints(b[..], x)| else 0
    {
      var c := 0;
      while c < b.Length
        invariant 0 <= c <= b.Length && free == FreePoints(b[..], c)
        invariant forall x :: 0 <= x < fmap.Length ==>
          fmap[x] == if x < c && b[x] == Empty then |FreePoints(b[..], x)| else 0
      {
        if b[c] == Empty {
          fmap[c] := |free|;
          free := free + [c];
        }
        c := c + 1;
      }
    }

    /** A cleared board: it is sound. */
    constructor (size: int, keys: seq<Key>, rules: Ruleset)
      requires size > 1 && |keys| == (size + 2) * (size + 2)
      ensures Valid() && Snap() == Cleared(EmptyGrid(size + 2), size + 2, keys, rules) && Sound(Snap())
      ensures fresh(b) && fresh(n) && fresh(g) && fresh(p) && fresh(gi) && fresh(fmap)
    {
      hide Sound, StartCounts, FreePoints, InfoOK, ListOf;
      var side := size + 2;
      EmptyGridBare(side);
      st := side;
      this.keys, this.rules := keys, rules;
      b := new Stone[side * side](_ => Empty);
      n := new Counts[side * side](_ => Counts(0, 0, 0));
      g := new int[side * side](_ => 0);
      p := new int[side * side](_ => 0);
      gi := new GroupInfo[side * side](_ => NO_GROUP);
      fmap := new int[side * side](_ => 0);
      caps, passes, moves := Tally(0, 0), Tally(0, 0), 0;
      recent, recentAt := [NO_MOVE, NO_MOVE, NO_MOVE, NO_MOVE], 0;
      ko, lastKo, lastKoAge, full := NO_MOVE, NO_MOVE, 0, true;
      free, atari, hash, lasts := [], [], {}, [];
      new;
      DrawMargin();
      CountNeighbours();
      FreeAll();
      NoGroup(b.Length);
      ClearedSound(b[..], st, keys, rules);
      ClearedIs(Snap(), keys, rules);
    }

    // ------------------------------------------------------------ side indexes

    method AtariAdd(grp: int)
      requires Valid() && full
      modifies this`atari
      ensures Valid() && Snap() == Engine.AtariAdd(old(Snap()), grp)
    {
      atari := atari + [grp];
    }

    /** The source stops the program if the chain is not found; its callers never let it come to that. */
    method AtariRemove(grp: int)
      requires Valid() && full && grp in atari
      modifies this`atari
      ensures Valid() && Snap() == Engine.AtariRemove(old(Snap()), grp)
    {
      var i := 0;
      while atari[i] != grp
        invariant 0 <= i < |atari| && grp !in atari[..i]
        decreases |atari| - i
      {
        assert grp in atari[i..];
        i := i + 1;
      }
      IndexIs(atari, grp, i);
      atari := atari[i := atari[|atari| - 1]][..|atari| - 1];
    }

    method HashUpdate(c: int, col: Stone)
      requires Valid() && 0 <= c < b.Length
      modifies this`hash
      ensures Valid() && Snap() == Engine.HashUpdate(old(Snap()), c, col)
    {
      if full { hash := Xor(hash, KeyOf(keys[c], col)); }
    }

    method AddFree(c: int)
      requires Valid() && 0 <= c < b.Length
      modifies this`free, fmap
      ensures Valid() && Snap() == Engine.AddFree(old(Snap()), c)
    {
      if full {
        fmap[c] := |free|;
        free := free + [c];
      }
    }

    method TakeFree(c: int)
      requires Valid() && 0 <= c < b.Length
      requires full ==> 0 <= fmap[c] < |free| && 0 <= free[|free| - 1] < b.Length
      modifies this`free, fmap
      ensures Valid() && Snap() == Engine.TakeFree(old(Snap()), c)
    {
      if full {
        var f := fmap[c];
        var last := free[|free| - 1];
        free := free[f := last][..|free| - 1];
        fmap[last] := f;
      }
    }

    // ------------------------------------------------------------ liberties

    /** A chain with one liberty is on the list of chains in atari. */
    ghost predicate Listed(grp: int)
      requires 0 <= grp < gi.Length
      reads this, gi
    {
      full && gi[grp].libs == 1 ==> grp in atari
    }

    method AddLib(grp: int, c: int)
      requires Valid() && 0 <= grp < gi.Length && 0 < c < b.Length && Listed(grp)
      modifies this`atari, gi
      ensures Valid() && Snap() == Engine.AddLib(old(Snap()), grp, c)
      ensures forall h :: 0 <= h < gi.Length && h != grp ==> gi[h] == old(gi[h])
    {
      hide InfoOK, ListOf;
      var info := gi[grp];
      ghost var was := gi[..];
      InUse(info, c, b.Length);
      if info.libs < KEEP {
        var i := 0;
        while i < KEEP
          invariant 0 <= i <= KEEP && c !in info.lib[..i]
        {
          if info.lib[i] == c { return; }
          i := i + 1;
        }
        assert info.lib[..KEEP] == info.lib;
        PushedOK(info, c, b.Length);
        if full {
          if info.libs == 0 { AtariAdd(grp); } else if info.libs == 1 { AtariRemove(grp); }
        }
        gi[grp] := Pushed(info, c);
        assert gi[..] == was[grp := gi[grp]];
        ListsUpdate(was, grp, gi[grp]);
      }
    }

    /** The empty neighbours of one stone, as long as there is room. */
    method FillBeside(grp: int, c: int, avoid: int, mark: array<bool>)
      requires Valid() && 0 <= grp < gi.Length && st <= c < b.Length - st && mark.Length == b.Length && avoid != 0
      requires forall y :: 0 < y < mark.Length ==> (mark[y] <==> y == avoid || y in ListOf(gi[grp]))
      modifies gi, mark
      ensures Valid() && gi[..] == old(gi[..])[grp := gi[grp]]
      ensures ListOf(gi[grp]) == Fill(old(ListOf(gi[grp])), EmptyNbs(b[..], st, c, 4), avoid)
      ensures forall y :: 0 < y < mark.Length ==> (mark[y] <==> y == avoid || y in ListOf(gi[grp]))
    {
      hide InfoOK, ListOf, Fill, EmptyNbs;
      ghost var was, l := gi[..], ListOf(gi[grp]);
      FillNone(l, b[..], st, c, avoid);
      var k := 0;
      while k < 4
        invariant 0 <= k <= 4 && Valid() && gi[..] == was[grp := gi[grp]]
        invariant ListOf(gi[grp]) == Fill(l, EmptyNbs(b[..], st, c, k), avoid)
        invariant forall y :: 0 < y < mark.Length ==> (mark[y] <==> y == avoid || y in ListOf(gi[grp]))
      {
        var y := Nb(st, c, k);
        FillNext(l, b[..], st, c, k, avoid);
        InUse(gi[grp], avoid, b.Length);
        if b[y] == Empty && !mark[y] && gi[grp].libs < KEEP {
          mark[y] := true;
          var info := gi[grp];
          PushedOK(info, y, b.Length);
          InUse(info, y, b.Length);
          gi[grp] := Pushed(info, y);
        }
        k := k + 1;
      }
    }

    /** The points not to be added again. */
    method Watermark(grp: int, avoid: int) returns (mark: array<bool>)
      requires Valid() && 0 <= grp < gi.Length && gi[grp].libs < KEEP - 1 && 0 < avoid < b.Length
      ensures fresh(mark) && mark.Length == b.Length
      ensures forall y :: 0 < y < mark.Length ==> (mark[y] <==> y == avoid || y in ListOf(gi[grp]))
    {
      mark := new bool[b.Length](_ => false);
      var info := gi[grp];
      var i := 0;
      while i < KEEP - 1
        invariant 0 <= i <= KEEP - 1
        invariant forall y :: 0 < y < mark.Length ==> (mark[y] <==> y in info.lib[..i])
      {
        mark[info.lib[i]] := true;
        i := i + 1;
      }
      mark[avoid] := true;
      assert info.lib == info.lib[..KEEP - 1] + [info.lib[KEEP - 1]];
      forall y | 0 < y < mark.Length ensures y in info.lib[..KEEP - 1] <==> y in ListOf(info) {
        InUse(info, y, b.Length);
      }
    }

    /** Refilling the list from the board, stone by stone along the links. */
    method FindExtraLibs(grp: int, avoid: int, ghost l: seq<int>)
      requires Valid() && 0 <= grp < gi.Length && gi[grp].libs < KEEP - 1 && 0 < avoid < b.Length
      requires ChainList(K(Snap()), grp, l)
      modifies gi
      ensures Valid() && gi[..] == old(gi[..])[grp := gi[grp]]
      ensures ListOf(gi[grp]) == Fill(old(ListOf(gi[grp])), EmptyAround(b[..], st, l, |l|), avoid)
    {
      hide InfoOK, ListOf, Fill, EmptyNbs, ChainList, Links, Walk, ListsOf;
      ghost var was, l0, core := gi[..], ListOf(gi[grp]), K(Snap());
      var mark := Watermark(grp, avoid);
      ghost var k := 0;
      var c := grp;
      ChainStarts(core, grp, l);
      LinkNext(core, grp, l, 0);
      FillNothing(l0, b[..], st, l, avoid);
      while c != 0 && gi[grp].libs < KEEP
        invariant 0 <= k <= |l| && c == (if k < |l| then l[k] else 0) && Valid() && gi[..] == was[grp := gi[grp]]
        invariant ListOf(gi[grp]) == Fill(l0, EmptyAround(b[..], st, l, k), avoid)
        invariant forall y :: 0 < y < mark.Length ==> (mark[y] <==> y == avoid || y in ListOf(gi[grp]))
        decreases |l| - k
      {
        LinkNext(core, grp, l, k);
        FillSplit(l0, EmptyAround(b[..], st, l, k), EmptyNbs(b[..], st, l[k], 4), avoid);
        FillBeside(grp, c, avoid, mark);
        c := p[c];
        k := k + 1;
      }
      if k < |l| {
        LinkNext(core, grp, l, k);
        InUse(gi[grp], avoid, b.Length);
        FillStops(l0, b[..], st, l, k, avoid);
      }
    }

    method RemoveLib(grp: int, c: int, ghost l: seq<int>)
      requires Valid() && 0 <= grp < gi.Length && 0 < c < b.Length && ChainList(K(Snap()), grp, l) && AtariRight()
      modifies this`atari, gi
      ensures Valid() && AtariRight() && Snap() == Engine.RemoveLib(old(Snap()), grp, c)
      ensures ChainList(K(Snap()), grp, l) && |Snap().lib[grp]| == gi[grp].libs
    {
      hide AtariOK, ChainList, Engine.RemoveLib;
      ghost var s := Snap();
      ListedAll(grp);
      DropLib(grp, c, l);
      RemoveLibBooks(s, grp, c);
      LibOnlyChain(s, Snap(), grp, l);
      InUse(gi[grp], 1, b.Length);
    }

    method DropLib(grp: int, c: int, ghost l: seq<int>)
      requires Valid() && 0 <= grp < gi.Length && 0 < c < b.Length && ChainList(K(Snap()), grp, l) && Listed(grp)
      modifies this`atari, gi
      ensures Valid() && Snap() == Engine.RemoveLib(old(Snap()), grp, c)
    {
      hide InfoOK, ListOf, Fill, EmptyNbs, EmptyAround, ChainList, Walk, SwapRemove;
      ghost var s, was := Snap(), gi[..];
      var info := gi[grp];
      InUse(info, c, b.Length);
      var i := 0;
      while i < KEEP
        invariant 0 <= i <= KEEP && c !in info.lib[..i] && Snap() == s
      {
        if info.lib[i] == c {
          StruckOK(info, c, i, b.Length);
          gi[grp] := Struck(info, i);
          assert gi[..] == was[grp := gi[grp]];
          ListsUpdate(was, grp, gi[grp]);
          InUse(gi[grp], c, b.Length);
          if gi[grp].libs > REFILL { return; }
          if gi[grp].libs == REFILL {
            ghost var t := Snap();
            ChainIgnoresLib(K(s), grp, l, t.lib);
            FindExtraLibs(grp, c, l);
            RefillIs(s, grp, l, ListOf(Struck(info, i)), c);
            ListsUpdate(was, grp, gi[grp]);
            InUse(gi[grp], c, b.Length);
          }
          if full {
            if gi[grp].libs == 1 { AtariAdd(grp); } else if gi[grp].libs == 0 { AtariRemove(grp); }
          }
          return;
        }
        i := i + 1;
      }
      assert info.lib[..KEEP] == info.lib;
    }
  
    // ------------------------------------------------------------ stones

    ghost predicate AtariRight()
      reads this, b, n, g, p, gi, fmap
    {
      full ==> AtariOK(Snap())
    }

    lemma ListedAll(h: int)
      requires Valid() && AtariRight() && 0 <= h < gi.Length
      ensures Listed(h)
    {
      InUse(gi[h], 1, b.Length);
      assert Snap().lib[h] == ListOf(gi[h]);
    }

    /** The neighbours of a stone taken off: they count one less, and chains gain the point. */
    method TellNeighbours(grp: int, c: int, col: Stone)
      requires Valid() && st <= c < b.Length - st && AtariRight()
      modifies this`atari, n, gi
      ensures Valid() && AtariRight() && Snap() == RemoveNbs(old(Snap()), grp, c, col, 4)
    {
      hide AtariOK, InfoOK, ListOf, RemoveNbs, BumpN;
      ghost var s1 := Snap();
      NoneTold(s1, grp, c, col);
      var k := 0;
      while k < 4
        invariant 0 <= k <= 4 && Valid() && AtariRight() && Snap() == RemoveNbs(s1, grp, c, col, k)
      {
        ghost var t := Snap();
        var y := Nb(st, c, k);
        n[y] := BumpN(n[y], col, -1);
        assert Snap() == t.(n := t.n[y := BumpN(t.n[y], col, -1)]);
        SameAtari(t, Snap());
        var h := g[y];
        if 0 < h < gi.Length && h != grp {
          ListedAll(h);
          AddLib(h, c);
        }
        NextTold(s1, grp, c, col, k, t);
        NbsInAtari(s1, grp, c, col, k + 1);
        k := k + 1;
      }
    }

    /** One stone off the board. */
    method RemoveStone(grp: int, c: int)
      requires Valid() && st <= c < b.Length - st && AtariRight()
      modifies this`atari, this`free, this`hash, b, n, g, gi, fmap
      ensures Valid() && AtariRight() && Snap() == Engine.RemoveStone(old(Snap()), grp, c)
    {
      hide AtariOK, InfoOK, ListOf, RemoveNbs;
      ghost var s := Snap();
      StoneInAtari(s, grp, c);
      var col := b[c];
      b[c] := Empty;
      g[c] := 0;
      HashUpdate(c, col);
      assert Snap() == Engine.HashUpdate(s.(b := s.b[c := Empty], g := s.g[c := 0]), c, col);
      SameAtari(s, Snap());
      TellNeighbours(grp, c, col);
      AddFree(c);
    }

    /** A chain off the board, stone by stone along the links. */
    method Capture(grp: int, ghost l: seq<int>) returns (stones: nat)
      requires Valid() && AtariRight() && 0 <= grp < gi.Length && ChainList(K(Snap()), grp, l) && gi[grp].libs == 0
      modifies this`atari, this`free, this`hash, this`caps, b, n, g, gi, fmap
      ensures Valid() && AtariRight() && Snap() == Engine.Capture(old(Snap()), grp) && stones == |l|
    {
      hide AtariOK, ListOf, InfoOK, ChainList, Links, Engine.RemoveStone, CaptureUpTo, Walkable, ChainOf,
           Engine.Capture;
      ghost var s, core := Snap(), K(Snap());
      InUse(gi[grp], 1, b.Length);
      assert s.lib[grp] == [];
      CaptureCore(s, grp, l);
      ChainStarts(core, grp, l);
      LinkNext(core, grp, l, 0);
      forall j | 0 <= j < |l| ensures Inner(s, l[j]) { LinkNext(core, grp, l, j); }
      CaptureNone(s, grp, l);
      stones := 0;
      var c := grp;
      while c != 0
        invariant 0 <= stones <= |l| && c == (if stones < |l| then l[stones] else 0) && Valid() && AtariRight()
        invariant Snap() == CaptureUpTo(s, grp, l, stones) && p[..] == s.p
        decreases |l| - stones
      {
        ghost var t := Snap();
        LinkNext(core, grp, l, stones);
        caps := Bump(caps, Other(b[c]), 1);
        assert Snap() == t.(caps := Bump(t.caps, Other(t.b[c]), 1));
        SameAtari(t, Snap());
        RemoveStone(grp, c);
        CaptureMore(s, grp, l, stones);
        assert p[..][c] == p[c];
        c := p[c];
        stones := stones + 1;
      }
      ghost var t, was := Snap(), gi[..];
      gi[grp] := NO_GROUP;
      assert gi[..] == was[grp := NO_GROUP];
      ListsUpdate(was, grp, NO_GROUP);
      NoGroup(b.Length);
      CaptureEnds(s, grp, l, t);
      KeepsEmpty(s, grp, l, |l|);
      assert t.lib[grp := []] == t.lib;
      SameAtari(t, Snap());
    }
  
    // ------------------------------------------------------------ chains

    method AddToGroup(grp: int, prev: int, c: int)
      requires Valid() && st <= c < b.Length - st && 0 <= grp < gi.Length && 0 <= prev < p.Length && AtariRight()
      modifies this`atari, g, p, gi
      ensures Valid() && AtariRight() && Snap() == Engine.AddToGroup(old(Snap()), grp, prev, c)
    {
      hide AtariOK, InfoOK, ListOf, AddEmptyNbs;
      ghost var s := Snap();
      AddToGroupBooks(s, grp, prev, c);
      g[c] := grp;
      p[c] := p[prev];
      p[prev] := c;
      ghost var s1 := Snap();
      assert s1 == s.(g := s.g[c := grp], p := s.p[c := s.p[prev]][prev := c]);
      SameAtari(s, s1);
      NoneAdded(s1, grp, c);
      var k := 0;
      while k < 4
        invariant 0 <= k <= 4 && Valid() && AtariRight() && Snap() == AddEmptyNbs(s1, grp, c, k)
      {
        var y := Nb(st, c, k);
        NextAdded(s1, grp, c, k);
        AddEmptyNbsBooks(s1, grp, c, k + 1);
        if b[y] == Empty {
          ListedAll(grp);
          AddLib(grp, y);
        }
        k := k + 1;
      }
    }

    /** The liberties of one chain appended to those of another, while there is room. */
    method AppendLibs(to: int, from: int)
      requires Valid() && 0 <= to < gi.Length && 0 <= from < gi.Length && to != from
      requires full ==> AtariBut(Snap(), from)
      modifies this`atari, gi
      ensures Valid() && gi[from] == old(gi[from]) && (full ==> AtariBut(Snap(), from))
      ensures Snap() == Engine.AppendLibs(old(Snap()), to, old(ListOf(gi[from])), |old(ListOf(gi[from]))|)
    {
      hide AtariBut, InfoOK, ListOf, Engine.AppendLibs, Engine.AddLib;
      ghost var s, l := Snap(), ListOf(gi[from]);
      var info := gi[from];
      InUse(info, 1, b.Length);
      NoneAppended(s, to, l);
      var i := 0;
      while i < info.libs && gi[to].libs < KEEP
        invariant 0 <= i <= info.libs && Valid() && (full ==> AtariBut(Snap(), from)) && gi[from] == info
        invariant Snap() == Engine.AppendLibs(s, to, l, i)
      {
        EntryAt(info, i, b.Length);
        assert Listed(to) by { ListedBut(to, from); }
        NextAppended(s, to, l, i);
        AppendLibsBut(s, to, l, i + 1, from);
        AddLib(to, info.lib[i]);
        i := i + 1;
      }
      InUse(gi[to], 1, b.Length);
      if i < info.libs {
        assert Snap().lib[to] == ListOf(gi[to]);
        RestAppended(s, to, l, i, |l|);
      }
    }

    lemma ListedBut(h: int, ex: int)
      requires Valid() && 0 <= h < gi.Length && h != ex && (full ==> AtariBut(Snap(), ex))
      ensures Listed(h)
    {
      InUse(gi[h], 1, b.Length);
      assert Snap().lib[h] == ListOf(gi[h]);
    }
  
    /** The liberties of a chain that goes into another one. */
    method MoveLibs(to: int, from: int)
      requires Valid() && AtariRight() && 0 <= to < gi.Length && 0 <= from < gi.Length && to != from
      modifies this`atari, gi
      ensures Valid() && gi[from] == old(gi[from]) && Sized(old(Snap())) && (full ==> AtariBut(Snap(), from))
      ensures var s := old(Snap()); var lib := s.lib[from];
        Snap() == Engine.AppendLibs(if |lib| == 1 then Engine.AtariRemove(s, from) else s, to, lib, |lib|)
    {
      hide AtariBut, AtariOK, InfoOK, ListOf, Engine.AppendLibs, Engine.AtariRemove;
      ghost var s, lib := Snap(), ListOf(gi[from]);
      ListedAll(from);
      InUse(gi[from], 1, b.Length);
      assert s.lib[from] == lib;
      if full && gi[from].libs == 1 { AtariRemove(from); }
      assert Snap() == if |lib| == 1 then Engine.AtariRemove(s, from) else s by { NotFullNoAtari(s, from); }
      if full { WithoutFrom(s, from); }
      AppendLibs(to, from);
    }

    /** The stones of a chain get a new id, one by one along the links. */
    method RelabelChain(from: int, to: int, ghost l: seq<int>) returns (last: int)
      requires Valid() && ChainList(K(Snap()), from, l)
      modifies g
      ensures Valid() && (forall j :: 0 <= j < |l| ==> 0 <= l[j] < g.Length) && g[..] == Relabel(old(g[..]), l, to, |l|)
      ensures |l| > 0 && last == l[|l| - 1] && 0 < last < p.Length
    {
      hide ChainList, Links, Relabel, ListsOf, InfoOK;
      ghost var g0, core, k := g[..], K(Snap()), 0;
      ChainStarts(core, from, l);
      LinkNext(core, from, l, 0);
      forall j | 0 <= j < |l| ensures 0 <= l[j] < g.Length { LinkNext(core, from, l, j); }
      NoneRelabelled(g0, l, to);
      var c := from;
      last := from;
      while c != 0
        invariant 0 <= k <= |l| && c == (if k < |l| then l[k] else 0) && (k > 0 ==> last == l[k - 1])
        invariant g[..] == Relabel(g0, l, to, k)
        decreases |l| - k
      {
        LinkNext(core, from, l, k);
        NextRelabelled(g0, l, to, k);
        last := c;
        g[c] := to;
        c := p[c];
        k := k + 1;
      }
      if k < |l| { LinkNext(core, from, l, k); }
      LinkNext(core, from, l, |l| - 1);
    }

    method Merge(to: int, from: int, ghost l: seq<int>)
      requires Valid() && AtariRight() && 0 <= to < gi.Length && 0 <= from < gi.Length && to != from
      requires ChainList(K(Snap()), from, l)
      modifies this`atari, this`lasts, g, p, gi
      ensures Valid() && AtariRight() && Snap() == Engine.Merge(old(Snap()), to, from)
    {
      hide AtariBut, AtariOK, InfoOK, ListOf, ListsOf, Engine.AppendLibs, ChainList, Relabel, Engine.AtariRemove,
           Engine.Merge, SwapRemove;
      ghost var s := Snap();
      ghost var lib := s.lib[from];
      MergeBooks(s, to, from);
      MergeParts(s, to, from, l);
      MoveLibs(to, from);
      AppendKeepsChain(if |lib| == 1 then Engine.AtariRemove(s, from) else s, to, lib, from,
          l) by { RemoveKeepsChain(s, from, l); }
      var last := RelabelChain(from, to, l);
      p[last] := p[to];
      p[to] := from;
      ghost var gis := gi[..];
      gi[from] := NO_GROUP;
      assert gi[..] == gis[from := NO_GROUP];
      ListsUpdate(gis, from, NO_GROUP);
      NoGroup(b.Length);
      if !full { lasts := lasts + [last]; }
      assert Snap() == Engine.Merge(s, to, from);
    }
  
    /** A chain of its own; no check for room is needed. */
    method NewGroup(c: int)
      requires Valid() && st <= c < b.Length - st && gi[c].libs == 0 && AtariRight()
      modifies this`atari, g, p, gi
      ensures Valid() && AtariRight() && Snap() == Engine.NewGroup(old(Snap()), c)
    {
      hide AtariOK, InfoOK, ListOf, EmptyNbs;
      ghost var s, was := Snap(), gi[..];
      InUse(gi[c], 1, b.Length);
      assert s.lib[c] == [];
      NewGroupBooks(s, c);
      NoEmpty(b[..], st, c);
      var k := 0;
      while k < 4
        invariant 0 <= k <= 4 && Valid() && gi[..] == was[c := gi[c]] && gi[c].libs <= k
        invariant ListOf(gi[c]) == EmptyNbs(b[..], st, c, k)
        modifies gi
      {
        var y := Nb(st, c, k);
        NextEmpty(b[..], st, c, k);
        if b[y] == Empty {
          PushedOK(gi[c], y, b.Length);
          gi[c] := Pushed(gi[c], y);
        }
        k := k + 1;
      }
      ListsUpdate(was, c, gi[c]);
      InUse(gi[c], 1, b.Length);
      g[c] := c;
      p[c] := 0;
      assert s.lib[c] + ListOf(gi[c]) == ListOf(gi[c]);
      ghost var l := s.lib[c] + EmptyNbs(s.b, s.st, c, 4);
      assert b[..] == s.b && |l| == gi[c].libs;
      assert l == ListOf(gi[c]) && gi[..] == was[c := gi[c]];
      assert g[..] == s.g[c := c] && p[..] == s.p[c := 0];
      assert Snap() == s.(lib := s.lib[c := l], g := s.g[c := c], p := s.p[c := 0]);
      if full && gi[c].libs == 1 { AtariAdd(c); }
    }

    // ------------------------------------------------------------ playing

    /** The chain h beside the played point has given it up: it is joined, merged or captured. */
    method Meet(coord: int, col: Stone, ncolor: Stone, y: int, h: int, grp: int, ghost l: seq<int>) returns (r: int)
      requires Valid() && AtariRight() && st <= coord < b.Length - st && 0 <= y < b.Length && 0 <= grp < b.Length
      requires 0 < h < b.Length
      requires ChainList(K(Snap()), h, l) && |Snap().lib[h]| == gi[h].libs
      modifies this`atari, this`free, this`hash, this`caps, this`lasts, b, n, g, p, gi, fmap
      ensures Valid() && AtariRight() && Inner(old(Snap()), coord)
      ensures (Snap(), r) == MetChain(old(Snap()), coord, col, ncolor, y, h, grp)
    {
      hide AtariOK, InfoOK, ListOf, Engine.AddToGroup, Engine.Merge, Engine.Capture, ChainList;
      r := grp;
      if ncolor == col && h != grp {
        if grp == 0 {
          r := h;
          AddToGroup(h, y, coord);
        } else {
          Merge(grp, h, l);
        }
      } else if ncolor == Other(col) {
        if gi[h].libs == 0 { var taken := Capture(h, l); }
      }
    }

    /** One neighbour y of the point being played; `grp` is the chain joined so far. */
    method PlayOne(coord: int, col: Stone, y: int, grp: int, ghost ch: Chains, ghost m: Mid,
        ghost b0: seq<Stone>) returns (r: int)
      requires Valid() && AtariRight() && Running(Snap(), ch, m, b0, col, grp) && m.k < 4 && coord == m.coord
      requires y == Nb(st, coord, m.k)
      modifies this`atari, this`free, this`hash, this`caps, this`lasts, b, n, g, p, gi, fmap
      ensures Valid() && AtariRight() && Inner(old(Snap()), coord) && 0 <= y < |old(Snap()).b|
      ensures 0 <= grp < |old(Snap()).b|
      ensures (Snap(), r) == Engine.PlayOne(old(Snap()), coord, col, y, grp)
    {
      hide Running, AtariOK, InfoOK, ListOf, Engine.RemoveLib, ChainList, Engine.PlayOne, MetChain;
      ghost var s := Snap();
      PlayPlace(s, ch, m, b0, col, grp);
      PlayOneIs(s, coord, col, y, grp);
      r := grp;
      var ncolor, h := b[y], g[y];
      n[y] := BumpN(n[y], col, 1);
      ghost var s1 := Snap();
      assert s1 == s.(n := s.n[y := BumpN(s.n[y], col, 1)]);
      SameAtari(s, s1);
      if h == 0 { return; }
      PlayChain(s, ch, m, b0, col, grp);
      assert K(s1) == K(s);
      RemoveLib(h, coord, ch[h]);
      r := Meet(coord, col, ncolor, y, h, grp, ch[h]);
    }
  
    /** The neighbours of the played point, one after the other. */
    method PlayNeighbours(coord: int, col: Stone, ghost ch: Chains) returns (grp: int)
      requires Valid() && AtariRight() && Running(Snap(), ch, Mid(coord, Empty, 0, {}, 0), Snap().b, col, 0)
      modifies this`atari, this`free, this`hash, this`caps, this`lasts, b, n, g, p, gi, fmap
      ensures Valid() && AtariRight() && Inner(old(Snap()), coord)
      ensures (Snap(), grp) == PlayUpTo(old(Snap()), coord, col, 4)
    {
      hide Running, AtariOK, InfoOK, Engine.PlayOne, ListsOf;
      ghost var s, m0 := Snap(), Mid(coord, Empty, 0, {}, 0);
      RunningInside(s, ch, m0, s.b, col, 0);
      grp := 0;
      var k := 0;
      while k < 4
        invariant 0 <= k <= 4 && Valid() && AtariRight() && (Snap(), grp) == PlayUpTo(s, coord, col, k)
      {
        ghost var ch1, m1 := PlayUpToRuns(s, ch, m0, col, k);
        grp := PlayOne(coord, col, Nb(st, coord, k), grp, ch1, m1, s.b);
        k := k + 1;
      }
    }

    /** Recording the move: the full board shifts its buffer, the quick one two entries. */
    method CommitMove(m: Move)
      requires Valid()
      modifies this`recent, this`recentAt, this`moves
      ensures Valid() && Snap() == Commit(old(Snap()), m)
    {
      if full {
        recentAt := (recentAt + 1) % 4;
        recent := recent[recentAt := m];
      } else {
        var j := (4 + recentAt - 1) % 4;
        recent := recent[j := recent[recentAt]][recentAt := m];
      }
      moves := moves + 1;
    }

    /** Drawing the stone, as a new chain if it joined none. */
    method Draw(m: Move, grp: int)
      requires Valid() && AtariRight() && st <= m.coord < b.Length - st && (grp == 0 ==> gi[m.coord].libs == 0)
      modifies this`atari, b, g, p, gi
      ensures Valid() && AtariRight() && Snap() == Drawn(old(Snap()), m.coord, m.colour, grp)
    {
      hide AtariOK, InfoOK, ListsOf, Engine.NewGroup;
      ghost var s1 := Snap();
      b[m.coord] := m.colour;
      assert Snap() == s1.(b := s1.b[m.coord := m.colour]);
      SameAtari(s1, Snap());
      if grp == 0 { NewGroup(m.coord); }
    }

    /** The end of a move: it is recorded, hashed, and a ko may be set. */
    method Finish(m: Move, newKo: Move)
      requires Valid() && AtariRight() && 0 <= m.coord < b.Length
      modifies this`recent, this`recentAt, this`moves, this`hash, this`ko
      ensures Valid() && AtariRight()
      ensures Snap() == Engine.HashUpdate(Commit(old(Snap()), m), m.coord, m.colour).(ko := newKo)
    {
      hide AtariOK, InfoOK, ListsOf, Commit, Engine.HashUpdate;
      ghost var s := Snap();
      CommitMove(m);
      HashUpdate(m.coord, m.colour);
      ko := newKo;
      AtariKept(s, Snap());
    }

    /** A stone put down where it is not walled in by the other colour. */
    method PlayOutside(m: Move, ghost ch: Chains) returns (grp: int)
      requires Valid() && Quiet(K(Snap()), ch) && BooksOK(Snap(), 0, Empty, 0, PASS) && IsColour(m.colour)
      requires 0 <= m.coord < b.Length && b[m.coord] == Empty
      modifies this, b, n, g, p, gi, fmap
      ensures Valid() && AtariRight() && Inner(old(Snap()), m.coord)
      ensures (Snap(), grp) == Engine.PlayOutside(old(Snap()), m)
    {
      hide Running, AtariOK, InfoOK, ListsOf, ListOf, Quiet, BooksOK, PlayUpTo, Engine.NewGroup, Engine.TakeFree,
           Engine.HashUpdate, Commit;
      ghost var s := Snap();
      Ready(s, ch, m);
      TakeFree(m.coord);
      ghost var s0 := Snap();
      AfterTaking(s, ch, m);
      grp := PlayNeighbours(m.coord, m.colour, ch);
      ghost var s1 := Snap();
      LoopEnd(s0, ch, m, s.b);
      if grp == 0 {
        ListAt(gi[..], m.coord);
        InUse(gi[m.coord], 1, b.Length);
      }
      Draw(m, grp);
      if grp == 0 { grp := m.coord; }
      Finish(m, NO_MOVE);
    }
  
    /** Chains in atari around the point. */
    method CountAtari(c: int) returns (found: int)
      requires Valid() && st <= c < b.Length - st && forall y :: 0 <= y < g.Length ==> 0 <= g[y] < gi.Length
      ensures Inner(Snap(), c) && found == AtariNbs(Snap(), c, 4)
    {
      hide InfoOK, ListOf, ListsOf;
      var k := 0;
      found := 0;
      while k < 4
        invariant 0 <= k <= 4 && found == AtariNbs(Snap(), c, k)
      {
        var h := g[Nb(st, c, k)];
        ListAt(gi[..], h);
        InUse(gi[h], 1, b.Length);
        if gi[h].libs == 1 { found := found + 1; }
        k := k + 1;
      }
    }

    /** One neighbour of a point inside an eye. */
    method EyeNeighbour(coord: int, col: Stone, y: int, taken: int, at: int, ghost ch: Chains, ghost m: Mid,
        ghost b0: seq<Stone>)
      returns (taken': int, at': int)
      requires Valid() && AtariRight() && Running(Snap(), ch, m, b0, col, 0) && m.k < 4 && coord == m.coord
      requires y == Nb(st, coord, m.k)
      modifies this`atari, this`free, this`hash, this`caps, b, n, g, p, gi, fmap
      ensures Valid() && AtariRight() && Inner(old(Snap()), coord) && 0 <= y < |old(Snap()).b|
      ensures EyeRun(Snap(), taken', at') == EyeOne(EyeRun(old(Snap()), taken, at), coord, col, y)
    {
      hide Running, AtariOK, InfoOK, ListOf, ListsOf, Engine.RemoveLib, Engine.Capture, ChainList;
      ghost var s := Snap();
      PlayPlace(s, ch, m, b0, col, 0);
      taken', at' := taken, at;
      var h := g[y];
      n[y] := BumpN(n[y], col, 1);
      ghost var s1 := Snap();
      assert s1 == s.(n := s.n[y := BumpN(s.n[y], col, 1)]);
      SameAtari(s, s1);
      if h == 0 { return; }
      PlayChain(s, ch, m, b0, col, 0);
      assert K(s1) == K(s);
      RemoveLib(h, coord, ch[h]);
      ghost var s2 := Snap();
      if gi[h].libs == 0 {
        WalkIsChain(K(s2), h, ch[h]);
        var stones := Capture(h, ch[h]);
        taken', at' := taken + stones, y;
      }
    }

    method EyeNeighbours(coord: int, col: Stone, ghost ch: Chains) returns (taken: int, at: int)
      requires Valid() && AtariRight() && Running(Snap(), ch, Mid(coord, Empty, 0, {}, 0), Snap().b, col, 0)
      requires Walled(Snap().b, st, coord, Other(col))
      modifies this`atari, this`free, this`hash, this`caps, b, n, g, p, gi, fmap
      ensures Valid() && AtariRight() && Inner(old(Snap()), coord)
      ensures EyeRun(Snap(), taken, at) == EyeUpTo(old(Snap()), coord, col, 4)
    {
      hide Running, AtariOK, InfoOK, ListsOf, EyeOne, EyeMoves.Taken, Walled, Engine.PlayOne;
      ghost var s, m0 := Snap(), Mid(coord, Empty, 0, {}, 0);
      RunningInside(s, ch, m0, s.b, col, 0);
      taken, at := 0, PASS;
      var k := 0;
      while k < 4
        invariant 0 <= k <= 4 && Valid() && AtariRight() && EyeRun(Snap(), taken, at) == EyeUpTo(s, coord, col, k)
      {
        ghost var ch1, m1 := PlayUpToRuns(s, ch, m0, col, k);
        EyeUpToIsPlayUpTo(s, ch, m0, col, k);
        taken, at := EyeNeighbour(coord, col, Nb(st, coord, k), taken, at, ch1, m1, s.b);
        k := k + 1;
      }
    }
  
    /** The ko a move into an eye makes: only if it took a single stone. */
    method SetKo(taken: int, at: int, col: Stone) returns (newKo: Move)
      requires Valid() && AtariRight()
      modifies this`lastKo, this`lastKoAge
      ensures Valid() && AtariRight() && newKo == if taken == 1 then Move(at, Other(col)) else NO_MOVE
      ensures Snap() == if taken == 1 then old(Snap()).(lastKo := newKo, lastKoAge := moves + 1) else old(Snap())
    {
      hide AtariOK, InfoOK, ListsOf;
      ghost var s := Snap();
      newKo := NO_MOVE;
      if taken == 1 {
        newKo := Move(at, Other(col));
        lastKo := newKo;
        lastKoAge := moves + 1;
      }
      AtariKept(s, Snap());
    }

    method CloseEye(m: Move, taken: int, at: int)
      requires Valid() && AtariRight() && st <= m.coord < b.Length - st && Snap().lib[m.coord] == []
      modifies this, b, g, p, gi
      ensures Valid() && AtariRight() && Inner(old(Snap()), m.coord)
      ensures Snap() == ClosedEye(EyeRun(old(Snap()), taken, at), m)
    {
      hide AtariOK, InfoOK, ListsOf, ListOf, Engine.HashUpdate, Commit, Engine.NewGroup;
      ListAt(gi[..], m.coord);
      InUse(gi[m.coord], 1, b.Length);
      var newKo := SetKo(taken, at, m.colour);
      Draw(m, 0);
      Finish(m, newKo);
    }

    /** The stone goes into the eye; taking a single stone sets the ko. */
    method EnterEye(m: Move, ghost ch: Chains)
      requires Valid() && Quiet(K(Snap()), ch) && BooksOK(Snap(), 0, Empty, 0, PASS) && IsColour(m.colour)
      requires 0 <= m.coord < b.Length && b[m.coord] == Empty && Walled(Snap().b, st, m.coord, Other(m.colour))
      modifies this, b, n, g, p, gi, fmap
      ensures Valid() && AtariRight() && Inner(old(Snap()), m.coord) && Snap() == EnteredEye(old(Snap()), m)
    {
      hide Running, AtariOK, InfoOK, ListsOf, ListOf, Quiet, BooksOK, EyeUpTo, Engine.TakeFree, Walled, ClosedEye;
      ghost var s := Snap();
      Ready(s, ch, m);
      TakeFree(m.coord);
      ghost var s0 := Snap();
      AfterTaking(s, ch, m);
      var taken, at := EyeNeighbours(m.coord, m.colour, ch);
      EyeEnd(s0, ch, m);
      CloseEye(m, taken, at);
    }

    /** The quick test of a move: it holds exactly if the rules allow the move. */
    method IsValidPlay(m: Move) returns (ok: bool)
      requires Valid() && Sound(Quick(Snap())) && IsColour(m.colour) && 0 <= m.coord < b.Length
      ensures Sized(Snap()) && |Snap().b| == b.Length && (b[m.coord] == Empty ==> Inner(Snap(), m.coord))
      ensures ok == ValidPlay(Snap(), m) == Legal(Snap().b, st, ko, m)
    {
      hide AtariOK, InfoOK, ListsOf, ListOf, Quiet, BooksOK, AtariNbs, Legal, Eyelike;
      ghost var s := Snap();
      QuickSized(s);
      ValidPlayIff(Quick(s), m);
      CounterCaptures.ValidSame(s, m);
      if b[m.coord] != Empty { return false; }
      ghost var ch :| Quiet(K(Quick(s)), ch);
      IdsInRange(K(Quick(s)), ch);
      EyelikeIs(s, m.coord, Other(m.colour));
      if CountOf(n[m.coord], Other(m.colour)) + n[m.coord].off != 4 { return true; }
      if m == ko { return false; }
      var found := CountAtari(m.coord);
      ok := found != 0;
    }

    /** A stone put down inside an eye of the other colour, or refused. */
    method PlayInEye(m: Move, ghost ch: Chains) returns (ok: bool)
      requires Valid() && Quiet(K(Snap()), ch) && BooksOK(Snap(), 0, Empty, 0, PASS) && IsColour(m.colour)
      requires 0 <= m.coord < b.Length && b[m.coord] == Empty && Walled(Snap().b, st, m.coord, Other(m.colour))
      modifies this, b, n, g, p, gi, fmap
      ensures Valid() && AtariRight() && Inner(old(Snap()), m.coord) && (Snap(), ok) == Engine.PlayInEye(old(Snap()), m)
    {
      hide Running, AtariOK, InfoOK, ListsOf, Quiet, BooksOK, EnteredEye, Walled, AtariNbs;
      ghost var s := Snap();
      Ready(s, ch, m);
      if m == ko { return false; }
      IdsInRange(K(s), ch);
      var found := CountAtari(m.coord);
      if found == 0 { return false; }
      EnterEye(m, ch);
      ok := true;
    }

    /** A stone put down on an empty point. */
    method PlayStone(m: Move, ghost ch: Chains) returns (ok: bool)
      requires Valid() && Quiet(K(Snap()), ch) && BooksOK(Snap(), 0, Empty, 0, PASS) && IsColour(m.colour)
      requires 0 <= m.coord < b.Length && b[m.coord] == Empty
      modifies this, b, n, g, p, gi, fmap
      ensures Valid() && AtariRight() && Inner(old(Snap()), m.coord) && (Snap(), ok) == Engine.PlayStone(old(Snap()), m)
    {
      hide Running, AtariOK, InfoOK, ListsOf, ListOf, Quiet, BooksOK, Engine.PlayOutside, Engine.PlayInEye,
           Engine.Capture, Eyelike, Walled;
      ghost var s := Snap();
      Ready(s, ch, m);
      EyeTest(s, ch, m);
      if CountOf(n[m.coord], Other(m.colour)) + n[m.coord].off == 4 {
        ok := PlayInEye(m, ch);
      } else {
        ghost var ch1 := OutsideDown(s, ch, m);
        var grp := PlayOutside(m, ch);
        DownList(Snap(), ch1, s.b, m.coord, m.colour, grp);
        ListAt(gi[..], grp);
        InUse(gi[grp], 1, b.Length);
        if gi[grp].libs == 0 { var stones := Capture(grp, ch1[grp]); }
        ok := true;
      }
    }

    /** A pass; under Siming rules the opponent gets a pass stone. */
    method PassMove(m: Move)
      requires Valid() && m.coord == PASS && IsColour(m.colour)
      modifies this
      ensures Valid() && Sized(old(Snap())) && Snap() == Engine.Play(old(Snap()), m).0
    {
      hide InfoOK, ListsOf, Engine.Play, Commit, Bump, ListOf;
      ghost var s := Snap();
      PassIs(s, m);
      passes := Bump(passes, m.colour, 1);
      if rules == Siming { caps := Bump(caps, Other(m.colour), 1); }
      ko := NO_MOVE;
      CommitMove(m);
    }

    /** A move. On a sound board it is accepted exactly if the rules allow it, the board then shows
        exactly the grid and the ko the rules give, and it stays sound; a refused move changes
        nothing. */
    method Play(m: Move) returns (ok: bool)
      requires Valid() && Sound(Snap()) && IsColour(m.colour) && (m.coord == PASS || 0 <= m.coord < b.Length)
      modifies this, b, n, g, p, gi, fmap
      ensures Valid() && Sized(old(Snap())) && |old(Snap()).b| == b.Length
      ensures (Snap(), ok) == Engine.Play(old(Snap()), m)
      ensures var (game, legal) := Step(Game(old(Snap()).b, old(Snap()).ko), st, m);
        ok == legal && Game(Snap().b, Snap().ko) == game
      ensures Sound(Snap()) && (!ok ==> Snap() == old(Snap()))
    {
      hide AtariOK, InfoOK, ListsOf, ListOf, Quiet, BooksOK, Engine.PlayStone, Step, KoOK, Engine.PlayOutside;
      ghost var s := Snap();
      PlayRefinesStep(s, m);
      if m.coord == PASS {
        PassMove(m);
        ok := true;
      } else if b[m.coord] != Empty {
        ok := false;
      } else {
        ghost var ch :| Quiet(K(s), ch);
        Ready(s, ch, m);
        ok := PlayStone(m, ch);
      }
    }
  }
}
