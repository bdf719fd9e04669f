/** Splitting merged chains again: links, ids and lists come back in the reverse order. */
module UndoSplit {
  import opened Grid
  import opened Engine
  import opened Invariant
  import opened Steps
  import opened Undo
  import opened UndoTrace
  import opened UndoPlay

  /** The ids of the record's chains from index i on. */
  ghost function From(u: Record, i: nat): set<int> { set j | i <= j < |u.merged| :: u.merged[j].grp }

  /** What splitting needs to know of the board before the move and of the record. */
  ghost predicate CanSplit(c: Core, ch: Chains, x: int, col: Stone, u: Record) {
    && Shape(c) && MergesOK(c, ch, x, col, u) && Linked(c, ch) && Cover(c, ch, QUIET)
    && u.merged != [] && 0 <= x < |c.b| && c.g[x] == 0 && |u.lasts| == |u.merged| - 1
    && forall i :: 0 <= i < |u.lasts| ==> u.lasts[i] == LastOf(ch, u.merged[i + 1].grp)
  }

  /** t is r with the chains from index i on split off. */
  ghost predicate SplitTo(r: State, t: State, c: Core, ch: Chains, x: int, u: Record, i: nat) {
    && i <= |u.merged| && t == r.(g := t.g, p := t.p, lib := t.lib)
    && |t.g| == |r.g| == |c.g| && |t.lib| == |r.lib| == |c.lib| && t.p == PAfter(c.p, ch, x, u, i)
    && (forall y :: 0 <= y < |t.g| ==> t.g[y] == if c.g[y] in From(u, i) then c.g[y] else r.g[y])
    && (forall h :: 0 <= h < |t.lib| ==> t.lib[h] == if h in From(u, i) then c.lib[h] else r.lib[h])
  }

  lemma LaterIds(u: Record, i: nat)
    requires i < |u.merged|
    ensures From(u, i) == From(u, i + 1) + {u.merged[i].grp}
  {
  }

  /** Links of a stone whose chain is not among the first i of the record. */
  lemma {:induction false} LinkKept(c: Core, ch: Chains, x: int, col: Stone, u: Record, i: nat, z: int)
    requires i <= |u.merged| && Shape(c) && MergesOK(c, ch, x, col, u) && Linked(c, ch)
    requires 0 <= z < |c.g| && z != x && forall j :: 0 <= j < i ==> u.merged[j].grp != c.g[z]
    ensures PAfter(c.p, ch, x, u, i)[z] == c.p[z]
    decreases i
  {
    hide Touch, Framed;
    if i > 0 { IdPositive(c, ch, u.merged[0].grp); }
    if i > 1 {
      LinkKept(c, ch, x, col, u, i - 1, z);
      var grp := u.merged[i - 1].grp;
      assert ChainList(c, grp, ch[grp]);
      assert c.g[LastOf(ch, grp)] == grp;
    }
  }

  /** A chain of the record past the first i is still linked as it was. */
  lemma ListKept(c: Core, ch: Chains, x: int, col: Stone, u: Record, i: nat)
    requires CanSplit(c, ch, x, col, u) && 1 <= i < |u.merged|
    ensures var h := u.merged[i].grp; var p := PAfter(c.p, ch, x, u, i);
      0 < h < |c.b| && h in ch && Walk(p, h, |p|) == ch[h] && ChainList(c, h, ch[h])
    ensures var p := PAfter(c.p, ch, x, u, i); var z := LastOf(ch, u.merged[i].grp);
      0 <= z < |p| && p[z] == 0 && c.g[z] == u.merged[i].grp
    ensures Home(u) != u.merged[i].grp && 0 < Home(u) < |c.b| && c.g[Home(u)] == Home(u)
  {
    hide Touch, Framed, Cover;
    var h := u.merged[i].grp;
    IdPositive(c, ch, h);
    IdPositive(c, ch, Home(u));
    var p, l := PAfter(c.p, ch, x, u, i), ch[h];
    assert ChainList(c, h, l);
    forall k | 0 <= k < |l| ensures p[l[k]] == c.p[l[k]] {
      assert Pt(c, l[k]) && c.g[l[k]] == h;
      LinkKept(c, ch, x, col, u, i, l[k]);
    }
    assert ChainList(c.(p := p), h, l) by { assert Links(p, l); }
    WalkIsChain(c.(p := p), h, l);
    assert c.p[l[|l| - 1]] == Next(l, |l| - 1);
  }

  /** The links after splitting off one more chain. */
  lemma UnlinkOne(p: seq<int>, ch: Chains, x: int, u: Record, i: nat)
    requires 1 <= i < |u.merged| && 0 <= Home(u) < |p| && 0 <= LastOf(ch, u.merged[i].grp) < |p|
    requires var last := LastOf(ch, u.merged[i].grp); PAfter(p, ch, x, u, i)[last] == 0 && last != Home(u)
    ensures var q := PAfter(p, ch, x, u, i + 1); var last := LastOf(ch, u.merged[i].grp);
      q[Home(u) := q[last]][last := 0] == PAfter(p, ch, x, u, i)
  {
    var pi, last := PAfter(p, ch, x, u, i), LastOf(ch, u.merged[i].grp);
    var q := PAfter(p, ch, x, u, i + 1);
    assert q == pi[last := pi[Home(u)]][Home(u) := u.merged[i].grp];
  }

  lemma InBounds(c: Core, h: int, l: seq<int>)
    requires ChainList(c, h, l)
    ensures forall j :: 0 <= j < |l| ==> 0 <= l[j] < |c.g|
  {
    assert forall j :: 0 <= j < |l| ==> Pt(c, l[j]);
  }

  function SplitOff(t: State, c: Core, ch: Chains, x: int, u: Record, i: nat): State
    requires i < |u.merged| && u.merged[i].grp in ch && 0 <= u.merged[i].grp < |t.lib| == |c.lib|
    requires forall j :: 0 <= j < |ch[u.merged[i].grp]| ==> 0 <= ch[u.merged[i].grp][j] < |t.g|
  {
    var h := u.merged[i].grp;
    t.(lib := t.lib[h := c.lib[h]], p := PAfter(c.p, ch, x, u, i), g := Relabel(t.g, ch[h], h, |ch[h]|))
  }

  /** What one step does, with the walk already known. */
  lemma SplitOne(r: State, t: State, c: Core, ch: Chains, x: int, col: Stone, u: Record, i: nat)
    requires CanSplit(c, ch, x, col, u) && 1 <= i < |u.merged| && Sized(r)
    requires t == SplitFrom(r, u, Home(u), i + 1) && SplitTo(r, t, c, ch, x, u, i + 1)
    ensures u.merged[i].grp in ch && 0 <= u.merged[i].grp < |t.lib| == |c.lib|
    ensures var h := u.merged[i].grp; forall j :: 0 <= j < |ch[h]| ==> 0 <= ch[h][j] < |t.g|
    ensures SplitFrom(r, u, Home(u), i) == SplitOff(t, c, ch, x, u, i)
  {
    hide Touch, Framed, Walk, MergesOK, From, Relabel, PAfter;
    ListKept(c, ch, x, col, u, i);
    MergedLib(c, ch, x, col, u, i);
    LastRecorded(c, ch, x, col, u, i);
    hide CanSplit;
    var h := u.merged[i].grp;
    UnlinkOne(c.p, ch, x, u, i);
    InBounds(c, h, ch[h]);
    hide ChainList, LastOf;
    assert Sized(t);
  }

  lemma SplitMore(r: State, t: State, c: Core, ch: Chains, x: int, u: Record, i: nat)
    requires i < |u.merged| && SplitTo(r, t, c, ch, x, u, i + 1)
    requires u.merged[i].grp in ch && 0 <= u.merged[i].grp < |t.lib| == |c.lib|
    requires forall j :: 0 <= j < |ch[u.merged[i].grp]| ==> 0 <= ch[u.merged[i].grp][j] < |t.g|
    requires forall y :: 0 <= y < |c.g| ==> (y in ch[u.merged[i].grp] <==> c.g[y] == u.merged[i].grp)
    ensures SplitTo(r, SplitOff(t, c, ch, x, u, i), c, ch, x, u, i)
  {
    var h := u.merged[i].grp;
    LaterIds(u, i);
    RelabelAt(t.g, ch[h], h, |ch[h]|);
    assert ch[h][..|ch[h]|] == ch[h];
    hide From, Relabel, PAfter;
  }

  lemma SplitStep(r: State, t: State, c: Core, ch: Chains, x: int, col: Stone, u: Record, i: nat)
    requires CanSplit(c, ch, x, col, u) && 1 <= i < |u.merged| && Sized(r)
    requires t == SplitFrom(r, u, Home(u), i + 1) && SplitTo(r, t, c, ch, x, u, i + 1)
    ensures SplitTo(r, SplitFrom(r, u, Home(u), i), c, ch, x, u, i)
  {
    hide CanSplit, SplitFrom, SplitTo, SplitOff;
    SplitOne(r, t, c, ch, x, col, u, i);
    SplitShape(r, t, c, ch, x, u, i + 1);
    StonesAre(c, ch, x, col, u, i);
    SplitMore(r, t, c, ch, x, u, i);
  }

  lemma SplitShape(r: State, t: State, c: Core, ch: Chains, x: int, u: Record, i: nat)
    requires SplitTo(r, t, c, ch, x, u, i)
    ensures |t.g| == |r.g| == |c.g| && |t.lib| == |c.lib|
  {
  }

  lemma MergedLib(c: Core, ch: Chains, x: int, col: Stone, u: Record, i: nat)
    requires CanSplit(c, ch, x, col, u) && i < |u.merged|
    ensures 0 < u.merged[i].grp < |c.lib| && u.merged[i].lib == c.lib[u.merged[i].grp]
  {
    hide Touch, Framed, Cover;
    IdPositive(c, ch, u.merged[i].grp);
  }

  lemma LastRecorded(c: Core, ch: Chains, x: int, col: Stone, u: Record, i: nat)
    requires CanSplit(c, ch, x, col, u) && 1 <= i < |u.merged|
    ensures |u.lasts| == |u.merged| - 1 && u.lasts[i - 1] == LastOf(ch, u.merged[i].grp)
  {
  }

  lemma StonesAre(c: Core, ch: Chains, x: int, col: Stone, u: Record, i: nat)
    requires CanSplit(c, ch, x, col, u) && i < |u.merged|
    ensures u.merged[i].grp in ch
    ensures forall y :: 0 <= y < |c.g| ==> (y in ch[u.merged[i].grp] <==> c.g[y] == u.merged[i].grp)
  {
    hide Touch, Framed;
    var h := u.merged[i].grp;
    IdPositive(c, ch, h);
    assert ChainList(c, h, ch[h]);
  }

  lemma {:induction false} SplitLoop(r: State, c: Core, ch: Chains, x: int, col: Stone, u: Record, i: nat)
    requires CanSplit(c, ch, x, col, u) && 1 <= i <= |u.merged| && Sized(r)
    requires |r.g| == |c.g| && |r.lib| == |c.lib| && r.p == PAfter(c.p, ch, x, u, |u.merged|)
    ensures SplitTo(r, SplitFrom(r, u, Home(u), i), c, ch, x, u, i)
    decreases |u.merged| - i
  {
    hide CanSplit, PAfter;
    if i < |u.merged| {
      SplitLoop(r, c, ch, x, col, u, i + 1);
      SplitStep(r, SplitFrom(r, u, Home(u), i + 1), c, ch, x, col, u, i);
    }
  }
}
