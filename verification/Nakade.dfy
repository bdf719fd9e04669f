/** Nakade: whether a small eye space can be reduced to one eye, and by which point. */
module Nakade {
  import opened Grid
  import opened LibList
  import opened Engine

  const MAX := 6

  // ------------------------------------------------------------ the eye space

  /** No point of the set touches a stone of the other colour. */
  ghost predicate Enclosed(b: seq<Stone>, st: int, c: set<int>, col: Stone) {
    forall x, y :: x in c && Adj(st, x, y) && 0 <= y < |b| ==> b[y] != Other(col)
  }

  /** The first k neighbours of x are fine: none of the other colour, the empty ones listed. */
  predicate Swept(b: seq<Stone>, st: int, x: int, k: int, col: Stone, l: seq<int>) {
    k > 0 ==>
      Swept(b, st, x, k - 1, col, l)
      && var y := Nb(st, x, k - 1); 0 <= y < |b| && b[y] != Other(col) && (b[y] == Empty ==> y in l)
  }

  lemma {:induction false} SweptLonger(b: seq<Stone>, st: int, x: int, k: int, col: Stone, l: seq<int>, y: int)
    requires Swept(b, st, x, k, col, l)
    ensures Swept(b, st, x, k, col, l + [y])
    decreases k
  {
    if k > 0 { SweptLonger(b, st, x, k - 1, col, l, y); }
  }

  lemma SweptAll(b: seq<Stone>, st: int, x: int, col: Stone, l: seq<int>, y: int)
    requires Swept(b, st, x, 4, col, l) && Adj(st, x, y)
    ensures 0 <= y < |b| && b[y] != Other(col) && (b[y] == Empty ==> y in l)
  {
    assert Swept(b, st, x, 3, col, l);
    assert Swept(b, st, x, 2, col, l);
    assert Swept(b, st, x, 1, col, l);
  }

  ghost predicate AllSwept(b: seq<Stone>, st: int, l: seq<int>, i: int, col: Stone)
    requires i <= |l|
  {
    forall m :: 0 <= m < i ==> Swept(b, st, l[m], 4, col, l)
  }

  lemma AllSweptLonger(b: seq<Stone>, st: int, l: seq<int>, i: int, col: Stone, y: int)
    requires i <= |l| && AllSwept(b, st, l, i, col)
    ensures AllSwept(b, st, l + [y], i, col)
  {
    forall m | 0 <= m < i ensures Swept(b, st, (l + [y])[m], 4, col,
        l + [y]) { SweptLonger(b, st, l[m], 4, col, l, y); }
  }

  function Members(l: seq<int>): set<int> { set x | x in l }

  /** The list explores the empty region of `around`. */
  ghost predicate Exploring(b: seq<Stone>, st: int, around: int, l: seq<int>) {
    && 0 < |l| <= MAX && l[0] == around && Distinct(l)
    && forall m :: 0 <= m < |l| ==> 0 <= l[m] < |b| && b[l[m]] == Empty && Reach(b, st, around, l[m])
  }

  lemma ExploringStart(b: seq<Stone>, st: int, around: int)
    requires 0 <= around < |b| && b[around] == Empty
    ensures Exploring(b, st, around, [around])
  {
    ReachRefl(b, st, around);
  }

  lemma ExploringMore(b: seq<Stone>, st: int, around: int, l: seq<int>, i: int, y: int)
    requires Exploring(b, st, around, l) && 0 <= i < |l| && Adj(st, l[i], y) && 0 <= y < |b| && b[y] == Empty && y !in l
    ensures Reach(b, st, around, y)
    ensures |l| < MAX ==> Exploring(b, st, around, l + [y])
  {
    hide Reach, Adj;
    ReachStep(b, st, around, l[i], y);
  }

  /** A list that cannot be extended is the region. */
  lemma ExploredAll(b: seq<Stone>, st: int, around: int, l: seq<int>, col: Stone)
    requires Exploring(b, st, around, l) && AllSwept(b, st, l, |l|, col)
    ensures Members(l) == Component(b, st, around) && Enclosed(b, st, Members(l), col)
    ensures |Component(b, st, around)| == |l|
  {
    hide Adj, Reach, Swept;
    var t := Members(l);
    forall x, y | x in t && Adj(st, x, y) && 0 <= y < |b| ensures b[y] != Other(col) && (b[y] == Empty ==> y in t) {
      var m :| 0 <= m < |l| && l[m] == x;
      SweptAll(b, st, l[m], col, l, y);
    }
    assert Closed(b, st, t);
    forall y | y in Component(b, st, around) ensures y in t { ReachClosed(b, st, t, around, y); }
    MembersSize(l);
  }

  lemma {:induction false} MembersSize(l: seq<int>)
    requires Distinct(l)
    ensures |Members(l)| == |l|
  {
    if l != [] {
      var l' := l[..|l| - 1];
      MembersSize(l');
      assert Members(l) == Members(l') + {l[|l| - 1]};
    }
  }

  /** A seventh point of the region. */
  lemma TooLarge(b: seq<Stone>, st: int, around: int, l: seq<int>, y: int)
    requires Exploring(b, st, around, l) && |l| == MAX && Reach(b, st, around, y) && 0 <= y < |b| && y !in l
    ensures |Component(b, st, around)| > MAX
  {
    hide Reach;
    MembersSize(l);
    var t := Members(l) + {y};
    forall x | x in t ensures x in Component(b, st, around) {}
    Smaller(t, Component(b, st, around));
  }

  lemma Smaller(s: set<int>, t: set<int>)
    requires s <= t
    ensures |s| <= |t|
  {
    assert s + (t - s) == t && s * (t - s) == {};
  }

  lemma Touches(b: seq<Stone>, st: int, around: int, l: seq<int>, i: int, y: int, col: Stone)
    requires Exploring(b, st, around, l) && 0 <= i < |l| && Adj(st, l[i], y) && 0 <= y < |b| && b[y] == Other(col)
    ensures !Enclosed(b, st, Component(b, st, around), col)
  {
    hide Reach, Adj;
    assert l[i] in Component(b, st, around);
  }

  /** The eye space around an empty point: -1 exactly if it has more than six points or touches
      the other colour; otherwise its points, each once. */
  method NakadeArea(b: seq<Stone>, st: int, around: int, col: Stone, area: array<int>) returns (n: int)
    requires Framed(b, st) && 0 <= around < |b| && b[around] == Empty && IsColour(col) && area.Length == MAX
    modifies area
    ensures n == -1 || 0 < n <= MAX
    ensures n == -1 <==> |Component(b, st, around)| > MAX || !Enclosed(b, st, Component(b, st, around), col)
    ensures n != -1 ==> Distinct(area[..n]) && Members(area[..n]) == Component(b, st, around)
    ensures n != -1 ==> n == |Component(b, st, around)|
  {
    hide Reach, Swept, Enclosed, Component, Closed;
    n := 0;
    area[n] := around;
    n := n + 1;
    assert area[..n] == [around];
    ExploringStart(b, st, around);
    var i := 0;
    while i < n
      invariant 0 <= i <= n <= MAX && 0 < n && Exploring(b, st, around, area[..n]) && AllSwept(b, st, area[..n], i, col)
      decreases MAX - i
    {
      var x := area[i];
      var k := 0;
      SweptNone(b, st, x, col, area[..n]);
      while k < 4
        invariant 0 <= k <= 4 && i < n <= MAX && area[i] == x
        invariant Exploring(b, st, around, area[..n]) && AllSwept(b, st, area[..n], i, col)
        invariant Swept(b, st, x, k, col, area[..n])
      {
        var c := Nb(st, x, k);
        ghost var l := area[..n];
        assert l[i] == x;
        Beside(b, st, x, k);
        if b[c] == Other(col) {
          Touches(b, st, around, l, i, c, col);
          return -1;
        }
        if b[c] == Empty {
          var dup := false;
          var j := 0;
          while j < n && !dup
            invariant 0 <= j <= n && dup == (c in area[..j])
          {
            if c == area[j] { dup := true; }
            j := j + 1;
          }
          assert dup ==> c in l;
          if !dup {
            assert area[..j] == l;
            ExploringMore(b, st, around, l, i, c);
            if n >= MAX {
              TooLarge(b, st, around, l, c);
              return -1;
            }
            area[n] := c;
            n := n + 1;
            assert area[..n] == l + [c];
            AllSweptLonger(b, st, l, i, col, c);
            SweptLonger(b, st, x, k, col, l, c);
          }
        }
        SweptNext(b, st, x, k, col, area[..n]);
        k := k + 1;
      }
      i := i + 1;
    }
    ExploredAll(b, st, around, area[..n], col);
  }

  lemma SweptNone(b: seq<Stone>, st: int, x: int, col: Stone, l: seq<int>)
    ensures Swept(b, st, x, 0, col, l)
  {
  }

  lemma SweptNext(b: seq<Stone>, st: int, x: int, k: int, col: Stone, l: seq<int>)
    requires 0 <= k && Swept(b, st, x, k, col, l) && 0 <= Nb(st, x, k) < |b| && b[Nb(st, x, k)] != Other(col)
    requires b[Nb(st, x, k)] == Empty ==> Nb(st, x, k) in l
    ensures Swept(b, st, x, k + 1, col, l)
  {
  }

  lemma Beside(b: seq<Stone>, st: int, x: int, k: int)
    requires Framed(b, st) && 0 <= x < |b| && b[x] == Empty && 0 <= k < 4
    ensures 0 <= Nb(st, x, k) < |b| && Adj(st, x, Nb(st, x, k))
  {
  }

  // ------------------------------------------------------------ the shape

  function Abs(x: int): int { if x < 0 then -x else x }

  predicate Adjacent(st: int, x: int, y: int) { Abs(x - y) == 1 || Abs(x - y) == st }

  lemma AdjacentIsAdj(st: int, x: int, y: int)
    requires st >= 3
    ensures Adjacent(st, x, y) <==> Adj(st, x, y)
    ensures Adj(st, x, y) <==> Adj(st, y, x)
    ensures !Adj(st, x, x)
  {
  }

  /** Neighbours of x within the set. */
  ghost function Deg(c: set<int>, st: int, x: int): nat { |PointSet(c, st, x)| }

  ghost function PointSet(c: set<int>, st: int, x: int): set<int> { set y | y in c && Adj(st, x, y) }

  /** Points of the set with d neighbours in it. */
  ghost function Hist(c: set<int>, st: int, d: int): nat { |set x | x in c && Deg(c, st, x) == d| }

  /** The pair p < q comes before (i, j) in the double loop. */
  predicate Earlier(p: int, q: int, i: int, j: int) { p < q && (p < i || (p == i && q < j)) }

  /** Neighbours of the k-th point met so far. */
  ghost function MetBefore(a: seq<int>, st: int, k: int, i: int, j: int): set<int>
    requires 0 <= k < |a|
  {
    set m | 0 <= m < |a| && Adj(st, a[k], a[m]) && (Earlier(k, m, i, j) || Earlier(m, k, i, j))
  }

  lemma MetNext(a: seq<int>, st: int, i: int, j: int, k: int)
    requires st >= 3 && 0 <= i < j < |a| && 0 <= k < |a|
    ensures MetBefore(a, st, k, i, j + 1) == MetBefore(a, st, k, i, j)
      + (if k == i && Adj(st, a[i], a[j]) then {j} else {}) + (if k == j && Adj(st, a[i], a[j]) then {i} else {})
    ensures j !in MetBefore(a, st, i, i, j) && i !in MetBefore(a, st, j, i, j)
  {
    hide Adj;
    AdjacentIsAdj(st, a[i], a[j]);
  }

  lemma MetRow(a: seq<int>, st: int, i: int, k: int)
    requires 0 <= i < |a| && 0 <= k < |a|
    ensures MetBefore(a, st, k, i, |a|) == MetBefore(a, st, k, i + 1, i + 2)
  {
    hide Adj;
  }

  lemma MetNone(a: seq<int>, st: int, k: int)
    requires 0 <= k < |a|
    ensures MetBefore(a, st, k, 0, 1) == {}
  {
  }

  lemma MetFew(a: seq<int>, st: int, k: int, i: int, j: int)
    requires 0 <= k < |a| && st >= 3
    ensures |MetBefore(a, st, k, i, j)| < |a|
  {
    hide Adj;
    AdjacentIsAdj(st, a[k], a[k]);
    Smaller(MetBefore(a, st, k, i, j), Below(|a|) - {k});
  }

  ghost function Below(n: nat): (r: set<int>)
    ensures |r| == n && forall m :: m in r <==> 0 <= m < n
  {
    if n == 0 then {} else Below(n - 1) + {n - 1}
  }

  /** Once all pairs are done, a point has met its neighbours in the set. */
  lemma MetAll(a: seq<int>, st: int, k: int)
    requires Distinct(a) && 0 <= k < |a| && st >= 3
    ensures |MetBefore(a, st, k, |a|, |a| + 1)| == Deg(Members(a), st, a[k])
  {
    hide Adj;
    AdjacentIsAdj(st, a[k], a[k]);
    var t := MetBefore(a, st, k, |a|, |a| + 1);
    assert t == set m | 0 <= m < |a| && Adj(st, a[k], a[m]);
    Indices(a, st, a[k], |a|);
    assert Members(a[..|a|]) == Members(a);
    assert (set y | y in Members(a) && Adj(st, a[k], y)) == (set y | y in Members(a[..|a|]) && Adj(st, a[k], y));
  }

  ghost function IndexSet(a: seq<int>, st: int, x: int, n: nat): set<int>
    requires n <= |a|
  {
    set m | 0 <= m < n && Adj(st, x, a[m])
  }

  lemma {:induction false} Indices(a: seq<int>, st: int, x: int, n: nat)
    requires Distinct(a) && n <= |a|
    ensures |IndexSet(a, st, x, n)| == |PointSet(Members(a[..n]), st, x)|
  {
    hide Adj, IndexSet, PointSet, Members;
    if n == 0 {
      NoIndices(a, st, x);
    } else {
      Indices(a, st, x, n - 1);
      NextIndex(a, st, x, n);
    }
  }

  lemma NoIndices(a: seq<int>, st: int, x: int)
    ensures IndexSet(a, st, x, 0) == {} && PointSet(Members(a[..0]), st, x) == {}
  {
  }

  lemma NextIndex(a: seq<int>, st: int, x: int, n: nat)
    requires Distinct(a) && 0 < n <= |a|
    ensures |IndexSet(a, st, x, n)| == |IndexSet(a, st, x, n - 1)| + if Adj(st, x, a[n - 1]) then 1 else 0
    ensures |PointSet(Members(a[..n]), st, x)| ==
      |PointSet(Members(a[..n - 1]), st, x)| + if Adj(st, x, a[n - 1]) then 1 else 0
  {
    hide Adj;
    assert a[n - 1] !in a[..n - 1];
    assert Members(a[..n]) == Members(a[..n - 1]) + {a[n - 1]};
    assert IndexSet(a, st, x, n) == IndexSet(a, st, x, n - 1) + if Adj(st, x, a[n - 1]) then {n - 1} else {};
    assert PointSet(Members(a[..n]), st, x) ==
      PointSet(Members(a[..n - 1]), st, x) + if Adj(st, x, a[n - 1]) then {a[n - 1]} else {};
  }

  /** The counters after the pairs before (i, j): neighbours met, and how often each number. */
  ghost predicate Counted(a: seq<int>, st: int, nb: seq<int>, pt: seq<int>, i: int, j: int) {
    && |nb| == |a| && |pt| == 9
    && (forall k :: 0 <= k < |a| ==> nb[k] == |MetBefore(a, st, k, i, j)|)
    && forall d :: 0 <= d < 9 ==> pt[d] == multiset(nb)[d]
  }

  /** One more neighbour for the k-th point. */
  function Bumped(nb: seq<int>, pt: seq<int>, k: int): (seq<int>, seq<int>)
    requires 0 <= k < |nb| && |pt| == 9 && 0 <= nb[k] < 8
  {
    (nb[k := nb[k] + 1], pt[nb[k] := pt[nb[k]] - 1][nb[k] + 1 := pt[nb[k] + 1] + 1])
  }

  lemma BumpedHist(nb: seq<int>, pt: seq<int>, k: int)
    requires 0 <= k < |nb| && |pt| == 9 && 0 <= nb[k] < 8 && forall d :: 0 <= d < 9 ==> pt[d] == multiset(nb)[d]
    ensures var (nb', pt') := Bumped(nb, pt, k); |nb'| == |nb| && |pt'| == 9 && forall d :: 0 <= d < 9 ==>
      pt'[d] == multiset(nb')[d]
  {
    var v := nb[k];
    assert nb == nb[..k] + [v] + nb[k + 1..];
    assert nb[k := v + 1] == nb[..k] + [v + 1] + nb[k + 1..];
  }

  lemma CountedNext(a: seq<int>, st: int, nb: seq<int>, pt: seq<int>, i: int, j: int)
    requires st >= 3 && 0 <= i < j < |a| <= MAX && Counted(a, st, nb, pt, i, j)
    ensures 0 <= nb[i] < 8 && 0 <= nb[j] < 8
    ensures !Adj(st, a[i], a[j]) ==> Counted(a, st, nb, pt, i, j + 1)
    ensures var (nb1, pt1) := Bumped(nb, pt, i); var (nb2, pt2) := Bumped(nb1, pt1, j);
      Adj(st, a[i], a[j]) ==> Counted(a, st, nb2, pt2, i, j + 1)
  {
    hide Adj, MetBefore, Bumped;
    MetFew(a, st, i, i, j);
    MetFew(a, st, j, i, j);
    assert 0 <= nb[i] < 8 && 0 <= nb[j] < 8;
    forall k | 0 <= k < |a| ensures |MetBefore(a, st, k, i, j + 1)| ==
      |MetBefore(a, st, k, i, j)| + if (k == i || k == j) && Adj(st, a[i], a[j]) then 1 else 0 {
      MetNext(a, st, i, j, k);
    }
    var (nb1, pt1) := Bumped(nb, pt, i);
    BumpedIs(nb, pt, i);
    BumpedHist(nb, pt, i);
    assert nb1[j] == nb[j];
    var (nb2, pt2) := Bumped(nb1, pt1, j);
    BumpedIs(nb1, pt1, j);
    BumpedHist(nb1, pt1, j);
  }

  lemma BumpedIs(nb: seq<int>, pt: seq<int>, k: int)
    requires 0 <= k < |nb| && |pt| == 9 && 0 <= nb[k] < 8
    ensures Bumped(nb, pt, k).0 == nb[k := nb[k] + 1]
    ensures |Bumped(nb, pt, k).1| == 9
  {
  }

  lemma CountedRow(a: seq<int>, st: int, nb: seq<int>, pt: seq<int>, i: int)
    requires 0 <= i < |a| && Counted(a, st, nb, pt, i, |a|)
    ensures Counted(a, st, nb, pt, i + 1, i + 2)
  {
    hide MetBefore;
    forall k | 0 <= k < |a| ensures |MetBefore(a, st, k, i + 1, i + 2)| == nb[k] { MetRow(a, st, i, k); }
  }

  lemma {:induction false} CountedNone(a: seq<int>, st: int, nb: seq<int>, pt: seq<int>)
    requires |nb| == |a| && |pt| == 9 && (forall k :: 0 <= k < |a| ==> nb[k] == 0)
    requires pt[0] == |a| && forall d :: 0 < d < 9 ==> pt[d] == 0
    ensures Counted(a, st, nb, pt, 0, 1)
  {
    hide MetBefore;
    forall k | 0 <= k < |a| ensures MetBefore(a, st, k, 0, 1) == {} { MetNone(a, st, k); }
    AllZero(nb);
  }

  lemma {:induction false} AllZero(nb: seq<int>)
    requires forall k :: 0 <= k < |nb| ==> nb[k] == 0
    ensures multiset(nb)[0] == |nb| && forall d :: d != 0 ==> multiset(nb)[d] == 0
  {
    if nb != [] {
      AllZero(nb[..|nb| - 1]);
      assert nb == nb[..|nb| - 1] + [0];
    }
  }

  /** The number of neighbours of every point of the area, and the histogram of these numbers. */
  method GetNeighbors(st: int, area: array<int>, n: int, neighbors: array<int>, ptbynei: array<int>)
    requires st >= 3 && 0 < n <= MAX == area.Length && neighbors.Length == n && ptbynei.Length == 9
    requires ptbynei[0] == n && forall d :: 0 < d < 9 ==> ptbynei[d] == 0
    requires area != neighbors && area != ptbynei && neighbors != ptbynei && Distinct(area[..n])
    modifies neighbors, ptbynei
    ensures forall k :: 0 <= k < n ==> neighbors[k] == Deg(Members(area[..n]), st, area[k])
    ensures forall d :: 0 <= d < 9 ==> ptbynei[d] == Hist(Members(area[..n]), st, d)
  {
    hide MetBefore, Adj, Counted, Deg, Hist, Members;
    ghost var a := area[..n];
    var i := 0;
    while i < n
      invariant 0 <= i <= n && (forall k :: 0 <= k < i ==> neighbors[k] == 0) && ptbynei[..] == old(ptbynei[..])
    {
      neighbors[i] := 0;
      i := i + 1;
    }
    CountedNone(a, st, neighbors[..], ptbynei[..]);
    i := 0;
    while i < n
      invariant 0 <= i <= n && Counted(a, st, neighbors[..], ptbynei[..], i, i + 1)
    {
      var j := i + 1;
      while j < n
        invariant i < j <= n && Counted(a, st, neighbors[..], ptbynei[..], i, j)
      {
        ghost var nb, pt := neighbors[..], ptbynei[..];
        CountedNext(a, st, nb, pt, i, j);
        AdjacentIsAdj(st, area[i], area[j]);
        if Adjacent(st, area[i], area[j]) {
          assert nb[i] == neighbors[i] && nb[j] == neighbors[j];
          ptbynei[neighbors[i]] := ptbynei[neighbors[i]] - 1;
          neighbors[i] := neighbors[i] + 1;
          ptbynei[neighbors[i]] := ptbynei[neighbors[i]] + 1;
          assert (neighbors[..], ptbynei[..]) == Bumped(nb, pt, i);
          ghost var nb1, pt1 := neighbors[..], ptbynei[..];
          assert nb1[j] == nb[j];
          ptbynei[neighbors[j]] := ptbynei[neighbors[j]] - 1;
          neighbors[j] := neighbors[j] + 1;
          ptbynei[neighbors[j]] := ptbynei[neighbors[j]] + 1;
          assert (neighbors[..], ptbynei[..]) == Bumped(nb1, pt1, j);
        }
        j := j + 1;
      }
      CountedRow(a, st, neighbors[..], ptbynei[..], i);
      i := i + 1;
    }
    CountedAll(a, st, neighbors[..], ptbynei[..]);
  }

  lemma CountedAll(a: seq<int>, st: int, nb: seq<int>, pt: seq<int>)
    requires st >= 3 && Distinct(a) && Counted(a, st, nb, pt, |a|, |a| + 1)
    ensures |nb| == |a| && |pt| == 9 && forall k :: 0 <= k < |a| ==> nb[k] == Deg(Members(a), st, a[k])
    ensures forall d :: 0 <= d < 9 ==> pt[d] == Hist(Members(a), st, d)
  {
    hide MetBefore, Adj, Deg, Members, Hist;
    forall k | 0 <= k < |a| ensures nb[k] == Deg(Members(a), st, a[k]) { MetAll(a, st, k); }
    forall d | 0 <= d < 9 ensures pt[d] == Hist(Members(a), st, d) { HistCount(a, st, nb, d); }
  }

  ghost function WithDeg(c: set<int>, st: int, d: int): set<int> { set x | x in c && Deg(c, st, x) == d }

  ghost function WithDegUpTo(a: seq<int>, c: set<int>, st: int, d: int, n: nat): set<int>
    requires n <= |a|
  {
    set x | x in a[..n] && Deg(c, st, x) == d
  }

  lemma WithDegStep(a: seq<int>, c: set<int>, st: int, d: int, n: nat)
    requires n <= |a|
    ensures n == 0 ==> WithDegUpTo(a, c, st, d, n) == {}
    ensures n > 0 && Deg(c, st, a[n - 1]) != d ==> WithDegUpTo(a, c, st, d, n) == WithDegUpTo(a, c, st, d, n - 1)
    ensures n > 0 && Deg(c, st, a[n - 1]) == d ==>
      WithDegUpTo(a, c, st, d, n) == WithDegUpTo(a, c, st, d, n - 1) + {a[n - 1]}
    ensures WithDegUpTo(a, Members(a), st, d, |a|) == WithDeg(Members(a), st, d)
  {
    hide Deg;
    assert a[..|a|] == a;
  }

  lemma NotYet(a: seq<int>, c: set<int>, st: int, d: int, n: nat)
    requires Distinct(a) && 0 < n <= |a|
    ensures a[n - 1] !in WithDegUpTo(a, c, st, d, n - 1)
  {
    hide Deg;
  }

  lemma HistCount(a: seq<int>, st: int, nb: seq<int>, d: int)
    requires Distinct(a) && |nb| == |a| && forall k :: 0 <= k < |a| ==> nb[k] == Deg(Members(a), st, a[k])
    ensures multiset(nb)[d] == Hist(Members(a), st, d)
  {
    hide Deg;
    HistUpTo(a, st, nb, d, Members(a), |a|);
    WithDegStep(a, Members(a), st, d, |a|);
    assert nb[..|a|] == nb;
    assert Hist(Members(a), st, d) == |WithDeg(Members(a), st, d)|;
  }

  lemma {:induction false} HistUpTo(a: seq<int>, st: int, nb: seq<int>, d: int, c: set<int>, n: nat)
    requires Distinct(a) && |nb| == |a| && n <= |a| && forall k :: 0 <= k < |a| ==> nb[k] == Deg(c, st, a[k])
    ensures multiset(nb[..n])[d] == |WithDegUpTo(a, c, st, d, n)|
  {
    hide Deg, WithDegUpTo;
    WithDegStep(a, c, st, d, n);
    if n > 0 {
      HistUpTo(a, st, nb, d, c, n - 1);
      NotYet(a, c, st, d, n);
      assert nb[..n] == nb[..n - 1] + [nb[n - 1]];
    }
  }

  // ------------------------------------------------------------ the vital point

  /** r is the one point of the region with d neighbours in it. */
  ghost predicate Picks(c: set<int>, st: int, d: int, r: int) { WithDeg(c, st, d) == {r} }

  /** What the vital point of a region is, by the number of its points. */
  ghost predicate IsVital(c: set<int>, st: int, r: int) {
    if |c| == 3 then Picks(c, st, 2, r)
    else if |c| == 4 && Hist(c, st, 3) == 1 then Picks(c, st, 3, r)
    else if |c| == 5 && Hist(c, st, 3) == 1 && Hist(c, st, 1) == 1 then Picks(c, st, 3, r)
    else if |c| == 5 && Hist(c, st, 4) == 1 then Picks(c, st, 4, r)
    else if |c| == 6 && Hist(c, st, 4) == 1 && Hist(c, st, 2) == 3 then Picks(c, st, 4, r)
    else r == PASS
  }

  /** A point of a larger region has a neighbour in it. */
  lemma NotAlone(b: seq<Stone>, st: int, around: int, x: int, y: int)
    requires 0 <= around < |b| && b[around] == Empty
    requires x in Component(b, st, around) && y in Component(b, st, around) && x != y
    ensures exists z :: z in Component(b, st, around) && Adj(st, x, z)
  {
    hide Adj, Reach;
    ReachRange(b, st, around, x);
    if !exists z :: z in Component(b, st, around) && Adj(st, x, z) {
      ComponentClosed(b, st, around);
      assert Closed(b, st, {x});
      ReachSym(b, st, around, x);
      ReachTrans(b, st, x, around, y);
      ReachClosed(b, st, {x}, x, y);
    }
  }

  lemma DegOfThree(st: int, x: int, y: int, z: int)
    requires st >= 3 && x != y && y != z && x != z
    ensures Deg({x, y, z}, st, x) == (if Adj(st, x, y) then 1 else 0) + (if Adj(st, x, z) then 1 else 0)
  {
    hide Adj;
    AdjacentIsAdj(st, x, x);
    assert PointSet({x, y, z}, st, x) == (if Adj(st, x, y) then {y} else {}) + (if Adj(st, x, z) then {z} else {});
  }

  lemma NoTriangle(st: int, x: int, y: int, z: int)
    requires st >= 3
    ensures !(Adj(st, x, y) && Adj(st, y, z) && Adj(st, x, z))
  {
  }

  lemma ThreeDegrees(st: int, x: int, y: int, z: int)
    requires st >= 3 && x != y && y != z && x != z && Adj(st, x, y) && Adj(st, y, z)
    ensures Picks({x, y, z}, st, 2, y) && Hist({x, y, z}, st, 2) == 1
  {
    hide Adj, Deg;
    NoTriangle(st, x, y, z);
    AdjacentIsAdj(st, x, y);
    AdjacentIsAdj(st, y, z);
    AdjacentIsAdj(st, x, z);
    DegOfThree(st, x, y, z);
    assert {y, x, z} == {x, y, z} == {z, x, y};
    DegOfThree(st, y, x, z);
    DegOfThree(st, z, x, y);
    assert WithDeg({x, y, z}, st, 2) == {y};
  }

  /** A region of three points has exactly one point with two neighbours. */
  lemma ThreeInLine(b: seq<Stone>, st: int, around: int, a: seq<int>)
    requires st >= 3 && 0 <= around < |b| && b[around] == Empty && Distinct(a) && |a| == 3
    requires Members(a) == Component(b, st, around)
    ensures Hist(Component(b, st, around), st, 2) == 1
  {
    hide Adj, Reach, Component, Hist, Picks;
    var c := Component(b, st, around);
    var x, y, z := a[0], a[1], a[2];
    assert c == {x, y, z};
    AdjacentIsAdj(st, z, z);
    NotAlone(b, st, around, x, y);
    NotAlone(b, st, around, y, x);
    NotAlone(b, st, around, z, x);
    AdjacentIsAdj(st, x, y);
    AdjacentIsAdj(st, y, z);
    AdjacentIsAdj(st, x, z);
    if Adj(st, x, y) && Adj(st, y, z) { ThreeDegrees(st, x, y, z); }
    else if Adj(st, x, y) {
      assert {y, x, z} == c;
      assert {z, x, y} == c;
      ThreeDegrees(st, z, x, y);
    } else {
      assert {x, z, y} == c;
      ThreeDegrees(st, x, z, y);
    }
  }

  lemma OnePick(c: set<int>, st: int, d: int, r: int)
    requires Hist(c, st, d) == 1 && r in c && Deg(c, st, r) == d
    ensures Picks(c, st, d, r)
  {
    hide Deg;
    var t := WithDeg(c, st, d);
    assert r in t && |t| == 1;
    assert |t - {r}| == 0;
  }

  lemma {:induction false} SomePoint(a: seq<int>, c: set<int>, st: int, d: int, n: nat) returns (k: nat)
    requires n <= |a| && |WithDegUpTo(a, c, st, d, n)| > 0
    ensures k < n && Deg(c, st, a[k]) == d
  {
    hide Deg, WithDegUpTo;
    WithDegStep(a, c, st, d, n);
    k := n - 1;
    if Deg(c, st, a[k]) != d { k := SomePoint(a, c, st, d, k); }
  }

  /** For every number of neighbours that occurs, some point that has it. */
  ghost predicate Table(c: set<int>, st: int, nb: seq<int>, i: int, pick: seq<int>)
    requires 0 <= i <= |nb| && |pick| == 9
  {
    forall k :: 0 <= k < i ==> 0 <= nb[k] < 9 && pick[nb[k]] in c && Deg(c, st, pick[nb[k]]) == nb[k]
  }

  lemma TableNext(c: set<int>, st: int, nb: seq<int>, i: int, pick: seq<int>, x: int)
    requires 0 <= i < |nb| && |pick| == 9 && Table(c, st, nb, i, pick) && 0 <= nb[i] < 9 && x in c
    requires Deg(c, st, x) == nb[i]
    ensures Table(c, st, nb, i + 1, pick[nb[i] := x])
  {
    hide Deg;
  }

  lemma HistIs(c: set<int>, st: int, d: int)
    ensures Hist(c, st, d) == |WithDeg(c, st, d)|
  {
  }

  lemma TablePicks(a: seq<int>, st: int, nb: seq<int>, pick: seq<int>, d: int)
    requires |nb| == |a| && |pick| == 9 && Table(Members(a), st, nb, |nb|, pick) && 0 <= d < 9
    requires Hist(Members(a), st, d) == 1
    requires forall k :: 0 <= k < |a| ==> nb[k] == Deg(Members(a), st, a[k])
    ensures Picks(Members(a), st, d, pick[d])
  {
    hide Deg, Hist;
    WithDegStep(a, Members(a), st, d, |a|);
    assert |WithDeg(Members(a), st, d)| == 1 by { HistIs(Members(a), st, d); }
    var k := SomePoint(a, Members(a), st, d, |a|);
    assert nb[k] == d;
    OnePick(Members(a), st, d, pick[d]);
  }

  lemma DegSmall(c: set<int>, st: int, x: int)
    requires |c| <= MAX
    ensures 0 <= Deg(c, st, x) <= MAX
  {
    hide Adj;
    Smaller(PointSet(c, st, x), c);
  }

  /** The vital point, or a pass. The assertion on three points cannot fail. */
  method VitalPoint(b: seq<Stone>, st: int, around: int, area: array<int>, n: int, neighbors: array<int>,
      ptbynei: array<int>) returns (r: int)
    requires st >= 3 && 0 < n <= MAX == area.Length && neighbors.Length == n && ptbynei.Length == 9
    requires Distinct(area[..n])
    requires 0 <= around < |b| && b[around] == Empty && Members(area[..n]) == Component(b, st, around)
    requires forall k :: 0 <= k < n ==> neighbors[k] == Deg(Members(area[..n]), st, area[k])
    requires forall d :: 0 <= d < 9 ==> ptbynei[d] == Hist(Members(area[..n]), st, d)
    ensures IsVital(Component(b, st, around), st, r)
  {
    hide Deg, Hist, Component, Table, Picks, Reach, Members;
    ghost var a, c := area[..n], Component(b, st, around);
    MembersSize(a);
    var coordbynei := new int[9];
    var i := 0;
    TableNone(c, st, neighbors[..], coordbynei[..]);
    while i < n
      invariant 0 <= i <= n && Table(c, st, neighbors[..], i, coordbynei[..])
    {
      DegSmall(c, st, area[i]);
      assert a[i] == area[i];
      InMembers(a, i);
      TableNext(c, st, neighbors[..], i, coordbynei[..], area[i]);
      coordbynei[neighbors[i]] := area[i];
      i := i + 1;
    }
    forall d | 0 <= d < 9 && ptbynei[d] == 1 ensures Picks(c, st, d, coordbynei[d]) {
      TablePicks(a, st, neighbors[..], coordbynei[..], d);
    }
    match n
    case 1 => return PASS;
    case 2 => return PASS;
    case 3 =>
      ThreeInLine(b, st, around, a);
      assert ptbynei[2] == 1;
      return coordbynei[2];
    case 4 =>
      if ptbynei[3] != 1 { return PASS; }
      return coordbynei[3];
    case 5 =>
      if ptbynei[3] == 1 && ptbynei[1] == 1 { return coordbynei[3]; }
      if ptbynei[4] == 1 { return coordbynei[4]; }
      return PASS;
    case 6 =>
      if ptbynei[4] == 1 && ptbynei[2] == 3 { return coordbynei[4]; }
      return PASS;
  }

  lemma InMembers(a: seq<int>, i: int)
    requires 0 <= i < |a|
    ensures a[i] in Members(a)
  {
  }

  lemma TableNone(c: set<int>, st: int, nb: seq<int>, pick: seq<int>)
    requires |pick| == 9
    ensures Table(c, st, nb, 0, pick)
  {
  }

  /** The region of an empty point as nakade sees it: small and inside chains of one colour. */
  ghost predicate Nakadeable(b: seq<Stone>, st: int, around: int, col: Stone) {
    |Component(b, st, around)| <= MAX && Enclosed(b, st, Component(b, st, around), col)
  }

  method NakadePoint(b: seq<Stone>, st: int, around: int, col: Stone) returns (r: int)
    requires Framed(b, st) && 0 <= around < |b| && b[around] == Empty && IsColour(col)
    ensures if Nakadeable(b, st, around, col) then IsVital(Component(b, st, around), st, r) else r == PASS
  {
    hide Deg, Hist, Component, Enclosed, IsVital, Members;
    var area := new int[MAX];
    var n := NakadeArea(b, st, around, col, area);
    if n == -1 { return PASS; }
    var neighbors := new int[n];
    var ptbynei := new int[9](i => if i == 0 then n else 0);
    GetNeighbors(st, area, n, neighbors, ptbynei);
    r := VitalPoint(b, st, around, area, n, neighbors, ptbynei);
  }

  lemma DegBelow(c: set<int>, st: int, x: int)
    requires st >= 3 && x in c
    ensures Deg(c, st, x) <= |c| - 1 && Deg(c, st, x) <= 4
  {
    var t := PointSet(c, st, x);
    Smaller(t, c - {x});
    Smaller(t, {x - st, x - 1, x + 1, x + st});
  }

  lemma SameSize(s: set<int>, t: set<int>)
    requires s <= t && |s| == |t|
    ensures s == t
  {
    assert |t - s| == 0 by { assert s + (t - s) == t && s * (t - s) == {}; }
  }

  /** Around a point with four neighbours in a region of five, all others have just that one. */
  lemma Cross(c: set<int>, st: int, x: int, y: int)
    requires st >= 3 && |c| == 5 && x in c && Deg(c, st, x) == 4 && y in c && y != x
    ensures Deg(c, st, y) == 1
  {
    hide Adj;
    AdjacentIsAdj(st, x, x);
    SameSize(PointSet(c, st, x), c - {x});
    assert y in PointSet(c, st, x);
    forall z | z in PointSet(c, st, y) ensures z == x {
      AdjacentIsAdj(st, y, z);
      if z != x {
        assert z in PointSet(c, st, x);
        NoTriangle(st, x, y, z);
      }
    }
    AdjacentIsAdj(st, x, y);
    assert PointSet(c, st, y) == {x};
  }

  lemma NoCross(c: set<int>, st: int, x: int)
    requires st >= 3 && |c| == 5 && x in c && Hist(c, st, 1) == 1
    ensures Deg(c, st, x) != 4
  {
    hide Deg;
    if Deg(c, st, x) == 4 {
      forall y | y in c - {x} ensures y in WithDeg(c, st, 1) { Cross(c, st, x, y); }
      HistIs(c, st, 1);
      Smaller(c - {x}, WithDeg(c, st, 1));
    }
  }

  /** The vital point is a point of the region with more neighbours in it than any other has. */
  lemma VitalIsCentre(c: set<int>, st: int, r: int, x: int)
    requires st >= 3 && IsVital(c, st, r) && r != PASS && x in c && x != r
    ensures r in c && Deg(c, st, x) < Deg(c, st, r)
  {
    hide Deg, Hist;
    forall d | Picks(c, st, d, r) ensures r in c && Deg(c, st, r) == d && Deg(c, st, x) != d {
      assert r in WithDeg(c, st, d) && x !in WithDeg(c, st, d);
    }
    DegBelow(c, st, x);
    if |c| == 5 && Hist(c, st, 1) == 1 { NoCross(c, st, x); }
  }

  /** A region that can be reduced to one eye. */
  ghost predicate DeadShape(c: set<int>, st: int) {
    |c| <= 3 || (|c| == 4 && Hist(c, st, 2) == 4) || (|c| == 4 && Hist(c, st, 3) == 1)
    || (|c| == 5 && Hist(c, st, 3) == 1 && Hist(c, st, 1) == 1) || (|c| == 5 && Hist(c, st, 4) == 1)
    || (|c| == 6 && Hist(c, st, 4) == 1 && Hist(c, st, 2) == 3)
  }

  lemma FourAndOne(c: set<int>, st: int)
    requires Hist(c, st, 2) == 4 && Hist(c, st, 3) == 1
    ensures |c| >= 5
  {
    hide Deg;
    var t, u := WithDeg(c, st, 2), WithDeg(c, st, 3);
    assert t * u == {};
    Smaller(t + u, c);
  }

  lemma VitalIsPoint(b: seq<Stone>, st: int, around: int, r: int)
    requires |Component(b, st, around)| > 3 && IsVital(Component(b, st, around), st, r)
    ensures r != PASS <==>
      var c := Component(b, st, around); DeadShape(c, st) && !(|c| == 4 && Hist(c, st, 2) == 4)
  {
    hide Deg, Reach;
    var c := Component(b, st, around);
    assert forall x :: x in c ==> x >= 0;
    forall d | Picks(c, st, d, r) ensures r >= 0 { assert r in WithDeg(c, st, d); }
    if |c| == 4 && Hist(c, st, 2) == 4 && Hist(c, st, 3) == 1 {
      FourAndOne(c, st);
    }
  }

  method NakadeDeadShape(b: seq<Stone>, st: int, around: int, col: Stone) returns (dead: bool)
    requires Framed(b, st) && 0 <= around < |b| && b[around] == Empty && IsColour(col)
    ensures dead <==> Nakadeable(b, st, around, col) && DeadShape(Component(b, st, around), st)
  {
    hide Deg, Hist, Component, Enclosed, IsVital, Members;
    var area := new int[MAX];
    var n := NakadeArea(b, st, around, col, area);
    if n == -1 { return false; }
    if n <= 3 { return true; }
    var neighbors := new int[n];
    var ptbynei := new int[9](i => if i == 0 then n else 0);
    GetNeighbors(st, area, n, neighbors, ptbynei);
    if n == 4 && ptbynei[2] == 4 { return true; }
    var r := VitalPoint(b, st, around, area, n, neighbors, ptbynei);
    VitalIsPoint(b, st, around, r);
    dead := r != PASS;
  }
}
