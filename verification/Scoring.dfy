/** Tromp-Taylor scoring: a flood fill in place over the owner of each point, and why its end
    result says which colours an empty region reaches. */
module Scoring {
  import opened Grid
  import opened Engine
  import opened Books
  import opened PlayTheorem
  import opened Reachable
  import opened KoTheorem
  import opened Invariant
  import opened Moves
  import opened LibList

  /** Who owns a point: nobody knows yet, both, or one of Black, White and the margin. */
  datatype Owner = Unset | Dame | Held(c: Stone)

  predicate Next4(m: seq<Owner>, st: int, x: int, o: Owner)
    requires st >= 3 && st <= x < |m| - st
  {
    m[x - st] == o || m[x - 1] == o || m[x + 1] == o || m[x + st] == o
  }

  /** The empty neighbours of x, the first k, take the owner v; only unset ones if `shy`. */
  function Spread(b: seq<Stone>, st: int, m: seq<Owner>, x: int, v: Owner, shy: bool, k: int): (r: seq<Owner>)
    requires 0 <= k <= 4 && |m| == |b| && st >= 3 && st <= x < |b| - st
    ensures |r| == |m|
  {
    if k == 0 then m
    else
      var r := Spread(b, st, m, x, v, shy, k - 1);
      var y := Nb(st, x, k - 1);
      if b[y] == Empty && (!shy || r[y] == Unset) then r[y := v] else r
  }

  /** One point of the sweep, and whether the owners changed. A neighbour whose owner is unset
      counts for nothing. */
  function FillPoint(b: seq<Stone>, st: int, m: seq<Owner>, x: int): (r: (seq<Owner>, bool))
    requires |m| == |b| && st >= 3 && st <= x < |b| - st
    ensures |r.0| == |m|
  {
    if m[x] == Dame then (m, false)
    else
      var black, white := Next4(m, st, x, Held(Black)), Next4(m, st, x, Held(White));
      if (black && white) || Next4(m, st, x, Dame) then
        (Spread(b, st, m[x := Dame], x, Dame, false, 4), true)
      else if m[x] == Unset && (black || white) then
        var v := Held(if black then Black else White);
        (Spread(b, st, m[x := v], x, v, true, 4), true)
      else (m, false)
  }

  predicate Sweepable(b: seq<Stone>, st: int, free: seq<int>) {
    st >= 3 && forall i :: 0 <= i < |free| ==> st <= free[i] < |b| - st && b[free[i]] == Empty
  }

  /** A sweep over the first i free points. */
  function Sweep(b: seq<Stone>, st: int, m: seq<Owner>, free: seq<int>, i: nat): (r: (seq<Owner>, bool))
    requires i <= |free| && |m| == |b| && Sweepable(b, st, free)
    ensures |r.0| == |m|
  {
    if i == 0 then (m, false)
    else
      var (m1, more) := Sweep(b, st, m, free, i - 1);
      var (m2, now) := FillPoint(b, st, m1, free[i - 1]);
      (m2, more || now)
  }

  // ------------------------------------------------------------ what a sweep keeps

  /** The region of x touches a point that was given to the colour col at the start. */
  ghost predicate Reaches(b: seq<Stone>, st: int, m0: seq<Owner>, x: int, col: Stone)
    requires |m0| == |b|
  {
    exists y, z :: Reach(b, st, x, y) && Adj(st, y, z) && 0 <= z < |b| && b[z] != Empty && m0[z] == Held(col)
  }

  /** Owners of occupied points are as at the start; those of empty points are justified. */
  ghost predicate Grounded(b: seq<Stone>, st: int, m0: seq<Owner>, m: seq<Owner>) {
    && |m| == |m0| == |b|
    && (forall x :: 0 <= x < |b| && b[x] != Empty ==> m[x] == m0[x] && m[x].Held?)
    && (forall x :: 0 <= x < |b| && b[x] == Empty ==> Justified(b, st, m0, x, m[x]))
  }

  ghost predicate Justified(b: seq<Stone>, st: int, m0: seq<Owner>, x: int, o: Owner)
    requires |m0| == |b|
  {
    match o
    case Unset => true
    case Dame => Reaches(b, st, m0, x, Black) && Reaches(b, st, m0, x, White)
    case Held(c) => IsColour(c) && Reaches(b, st, m0, x, c)
  }

  /** An owned empty point has a neighbour of its owner, or one in dame. */
  ghost predicate Supported(b: seq<Stone>, st: int, m: seq<Owner>) {
    |m| == |b| && st >= 3 && forall x {:trigger Next4(m, st, x, Dame)} ::
      st <= x < |b| - st && b[x] == Empty && m[x].Held? ==> Next4(m, st, x, m[x]) || Next4(m, st, x, Dame)
  }

  /** Beside an empty point the same colours are reached; beside an occupied one its owner is. */
  lemma ReachesBeside(b: seq<Stone>, st: int, m0: seq<Owner>, m: seq<Owner>, x: int, y: int)
    requires Grounded(b, st, m0, m) && 0 <= x < |b| && 0 <= y < |b| && b[x] == Empty && Adj(st, x, y)
    ensures b[y] == Empty ==> forall c :: Reaches(b, st, m0, y, c) ==> Reaches(b, st, m0, x, c)
    ensures b[y] != Empty ==> m[y].Held? && Reaches(b, st, m0, x, m[y].c)
  {
    hide Reach;
    ReachRefl(b, st, x);
    if b[y] == Empty {
      ReachStep(b, st, x, x, y);
      forall c | Reaches(b, st, m0, y, c) ensures Reaches(b, st, m0, x, c) {
        var p, q :| Reach(b, st, y, p) && Adj(st, p, q) && 0 <= q < |b| && b[q] != Empty && m0[q] == Held(c);
        ReachTrans(b, st, x, y, p);
      }
    }
  }

  /** What a neighbour's owner says about x. */
  lemma NeighbourSays(b: seq<Stone>, st: int, m0: seq<Owner>, m: seq<Owner>, x: int, o: Owner)
    requires Grounded(b, st, m0, m) && st >= 3 && st <= x < |b| - st && b[x] == Empty && Next4(m, st, x, o)
    ensures o == Dame ==> Reaches(b, st, m0, x, Black) && Reaches(b, st, m0, x, White)
    ensures o.Held? ==> Reaches(b, st, m0, x, o.c)
  {
    hide Reaches;
    var y := if m[x - st] == o then x - st else if m[x - 1] == o then x - 1 else if m[x + 1] == o then x + 1
      else x + st;
    ReachesBeside(b, st, m0, m, x, y);
  }

  lemma {:induction false} SpreadGrounded(b: seq<Stone>, st: int, m0: seq<Owner>, m: seq<Owner>, x: int, v: Owner,
      shy: bool, k: int)
    requires Grounded(b, st, m0, m) && 0 <= k <= 4 && st >= 3 && st <= x < |b| - st && b[x] == Empty
    requires Justified(b, st, m0, x, v)
    ensures Grounded(b, st, m0, Spread(b, st, m, x, v, shy, k))
    decreases k
  {
    hide Reaches;
    if k > 0 {
      SpreadGrounded(b, st, m0, m, x, v, shy, k - 1);
      var y := Nb(st, x, k - 1);
      assert Adj(st, y, x);
      if b[y] == Empty { ReachesBeside(b, st, m0, m, y, x); }
    }
  }

  lemma PointGrounded(b: seq<Stone>, st: int, m0: seq<Owner>, m: seq<Owner>, x: int)
    requires Grounded(b, st, m0, m) && st >= 3 && st <= x < |b| - st && b[x] == Empty
    ensures Grounded(b, st, m0, FillPoint(b, st, m, x).0)
  {
    hide Reaches, Spread, Next4;
    if Next4(m, st, x, Dame) { NeighbourSays(b, st, m0, m, x, Dame); }
    if Next4(m, st, x, Held(Black)) { NeighbourSays(b, st, m0, m, x, Held(Black)); }
    if Next4(m, st, x, Held(White)) { NeighbourSays(b, st, m0, m, x, Held(White)); }
    if m[x] != Dame {
      var black, white := Next4(m, st, x, Held(Black)), Next4(m, st, x, Held(White));
      if (black && white) || Next4(m, st, x, Dame) {
        SpreadGrounded(b, st, m0, m[x := Dame], x, Dame, false, 4);
      } else if m[x] == Unset && (black || white) {
        var v := Held(if black then Black else White);
        SpreadGrounded(b, st, m0, m[x := v], x, v, true, 4);
      }
    }
  }

  /** The owners after spreading, point by point. */
  lemma {:induction false} SpreadAt(b: seq<Stone>, st: int, m: seq<Owner>, x: int, v: Owner, shy: bool, k: int, y: int)
    requires 0 <= k <= 4 && |m| == |b| && st >= 3 && st <= x < |b| - st && 0 <= y < |m|
    ensures Spread(b, st, m, x, v, shy, k)[y] ==
      if b[y] == Empty && IsNb(st, x, k, y) && (!shy || m[y] == Unset) then v else m[y]
    decreases k
  {
    if k > 0 { SpreadAt(b, st, m, x, v, shy, k - 1, y); SpreadAt(b, st, m, x, v, shy, k - 1, Nb(st, x, k - 1)); }
  }

  lemma SupportedAt(b: seq<Stone>, st: int, m: seq<Owner>, y: int)
    requires Supported(b, st, m) && st <= y < |b| - st && b[y] == Empty
    ensures |m| == |b| && st >= 3 && (m[y].Held? ==> Next4(m, st, y, m[y]) || Next4(m, st, y, Dame))
  {
    assert Next4(m, st, y, Dame) || !Next4(m, st, y, Dame);
  }

  /** What spreading does to a point: its owner, or what it becomes. */
  lemma SpreadPoint(b: seq<Stone>, st: int, m: seq<Owner>, x: int, v: Owner, y: int)
    requires |m| == |b| && st >= 3 && st <= x < |b| - st && b[x] == Empty && 0 <= y < |b|
    ensures var o := Spread(b, st, m[x := v], x, v, v != Dame, 4)[y];
      if y == x then o == v
        else o == m[y] || (o == v && IsNb(st, x, 4, y) && b[y] == Empty && (v != Dame ==> m[y] == Unset))
  {
    hide Spread;
    SpreadAt(b, st, m[x := v], x, v, v != Dame, 4, y);
  }

  /** A supporting neighbour goes on supporting, or becomes dame. */
  lemma SideKept(b: seq<Stone>, st: int, m: seq<Owner>, x: int, v: Owner, r: seq<Owner>, z: int, o: Owner)
    requires |m| == |b| && st >= 3 && st <= x < |b| - st && b[x] == Empty && m[x] != Dame && 0 <= z < |b| && o.Held?
    requires v == Dame || (m[x] == Unset && v.Held?)
    requires |r| == |b| && r == Spread(b, st, m[x := v], x, v, v != Dame, 4)
    ensures m[z] == o || m[z] == Dame ==> r[z] == o || r[z] == Dame
  {
    hide Spread, IsNb;
    SpreadPoint(b, st, m, x, v, z);
  }

  lemma NbBack(st: int, x: int, y: int, m: seq<Owner>, o: Owner)
    requires st >= 3 && st <= y < |m| - st && 0 <= x < |m| && IsNb(st, x, 4, y) && m[x] == o
    ensures Next4(m, st, y, o)
  {
  }

  lemma SidesKept(m: seq<Owner>, r: seq<Owner>, st: int, y: int, o: Owner)
    requires |r| == |m| && st >= 3 && st <= y < |m| - st
    requires m[y - st] == o || m[y - st] == Dame ==> r[y - st] == o || r[y - st] == Dame
    requires m[y - 1] == o || m[y - 1] == Dame ==> r[y - 1] == o || r[y - 1] == Dame
    requires m[y + 1] == o || m[y + 1] == Dame ==> r[y + 1] == o || r[y + 1] == Dame
    requires m[y + st] == o || m[y + st] == Dame ==> r[y + st] == o || r[y + st] == Dame
    ensures Next4(m, st, y, o) || Next4(m, st, y, Dame) ==> Next4(r, st, y, o) || Next4(r, st, y, Dame)
  {
  }

  lemma SpreadSupportedAt(b: seq<Stone>, st: int, m: seq<Owner>, x: int, v: Owner, r: seq<Owner>, y: int)
    requires Supported(b, st, m) && st <= x < |b| - st && b[x] == Empty && |m| == |b| && m[x] != Dame
    requires v == Dame || (m[x] == Unset && v.Held? && Next4(m, st, x, v))
    requires |r| == |b| && r == Spread(b, st, m[x := v], x, v, v != Dame, 4) && st <= y < |b| - st && b[y] == Empty
    ensures r[y].Held? ==> Next4(r, st, y, r[y]) || Next4(r, st, y, Dame)
  {
    hide Spread, Supported, IsNb, Next4;
    SupportedAt(b, st, m, y);
    SpreadPoint(b, st, m, x, v, y);
    SpreadPoint(b, st, m, x, v, x);
    if r[y].Held? {
      if y != x && r[y] != m[y] {
        NbBack(st, x, y, r, v);
      } else {
        SideKept(b, st, m, x, v, r, y - st, r[y]);
        SideKept(b, st, m, x, v, r, y - 1, r[y]);
        SideKept(b, st, m, x, v, r, y + 1, r[y]);
        SideKept(b, st, m, x, v, r, y + st, r[y]);
        SidesKept(m, r, st, y, r[y]);
      }
    }
  }

  lemma SpreadSupported(b: seq<Stone>, st: int, m: seq<Owner>, x: int, v: Owner)
    requires Supported(b, st, m) && st <= x < |b| - st && b[x] == Empty && m[x] != Dame
    requires v == Dame || (m[x] == Unset && v.Held? && Next4(m, st, x, v))
    ensures Supported(b, st, Spread(b, st, m[x := v], x, v, v != Dame, 4))
  {
    hide Spread;
    var r := Spread(b, st, m[x := v], x, v, v != Dame, 4);
    forall y | st <= y < |b| - st && b[y] == Empty
      ensures r[y].Held? ==> Next4(r, st, y, r[y]) || Next4(r, st, y, Dame) {
      SpreadSupportedAt(b, st, m, x, v, r, y);
    }
  }

  lemma PointSupported(b: seq<Stone>, st: int, m: seq<Owner>, x: int)
    requires Supported(b, st, m) && st <= x < |b| - st && b[x] == Empty
    ensures Supported(b, st, FillPoint(b, st, m, x).0)
  {
    hide Spread, Supported, Next4;
    SupportedStride(b, st, m);
    var black, white := Next4(m, st, x, Held(Black)), Next4(m, st, x, Held(White));
    if m[x] != Dame {
      if (black && white) || Next4(m, st, x, Dame) { SpreadSupported(b, st, m, x, Dame); }
      else if m[x] == Unset && (black || white) { SpreadSupported(b, st, m, x, Held(if black then Black else White)); }
    }
  }

  lemma SupportedStride(b: seq<Stone>, st: int, m: seq<Owner>)
    requires Supported(b, st, m)
    ensures st >= 3 && |m| == |b|
  {
  }

  // ------------------------------------------------------------ the sweeps end

  function Weight(o: Owner): nat { match o case Unset => 2 case Held(_) => 1 case Dame => 0 }

  function Load(m: seq<Owner>): nat { if |m| == 0 then 0 else Load(m[..|m| - 1]) + Weight(m[|m| - 1]) }

  lemma {:induction false} LoadUpdate(m: seq<Owner>, x: int, v: Owner)
    requires 0 <= x < |m|
    ensures Load(m[x := v]) == Load(m) - Weight(m[x]) + Weight(v)
    decreases |m|
  {
    var n := |m| - 1;
    if x == n { assert m[x := v][..n] == m[..n]; }
    else {
      LoadUpdate(m[..n], x, v);
      assert m[x := v][..n] == m[..n][x := v];
    }
  }

  lemma {:induction false} SpreadLoad(b: seq<Stone>, st: int, m: seq<Owner>, x: int, v: Owner, shy: bool, k: int)
    requires 0 <= k <= 4 && |m| == |b| && st >= 3 && st <= x < |b| - st && (v == Dame || (shy && v.Held?))
    ensures Load(Spread(b, st, m, x, v, shy, k)) <= Load(m)
    decreases k
  {
    hide Load;
    if k > 0 {
      SpreadLoad(b, st, m, x, v, shy, k - 1);
      LoadUpdate(Spread(b, st, m, x, v, shy, k - 1), Nb(st, x, k - 1), v);
    }
  }

  lemma PointLoad(b: seq<Stone>, st: int, m: seq<Owner>, x: int)
    requires |m| == |b| && st >= 3 && st <= x < |b| - st
    ensures var (r, now) := FillPoint(b, st, m, x); if now then Load(r) < Load(m) else r == m
  {
    hide Load, Spread;
    var black, white := Next4(m, st, x, Held(Black)), Next4(m, st, x, Held(White));
    var v := Held(if black then Black else White);
    LoadUpdate(m, x, Dame);
    LoadUpdate(m, x, v);
    SpreadLoad(b, st, m[x := Dame], x, Dame, false, 4);
    SpreadLoad(b, st, m[x := v], x, v, true, 4);
  }

  /** A sweep that reports a change has lowered the load, one that does not has changed nothing. */
  lemma {:induction false} SweepLoad(b: seq<Stone>, st: int, m: seq<Owner>, free: seq<int>, i: nat)
    requires i <= |free| && |m| == |b| && Sweepable(b, st, free)
    ensures var (r, more) := Sweep(b, st, m, free, i); if more then Load(r) < Load(m) else r == m
    decreases i
  {
    hide Load, FillPoint;
    if i > 0 {
      SweepLoad(b, st, m, free, i - 1);
      PointLoad(b, st, Sweep(b, st, m, free, i - 1).0, free[i - 1]);
    }
  }

  lemma {:induction false} SweepKeeps(b: seq<Stone>, st: int, m0: seq<Owner>, m: seq<Owner>, free: seq<int>, i: nat)
    requires i <= |free| && Sweepable(b, st, free) && Grounded(b, st, m0, m) && Supported(b, st, m)
    ensures var r := Sweep(b, st, m, free, i).0; Grounded(b, st, m0, r) && Supported(b, st, r)
    decreases i
  {
    hide Grounded, Supported, FillPoint;
    if i > 0 {
      assert |m| == |b| by { SupportedStride(b, st, m); }
      SweepKeeps(b, st, m0, m, free, i - 1);
      var r := Sweep(b, st, m, free, i - 1).0;
      PointGrounded(b, st, m0, r, free[i - 1]);
      PointSupported(b, st, r, free[i - 1]);
    }
  }

  // ------------------------------------------------------------ the fixpoint

  /** No free point would change. */
  ghost predicate Settled(b: seq<Stone>, st: int, m: seq<Owner>) {
    |m| == |b| && st >= 3 && forall x {:trigger FillPoint(b, st, m, x)} :: st <= x < |b| - st && b[x] == Empty ==>
      !FillPoint(b, st, m, x).1
  }

  lemma {:induction false} QuietSweep(b: seq<Stone>, st: int, m: seq<Owner>, free: seq<int>, i: nat)
    requires i <= |free| && |m| == |b| && Sweepable(b, st, free) && !Sweep(b, st, m, free, i).1
    ensures Sweep(b, st, m, free, i).0 == m && forall j :: 0 <= j < i ==> !FillPoint(b, st, m, free[j]).1
    decreases i
  {
    hide FillPoint;
    if i > 0 {
      QuietSweep(b, st, m, free, i - 1);
      PointLoad(b, st, m, free[i - 1]);
    }
  }

  lemma SweepSettles(b: seq<Stone>, st: int, m: seq<Owner>, free: seq<int>)
    requires |m| == |b| && Sweepable(b, st, free) && !Sweep(b, st, m, free, |free|).1
    requires forall x :: 0 <= x < |b| && b[x] == Empty ==> x in free
    ensures Settled(b, st, m)
  {
    hide FillPoint;
    QuietSweep(b, st, m, free, |free|);
  }

  /** Two empty points side by side have the same owner once nothing changes. */
  lemma SideBySide(b: seq<Stone>, st: int, m: seq<Owner>, x: int, y: int)
    requires Settled(b, st, m) && Supported(b, st, m) && Framed(b, st) && 0 <= x < |b| && 0 <= y < |b|
    requires Adj(st, x, y) && b[x] == Empty == b[y]
    requires forall p :: 0 <= p < |b| && b[p] == Empty && m[p].Held? ==> IsColour(m[p].c)
    ensures m[x] == m[y]
  {
    hide Spread;
    assert !FillPoint(b, st, m, x).1 && !FillPoint(b, st, m, y).1;
    assert Adj(st, y, x) && Next4(m, st, x, m[y]) && Next4(m, st, y, m[x]);
  }

  /** All points of an empty region have the same owner. */
  lemma RegionAlike(b: seq<Stone>, st: int, m0: seq<Owner>, m: seq<Owner>, x: int, y: int)
    requires Settled(b, st, m) && Supported(b, st, m) && Framed(b, st) && Grounded(b, st, m0, m)
    requires 0 <= x < |b| && b[x] == Empty && Reach(b, st, x, y)
    ensures 0 <= y < |b| && b[y] == Empty && m[y] == m[x]
  {
    hide Reach, Settled, Supported, Framed;
    ReachRange(b, st, x, y);
    assert |m| == |b|;
    var t := set p | 0 <= p < |b| && b[p] == Empty && m[p] == m[x];
    forall p, q | p in t && Adj(st, p, q) && 0 <= q < |b| && b[q] == b[p] ensures q in t { SideBySide(b, st, m, p, q); }
    ReachClosed(b, st, t, x, y);
  }

  /** Once nothing changes, a colour that is reached shows in the owner. */
  lemma ReachedShows(b: seq<Stone>, st: int, m0: seq<Owner>, m: seq<Owner>, x: int, col: Stone)
    requires Settled(b, st, m) && Supported(b, st, m) && Framed(b, st) && Grounded(b, st, m0, m)
    requires 0 <= x < |b| && b[x] == Empty && IsColour(col) && Reaches(b, st, m0, x, col)
    ensures m[x] == Dame || m[x] == Held(col)
  {
    hide Reach, Spread;
    var y, z :| Reach(b, st, x, y) && Adj(st, y, z) && 0 <= z < |b| && b[z] != Empty && m0[z] == Held(col);
    RegionAlike(b, st, m0, m, x, y);
    assert Next4(m, st, y, Held(col));
    assert !FillPoint(b, st, m, y).1;
  }

  /** The fixpoint: an empty point is owned by a colour if and only if its region reaches that
      colour alone, dame if and only if it reaches both, unset if and only if it reaches none. */
  lemma FixpointIsReach(b: seq<Stone>, st: int, m0: seq<Owner>, m: seq<Owner>, x: int)
    requires Settled(b, st, m) && Supported(b, st, m) && Framed(b, st) && Grounded(b, st, m0, m)
    requires 0 <= x < |b| && b[x] == Empty
    ensures m[x] == Dame <==> Reaches(b, st, m0, x, Black) && Reaches(b, st, m0, x, White)
    ensures m[x] == Held(Black) <==> Reaches(b, st, m0, x, Black) && !Reaches(b, st, m0, x, White)
    ensures m[x] == Held(White) <==> Reaches(b, st, m0, x, White) && !Reaches(b, st, m0, x, Black)
    ensures m[x] == Unset <==> !Reaches(b, st, m0, x, Black) && !Reaches(b, st, m0, x, White)
  {
    hide Reaches, Settled, Supported, Framed;
    assert Justified(b, st, m0, x, m[x]);
    if Reaches(b, st, m0, x, Black) { ReachedShows(b, st, m0, m, x, Black); }
    if Reaches(b, st, m0, x, White) { ReachedShows(b, st, m0, m, x, White); }
  }

  // ------------------------------------------------------------ a board with stones leaves nothing unset

  /** A square board of the stride st with a one-point margin. */
  ghost predicate Square(b: seq<Stone>, st: int) {
    st >= 3 && |b| == st * st
    && forall x, y :: 0 <= x < st && 0 <= y < st ==>
      0 <= At(st, x, y) < |b| && (b[At(st, x, y)] == Off <==> Edge(st, x, y))
  }

  function At(st: int, x: int, y: int): int { y * st + x }

  predicate Edge(st: int, x: int, y: int) { x == 0 || x == st - 1 || y == 0 || y == st - 1 }

  /** A set of points closed under stepping to a playable neighbour. */
  ghost predicate Spreads(b: seq<Stone>, st: int, t: set<int>) {
    forall p, q {:trigger Adj(st, p, q)} :: p in t && Adj(st, p, q) && 0 <= q < |b| && b[q] != Off ==> q in t
  }

  lemma {:induction false} AlongRow(b: seq<Stone>, st: int, t: set<int>, x: int, x': int, y: int)
    requires Square(b, st) && Spreads(b, st, t) && 0 < x < st - 1 && 0 < x' < st - 1 && 0 < y < st - 1
    requires At(st, x, y) in t
    ensures At(st, x', y) in t
    decreases if x < x' then x' - x else x - x'
  {
    if x != x' {
      var n := if x < x' then x + 1 else x - 1;
      assert Adj(st, At(st, x, y), At(st, n, y));
      AlongRow(b, st, t, n, x', y);
    }
  }

  lemma {:induction false} AlongColumn(b: seq<Stone>, st: int, t: set<int>, x: int, y: int, y': int)
    requires Square(b, st) && Spreads(b, st, t) && 0 < x < st - 1 && 0 < y < st - 1 && 0 < y' < st - 1
    requires At(st, x, y) in t
    ensures At(st, x, y') in t
    decreases if y < y' then y' - y else y - y'
  {
    if y != y' {
      var n := if y < y' then y + 1 else y - 1;
      assert At(st, x, n) == At(st, x, y) + (if y < y' then st else -st);
      assert Adj(st, At(st, x, y), At(st, x, n));
      AlongColumn(b, st, t, x, n, y');
    }
  }

  lemma Coordinates(b: seq<Stone>, st: int, p: int) returns (x: int, y: int)
    requires Square(b, st) && 0 <= p < |b| && b[p] != Off
    ensures 0 < x < st - 1 && 0 < y < st - 1 && p == At(st, x, y)
  {
    x, y := p % st, p / st;
    assert y >= st ==> y * st >= st * st;
    assert p == At(st, x, y);
  }

  /** The playable points of a square board hang together. */
  lemma SquareConnected(b: seq<Stone>, st: int, t: set<int>, p: int, q: int)
    requires Square(b, st) && Spreads(b, st, t) && 0 <= p < |b| && b[p] != Off && 0 <= q < |b| && b[q] != Off && p in t
    ensures q in t
  {
    hide Square;
    var x, y := Coordinates(b, st, p);
    var x', y' := Coordinates(b, st, q);
    AlongRow(b, st, t, x, x', y);
    AlongColumn(b, st, t, x', y, y');
  }

  /** On a square board with a stone somewhere, every empty point reaches a colour. */
  lemma NothingUnset(b: seq<Stone>, st: int, m0: seq<Owner>, p: int, q: int)
    requires Square(b, st) && |m0| == |b| && 0 <= p < |b| && b[p] == Empty && 0 <= q < |b| && IsColour(b[q])
    requires forall x :: 0 <= x < |b| && IsColour(b[x]) ==> m0[x].Held? && IsColour(m0[x].c)
    ensures Reaches(b, st, m0, p, Black) || Reaches(b, st, m0, p, White)
  {
    hide Reach, Square;
    if !Reaches(b, st, m0, p, Black) && !Reaches(b, st, m0, p, White) {
      var t := Component(b, st, p);
      forall u, w | u in t && Adj(st, u, w) && 0 <= w < |b| && b[w] != Off ensures w in t {
        if b[w] == Empty { ReachRange(b, st, p, u); ReachStep(b, st, p, u, w); }
      }
      ReachRefl(b, st, p);
      SquareConnected(b, st, t, p, q);
      ReachRange(b, st, p, q);
    }
  }

  // ------------------------------------------------------------ the sweeps in place

  /** How many of the first k neighbours of x have the owner o. */
  function CountNext(m: seq<Owner>, st: int, x: int, o: Owner, k: int): nat
    requires 0 <= k <= 4 && st >= 3 && st <= x < |m| - st
  {
    if k == 0 then 0 else CountNext(m, st, x, o, k - 1) + (if m[Nb(st, x, k - 1)] == o then 1 else 0)
  }

  lemma CountNextIff(m: seq<Owner>, st: int, x: int, o: Owner)
    requires st >= 3 && st <= x < |m| - st
    ensures CountNext(m, st, x, o, 4) > 0 <==> Next4(m, st, x, o)
  {
    assert CountNext(m, st, x, o, 1) == if m[x - st] == o then 1 else 0;
    assert CountNext(m, st, x, o, 2) == CountNext(m, st, x, o, 1) + if m[x - 1] == o then 1 else 0;
    assert CountNext(m, st, x, o, 3) == CountNext(m, st, x, o, 2) + if m[x + 1] == o then 1 else 0;
  }

  method SpreadInPlace(b: seq<Stone>, st: int, ownermap: array<Owner>, x: int, v: Owner, shy: bool)
    requires ownermap.Length == |b| && st >= 3 && st <= x < |b| - st
    modifies ownermap
    ensures ownermap[..] == Spread(b, st, old(ownermap[..]), x, v, shy, 4)
  {
    var k := 0;
    while k < 4
      invariant 0 <= k <= 4 && ownermap[..] == Spread(b, st, old(ownermap[..]), x, v, shy, k)
    {
      var y := Nb(st, x, k);
      assert ownermap[..][y] == ownermap[y];
      if b[y] == Empty && (!shy || ownermap[y] == Unset) { ownermap[y] := v; }
      k := k + 1;
    }
  }

  method FillPointInPlace(b: seq<Stone>, st: int, ownermap: array<Owner>, x: int) returns (now: bool)
    requires ownermap.Length == |b| && st >= 3 && st <= x < |b| - st
    modifies ownermap
    ensures (ownermap[..], now) == FillPoint(b, st, old(ownermap[..]), x)
  {
    ghost var m := ownermap[..];
    assert m[x] == ownermap[x];
    now := false;
    if ownermap[x] == Dame { return; }
    var black, white, dame, k := 0, 0, 0, 0;
    while k < 4
      invariant 0 <= k <= 4 && ownermap[..] == m
      invariant black == CountNext(m, st, x, Held(Black), k)
      invariant white == CountNext(m, st, x, Held(White), k)
      invariant dame == CountNext(m, st, x, Dame, k)
    {
      var o := ownermap[Nb(st, x, k)];
      assert o == m[Nb(st, x, k)];
      if o == Held(Black) { black := black + 1; }
      else if o == Held(White) { white := white + 1; }
      else if o == Dame { dame := dame + 1; }
      k := k + 1;
    }
    CountNextIff(m, st, x, Held(Black));
    CountNextIff(m, st, x, Held(White));
    CountNextIff(m, st, x, Dame);
    if (black > 0 && white > 0) || dame > 0 {
      ownermap[x] := Dame;
      assert ownermap[..] == m[x := Dame];
      SpreadInPlace(b, st, ownermap, x, Dame, false);
      now := true;
    } else if ownermap[x] == Unset && (black > 0 || white > 0) {
      var v := Held(if black > 0 then Black else White);
      ownermap[x] := v;
      assert ownermap[..] == m[x := v];
      SpreadInPlace(b, st, ownermap, x, v, true);
      now := true;
    }
  }

  /** One sweep; under stones-only rules it just makes every free point dame. */
  method TrompTaylorSweep(b: seq<Stone>, st: int, free: seq<int>, rules: Ruleset,
      ownermap: array<Owner>) returns (more: bool)
    requires ownermap.Length == |b| && Sweepable(b, st, free)
    modifies ownermap
    ensures rules != StonesOnly ==> (ownermap[..], more) == Sweep(b, st, old(ownermap[..]), free, |free|)
    ensures rules == StonesOnly ==> !more && forall x :: 0 <= x < |b| ==>
      ownermap[x] == if x in free then Dame else old(ownermap[x])
  {
    more := false;
    var f := 0;
    while f < |free|
      invariant 0 <= f <= |free|
      invariant rules != StonesOnly ==> (ownermap[..], more) == Sweep(b, st, old(ownermap[..]), free, f)
      invariant rules == StonesOnly ==> !more && forall x :: 0 <= x < |b| ==>
        ownermap[x] == if x in free[..f] then Dame else old(ownermap[x])
    {
      var c := free[f];
      if rules == StonesOnly { ownermap[c] := Dame; }
      ghost var m := ownermap[..];
      assert m[c] == ownermap[c];
      var now := FillPointInPlace(b, st, ownermap, c);
      if rules == StonesOnly {
        forall x | 0 <= x < |b| ensures ownermap[x] == m[x] { assert ownermap[..][x] == ownermap[x]; }
      }
      if now { more := true; }
      assert free[..f + 1] == free[..f] + [c];
      f := f + 1;
    }
    assert free[..|free|] == free;
  }

  /** Sweeping until nothing changes. The owners found are grounded and settled; under
      stones-only rules every empty point is dame. */
  method FloodFill(b: seq<Stone>, st: int, free: seq<int>, rules: Ruleset, ownermap: array<Owner>)
    requires ownermap.Length == |b| && Sweepable(b, st, free)
    requires (forall x :: 0 <= x < |b| && b[x] == Empty ==> x in free)
    requires Grounded(b, st, ownermap[..], ownermap[..]) && Supported(b, st, ownermap[..])
    modifies ownermap
    ensures rules != StonesOnly ==>
      Grounded(b, st, old(ownermap[..]), ownermap[..]) && Supported(b, st, ownermap[..]) && Settled(b, st, ownermap[..])
    ensures rules == StonesOnly ==> forall x :: 0 <= x < |b| ==> ownermap[x] == if b[x] == Empty then Dame
      else old(ownermap[x])
  {
    ghost var m0 := ownermap[..];
    var more := true;
    while more
      invariant rules != StonesOnly ==> Grounded(b, st, m0, ownermap[..]) && Supported(b, st, ownermap[..])
      invariant rules != StonesOnly && !more ==> Settled(b, st, ownermap[..])
      invariant rules == StonesOnly ==> forall x :: 0 <= x < |b| ==>
        ownermap[x] == if !more && b[x] == Empty then Dame else m0[x]
      decreases Load(ownermap[..]) + if more then 1 else 0
    {
      ghost var m := ownermap[..];
      if rules != StonesOnly {
        SweepLoad(b, st, m, free, |free|);
        SweepKeeps(b, st, m0, m, free, |free|);
        if !Sweep(b, st, m, free, |free|).1 { SweepSettles(b, st, m, free); }
      } else {
        assert m == m0;
        FewerLoad(b, m0);
      }
      more := TrompTaylorSweep(b, st, free, rules, ownermap);
      if rules == StonesOnly { FewerLoadIs(b, m0, ownermap[..]); }
    }
  }

  /** Making the empty points dame does not raise the load. */
  function Dames(b: seq<Stone>, m: seq<Owner>): seq<Owner>
    requires |b| == |m|
  {
    seq(|m|, x requires 0 <= x < |m| => if b[x] == Empty then Dame else m[x])
  }

  lemma {:induction false} FewerLoad(b: seq<Stone>, m: seq<Owner>)
    requires |b| == |m|
    ensures Load(Dames(b, m)) <= Load(m)
    decreases |m|
  {
    if |m| > 0 {
      var n := |m| - 1;
      FewerLoad(b[..n], m[..n]);
      assert Dames(b, m)[..n] == Dames(b[..n], m[..n]);
    }
  }

  lemma FewerLoadIs(b: seq<Stone>, m: seq<Owner>, r: seq<Owner>)
    requires |b| == |m| == |r| && forall x :: 0 <= x < |b| ==> r[x] == if b[x] == Empty then Dame else m[x]
    ensures r == Dames(b, m)
  {
  }

  // ------------------------------------------------------------ the official score

  /** The owner of a point before the fill: stones own their point, but for chains given as dead,
      whose points go to the other colour. */
  function StartOwner(s: State, dead: seq<int>, x: int): Owner
    requires |s.b| == |s.g| && 0 <= x < |s.b|
  {
    if s.b[x] == Empty then Unset
    else Held(if IsColour(s.b[x]) && s.g[x] in dead then Other(s.b[x]) else s.b[x])
  }

  ghost predicate StartsAs(s: State, dead: seq<int>, m: seq<Owner>) {
    |m| == |s.b| == |s.g| && forall x :: 0 <= x < |m| ==> m[x] == StartOwner(s, dead, x)
  }

  /** A point that counts for the colour col. */
  ghost predicate Counts1(s: State, m0: seq<Owner>, x: int, col: Stone)
    requires |m0| == |s.b| && 0 <= x < |s.b|
  {
    if s.b[x] == Empty then Reaches(s.b, s.st, m0, x, col) && !Reaches(s.b, s.st, m0, x, Other(col))
      else m0[x] == Held(col)
  }

  ghost function Area(s: State, m0: seq<Owner>, col: Stone): set<int>
    requires |m0| == |s.b|
  {
    set x | 0 <= x < |s.b| && Counts1(s, m0, x, col)
  }

  /** How many of the first k points have the owner o. */
  function Tallied(m: seq<Owner>, o: Owner, k: nat): nat
    requires k <= |m|
  {
    if k == 0 then 0 else Tallied(m, o, k - 1) + (if m[k - 1] == o then 1 else 0)
  }

  lemma {:induction false} TalliedIsSize(m: seq<Owner>, o: Owner, k: nat)
    requires k <= |m|
    ensures Tallied(m, o, k) == |set x | 0 <= x < k && m[x] == o|
  {
    if k > 0 {
      TalliedIsSize(m, o, k - 1);
      var t, r := set x | 0 <= x < k - 1 && m[x] == o, set x | 0 <= x < k && m[x] == o;
      if m[k - 1] == o { assert r == t + {k - 1}; } else { assert r == t; }
    }
  }

  lemma AreaTallied(s: State, m0: seq<Owner>, m: seq<Owner>, col: Stone)
    requires Settled(s.b, s.st, m) && Supported(s.b, s.st, m) && Framed(s.b, s.st) && Grounded(s.b, s.st, m0, m)
    requires IsColour(col)
    ensures Tallied(m, Held(col), |m|) == |Area(s, m0, col)|
  {
    hide Reaches, Settled, Supported, Framed;
    TalliedIsSize(m, Held(col), |m|);
    forall x | 0 <= x < |s.b| ensures m[x] == Held(col) <==> Counts1(s, m0, x, col) {
      if s.b[x] == Empty { FixpointIsReach(s.b, s.st, m0, m, x); }
    }
    assert (set x | 0 <= x < |m| && m[x] == Held(col)) == Area(s, m0, col);
  }

  /** Dead chains are named by the coordinate of their first stone. */
  ghost predicate Names(s: State, dead: seq<int>) {
    |s.g| == |s.b| && forall i :: 0 <= i < |dead| ==>
      0 <= dead[i] < |s.b| && IsColour(s.b[dead[i]]) && s.g[dead[i]] == dead[i]
  }

  /** On the grid: a stone counts for the other colour exactly if it is connected to one named dead. */
  lemma StartOwnerExact(s: State, dead: seq<int>, x: int)
    requires Sound(s) && Names(s, dead) && 0 <= x < |s.b| && IsColour(s.b[x])
    ensures StartOwner(s, dead, x) ==
      Held(if exists i :: 0 <= i < |dead| && Reach(s.b, s.st, dead[i], x) then Other(s.b[x]) else s.b[x])
  {
    hide Sound, Reach;
    forall i | 0 <= i < |dead| ensures Reach(s.b, s.st, dead[i], x) <==> s.g[x] == dead[i] {
      ChainIsComponent(s, dead[i]);
      assert x in Component(s.b, s.st, dead[i]) <==> s.g[x] == s.g[dead[i]];
    }
    if s.g[x] in dead {
      var i :| 0 <= i < |dead| && dead[i] == s.g[x];
      assert Reach(s.b, s.st, dead[i], x);
    }
  }

  /** The links of a chain, as a walk along them finds it. */
  ghost predicate WalkOf(s: State, h: int, l: seq<int>) {
    && |s.p| == |s.b| == |s.g| && |l| > 0 && l[0] == h
    && Links(s.p, l) && (forall a :: 0 <= a < |l| ==> 0 < l[a] < |s.b| && s.g[l[a]] == h)
    && (forall x :: 0 <= x < |s.b| && s.g[x] == h ==> x in l && s.b[x] == s.b[h])
  }

  lemma DeadWalk(s: State, h: int)
    requires Sound(s) && 0 <= h < |s.b| && |s.g| == |s.b| && IsColour(s.b[h]) && s.g[h] == h
    ensures WalkOf(s, h, ChainOf(s, h))
  {
    hide Sound, W, Lively, Reach, ChainOf;
    var ch := ChainSound(s, h);
    SoundSized(s);
    var l := ch[h];
    forall a | 0 <= a < |l| ensures 0 < l[a] < |s.b| { assert Pt(K(s), l[a]); }
    forall x | 0 <= x < |s.b| && s.g[x] == h ensures x in l && s.b[x] == s.b[h] {
      QuietParts(K(s), ch);
      ListIds(K(s), ch, h, x);
      SameHueAs(s, h, x);
    }
  }

  lemma QuietParts(c: Core, ch: Chains)
    requires Quiet(c, ch)
    ensures W(c, ch, QUIET)
  {
    hide Lively, W;
  }

  /** Handing the points of a dead chain to the other colour, stone by stone along the links. */
  method GiveAway(s: State, h: int, ghost l: seq<int>, ownermap: array<Owner>)
    requires WalkOf(s, h, l) && ownermap.Length == |s.b|
    modifies ownermap
    ensures forall x :: 0 <= x < |s.b| ==> ownermap[x] == if s.g[x] == h then Held(Other(s.b[x])) else old(ownermap[x])
  {
    hide Links;
    ghost var k := 0;
    var c := h;
    while c != 0
      invariant 0 <= k <= |l| && c == (if k < |l| then l[k] else 0)
      invariant forall a :: 0 <= a < k ==> ownermap[l[a]] == Held(Other(s.b[l[a]]))
      invariant forall x :: 0 <= x < |s.b| && s.g[x] != h ==> ownermap[x] == old(ownermap[x])
      decreases |l| - k
    {
      LinkAt(s.p, l, k);
      ownermap[c] := Held(Other(s.b[c]));
      c := s.p[c];
      k := k + 1;
    }
  }

  lemma LinkAt(p: seq<int>, l: seq<int>, k: int)
    requires Links(p, l) && 0 <= k < |l|
    ensures 0 <= l[k] < |p| && p[l[k]] == if k + 1 < |l| then l[k + 1] else 0
  {
  }

  lemma StartsMore(s: State, dead: seq<int>, i: nat, m: seq<Owner>, m': seq<Owner>, l: seq<int>)
    requires i < |dead| && Names(s, dead) && StartsAs(s, dead[..i], m) && |m'| == |m| && WalkOf(s, dead[i], l)
    requires forall x :: 0 <= x < |m| ==> m'[x] == if s.g[x] == dead[i] then Held(Other(s.b[x])) else m[x]
    ensures StartsAs(s, dead[..i + 1], m')
  {
    assert dead[..i + 1] == dead[..i] + [dead[i]];
  }

  lemma SameHueAs(s: State, h: int, x: int)
    requires Sound(s) && 0 <= h < |s.b| && 0 <= x < |s.b| == |s.g| && IsColour(s.b[h]) && s.g[h] == h && s.g[x] == h
    ensures s.b[x] == s.b[h]
  {
    hide Sound, Reach;
    ChainIsComponent(s, h);
    assert x in Component(s.b, s.st, h);
    ReachRange(s.b, s.st, h, x);
  }

  lemma StartGrounded(s: State, dead: seq<int>, m: seq<Owner>)
    requires StartsAs(s, dead, m) && s.st >= 3
    ensures Grounded(s.b, s.st, m, m) && Supported(s.b, s.st, m)
  {
  }

  lemma FreeSweepable(s: State)
    requires Sound(s) && s.full
    ensures Sized(s) && Framed(s.b, s.st) && Sweepable(s.b, s.st, s.free)
    ensures forall x :: 0 <= x < |s.b| && s.b[x] == Empty ==> x in s.free
  {
    hide Sound, XorAll, Framed, Distinct;
    IndexesExact(s);
    SoundStanding(s);
    forall i | 0 <= i < |s.free| ensures s.st <= s.free[i] < |s.b| - s.st && s.b[s.free[i]] == Empty {
      assert s.free[i] in s.free;
      FramedAt(s.b, s.st, s.free[i]);
    }
  }

  ghost predicate HasStone(b: seq<Stone>) { exists x :: 0 <= x < |b| && IsColour(b[x]) }

  /** The final owner of an empty point, read off the grid: the colour its region reaches if it is
      just one, dame if both. */
  ghost predicate OwnerRight(s: State, m0: seq<Owner>, x: int, o: Owner)
    requires |m0| == |s.b| && 0 <= x < |s.b|
  {
    && (o == Dame <==> Reaches(s.b, s.st, m0, x, Black) && Reaches(s.b, s.st, m0, x, White))
    && (o == Held(Black) <==> Reaches(s.b, s.st, m0, x, Black) && !Reaches(s.b, s.st, m0, x, White))
    && (o == Held(White) <==> Reaches(s.b, s.st, m0, x, White) && !Reaches(s.b, s.st, m0, x, Black))
    && (o == Unset <==> !Reaches(s.b, s.st, m0, x, Black) && !Reaches(s.b, s.st, m0, x, White))
  }

  /** The official score, chains named in `dead` counted for the other colour. On a board without
      stones nothing is counted. Under stones-only rules all empty points are dame. Otherwise each
      colour scores its area: the points it owns at the start and the empty points that reach it
      alone. On a square board no point is left unset. */
  method OfficialScore(s: State, dead: seq<int>, ownermap: array<Owner>)
    returns (blank: bool, black: nat, white: nat, dame: nat, ghost m0: seq<Owner>)
    requires Sound(s) && s.full && ownermap.Length == |s.b| && Names(s, dead)
    modifies ownermap
    ensures blank <==> !HasStone(s.b)
    ensures StartsAs(s, dead, m0)
    ensures !blank ==> black == Tallied(ownermap[..], Held(Black), |s.b|)
    ensures !blank ==> white == Tallied(ownermap[..], Held(White), |s.b|)
    ensures !blank ==> dame == Tallied(ownermap[..], Dame, |s.b|)
    ensures !blank && s.rules == StonesOnly ==> forall x :: 0 <= x < |s.b| ==>
      ownermap[x] == if s.b[x] == Empty then Dame else m0[x]
    ensures !blank && s.rules != StonesOnly ==>
      forall x :: 0 <= x < |s.b| ==> if s.b[x] == Empty then OwnerRight(s, m0, x, ownermap[x]) else ownermap[x] == m0[x]
    ensures !blank && s.rules != StonesOnly ==> black == |Area(s, m0, Black)| && white == |Area(s, m0, White)|
    ensures !blank && Square(s.b, s.st) ==> forall x :: 0 <= x < |s.b| ==> ownermap[x] != Unset
  {
    hide Sound, OwnerRight, Area;
    SoundSized(s);
    blank, black, white, dame := true, 0, 0, 0;
    var x := 0;
    while x < |s.b|
      invariant 0 <= x <= |s.b|
      invariant forall y :: 0 <= y < x ==> ownermap[y] == StartOwner(s, [], y)
      invariant blank <==> forall y :: 0 <= y < x ==> !IsColour(s.b[y])
    {
      ownermap[x] := if s.b[x] == Empty then Unset else Held(s.b[x]);
      if IsColour(s.b[x]) { blank := false; }
      x := x + 1;
    }
    var i := 0;
    assert dead[..0] == [];
    while i < |dead|
      invariant 0 <= i <= |dead| && StartsAs(s, dead[..i], ownermap[..])
    {
      ghost var m := ownermap[..];
      DeadWalk(s, dead[i]);
      GiveAway(s, dead[i], ChainOf(s, dead[i]), ownermap);
      StartsMore(s, dead, i, m, ownermap[..], ChainOf(s, dead[i]));
      i := i + 1;
    }
    assert dead[..i] == dead;
    m0 := ownermap[..];
    if blank { return; }
    StartGrounded(s, dead, m0);
    FreeSweepable(s);
    FloodFill(s.b, s.st, s.free, s.rules, ownermap);
    ghost var m := ownermap[..];
    assert forall x :: 0 <= x < |s.b| ==> m[x] == ownermap[x];
    if s.rules != StonesOnly { ScoresRight(s, dead, m0, m); }
    black, white, dame := CountOwners(ownermap);
  }

  method CountOwners(ownermap: array<Owner>) returns (black: nat, white: nat, dame: nat)
    ensures black == Tallied(ownermap[..], Held(Black), ownermap.Length)
    ensures white == Tallied(ownermap[..], Held(White), ownermap.Length)
    ensures dame == Tallied(ownermap[..], Dame, ownermap.Length)
  {
    black, white, dame := 0, 0, 0;
    var x := 0;
    while x < ownermap.Length
      invariant 0 <= x <= ownermap.Length
      invariant black == Tallied(ownermap[..], Held(Black), x)
      invariant white == Tallied(ownermap[..], Held(White), x)
      invariant dame == Tallied(ownermap[..], Dame, x)
    {
      if ownermap[x] == Held(Black) { black := black + 1; }
      if ownermap[x] == Held(White) { white := white + 1; }
      if ownermap[x] == Dame { dame := dame + 1; }
      x := x + 1;
    }
  }

  lemma ScoresRight(s: State, dead: seq<int>, m0: seq<Owner>, m: seq<Owner>)
    requires StartsAs(s, dead, m0) && Framed(s.b, s.st)
    requires Grounded(s.b, s.st, m0, m) && Supported(s.b, s.st, m) && Settled(s.b, s.st, m)
    ensures |m| == |s.b| == |m0|
    ensures forall x :: 0 <= x < |s.b| ==> if s.b[x] == Empty then OwnerRight(s, m0, x, m[x]) else m[x] == m0[x]
    ensures Tallied(m, Held(Black), |m|) == |Area(s, m0, Black)| && Tallied(m, Held(White), |m|) == |Area(s, m0, White)|
    ensures HasStone(s.b) && Square(s.b, s.st) ==> forall x :: 0 <= x < |s.b| ==> m[x] != Unset
  {
    hide Reaches, Settled, Supported, Framed, Square, Area, Tallied;
    forall x | 0 <= x < |s.b| && s.b[x] == Empty ensures OwnerRight(s, m0, x, m[x]) {
      FixpointIsReach(s.b, s.st, m0, m, x);
    }
    AreaTallied(s, m0, m, Black);
    AreaTallied(s, m0, m, White);
    if HasStone(s.b) && Square(s.b, s.st) {
      var q :| 0 <= q < |s.b| && IsColour(s.b[q]);
      forall x | 0 <= x < |s.b| && s.b[x] == Empty ensures m[x] != Unset { NothingUnset(s.b, s.st, m0, x, q); }
    }
  }
}
