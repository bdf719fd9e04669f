/** Trying a move out: playing it on the quick board while saving a small record, and taking
    it back from that record. */
module Undo {
  import opened Grid
  import opened Engine

  datatype MergeRec = MergeRec(grp: int, lib: seq<int>)
  /** `stones` is empty for a chain that the move does not capture. */
  datatype EnemyRec = EnemyRec(grp: int, lib: seq<int>, stones: seq<int>)

  datatype Record = Record(
    last2: Move, ko: Move, lastKo: Move, lastKoAge: int, nextAt: int,
    inserted: int, merged: seq<MergeRec>, lasts: seq<int>,
    enemies: seq<EnemyRec>, ncaptures: int)

  predicate SavedMerge(u: Record, grp: int) { exists i :: 0 <= i < |u.merged| && u.merged[i].grp == grp }
  predicate SavedEnemy(u: Record, grp: int) { exists i :: 0 <= i < |u.enemies| && u.enemies[i].grp == grp }

  function Previous(s: State): int { (4 + s.recentAt - 1) % 4 }

  function InitRecord(s: State): Record
    requires Sized(s)
  {
    Record(s.recent[Previous(s)], s.ko, s.lastKo, s.lastKoAge, 0, 0, [], [], [], 0)
  }

  function SaveMerge(s: State, u: Record, grp: int, c: int): Record
    requires 0 <= grp < |s.lib|
  {
    if SavedMerge(u, grp) then u
    else u.(inserted := if u.merged == [] then c else u.inserted, merged := u.merged + [MergeRec(grp, s.lib[grp])])
  }

  function SaveEnemy(s: State, u: Record, grp: int): Record
    requires 0 <= grp < |s.lib|
  {
    if SavedEnemy(u, grp) then u
    else
      var stones := if |s.lib[grp]| <= 1 then ChainOf(s, grp) else [];
      u.(enemies := u.enemies + [EnemyRec(grp, s.lib[grp], stones)], ncaptures := u.ncaptures + |stones|)
  }

  /** Saving the chains around the point: the first k neighbours have been looked at. */
  function SaveUpTo(s: State, u: Record, x: int, col: Stone, k: int): Record
    requires 0 <= k <= 4 && Inner(s, x)
  {
    if k == 0 then u.(nextAt := s.p[x])
    else
      var u1 := SaveUpTo(s, u, x, col, k - 1);
      var c := Nb(s.st, x, k - 1);
      var grp := s.g[c];
      if !(0 <= grp < |s.lib|) then u1
      else if s.b[c] == col then SaveMerge(s, u1, grp, c)
      else if s.b[c] == Other(col) then SaveEnemy(s, u1, grp)
      else u1
  }

  /** A suicide is saved like a capture, through the first neighbour of its colour. */
  function SaveSuicide(s: State, u: Record, x: int, col: Stone, k: int): Record
    requires 0 <= k <= 4 && Inner(s, x)
    decreases 4 - k
  {
    if k == 4 then u
    else
      var c := Nb(s.st, x, k);
      if s.b[c] == col && 0 <= s.g[c] < |s.lib| then SaveEnemy(s, u, s.g[c])
      else SaveSuicide(s, u, x, col, k + 1)
  }

  /** The quick play of a move: the core arrays as the full board would have them, the side
      indexes left alone. */
  function QuickPlay(s: State, m: Move): (r: (State, bool, Record))
    requires Sized(s) && IsColour(m.colour) && (m.coord == PASS || 0 <= m.coord < |s.b|)
  {
    var q := s.(full := false, lasts := []);
    var u := InitRecord(s);
    var (r, ok) := Play(q, m);
    if m.coord == PASS || !ok || !Inner(q, m.coord) then (r.(full := s.full, lasts := s.lasts), ok, u)
    else
      var u1 := SaveUpTo(q, u, m.coord, m.colour, 4);
      var (s1, own) := PlayOutside(q, m);
      var u2 := if !Eyelike(q, m.coord, Other(m.colour)) && s1.lib[own] == []
                then SaveSuicide(s1, u1, m.coord, m.colour, 0) else u1;
      (r.(full := s.full, lasts := s.lasts), ok, u2.(lasts := r.lasts))
  }

  // ------------------------------------------------------------ taking it back

  /** The merged chains are split off again, last one first: those from index i up are done. */
  function SplitFrom(s: State, u: Record, grp: int, i: int): (r: State)
    requires Sized(s) && 1 <= i
    ensures Kept(s, r) && r.b == s.b && r.n == s.n && r.caps == s.caps
    decreases |u.merged| - i
  {
    if i >= |u.merged| then s
    else
      var s1 := SplitFrom(s, u, grp, i + 1);
      var was, last := u.merged[i].grp, if i - 1 < |u.lasts| then u.lasts[i - 1] else 0;
      if !(0 <= was < |s.lib| && 0 <= last < |s.p| && 0 <= grp < |s.p|) then s1
      else
        var p := s1.p[grp := s1.p[last]];
        var s2 := s1.(lib := s1.lib[was := u.merged[i].lib], p := p[last := 0]);
        var stones := ChainOf(s2, was);
        if forall j :: 0 <= j < |stones| ==> 0 <= stones[j] < |s2.g|
        then s2.(g := Relabel(s2.g, stones, was, |stones|)) else s2
  }

  function UndoMerge(s: State, u: Record, x: int): (r: State)
    requires Sized(s) && 0 <= x < |s.b| && |u.merged| > 0
    ensures Kept(s, r) && r.b == s.b && r.n == s.n && r.caps == s.caps
  {
    var s1 := SplitFrom(s, u, s.g[x], 1);
    var was := u.merged[0].grp;
    if !(0 <= was < |s.lib| && 0 <= u.inserted < |s.p|) then s1
    else s1.(p := s1.p[u.inserted := s1.p[x]], lib := s1.lib[was := u.merged[0].lib])
  }

  /** Neighbours told that a stone of colour hue is back at c: the first k of them. */
  function CountBack(s: State, c: int, hue: Stone, k: int): (r: State)
    requires 0 <= k <= 4 && Inner(s, c)
    ensures Kept(s, r)
  {
    if k == 0 then s
    else
      var s1 := CountBack(s, c, hue, k - 1);
      var y := Nb(s.st, c, k - 1);
      s1.(n := s1.n[y := BumpN(s1.n[y], hue, 1)])
  }

  /** The chains of the other colour around c, but those in `spared`, lose c as a liberty. */
  function ShrinkBack(s: State, c: int, hue: Stone, spared: set<int>, k: int): (r: State)
    requires 0 <= k <= 4 && Inner(s, c)
    ensures Kept(s, r) && r.b == s.b && r.g == s.g && r.p == s.p && r.n == s.n
  {
    if k == 0 then s
    else
      var s1 := ShrinkBack(s, c, hue, spared, k - 1);
      var y := Nb(s.st, c, k - 1);
      var grp := s1.g[y];
      if s1.b[y] == Other(hue) && 0 <= grp < |s1.lib| && grp !in spared then RemoveLib(s1, grp, c) else s1
  }

  function StoneBack(s: State, c: int, next: int, was: int, hue: Stone, spared: set<int>): (r: State)
    requires Inner(s, c)
    ensures Kept(s, r)
  {
    var s1 := s.(b := s.b[c := hue], g := s.g[c := was], p := s.p[c := next]);
    ShrinkBack(CountBack(s1, c, hue, 4), c, hue, spared, 4)
  }

  function StonesBack(s: State, stones: seq<int>, was: int, hue: Stone, spared: set<int>, i: int): (r: State)
    requires 0 <= i <= |stones| && Sized(s)
    ensures Kept(s, r)
  {
    if i == 0 then s
    else
      var s1 := StonesBack(s, stones, was, hue, spared, i - 1);
      if Inner(s1, stones[i - 1])
      then StoneBack(s1, stones[i - 1], if i < |stones| then stones[i] else 0, was, hue, spared) else s1
  }

  /** Captured chains put back, the first i of the record. */
  function RestoreUpTo(s: State, enemies: seq<EnemyRec>, hue: Stone, spared: set<int>, i: int): (r: State)
    requires 0 <= i <= |enemies| && Sized(s)
    ensures Kept(s, r)
  {
    if i == 0 then s
    else
      var s1 := RestoreUpTo(s, enemies, hue, spared, i - 1);
      var e := enemies[i - 1];
      var s2 := if 0 <= e.grp < |s1.lib| then s1.(lib := s1.lib[e.grp := e.lib]) else s1;
      StonesBack(s2, e.stones, e.grp, hue, spared, |e.stones|)
  }

  function MergedIds(u: Record): set<int> { set i | 0 <= i < |u.merged| :: u.merged[i].grp }
  function EnemyIds(u: Record): set<int> { set i | 0 <= i < |u.enemies| :: u.enemies[i].grp }

  function UncountUpTo(s: State, x: int, col: Stone, k: int): (r: State)
    requires 0 <= k <= 4 && Inner(s, x)
    ensures Kept(s, r)
  {
    if k == 0 then s
    else
      var s1 := UncountUpTo(s, x, col, k - 1);
      var y := Nb(s.st, x, k - 1);
      s1.(n := s1.n[y := BumpN(s1.n[y], col, -1)])
  }

  /** Lifting the played stone off again. */
  function LiftPlayed(s: State, u: Record, m: Move): (r: State)
    requires Inner(s, m.coord)
    ensures Kept(s, r)
  {
    var x := m.coord;
    UncountUpTo(s.(b := s.b[x := Empty], g := s.g[x := 0], p := s.p[x := u.nextAt]), x, m.colour, 4)
  }

  /** The played stone off its chain and off the board. */
  function LiftedOff(s: State, u: Record, m: Move): (r: State)
    requires Inner(s, m.coord)
    ensures Kept(s, r)
  {
    var own := s.g[m.coord];
    var s1 := if |u.merged| > 0 then UndoMerge(s, u, m.coord)
              else if 0 <= own < |s.lib| then s.(lib := s.lib[own := []]) else s;
    LiftPlayed(s1, u, m)
  }

  function UndoStone(s: State, u: Record, m: Move): (r: State)
    requires Inner(s, m.coord)
    ensures Kept(s, r)
  {
    var s2 := LiftedOff(s, u, m);
    var s3 := s2.(caps := Bump(s2.caps, m.colour, -u.ncaptures));
    RestoreUpTo(s3, u.enemies, Other(m.colour), MergedIds(u), |u.enemies|)
  }

  function UndoSuicide(s: State, u: Record, m: Move): (r: State)
    requires Inner(s, m.coord)
    ensures Kept(s, r)
  {
    var s1 := s.(caps := Bump(s.caps, Other(m.colour), -u.ncaptures));
    var s2 := RestoreUpTo(s1, u.enemies, m.colour, EnemyIds(u), |u.enemies|);
    var s3 := if |u.merged| > 0 then UndoMerge(s2, u, m.coord) else s2;
    LiftPlayed(s3, u, m)
  }

  /** The moves, the ko and the counters of a board put back from the record. */
  function Rewound(s: State, u: Record): (r: State)
    requires Sized(s)
    ensures SameShape(s, r)
  {
    var j := Previous(s);
    s.(recent := s.recent[s.recentAt := s.recent[j]][j := u.last2],
       ko := u.ko, lastKo := u.lastKo, lastKoAge := u.lastKoAge, moves := s.moves - 1)
  }

  function QuickUndo(s: State, m: Move, u: Record): State
    requires Sized(s) && IsColour(m.colour) && (m.coord == PASS || Inner(s, m.coord))
  {
    var s1 := Rewound(s.(full := false), u);
    var r := if m.coord == PASS then s1.(passes := Bump(s1.passes, m.colour, -1))
             else if s.b[m.coord] == m.colour then UndoStone(s1, u, m)
             else UndoSuicide(s1, u, m);
    r.(full := s.full)
  }
}
