/** The board engine as functions on a value: what each routine of the board does to the
    arrays, step for step. `full` tells the two builds of the play routines apart: the full
    one also maintains the free list, the list of chains in atari and the hash, the quick
    one records what undo needs. */
module Engine {
  import opened Grid
  import opened LibList

  const PASS := -1

  datatype Move = Move(coord: int, colour: Stone)
  const NO_MOVE := Move(PASS, Empty)

  datatype Counts = Counts(black: int, white: int, off: int)
  datatype Tally = Tally(black: int, white: int)
  /** A machine word as the set of its one bits. */
  type Word = set<int>
  datatype Key = Key(black: Word, white: Word)
  datatype Ruleset = Chinese | Aga | NewZealand | Japanese | StonesOnly | Siming

  datatype State = State(
    st: int,               // stride of the padded board
    b: seq<Stone>,         // colours
    n: seq<Counts>,        // neighbour counts
    g: seq<int>,           // chain id of each stone, 0 for none
    p: seq<int>,           // next stone of the chain, 0 for the last
    lib: seq<seq<int>>,    // liberty list of each chain, indexed by its id
    caps: Tally, passes: Tally, moves: int, rules: Ruleset,
    recent: seq<Move>, recentAt: int,     // circular buffer of four moves
    ko: Move, lastKo: Move, lastKoAge: int,
    full: bool,
    free: seq<int>, fmap: seq<int>,       // free points and their positions
    atari: seq<int>,                      // chains with one liberty
    hash: Word, keys: seq<Key>,
    lasts: seq<int>)                      // last stone of each chain merged by this move

  function Bump(t: Tally, col: Stone, d: int): Tally {
    if col == Black then t.(black := t.black + d)
    else if col == White then t.(white := t.white + d)
    else t
  }

  function BumpN(t: Counts, col: Stone, d: int): Counts {
    if col == Black then t.(black := t.black + d)
    else if col == White then t.(white := t.white + d)
    else t
  }

  function CountOf(t: Counts, col: Stone): int {
    if col == Black then t.black else if col == White then t.white else if col == Off then t.off else 0
  }

  /** All arrays have one entry per coordinate. */
  predicate Sized(s: State) {
    && s.st >= 3 && |s.b| > 0
    && |s.n| == |s.b| && |s.g| == |s.b| && |s.p| == |s.b| && |s.lib| == |s.b|
    && |s.keys| == |s.b| && |s.fmap| == |s.b|
    && |s.recent| == 4 && 0 <= s.recentAt < 4
  }

  /** All four neighbours of c are coordinates too. */
  predicate Inner(s: State, c: int) {
    Sized(s) && s.st <= c < |s.b| - s.st
  }

  predicate SameShape(s: State, r: State) {
    r.st == s.st && |r.b| == |s.b| && r.full == s.full && (Sized(s) ==> Sized(r))
  }

  /** The record of moves, the ko and the constants are untouched. */
  predicate Kept(s: State, r: State) {
    && SameShape(s, r) && r.keys == s.keys && r.rules == s.rules
    && r.moves == s.moves && r.passes == s.passes && r.recent == s.recent && r.recentAt == s.recentAt
    && r.ko == s.ko && r.lastKo == s.lastKo && r.lastKoAge == s.lastKoAge
  }

  // ------------------------------------------------------------ chain lists

  /** The stones linked from c through p; `fuel` bounds the walk. */
  function Walk(p: seq<int>, c: int, fuel: nat): seq<int>
    decreases fuel
  {
    if c <= 0 || c >= |p| || fuel == 0 then [] else [c] + Walk(p, p[c], fuel - 1)
  }

  function ChainOf(s: State, grp: int): seq<int> { Walk(s.p, grp, |s.p|) }

  // ------------------------------------------------------------ side indexes

  function AtariAdd(s: State, grp: int): State {
    if s.full then s.(atari := s.atari + [grp]) else s
  }

  function AtariRemove(s: State, grp: int): State {
    if s.full && grp in s.atari then s.(atari := SwapRemove(s.atari, grp)) else s
  }

  function Xor(a: Word, b: Word): Word { (a - b) + (b - a) }

  function KeyOf(k: Key, col: Stone): Word {
    if col == Black then k.black else if col == White then k.white else {}
  }

  function HashUpdate(s: State, c: int, col: Stone): State
    requires 0 <= c < |s.keys|
  {
    if s.full then s.(hash := Xor(s.hash, KeyOf(s.keys[c], col))) else s
  }

  function AddFree(s: State, c: int): State
    requires 0 <= c < |s.fmap|
  {
    if s.full then s.(free := s.free + [c], fmap := s.fmap[c := |s.free|]) else s
  }

  function RemoveFree(s: State, f: int): State
    requires s.full ==> 0 <= f < |s.free| && 0 <= s.free[|s.free| - 1] < |s.fmap|
  {
    if !s.full then s
    else
      var c := s.free[|s.free| - 1];
      s.(free := s.free[f := c][..|s.free| - 1], fmap := s.fmap[c := f])
  }

  // ------------------------------------------------------------ liberties

  function AddLib(s: State, grp: int, c: int): (r: State)
    requires 0 <= grp < |s.lib|
    ensures Kept(s, r)
  {
    var l := s.lib[grp];
    if |l| < KEEP && c !in l then
      var s' := if |l| == 0 then AtariAdd(s, grp) else if |l| == 1 then AtariRemove(s, grp) else s;
      s'.(lib := s.lib[grp := l + [c]])
    else s
  }

  /** The empty neighbours of c among the first k, in scan order. */
  function EmptyNbs(b: seq<Stone>, st: int, c: int, k: int): seq<int>
    requires 0 <= k <= 4
  {
    if k == 0 then []
    else
      var y := Nb(st, c, k - 1);
      EmptyNbs(b, st, c, k - 1) + if 0 <= y < |b| && b[y] == Empty then [y] else []
  }

  /** The empty neighbours of the first i stones of a chain, in scan order. */
  function EmptyAround(b: seq<Stone>, st: int, stones: seq<int>, i: int): seq<int>
    requires 0 <= i <= |stones|
  {
    if i == 0 then []
    else EmptyAround(b, st, stones, i - 1) + EmptyNbs(b, st, stones[i - 1], 4)
  }

  function Refilled(s: State, grp: int, l: seq<int>, avoid: int): seq<int> {
    var stones := ChainOf(s, grp);
    Fill(l, EmptyAround(s.b, s.st, stones, |stones|), avoid)
  }

  function RemoveLib(s: State, grp: int, c: int): (r: State)
    requires 0 <= grp < |s.lib|
    ensures Kept(s, r)
  {
    if c !in s.lib[grp] then s
    else
      var l := SwapRemove(s.lib[grp], c);
      if |l| > REFILL then s.(lib := s.lib[grp := l])
      else
        var l' := if |l| == REFILL then Refilled(s, grp, l, c) else l;
        var s' := s.(lib := s.lib[grp := l']);
        if |l'| == 1 then AtariAdd(s', grp) else if |l'| == 0 then AtariRemove(s', grp) else s'
  }

  // ------------------------------------------------------------ stones

  /** Removing the stone at c: the first k neighbours have been told. */
  function RemoveNbs(s: State, grp: int, c: int, col: Stone, k: int): (r: State)
    requires 0 <= k <= 4 && Inner(s, c)
    ensures Kept(s, r)
  {
    if k == 0 then s
    else
      var s1 := RemoveNbs(s, grp, c, col, k - 1);
      var y := Nb(s.st, c, k - 1);
      var s2 := s1.(n := s1.n[y := BumpN(s1.n[y], col, -1)]);
      var h := s2.g[y];
      if 0 < h < |s2.lib| && h != grp then AddLib(s2, h, c) else s2
  }

  function RemoveStone(s: State, grp: int, c: int): (r: State)
    requires Inner(s, c)
    ensures Kept(s, r)
  {
    var col := s.b[c];
    var s1 := HashUpdate(s.(b := s.b[c := Empty], g := s.g[c := 0]), c, col);
    AddFree(RemoveNbs(s1, grp, c, col, 4), c)
  }

  /** Capturing: the first i stones of the chain have been taken off. */
  function CaptureUpTo(s: State, grp: int, stones: seq<int>, i: int): (r: State)
    requires 0 <= i <= |stones|
    requires forall j :: 0 <= j < |stones| ==> Inner(s, stones[j])
    ensures Kept(s, r)
  {
    if i == 0 then s
    else
      var s1 := CaptureUpTo(s, grp, stones, i - 1);
      var c := stones[i - 1];
      assert Inner(s, c);
      RemoveStone(s1.(caps := Bump(s1.caps, Other(s1.b[c]), 1)), grp, c)
  }

  /** The chain list of grp stays on the board. The engine's chain lists always do; where
      one would not, the source's behaviour is undefined and the model leaves the state alone. */
  predicate Walkable(s: State, grp: int) {
    && 0 <= grp < |s.lib| && ChainOf(s, grp) != []
    && forall j :: 0 <= j < |ChainOf(s, grp)| ==> Inner(s, ChainOf(s, grp)[j])
  }

  function Capture(s: State, grp: int): (r: State)
    ensures Kept(s, r)
  {
    if !Walkable(s, grp) then s
    else
      var stones := ChainOf(s, grp);
      var s1 := CaptureUpTo(s, grp, stones, |stones|);
      s1.(lib := s1.lib[grp := []])
  }

  function AddEmptyNbs(s: State, grp: int, c: int, k: int): (r: State)
    requires 0 <= k <= 4 && Inner(s, c) && 0 <= grp < |s.lib|
    ensures Kept(s, r)
  {
    if k == 0 then s
    else
      var s1 := AddEmptyNbs(s, grp, c, k - 1);
      var y := Nb(s.st, c, k - 1);
      if s.b[y] == Empty then AddLib(s1, grp, y) else s1
  }

  function AddToGroup(s: State, grp: int, prev: int, c: int): (r: State)
    requires Inner(s, c) && 0 <= grp < |s.lib| && 0 <= prev < |s.p|
    ensures Kept(s, r)
  {
    var s1 := s.(g := s.g[c := grp], p := s.p[c := s.p[prev]][prev := c]);
    AddEmptyNbs(s1, grp, c, 4)
  }

  function AppendLibs(s: State, to: int, l: seq<int>, i: int): (r: State)
    requires Sized(s) && 0 <= to < |s.lib| && 0 <= i <= |l|
    ensures Kept(s, r)
  {
    if i == 0 then s else AddLib(AppendLibs(s, to, l, i - 1), to, l[i - 1])
  }

  /** The first i stones now carry the id `to`. */
  function Relabel(g: seq<int>, stones: seq<int>, to: int, i: int): (r: seq<int>)
    requires 0 <= i <= |stones| && forall j :: 0 <= j < |stones| ==> 0 <= stones[j] < |g|
    ensures |r| == |g|
  {
    if i == 0 then g else Relabel(g, stones, to, i - 1)[stones[i - 1] := to]
  }

  function Merge(s: State, to: int, from: int): (r: State)
    requires Sized(s) && 0 <= to < |s.lib|
    ensures Kept(s, r)
  {
    if !Walkable(s, from) then s
    else
      var l := s.lib[from];
      var s1 := AppendLibs(if |l| == 1 then AtariRemove(s, from) else s, to, l, |l|);
      var stones := ChainOf(s, from);
      var last := stones[|stones| - 1];
      assert forall j :: 0 <= j < |stones| ==> Inner(s, stones[j]);
      s1.(g := Relabel(s1.g, stones, to, |stones|),
          p := s1.p[last := s1.p[to]][to := from],
          lib := s1.lib[from := []],
          lasts := if s.full then s.lasts else s.lasts + [last])
  }

  function NewGroup(s: State, c: int): (r: State)
    requires Inner(s, c)
    ensures Kept(s, r)
  {
    var l := s.lib[c] + EmptyNbs(s.b, s.st, c, 4);
    var s1 := s.(lib := s.lib[c := l], g := s.g[c := c], p := s.p[c := 0]);
    if |l| == 1 then AtariAdd(s1, c) else s1
  }

  // ------------------------------------------------------------ playing

  /** One neighbour c of the point `coord` being played; `grp` is the chain joined so far. */
  function PlayOne(s: State, coord: int, col: Stone, c: int, grp: int): (r: (State, int))
    requires Inner(s, coord) && 0 <= c < |s.b| && 0 <= grp < |s.b|
    ensures Kept(s, r.0) && 0 <= r.1 < |s.b|
  {
    var ncol, h := s.b[c], s.g[c];
    var s1 := s.(n := s.n[c := BumpN(s.n[c], col, 1)]);
    if h <= 0 || h >= |s.b| then (s1, grp)
    else
      var s2 := RemoveLib(s1, h, coord);
      if ncol == col && h != grp then
        if grp == 0 then (AddToGroup(s2, h, c, coord), h) else (Merge(s2, grp, h), grp)
      else if ncol == Other(col) && s2.lib[h] == [] then (Capture(s2, h), grp)
      else (s2, grp)
  }

  function PlayUpTo(s: State, coord: int, col: Stone, k: int): (r: (State, int))
    requires 0 <= k <= 4 && Inner(s, coord)
    ensures Kept(s, r.0) && 0 <= r.1 < |s.b|
  {
    if k == 0 then (s, 0)
    else
      var (s1, grp) := PlayUpTo(s, coord, col, k - 1);
      PlayOne(s1, coord, col, Nb(s.st, coord, k - 1), grp)
  }

  /** The full board shifts its circular buffer; the quick one only moves two entries. */
  function Commit(s: State, m: Move): (r: State)
    requires Sized(s)
    ensures SameShape(s, r)
  {
    if s.full then
      var i := (s.recentAt + 1) % 4;
      s.(recentAt := i, recent := s.recent[i := m], moves := s.moves + 1)
    else
      var j := (4 + s.recentAt - 1) % 4;
      s.(recent := s.recent[j := s.recent[s.recentAt]][s.recentAt := m], moves := s.moves + 1)
  }

  function TakeFree(s: State, c: int): (r: State)
    requires Sized(s) && 0 <= c < |s.b|
    ensures Kept(s, r)
  {
    if s.full && 0 <= s.fmap[c] < |s.free| && 0 <= s.free[|s.free| - 1] < |s.fmap|
    then RemoveFree(s, s.fmap[c]) else s
  }

  function PlayOutside(s: State, m: Move): (r: (State, int))
    requires Inner(s, m.coord)
    ensures SameShape(s, r.0) && 0 <= r.1 < |s.b|
  {
    var (s1, grp) := PlayUpTo(TakeFree(s, m.coord), m.coord, m.colour, 4);
    var s2 := s1.(b := s1.b[m.coord := m.colour]);
    var s3 := if grp == 0 then NewGroup(s2, m.coord) else s2;
    var grp' := if grp == 0 then m.coord else grp;
    (HashUpdate(Commit(s3, m), m.coord, m.colour).(ko := NO_MOVE), grp')
  }

  /** Number of stones taken and where the last capture was seen, after k neighbours. */
  datatype EyeRun = EyeRun(s: State, taken: int, at: int)

  function EyeOne(e: EyeRun, coord: int, col: Stone, c: int): (r: EyeRun)
    requires Inner(e.s, coord) && 0 <= c < |e.s.b|
    ensures Kept(e.s, r.s)
  {
    var s1 := e.s.(n := e.s.n[c := BumpN(e.s.n[c], col, 1)]);
    var h := s1.g[c];
    if h <= 0 || h >= |s1.b| then e.(s := s1)
    else
      var s2 := RemoveLib(s1, h, coord);
      if s2.lib[h] == [] then EyeRun(Capture(s2, h), e.taken + |ChainOf(s2, h)|, c)
      else e.(s := s2)
  }

  function EyeUpTo(s: State, coord: int, col: Stone, k: int): (r: EyeRun)
    requires 0 <= k <= 4 && Inner(s, coord)
    ensures Kept(s, r.s)
  {
    if k == 0 then EyeRun(s, 0, PASS)
    else EyeOne(EyeUpTo(s, coord, col, k - 1), coord, col, Nb(s.st, coord, k - 1))
  }

  function InAtari(s: State, h: int): int {
    if 0 <= h < |s.lib| && |s.lib[h]| == 1 then 1 else 0
  }

  function AtariNbs(s: State, c: int, k: int): int
    requires 0 <= k <= 4 && Inner(s, c)
  {
    if k == 0 then 0 else AtariNbs(s, c, k - 1) + InAtari(s, s.g[Nb(s.st, c, k - 1)])
  }

  /** The captures of an eye move are over: ko, drawing and recording. */
  function ClosedEye(e: EyeRun, m: Move): (r: State)
    requires Inner(e.s, m.coord)
    ensures SameShape(e.s, r)
  {
    var ko := if e.taken == 1 then Move(e.at, Other(m.colour)) else NO_MOVE;
    var s1 := if e.taken == 1 then e.s.(lastKo := ko, lastKoAge := e.s.moves + 1) else e.s;
    var s2 := NewGroup(s1.(b := s1.b[m.coord := m.colour]), m.coord);
    HashUpdate(Commit(s2, m), m.coord, m.colour).(ko := ko)
  }

  /** A stone put into an eye, once it may be. */
  function EnteredEye(s: State, m: Move): (r: State)
    requires Inner(s, m.coord)
    ensures SameShape(s, r)
  {
    ClosedEye(EyeUpTo(TakeFree(s, m.coord), m.coord, m.colour, 4), m)
  }

  function PlayInEye(s: State, m: Move): (r: (State, bool))
    requires Inner(s, m.coord)
    ensures SameShape(s, r.0)
  {
    if m == s.ko || AtariNbs(s, m.coord, 4) == 0 then (s, false) else (EnteredEye(s, m), true)
  }

  predicate Eyelike(s: State, c: int, eye: Stone)
    requires 0 <= c < |s.n|
  {
    CountOf(s.n[c], eye) + s.n[c].off == 4
  }

  function PlayStone(s: State, m: Move): (r: (State, bool))
    requires Inner(s, m.coord)
    ensures SameShape(s, r.0)
  {
    if !Eyelike(s, m.coord, Other(m.colour)) then
      var (s1, grp) := PlayOutside(s, m);
      (if s1.lib[grp] == [] then Capture(s1, grp) else s1, true)
    else PlayInEye(s, m)
  }

  /** A move as the board accepts or refuses it. The flag is false exactly where the source
      returns -1. */
  function Play(s: State, m: Move): (r: (State, bool))
    requires Sized(s) && IsColour(m.colour) && (m.coord == PASS || 0 <= m.coord < |s.b|)
    ensures SameShape(s, r.0)
  {
    if m.coord == PASS then
      var s1 := s.(passes := Bump(s.passes, m.colour, 1));
      var s2 := if s.rules == Siming then s1.(caps := Bump(s1.caps, Other(m.colour), 1)) else s1;
      (Commit(s2.(ko := NO_MOVE), m), true)
    else if s.b[m.coord] != Empty || !Inner(s, m.coord) then (s, false)
    else PlayStone(s, m)
  }
}
