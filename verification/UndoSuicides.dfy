/** Undoing a multi-stone suicide: the played chain is put back like a captured one, then split. */
module UndoSuicides {
  import opened Grid
  import opened LibList
  import opened Engine
  import opened Invariant
  import opened Steps
  import opened Captures
  import opened Moves
  import opened Rules
  import opened PlayTheorem
  import opened Undo
  import opened UndoTrace
  import opened UndoPlay
  import opened UndoSplit
  import opened UndoRestore
  import opened UndoStones
  import opened UndoCore

  /** The stone is down, not in an eye, and its chain has no liberty. */
  ghost predicate Sinks(q: State, ch: Chains, m: Move, s: State, v: Record, ch1: Chains) {
    && Put(q, ch, m, s, v) && !Walled(q.b, q.st, m.coord, Other(m.colour))
    && Down(K(PlayOutside(q, m).0), ch1, q.b, m.coord, m.colour, PlayOutside(q, m).1)
    && PlayOutside(q, m).0.lib[PlayOutside(q, m).1] == []
  }

  // ------------------------------------------------------------ what a suicide looks like

  lemma EmptyListed(c: Core, ch: Chains, b0: seq<Stone>, x: int, col: Stone, own: int, y: int)
    requires Down(c, ch, b0, x, col, own) && Adj(c.st, x, y) && 0 <= y < |c.b|
    ensures c.b[y] == Empty ==> y in Libs(c, QUIET, own)
  {
    hide Reach, Maximal, Conn, Linked, Cover, Stony, Clear, Lively;
    assert c.b[y] == Empty ==> Touch(c, y, own);
  }

  lemma NoEmptyBeside(c: Core, ch: Chains, b0: seq<Stone>, x: int, col: Stone, own: int, y: int)
    requires Down(c, ch, b0, x, col, own) && c.lib[own] == [] && Adj(c.st, x, y) && 0 <= y < |c.b|
    ensures c.b[y] != Empty
  {
    hide Reach, Maximal, Conn, Linked, Cover, Stony, Clear, Lively;
    EmptyListed(c, ch, b0, x, col, own, y);
    NoLibs(c.lib[own], Libs(c, QUIET, own));
  }

  lemma OwnBeside(c: Core, ch: Chains, b0: seq<Stone>, x: int, col: Stone, own: int, y: int)
    requires Down(c, ch, b0, x, col, own) && Adj(c.st, x, y) && 0 <= y < |c.b| && c.b[y] == col && IsColour(col)
    ensures c.g[y] == own
  {
    hide Reach, LibsOK, Conn, Linked, Cover, Stony, Clear, Lively;
    assert View(c, QUIET) == c.b;
  }

  /** The board after the stone is down, told from the board before. */
  lemma SinksShape(q: State, ch: Chains, m: Move, s: State, v: Record, ch1: Chains)
    requires Sinks(q, ch, m, s, v, ch1)
    ensures var o := PlayOutside(q, m).0; o.st == q.st && |o.b| == |q.b| == |q.g| && q.st >= 3
    ensures forall y :: 0 <= y < |q.b| && y != m.coord ==>
      PlayOutside(q, m).0.b[y] == if q.g[y] in Dead(v) then Empty else q.b[y]
  {
    hide PlayUpTo, PlayOutside, PlayRecord, Down, PlayPoint, RecordOK, TraceG, TraceP, TraceLib, Walled, Dead;
  }

  lemma SinksInner(q: State, ch: Chains, m: Move, s: State, v: Record, ch1: Chains)
    requires Sinks(q, ch, m, s, v, ch1)
    ensures Inner(q, m.coord) && IsColour(m.colour)
  {
    hide Put, PlayOutside, Down, Walled;
    PutColour(q, ch, m, s, v);
  }

  lemma SinksDown(q: State, ch: Chains, m: Move, s: State, v: Record, ch1: Chains)
    requires Sinks(q, ch, m, s, v, ch1)
    ensures Put(q, ch, m, s, v) && 0 < PlayOutside(q, m).1 < |PlayOutside(q, m).0.lib|
    ensures Down(K(PlayOutside(q, m).0), ch1, q.b, m.coord, m.colour, PlayOutside(q, m).1)
    ensures PlayOutside(q, m).0.lib[PlayOutside(q, m).1] == []
  {
    hide Put, PlayOutside, Clear, Lively, Linked, Cover, Stony, Conn, Maximal, LibsOK, Walled, Framed;
  }

  lemma NoneDead(q: State, ch: Chains, m: Move, s: State, v: Record, ch1: Chains, h: int)
    requires Sinks(q, ch, m, s, v, ch1)
    ensures h !in Dead(v)
  {
    hide PlayUpTo, PlayOutside, PlayRecord, Sinks, Put, Down, PlayPoint, RecordOK, Dead;
    if h in Dead(v) {
      SinksShape(q, ch, m, s, v, ch1);
      SinksDown(q, ch, m, s, v, ch1);
      PutColour(q, ch, m, s, v);
      var y := DeadBeside(q, ch, m, s, v, h);
      NoEmptyBeside(K(PlayOutside(q, m).0), ch1, q.b, m.coord, m.colour, PlayOutside(q, m).1, y);
    }
  }

  lemma DeadBeside(q: State, ch: Chains, m: Move, s: State, v: Record, h: int) returns (y: int)
    requires Put(q, ch, m, s, v) && h in Dead(v)
    ensures Adj(q.st, m.coord, y) && 0 <= y < |q.g| && q.g[y] == h && y != m.coord
  {
    var c, x := K(q), m.coord;
    hide Put, EnemiesOK, W, Cover, Linked, Before, Touch, PlayOutside, Dead, PlayPoint, RecordOK;
    PutFacts(q, ch, m, s, v);
    BeforeOK(q, ch, x, m.colour, v, 4);
    DeadTouch(c, ch, x, m.colour, v, h);
    y := TouchingNb(c, x, h);
    assert Inner(q, x) by { PutColour(q, ch, m, s, v); }
  }

  lemma TouchingNb(c: Core, x: int, h: int) returns (y: int)
    requires Touch(c, x, h)
    ensures Adj(c.st, x, y) && 0 <= y < |c.g| && c.g[y] == h
  {
    y := if c.g[x - c.st] == h then x - c.st else if c.g[x - 1] == h then x - 1
         else if c.g[x + 1] == h then x + 1 else x + c.st;
  }

  lemma DeadTouch(c: Core, ch: Chains, x: int, col: Stone, v: Record, h: int)
    requires Shape(c) && EnemiesOK(c, ch, x, col, v) && Linked(c, ch) && h in Dead(v)
    ensures Touch(c, x, h)
  {
    hide Touch, Framed;
    IdPositive(c, ch, h);
  }

  /** A stone of the player's colour stands beside the played point. */
  lemma FriendBeside(q: State, ch: Chains, m: Move, s: State, v: Record, ch1: Chains) returns (k: int)
    requires Sinks(q, ch, m, s, v, ch1)
    ensures 0 <= k < 4 && 0 <= Nb(q.st, m.coord, k) < |q.b| && q.b[Nb(q.st, m.coord, k)] == m.colour
    ensures Nb(q.st, m.coord, k) != m.coord
  {
    hide Put, Down, PlayOutside, Walled;
    assert Inner(q, m.coord) && IsColour(m.colour) by { PutColour(q, ch, m, s, v); }
    forall y | Adj(q.st, m.coord, y) ensures 0 <= y < |q.b| && q.b[y] != Empty {
      SinksBeside(q, ch, m, s, v, ch1, y);
    }
    k := NotWalled(q.b, q.st, m.coord, m.colour);
  }

  lemma NotWalled(b: seq<Stone>, st: int, x: int, col: Stone) returns (k: int)
    requires Interior(b, st, x) && IsColour(col) && !Walled(b, st, x, Other(col))
    requires forall y :: Adj(st, x, y) ==> 0 <= y < |b| && b[y] != Empty
    ensures 0 <= k < 4 && 0 <= Nb(st, x, k) < |b| && b[Nb(st, x, k)] == col
  {
    k := if b[x - st] == col then 0 else if b[x - 1] == col then 1 else if b[x + 1] == col then 2 else 3;
    assert Adj(st, x, x - st) && Adj(st, x, x - 1) && Adj(st, x, x + 1) && Adj(st, x, x + st);
  }

  lemma PutColour(q: State, ch: Chains, m: Move, s: State, v: Record)
    requires Put(q, ch, m, s, v)
    ensures IsColour(m.colour) && Inner(q, m.coord)
  {
    hide RecordOK, Trace, PlayOutside, PlayUpTo, PlayRecord, Quiet;
  }

  lemma SinksBeside(q: State, ch: Chains, m: Move, s: State, v: Record, ch1: Chains, y: int)
    requires Sinks(q, ch, m, s, v, ch1) && Adj(q.st, m.coord, y)
    ensures 0 <= y < |q.b| && q.b[y] != Empty
  {
    hide PlayUpTo, PlayOutside, PlayRecord, Sinks, Put, Down, PlayPoint, RecordOK, Dead;
    SinksShape(q, ch, m, s, v, ch1);
    SinksDown(q, ch, m, s, v, ch1);
    PutColour(q, ch, m, s, v);
    NoEmptyBeside(K(PlayOutside(q, m).0), ch1, q.b, m.coord, m.colour, PlayOutside(q, m).1, y);
    NoneDead(q, ch, m, s, v, ch1, q.g[y]);
  }

  lemma FriendJoined(q: State, ch: Chains, m: Move, s: State, v: Record, ch1: Chains)
    requires Sinks(q, ch, m, s, v, ch1)
    ensures v.merged != [] && PlayOutside(q, m).1 == Home(v) != 0
  {
    var k := FriendBeside(q, ch, m, s, v, ch1);
    hide PlayUpTo, PlayRecord, Down, MergesOK, EnemiesOK, Trace, Walled, DrawnOn, PlayPoint;
    assert q.g[Nb(q.st, m.coord, k)] in MergedIds(v);
    assert v.merged != [];
    hide MergedIds;
    SplitReady(q, ch, m, s, v);
  }

  // ------------------------------------------------------------ the record of a suicide

  lemma {:induction false} SaveSuicideIs(o: State, u: Record, x: int, col: Stone, own: int, l: seq<int>, k: int, j: int)
    requires Inner(o, x) && 0 <= k <= j < 4 && o.b[Nb(o.st, x, j)] == col && 0 <= own < |o.lib| && o.lib[own] == []
    requires forall i :: 0 <= i < 4 && o.b[Nb(o.st, x, i)] == col ==> o.g[Nb(o.st, x, i)] == own
    requires own !in EnemyIds(u) && ChainOf(o, own) == l
    ensures SaveSuicide(o, u, x, col, k)
         == u.(enemies := u.enemies + [EnemyRec(own, [], l)], ncaptures := u.ncaptures + |l|)
    decreases 4 - k
  {
    hide EnemyIds, ChainOf;
    SavedEnemyIff(u, own);
    if o.b[Nb(o.st, x, k)] != col { SaveSuicideIs(o, u, x, col, own, l, k + 1, j); }
  }

  /** The record once the dying chain is added. */
  function SuicideRecord(v: Record, own: int, l: seq<int>): Record {
    v.(enemies := v.enemies + [EnemyRec(own, [], l)], ncaptures := v.ncaptures + |l|)
  }

  // ------------------------------------------------------------ the board the restoring aims at

  /** The lists with those in `ids` taken from an earlier board. */
  function Reset(lib: seq<seq<int>>, lib0: seq<seq<int>>, ids: set<int>): (r: seq<seq<int>>)
    requires |lib0| == |lib|
    ensures |r| == |lib| && forall h :: 0 <= h < |lib| ==> r[h] == if h in ids then lib0[h] else lib[h]
  {
    seq(|lib|, h requires 0 <= h < |lib| => if h in ids then lib0[h] else lib[h])
  }

  lemma ResetTarget(c1: Core, ch1: Chains, hue: Stone, ids: set<int>, spared: set<int>, lib0: seq<seq<int>>)
    requires W(c1, ch1, QUIET) && IsColour(hue) && |lib0| == |c1.lib| && ids <= spared
    ensures Target(c1.(lib := Reset(c1.lib, lib0, ids)), ch1, hue, spared)
  {
    hide Reach, Maximal, Conn, ChainList, LibsOK, LibOK, Libs, Stony, Cover, Framed, Reset;
    var t := c1.(lib := Reset(c1.lib, lib0, ids));
    TargetOK(c1, ch1, hue, spared);
    LinkedIgnoresLib(c1, ch1, t.lib);
    forall h | Repaired(c1, ch1, hue, spared, h) ensures RightList(t, h, ch1[h]) {
      LibsIgnoreLib(c1, QUIET, h, t.lib);
      assert Lists(t, h, ch1[h]) by { assert Lists(c1, h, ch1[h]); assert ChainList(t, h, ch1[h]); }
    }
    hide RightList;
  }

  /** A chain next to a stone of the chain own has the other colour. */
  lemma BesideOwn(c1: Core, ch1: Chains, own: int, j: int, h: int)
    requires W(c1, ch1, QUIET) && own in ch1 && 0 <= j < |ch1[own]| && h != 0 && Touch(c1, ch1[own][j], h) && h != own
    ensures h in ch1 && 0 < h < |c1.b| && 0 < own < |c1.b| && c1.b[h] == Other(c1.b[own])
  {
    hide Reach, LibsOK, Framed;
    var z := ch1[own][j];
    assert ChainList(c1, own, ch1[own]);
    var y := TouchingNb(c1, z, h);
    IdPositive(c1, ch1, own);
    IdHue(c1, ch1, own);
    assert h in ch1;
    IdHue(c1, ch1, h);
    SameHue(c1, ch1, QUIET, own, z);
    SameHue(c1, ch1, QUIET, h, y);
    assert View(c1, QUIET) == c1.b;
    if c1.b[h] == c1.b[own] { EnemiesApart(c1, ch1, own, z, y); }
  }

  /** A chain without liberties, taken off a quiet board. */
  ghost predicate Sunk(c1: Core, ch1: Chains, own: int, hue: Stone, w: State) {
    && W(c1, ch1, QUIET) && own in ch1 && 0 < own < |c1.b| && c1.b[own] == hue && IsColour(hue) && c1.lib[own] == []
    && c1.st >= 3 && |c1.g| == |c1.b| == |c1.lib| && (forall j :: 0 <= j < |ch1[own]| ==>
      c1.st <= ch1[own][j] < |c1.g| - c1.st)
    && Sized(w) && !w.full && K(w) == Captured(c1, own, ch1[own])
  }

  lemma SunkMissing(c1: Core, ch1: Chains, own: int, hue: Stone, w: State, t: Core)
    requires Sunk(c1, ch1, own, hue, w) && t == c1.(lib := t.lib) && |t.lib| == |c1.lib|
    ensures Missing(w, t, hue, Members(ch1[own])) && ChainList(t, own, ch1[own])
  {
    hide Reach, LibsOK, Conn, Maximal, TakenAll;
    var l := ch1[own];
    TakenAllShape(c1, own, l, |l|);
    assert l[..|l|] == l;
    LinkedIgnoresLib(c1, ch1, t.lib);
    assert ChainList(c1, own, l);
    forall z | z in Members(l) ensures c1.st < z < |c1.b| - c1.st && c1.b[z] == hue && z in l {
      assert Pt(c1, z);
      SameHue(c1, ch1, QUIET, own, z);
      assert View(c1, QUIET) == c1.b;
    }
    assert forall z :: z in l ==> z in Members(l);
    hide W, ChainList;
  }

  lemma SunkList(c1: Core, ch1: Chains, own: int, hue: Stone, w: State, h: int, extra: set<int>)
    requires Sunk(c1, ch1, own, hue, w) && 0 <= h < |c1.lib| && h != own
    requires forall z :: z in ch1[own] && Touch(c1, z, h) ==> z in extra
    ensures |w.lib| == |c1.lib|
    ensures if h in ch1 && c1.b[h] == Other(hue) then Extends(c1.lib[h], w.lib[h], extra) else w.lib[h] == c1.lib[h]
  {
    hide W, TakenAll, Extends, Touch;
    var l := ch1[own];
    SunkSize(c1, ch1, own, hue, w);
    if h in ch1 && c1.b[h] == Other(hue) {
      assert Distinct(c1.lib[h]) && |c1.lib[h]| <= KEEP by { ListShort(c1, ch1, h); }
      TakenAllAdds(c1, own, l, |l|, h, extra);
    } else {
      forall j | h != 0 && 0 <= j < |l| ensures !Touch(c1, l[j], h) {
        if Touch(c1, l[j], h) { BesideOwn(c1, ch1, own, j, h); }
      }
      TakenAllSame(c1, own, l, |l|, h);
    }
  }

  lemma SunkSize(c1: Core, ch1: Chains, own: int, hue: Stone, w: State)
    requires Sunk(c1, ch1, own, hue, w)
    ensures |w.lib| == |c1.lib|
  {
    hide W;
    assert w.lib == K(w).lib;
  }

  lemma ListShort(c: Core, ch: Chains, h: int)
    requires W(c, ch, QUIET) && h in ch && 0 <= h < |c.lib|
    ensures Distinct(c.lib[h]) && |c.lib[h]| <= KEEP
  {
    hide Reach, Conn, Maximal, Linked, Cover, Stony;
  }

  lemma SunkLists(c1: Core, ch1: Chains, own: int, hue: Stone, w: State, lib0: seq<seq<int>>, ids: set<int>)
    requires Sunk(c1, ch1, own, hue, w) && |lib0| == |c1.lib| && own !in ids
    ensures |w.lib| == |c1.lib|
    ensures var t := c1.(lib := Reset(c1.lib, lib0, ids));
      ListsHalf(w, t, ch1, hue, ids + {own}, Members(ch1[own]), ids + {own})
  {
    var t := c1.(lib := Reset(c1.lib, lib0, ids));
    var gone := Members(ch1[own]);
    hide W, Captured, Extends, Touch, Reset, Near;
    SunkList(c1, ch1, own, hue, w, 0, gone);
    forall h | 0 <= h < |c1.lib| && h !in ids && h != own
      ensures if h in ch1 && c1.b[h] == Other(hue) then Extends(c1.lib[h], w.lib[h], Near(t, gone, h))
        else w.lib[h] == c1.lib[h]
    {
      NearThere(c1, ch1[own], t.lib, h);
      SunkList(c1, ch1, own, hue, w, h, Near(t, gone, h));
    }
    assert 0 !in ch1 by { NoZero(c1, ch1); }
    hide Sunk;
  }

  lemma NoZero(c: Core, ch: Chains)
    requires W(c, ch, QUIET)
    ensures 0 !in ch
  {
    ZeroNoId(c, ch, QUIET);
  }

  lemma NearThere(c1: Core, l: seq<int>, lib: seq<seq<int>>, h: int)
    ensures forall z :: z in l && Touch(c1, z, h) ==> z in Near(c1.(lib := lib), Members(l), h)
  {
    forall z ensures Touch(c1.(lib := lib), z, h) == Touch(c1, z, h) { TouchIgnoresLib(c1, lib, z, h); }
  }

  lemma TouchIgnoresLib(c: Core, lib: seq<seq<int>>, z: int, h: int)
    ensures Touch(c.(lib := lib), z, h) == Touch(c, z, h)
  {
  }

  // ------------------------------------------------------------ putting the chain back

  lemma NoStones(q: State, ch: Chains, m: Move, s: State, v: Record, ch1: Chains)
    requires Sinks(q, ch, m, s, v, ch1)
    ensures forall i :: 0 <= i < |v.enemies| ==> v.enemies[i].stones == []
  {
    hide Sinks, PlayOutside;
    forall h ensures h !in Dead(v) { NoneDead(q, ch, m, s, v, ch1, h); }
    forall i | 0 <= i < |v.enemies| ensures v.enemies[i].stones == [] { DeadHas(v, i); }
  }

  lemma DeadHas(v: Record, i: nat)
    requires i < |v.enemies|
    ensures v.enemies[i].stones == [] || v.enemies[i].grp in Dead(v)
  {
  }

  lemma OwnApart(q: State, ch: Chains, m: Move, s: State, v: Record, ch1: Chains)
    requires Sinks(q, ch, m, s, v, ch1)
    ensures PlayOutside(q, m).1 !in EnemyIds(v) && IdsOK(K(q), ch, m.colour, v)
    ensures Shape(K(q)) && EnemiesOK(K(q), ch, m.coord, m.colour, v)
  {
    hide Sinks, Put, PlayOutside, PlayPoint, RecordOK, Before, W, Linked, Cover, MergesOK, EnemiesOK, MergedIds,
         EnemyIds;
    FriendJoined(q, ch, m, s, v, ch1);
    SinksDown(q, ch, m, s, v, ch1);
    PutFacts(q, ch, m, s, v);
    BeforeOK(q, ch, m.coord, m.colour, v, 4);
    BeforeIds(K(q), ch, m.coord, m.colour, v);
  }

  lemma SuicideSets(v: Record, own: int, l: seq<int>)
    requires forall i :: 0 <= i < |v.enemies| ==> v.enemies[i].stones == []
    ensures var u := SuicideRecord(v, own, l);
      GoneFrom(u.enemies, 0) == Members(l) && DueFrom(u.enemies, 0) == EnemyIds(u) == EnemyIds(v) + {own}
  {
    var u := SuicideRecord(v, own, l);
    DueAll(u);
    EnemyIdsMore(v, EnemyRec(own, [], l), u.ncaptures);
    assert u.enemies[|v.enemies|].stones == l;
    forall y ensures y in GoneFrom(u.enemies, 0) <==> y in Members(l) { GoneIs(u.enemies, 0, y); }
  }

  lemma SunkOK(q: State, ch: Chains, m: Move, s: State, v: Record, ch1: Chains, w: State)
    requires Sinks(q, ch, m, s, v, ch1) && Sized(w) && !w.full
    requires K(w) == K(Capture(PlayOutside(q, m).0, PlayOutside(q, m).1))
    ensures Sunk(K(PlayOutside(q, m).0), ch1, PlayOutside(q, m).1, m.colour, w)
  {
    hide Sinks, Put, PlayOutside, Capture, TakenAll, Clear, Lively, Cover, Stony, Conn, Maximal, LibsOK, Reach, Links,
         Distinct;
    SinksDown(q, ch, m, s, v, ch1);
    PutColour(q, ch, m, s, v);
    var (o, own) := PlayOutside(q, m);
    assert ChainList(K(o), own, ch1[own]);
    CaptureCore(o, own, ch1[own]);
  }

  lemma SuicideRecorded(c1: Core, ch1: Chains, own: int, hue: Stone, v: Record, c: Core, ch: Chains, x: int)
    requires W(c1, ch1, QUIET) && own in ch1 && 0 < own < |c1.b| && c1.lib[own] == [] && own !in EnemyIds(v)
    requires Shape(c) && EnemiesOK(c, ch, x, hue, v) && IdsOK(c, ch, hue, v) && |c.lib| == |c1.lib| && |c.b| == |c.lib|
    requires forall i :: 0 <= i < |v.enemies| ==> v.enemies[i].stones == []
    ensures var t := c1.(lib := Reset(c1.lib, c.lib, EnemyIds(v))); var u := SuicideRecord(v, own, ch1[own]);
      Recorded(t, ch1, hue, EnemyIds(u), u.enemies)
  {
    hide Reach, LibsOK, Conn, Maximal, Stony, Cover, Touch, Framed;
    var t := c1.(lib := Reset(c1.lib, c.lib, EnemyIds(v)));
    var u := SuicideRecord(v, own, ch1[own]);
    LinkedIgnoresLib(c1, ch1, t.lib);
    assert ChainList(t, own, ch1[own]);
    forall i | 0 <= i < |v.enemies| ensures v.enemies[i].grp in EnemyIds(v) && u.enemies[i] == v.enemies[i] {}
    EnemyIdsMore(v, EnemyRec(own, [], ch1[own]), u.ncaptures);
    hide ChainList, EnemyIds, Linked;
  }

  /** Putting the chain back has a right board to aim at. */
  ghost predicate Restoring(w: State, t: Core, ch1: Chains, hue: Stone, u: Record) {
    Target(t, ch1, hue, EnemyIds(u)) && Recorded(t, ch1, hue, EnemyIds(u), u.enemies)
    && Half(w, t, ch1, hue, EnemyIds(u), GoneFrom(u.enemies, 0), DueFrom(u.enemies, 0))
  }

  lemma SuicideHalf(q: State, ch: Chains, m: Move, s: State, v: Record, ch1: Chains, w: State)
    requires Sinks(q, ch, m, s, v, ch1) && Sized(w) && !w.full
    requires K(w) == K(Capture(PlayOutside(q, m).0, PlayOutside(q, m).1))
    ensures PlayOutside(q, m).1 in ch1 && |q.lib| == |PlayOutside(q, m).0.lib|
    ensures var o := PlayOutside(q, m).0; var u := SuicideRecord(v, PlayOutside(q, m).1, ch1[PlayOutside(q, m).1]);
      Restoring(w, K(o).(lib := Reset(o.lib, q.lib, EnemyIds(v))), ch1, m.colour, u)
  {
    var (o, own) := PlayOutside(q, m);
    hide Sinks, Put, PlayOutside, Capture, Sunk, Down, W, EnemyIds, Reset, Recorded, Target, Missing, ListsHalf,
         GoneFrom, DueFrom, RestoreUpTo;
    SunkOK(q, ch, m, s, v, ch1, w);
    SunkParts(K(o), ch1, own, m.colour, w);
    SinksShape(q, ch, m, s, v, ch1);
    SinksInner(q, ch, m, s, v, ch1);
    OwnApart(q, ch, m, s, v, ch1);
    NoStones(q, ch, m, s, v, ch1);
    var l := ch1[own];
    var u := SuicideRecord(v, own, l);
    var t := K(o).(lib := Reset(o.lib, q.lib, EnemyIds(v)));
    SuicideSets(v, own, l);
    SuicideRecorded(K(o), ch1, own, m.colour, v, K(q), ch, m.coord);
    ResetTarget(K(o), ch1, m.colour, EnemyIds(v), EnemyIds(u), q.lib);
    SunkMissing(K(o), ch1, own, m.colour, w, t);
    SunkLists(K(o), ch1, own, m.colour, w, q.lib, EnemyIds(v));
  }

  lemma RestoringDone(w: State, t: Core, ch1: Chains, hue: Stone, u: Record)
    requires Restoring(w, t, ch1, hue, u) && Sized(w)
    ensures K(RestoreUpTo(w, u.enemies, hue, EnemyIds(u), |u.enemies|)) == t
  {
    hide Target, Recorded, Half, GoneFrom, DueFrom, EnemyIds, RestoreUpTo;
    var n := |u.enemies|;
    RestoreHalf(w, t, ch1, hue, EnemyIds(u), u.enemies, n);
    NothingFrom(u.enemies);
    HalfDone(RestoreUpTo(w, u.enemies, hue, EnemyIds(u), n), t, ch1, hue, EnemyIds(u));
  }

  lemma NothingFrom(es: seq<EnemyRec>)
    ensures GoneFrom(es, |es|) == {} && DueFrom(es, |es|) == {}
  {
  }

  lemma SunkParts(c1: Core, ch1: Chains, own: int, hue: Stone, w: State)
    requires Sunk(c1, ch1, own, hue, w)
    ensures W(c1, ch1, QUIET) && own in ch1 && 0 < own < |c1.b| && c1.lib[own] == [] && |c1.lib| == |c1.b|
  {
    hide W, Captured;
  }

  lemma SuicideRecordIs(q: State, ch: Chains, m: Move, s: State, v: Record, ch1: Chains)
    requires Sinks(q, ch, m, s, v, ch1)
    ensures PlayOutside(q, m).1 in ch1
    ensures var (o, own) := PlayOutside(q, m);
      SaveSuicide(o, SaveUpTo(q, InitRecord(q), m.coord, m.colour, 4), m.coord, m.colour,
          0).(lasts := o.lasts) == SuicideRecord(v, own, ch1[own])
  {
    var (o, own) := PlayOutside(q, m);
    hide *;
    SinksDown(q, ch, m, s, v, ch1);
    PutColour(q, ch, m, s, v);
    var j := FriendBeside(q, ch, m, s, v, ch1);
    SinksShape(q, ch, m, s, v, ch1);
    InnerToo(q, o, m.coord);
    var u1 := SaveUpTo(q, InitRecord(q), m.coord, m.colour, 4);
    PutRecord(q, ch, m, s, v);
    OwnApart(q, ch, m, s, v, ch1);
    EnemyIdsSame(u1, v);
    NoneDead(q, ch, m, s, v, ch1, q.g[Nb(q.st, m.coord, j)]);
    FriendsAreOwn(o, ch1, q.b, m, own);
    ChainIs(o, ch1, q.b, m, own);
    hide SuicideRecord, FriendsOwn;
    SuicideSaved(o, u1, v, m, own, ch1[own], j);
  }

  lemma InnerToo(q: State, o: State, x: int)
    requires Inner(q, x) && SameShape(q, o) && |o.b| == |q.b| && o.st == q.st
    ensures Inner(o, x) && |o.g| == |o.b| && |o.lib| == |o.b| && Sized(q) && |q.g| == |q.b|
  {
  }

  lemma SuicideSaved(o: State, u1: Record, v: Record, m: Move, own: int, l: seq<int>, j: int)
    requires Inner(o, m.coord) && 0 <= j < 4 && o.b[Nb(o.st, m.coord, j)] == m.colour && 0 <= own < |o.lib|
    requires o.lib[own] == []
    requires FriendsOwn(o, m, own) && own !in EnemyIds(u1) && ChainOf(o, own) == l && v == u1.(lasts := o.lasts)
    ensures SaveSuicide(o, u1, m.coord, m.colour, 0).(lasts := o.lasts) == SuicideRecord(v, own, l)
  {
    hide EnemyIds, ChainOf, SaveSuicide;
    SaveSuicideIs(o, u1, m.coord, m.colour, own, l, 0, j);
  }

  ghost predicate FriendsOwn(o: State, m: Move, own: int)
    requires Inner(o, m.coord)
  {
    forall i :: 0 <= i < 4 && o.b[Nb(o.st, m.coord, i)] == m.colour ==> o.g[Nb(o.st, m.coord, i)] == own
  }

  lemma FriendsAreOwn(o: State, ch1: Chains, b0: seq<Stone>, m: Move, own: int)
    requires Inner(o, m.coord) && Down(K(o), ch1, b0, m.coord, m.colour, own) && IsColour(m.colour)
    ensures FriendsOwn(o, m, own)
  {
    hide Down;
    forall i | 0 <= i < 4 && o.b[Nb(o.st, m.coord, i)] == m.colour ensures o.g[Nb(o.st, m.coord, i)] == own {
      OwnBeside(K(o), ch1, b0, m.coord, m.colour, own, Nb(o.st, m.coord, i));
    }
  }

  lemma PutRecord(q: State, ch: Chains, m: Move, s: State, v: Record)
    requires Put(q, ch, m, s, v)
    ensures v == SaveUpTo(q, InitRecord(q), m.coord, m.colour, 4).(lasts := PlayOutside(q, m).0.lasts)
  {
    hide PlayPoint, RecordOK, Trace, PlayOutside, SaveUpTo;
  }

  lemma EnemyIdsSame(u: Record, v: Record)
    requires v.enemies == u.enemies
    ensures EnemyIds(u) == EnemyIds(v)
  {
  }

  lemma ChainIs(o: State, ch1: Chains, b0: seq<Stone>, m: Move, own: int)
    requires Down(K(o), ch1, b0, m.coord, m.colour, own)
    ensures own in ch1 && ChainOf(o, own) == ch1[own]
  {
    hide Clear, Lively, Cover, Stony, Conn, Maximal, LibsOK, Reach, ChainList;
    WalkIsChain(K(o), own, ch1[own]);
  }

  // ------------------------------------------------------------ the core is back

  lemma SplitAlike(c: Core, ch: Chains, x: int, col: Stone, v: Record, u: Record)
    requires CanSplit(c, ch, x, col, v) && u.merged == v.merged && u.inserted == v.inserted && u.lasts == v.lasts
    ensures CanSplit(c, ch, x, col, u) && Home(u) == Home(v) && MergedIds(u) == MergedIds(v)
    ensures PAfter(c.p, ch, x, u, |u.merged|) == PAfter(c.p, ch, x, v, |v.merged|)
  {
    hide Touch, Framed, Linked, Cover;
    SameLinks(c.p, ch, x, v, u, |u.merged|);
    hide Touch, Framed, Linked, Cover;
  }

  /** What stands between the board with the chain back on it and the board before the move. */
  lemma SuicideFinal(c: Core, ch: Chains, x: int, col: Stone, v: Record, s: State, o: State, t: State, r: State)
    requires Trace(s, c, ch, x, col, v) && Before(c, ch, x, col, v) && Home(v) != 0 && v.merged != []
    requires DrawnOn(s, o, x, col, Home(v)) && (forall h :: h !in Dead(v)) && |o.lib| == |c.lib|
    requires forall h :: h in ch ==> 0 <= h < |c.b| && IsColour(c.b[h])
    requires t.lib == Reset(o.lib, c.lib, EnemyIds(v)) && t.b == o.b && t.g == o.g && t.st == o.st
    requires Unmerged(t, r, c, x, v)
    ensures Core(r.st, r.b[x := Empty], r.g[x := 0], r.p[x := c.p[x]], r.lib) == c
  {
    FromAll(v);
    hide MergedIds, EnemyIds, Dead, From;
    var g := r.g[x := 0];
    assert r.b[x := Empty] == c.b by { hide TraceG, TraceP, TraceLib; }
    assert g == c.g by { hide TraceB, TraceP, TraceLib; }
    forall h | 0 <= h < |c.lib| ensures r.lib[h] == c.lib[h] {
      hide TraceB, TraceG, TraceP;
      if h in ch && c.b[h] == col && h !in MergedIds(v) {
        ExtendsEmpty(c.lib[h], s.lib[h], CapturedNear(c, v, h)) by { assert forall z :: z !in CapturedNear(c, v, h); }
      }
    }
    assert r.lib == c.lib;
  }

  lemma UnmergedAlike(r: State, t: State, c: Core, x: int, v: Record, u: Record)
    requires Unmerged(r, t, c, x, u) && u.merged == v.merged && MergedIds(u) == MergedIds(v)
    ensures Unmerged(r, t, c, x, v)
  {
    assert From(u, 1) == From(v, 1);
    hide From, MergedIds;
  }

  /** The first step of undoing a suicide. */
  function PutBack(w: State, u: Record, m: Move): (r: State)
    requires Sized(w)
    ensures Kept(w, r)
  {
    RestoreUpTo(w.(caps := Bump(w.caps, Other(m.colour), -u.ncaptures)), u.enemies, m.colour, EnemyIds(u), |u.enemies|)
  }

  lemma UndoSuicideIs(w: State, u: Record, m: Move)
    requires Inner(w, m.coord) && |u.merged| > 0
    ensures UndoSuicide(w, u, m) == LiftPlayed(UndoMerge(PutBack(w, u, m), u, m.coord), u, m)
  {
    hide RestoreUpTo, UndoMerge, LiftPlayed;
  }

  lemma PutBackIs(w: State, u: Record, m: Move, t: Core, ch1: Chains)
    requires Sized(w) && Restoring(w.(caps := Bump(w.caps, Other(m.colour), -u.ncaptures)), t, ch1, m.colour, u)
    ensures K(PutBack(w, u, m)) == t
  {
    hide Restoring, RestoreUpTo;
    RestoringDone(w.(caps := Bump(w.caps, Other(m.colour), -u.ncaptures)), t, ch1, m.colour, u);
  }

  lemma CapsCore(w: State, caps: Tally)
    ensures var s := w.(caps := caps); K(s) == K(w) && Sized(s) == Sized(w) && s.full == w.full
  {
  }

  lemma PutBackOK(q: State, ch: Chains, m: Move, s: State, v: Record, ch1: Chains, w: State)
    requires Sinks(q, ch, m, s, v, ch1) && Sized(w) && !w.full
    requires K(w) == K(Capture(PlayOutside(q, m).0, PlayOutside(q, m).1))
    ensures PlayOutside(q, m).1 in ch1
    ensures |q.lib| == |PlayOutside(q, m).0.lib| == |PlayOutside(q, m).0.b| == |w.b| == |q.b|
    ensures var o := PlayOutside(q, m).0; var u := SuicideRecord(v, PlayOutside(q, m).1, ch1[PlayOutside(q, m).1]);
      K(PutBack(w, u, m)) == K(o).(lib := Reset(o.lib, q.lib, EnemyIds(v)))
  {
    hide *;
    SinksInner(q, ch, m, s, v, ch1);
    SuicideHalf(q, ch, m, s, v, ch1, w);
    var o := PlayOutside(q, m).0;
    var u := SuicideRecord(v, PlayOutside(q, m).1, ch1[PlayOutside(q, m).1]);
    CapsCore(w, Bump(w.caps, Other(m.colour), -u.ncaptures));
    SuicideHalf(q, ch, m, s, v, ch1, w.(caps := Bump(w.caps, Other(m.colour), -u.ncaptures)));
    PutBackIs(w, u, m, K(o).(lib := Reset(o.lib, q.lib, EnemyIds(v))), ch1);
    SunkOK(q, ch, m, s, v, ch1, w);
    SunkWide(K(o), ch1, PlayOutside(q, m).1, m.colour, w);
    assert K(o).b == o.b && K(o).lib == o.lib by { CoreParts(o); }
    SinksShape(q, ch, m, s, v, ch1);
  }

  lemma CoreParts(s: State)
    ensures K(s).st == s.st && K(s).b == s.b && K(s).g == s.g && K(s).p == s.p && K(s).lib == s.lib
  {
  }

  lemma SunkWide(c1: Core, ch1: Chains, own: int, hue: Stone, w: State)
    requires Sunk(c1, ch1, own, hue, w)
    ensures |w.b| == |c1.b| == |c1.lib|
  {
    hide W;
    assert w.b == K(w).b;
  }

  /** Putting back and splitting, up to the lifting of the stone. */
  lemma SplitBackOK(q: State, ch: Chains, m: Move, s: State, v: Record, ch1: Chains, w: State, u: Record)
    requires Sinks(q, ch, m, s, v, ch1) && Sized(w) && !w.full
    requires K(w) == K(Capture(PlayOutside(q, m).0, PlayOutside(q, m).1))
    requires PlayOutside(q, m).1 in ch1 && u == SuicideRecord(v, PlayOutside(q, m).1, ch1[PlayOutside(q, m).1])
    ensures |u.merged| > 0 && 0 <= m.coord < |PutBack(w, u, m).b| && Inner(w, m.coord)
    ensures Unmerged(PutBack(w, u, m), UndoMerge(PutBack(w, u, m), u, m.coord), K(q), m.coord, v)
  {
    hide Sinks, Put, PlayOutside, Capture, EnemyIds, MergedIds, Reset, CanSplit, Unmerged, UndoMerge, PAfter, PutBack,
         LibOK;
    SinksDown(q, ch, m, s, v, ch1);
    PutColour(q, ch, m, s, v);
    PutBackOK(q, ch, m, s, v, ch1, w);
    FriendJoined(q, ch, m, s, v, ch1);
    SplitReady(q, ch, m, s, v);
    hide Down;
    SplitAlike(K(q), ch, m.coord, m.colour, v, u);
    var s2 := PutBack(w, u, m);
    UndoMergeOK(s2, K(q), ch, m.coord, m.colour, u);
    UnmergedAlike(s2, UndoMerge(s2, u, m.coord), K(q), m.coord, v, u);
  }

  lemma LiftedIs(s: State, u: Record, m: Move)
    requires Inner(s, m.coord)
    ensures var x := m.coord;
      K(LiftPlayed(s, u, m)) == Core(s.st, s.b[x := Empty], s.g[x := 0], s.p[x := u.nextAt], s.lib)
  {
    LiftCore(s, u, m);
  }

  /** Undoing a suicide: chains, links and lists are what they were. */
  lemma UndoSuicideCore(q: State, ch: Chains, m: Move, s: State, v: Record, ch1: Chains, w: State)
    requires Sinks(q, ch, m, s, v, ch1) && Sized(w) && !w.full
    requires K(w) == K(Capture(PlayOutside(q, m).0, PlayOutside(q, m).1))
    ensures PlayOutside(q, m).1 in ch1 && Inner(w, m.coord)
    ensures K(UndoSuicide(w, SuicideRecord(v, PlayOutside(q, m).1, ch1[PlayOutside(q, m).1]), m)) == K(q)
  {
    hide Sinks, PlayOutside, Capture, EnemyIds, Reset, Unmerged, UndoMerge, LiftPlayed, PutBack, UndoSuicide;
    SinksInner(q, ch, m, s, v, ch1);
    PutBackOK(q, ch, m, s, v, ch1, w);
    var u := SuicideRecord(v, PlayOutside(q, m).1, ch1[PlayOutside(q, m).1]);
    SplitBackOK(q, ch, m, s, v, ch1, w, u);
    UndoSuicideIs(w, u, m);
    var s3 := UndoMerge(PutBack(w, u, m), u, m.coord);
    LiftedIs(s3, u, m);
    SuicideEnds(q, ch, m, s, v, ch1, PutBack(w, u, m), s3);
  }

  lemma SuicideEnds(q: State, ch: Chains, m: Move, s: State, v: Record, ch1: Chains, t: State, r: State)
    requires Sinks(q, ch, m, s, v, ch1) && Unmerged(t, r, K(q), m.coord, v) && Sized(r)
    requires |PlayOutside(q, m).0.lib| == |q.lib|
    requires var o := PlayOutside(q, m).0; K(t) == K(o).(lib := Reset(o.lib, q.lib, EnemyIds(v)))
    ensures 0 <= m.coord < |r.b| && v.nextAt == q.p[m.coord]
    ensures var x := m.coord; Core(r.st, r.b[x := Empty], r.g[x := 0], r.p[x := v.nextAt], r.lib) == K(q)
  {
    hide Sinks, Put, PlayOutside, Down, W, EnemyIds, MergedIds, Reset, Unmerged, PlayPoint, RecordOK, Trace, Before,
         MergesOK, EnemiesOK, DrawnOn, Dead, Linked, Cover;
    SinksDown(q, ch, m, s, v, ch1);
    PutFacts(q, ch, m, s, v);
    PutColour(q, ch, m, s, v);
    PutDrawn(q, ch, m, s, v);
    BeforeOK(q, ch, m.coord, m.colour, v, 4);
    FriendJoined(q, ch, m, s, v, ch1);
    forall h ensures h !in Dead(v) { NoneDead(q, ch, m, s, v, ch1, h); }
    forall h | h in ch ensures 0 <= h < |q.b| && IsColour(q.b[h]) { IdHue(K(q), ch, h); }
    SuicideFinal(K(q), ch, m.coord, m.colour, v, s, PlayOutside(q, m).0, t, r);
  }

  lemma PutDrawn(q: State, ch: Chains, m: Move, s: State, v: Record)
    requires Put(q, ch, m, s, v)
    ensures DrawnOn(s, PlayOutside(q, m).0, m.coord, m.colour, Home(v)) && v.nextAt == q.p[m.coord]
  {
    hide PlayPoint, RecordOK, Trace, DrawnOn;
  }
}
