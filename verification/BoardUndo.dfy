/** Trying a move out on the board itself, and taking it back: the routines update the arrays in
    place, and each leaves exactly the state its function computes. */
module BoardUndo {
  import opened Grid
  import opened LibList
  import opened Engine
  import opened Invariant
  import opened Steps
  import opened Books
  import opened Moves
  import opened Rules
  import opened PlayTheorem
  import opened Reachable
  import opened Legality
  import opened Undo
  import opened UndoTrace
  import opened UndoPlay
  import opened UndoSplit
  import opened UndoRestore
  import opened UndoStones
  import opened UndoCore
  import opened UndoSuicides
  import opened UndoTheorem
  import opened GoBoard
  import CounterCaptures

  // ------------------------------------------------------------ lists as group records

  predicate ListFits(l: seq<int>, size: int) { |l| <= KEEP && forall k :: 0 <= k < |l| ==> 0 < l[k] < size }

  function Packed(l: seq<int>): GroupInfo
    requires |l| <= KEEP
  {
    GroupInfo(|l|, l + Zeros(KEEP - |l|, 0))
  }

  lemma PackedOK(l: seq<int>, size: int)
    requires ListFits(l, size) && size > 0
    ensures InfoOK(Packed(l), size) && ListOf(Packed(l)) == l
  {
  }

  /** On a sound board every list fits its group record. */
  lemma SoundListFits(s: State, h: int)
    requires Sound(s) && 0 <= h < |s.b|
    ensures h < |s.lib| && ListFits(s.lib[h], |s.b|)
  {
    hide Sound, Reach;
    if !IsColour(s.b[h]) {
      UnusedListsEmpty(s, h);
    } else {
      ListedLiberties(s, h);
      if s.g[h] != h {
        UnusedListsEmpty(s, h);
      } else {
        var l := s.lib[h];
        forall k | 0 <= k < |l| ensures 0 < l[k] < |s.b| {
          assert l[k] in Liberties(s, h);
          EmptyIsInner(s, l[k]);
        }
      }
    }
  }

  ghost predicate ListsFit(c: Core) { forall h :: 0 <= h < |c.lib| ==> ListFits(c.lib[h], |c.b|) }

  // ------------------------------------------------------------ the record

  /** A chain that the move will merge, saved once. */
  method RecordMerge(bd: Board, u: Record, grp: int, c: int) returns (v: Record)
    requires bd.Valid() && 0 <= grp < bd.gi.Length
    ensures v == SaveMerge(bd.Snap(), u, grp, c)
  {
    hide InfoOK, ListOf, ListsOf;
    ListAt(bd.gi[..], grp);
    if SavedMerge(u, grp) { return u; }
    v := u.(inserted := if |u.merged| == 0 then c else u.inserted,
        merged := u.merged + [MergeRec(grp, ListOf(bd.gi[grp]))]);
  }

  /** A chain of the other colour, with its stones if the move will capture it. */
  method RecordEnemy(bd: Board, u: Record, grp: int, ghost l: seq<int>) returns (v: Record)
    requires bd.Valid() && 0 <= grp < bd.gi.Length && ChainList(K(bd.Snap()), grp, l)
    ensures v == SaveEnemy(bd.Snap(), u, grp)
  {
    hide InfoOK, ListOf, ListsOf, ChainList, Links;
    ghost var core := K(bd.Snap());
    WalkIsChain(core, grp, l);
    InUse(bd.gi[grp], 1, bd.b.Length);
    ListAt(bd.gi[..], grp);
    if SavedEnemy(u, grp) { return u; }
    var stones: seq<int> := [];
    if bd.gi[grp].libs <= 1 {
      ChainStarts(core, grp, l);
      LinkNext(core, grp, l, 0);
      var c := grp;
      ghost var k := 0;
      while c != 0
        invariant 0 <= k <= |l| && c == (if k < |l| then l[k] else 0) && stones == l[..k]
        decreases |l| - k
      {
        LinkNext(core, grp, l, k);
        stones := stones + [c];
        c := bd.p[c];
        k := k + 1;
      }
      if k < |l| { LinkNext(core, grp, l, k); }
      assert l[..|l|] == l;
    }
    v := u.(enemies := u.enemies + [EnemyRec(grp, ListOf(bd.gi[grp]), stones)], ncaptures := u.ncaptures + |stones|);
  }

  lemma ChainAt(s: State, ch: Chains, h: int)
    requires Quiet(K(s), ch) && h in ch
    ensures ChainList(K(s), h, ch[h])
  {
    hide Reach, Maximal, Conn, LibsOK, Cover, ChainList, Lively;
  }

  lemma PointQuiet(s: State, ch: Chains, x: int, col: Stone)
    requires PlayPoint(s, ch, x, col)
    ensures Quiet(K(s), ch)
  {
    hide Quiet;
  }

  lemma SavedNext(s: State, u: Record, x: int, col: Stone, k: int)
    requires 0 <= k < 4 && Inner(s, x)
    ensures SaveUpTo(s, u, x, col, 0) == u.(nextAt := s.p[x])
    ensures var c := Nb(s.st, x, k); var u1 := SaveUpTo(s, u, x, col, k); var grp := s.g[c];
      0 <= grp < |s.lib| ==> SaveUpTo(s, u, x, col, k + 1) == if s.b[c] == col then SaveMerge(s, u1, grp, c)
        else if s.b[c] == Other(col) then SaveEnemy(s, u1, grp) else u1
  {
    hide SaveMerge, SaveEnemy;
  }

  /** The chains around the point, neighbour by neighbour. */
  method RecordAround(bd: Board, u0: Record, x: int, col: Stone, ghost ch: Chains) returns (u: Record)
    requires bd.Valid() && PlayPoint(bd.Snap(), ch, x, col)
    ensures Inner(bd.Snap(), x) && u == SaveUpTo(bd.Snap(), u0, x, col, 4)
  {
    hide InfoOK, ListOf, ListsOf, ChainList, PlayPoint, SaveUpTo, SaveMerge, SaveEnemy, Quiet, ChainsRight, Touch;
    ghost var s := bd.Snap();
    NbChain(s, ch, x, col, 0);
    PointQuiet(s, ch, x, col);
    SavedNext(s, u0, x, col, 0);
    u := u0.(nextAt := bd.p[x]);
    var k := 0;
    while k < 4
      invariant 0 <= k <= 4 && u == SaveUpTo(s, u0, x, col, k)
    {
      NbChain(s, ch, x, col, k);
      SavedNext(s, u0, x, col, k);
      var c := Nb(bd.st, x, k);
      var grp := bd.g[c];
      if bd.b[c] == col {
        u := RecordMerge(bd, u, grp, c);
      } else if bd.b[c] == Other(col) {
        if bd.b[c] != Empty && bd.b[c] != Off { ChainAt(s, ch, grp); }
        u := RecordEnemy(bd, u, grp, ch[grp]);
      }
      k := k + 1;
    }
  }

  lemma SuicideNext(s: State, u: Record, x: int, col: Stone, k: int)
    requires 0 <= k < 4 && Inner(s, x)
    ensures SaveSuicide(s, u, x, col, 4) == u
    ensures var c := Nb(s.st, x, k); s.b[c] != col ==> SaveSuicide(s, u, x, col, k) == SaveSuicide(s, u, x, col, k + 1)
    ensures var c := Nb(s.st, x, k);
      s.b[c] == col && 0 <= s.g[c] < |s.lib| ==> SaveSuicide(s, u, x, col, k) == SaveEnemy(s, u, s.g[c])
  {
    hide SaveEnemy;
  }

  /** The suicide of the chain just played, saved like a capture. */
  method RecordSuicide(bd: Board, u: Record, m: Move, own: int, ghost l: seq<int>) returns (v: Record)
    requires bd.Valid() && 0 <= own < bd.gi.Length && ChainList(K(bd.Snap()), own, l) && Inner(bd.Snap(), m.coord)
    requires FriendsOwn(bd.Snap(), m, own)
    ensures v == SaveSuicide(bd.Snap(), u, m.coord, m.colour, 0)
  {
    hide InfoOK, ListOf, ListsOf, ChainList, SaveSuicide, SaveEnemy;
    ghost var s := bd.Snap();
    SuicideNext(s, u, m.coord, m.colour, 0);
    var k := 0;
    while k < 4
      invariant 0 <= k <= 4 && SaveSuicide(s, u, m.coord, m.colour, 0) == SaveSuicide(s, u, m.coord, m.colour, k)
    {
      SuicideNext(s, u, m.coord, m.colour, k);
      var c := Nb(bd.st, m.coord, k);
      if bd.b[c] == m.colour {
        v := RecordEnemy(bd, u, bd.g[c], l);
        return;
      }
      k := k + 1;
    }
    v := u;
  }

  // ------------------------------------------------------------ the quick play

  lemma FollowsChain(q: State, ch: Chains, m: Move) returns (ch1: Chains)
    requires Sound(q) && Quiet(K(q), ch) && IsColour(m.colour) && Inner(q, m.coord) && q.b[m.coord] == Empty
    requires !Walled(q.b, q.st, m.coord, Other(m.colour))
    ensures Inner(q, m.coord) && var (o, own) := PlayOutside(q, m);
      Down(K(o), ch1, q.b, m.coord, m.colour, own) && own in ch1 && 0 < own < |o.b| && |o.lib| == |o.b|
        && ChainList(K(o), own, ch1[own])
    ensures Inner(PlayOutside(q, m).0, m.coord) && FriendsOwn(PlayOutside(q, m).0, m, PlayOutside(q, m).1)
  {
    hide Sound, Quiet, Walled, PlayOutside, Down, BooksOK, FriendsOwn;
    SoundBooks(q);
    ch1 := OutsideDown(q, ch, m);
    var (o, own) := PlayOutside(q, m);
    DownShape(K(o), ch1, q.b, m.coord, m.colour, own);
    InnerToo(q, o, m.coord);
    FriendsAreOwn(o, ch1, q.b, m, own);
  }

  lemma DownShape(c: Core, ch: Chains, b0: seq<Stone>, x: int, col: Stone, own: int)
    requires Down(c, ch, b0, x, col, own)
    ensures own in ch && 0 < own < |c.b| && |c.lib| == |c.b| && |c.b| == |b0| && ChainList(c, own, ch[own])
  {
    hide Clear, Lively, Stony, Conn, Maximal, LibsOK, Reach, ChainList;
    IdPositive(c, ch, own);
  }

  /** What a quick play of an accepted stone records, but for the ends of merged chains. */
  function StoneRecord(q: State, u0: Record, m: Move): Record
    requires Inner(q, m.coord)
  {
    var u1 := SaveUpTo(q, u0, m.coord, m.colour, 4);
    if Drowns(q, m) then SaveSuicide(PlayOutside(q, m).0, u1, m.coord, m.colour, 0) else u1
  }

  /** A stone on the quick board, with its record. Saving comes before the board is touched, and
      before a drowned chain is taken off. */
  method TryStone(bd: Board, m: Move, u0: Record, ghost ch: Chains) returns (ok: bool, u: Record)
    requires bd.Valid() && !bd.full && Sound(bd.Snap()) && Quiet(K(bd.Snap()), ch) && IsColour(m.colour)
    requires 0 <= m.coord < bd.b.Length && bd.b[m.coord] == Empty
    modifies bd, bd.b, bd.n, bd.g, bd.p, bd.gi, bd.fmap
    ensures bd.Valid() && Inner(old(bd.Snap()), m.coord) && (bd.Snap(), ok) == PlayStone(old(bd.Snap()), m)
    ensures u == if ok then StoneRecord(old(bd.Snap()), u0, m) else u0
  {
    hide AtariOK, InfoOK, ListsOf, ListOf, Quiet, BooksOK, PlayOutside, PlayInEye, Capture, Eyelike, Walled, Sound,
         SaveUpTo, SaveSuicide, FriendsOwn, Down, ChainList;
    ghost var s := bd.Snap();
    SoundBooks(s);
    Ready(s, ch, m);
    EyeTest(s, ch, m);
    u := RecordAround(bd, u0, m.coord, m.colour, ch);
    if CountOf(bd.n[m.coord], Other(m.colour)) + bd.n[m.coord].off == 4 {
      ok := bd.PlayInEye(m, ch);
      if !ok { u := u0; }
    } else {
      ghost var ch1 := FollowsChain(s, ch, m);
      var grp := bd.PlayOutside(m, ch);
      ListAt(bd.gi[..], grp);
      InUse(bd.gi[grp], 1, bd.b.Length);
      if bd.gi[grp].libs == 0 {
        u := RecordSuicide(bd, u, m, grp, ch1[grp]);
        var stones := bd.Capture(grp, ch1[grp]);
      }
      ok := true;
    }
  }

  /** The quick play: the move is made with the side indexes left alone. */
  method TryMove(bd: Board, m: Move) returns (ok: bool, u: Record)
    requires bd.Valid() && Sound(Quick(bd.Snap())) && Offered(bd.Snap(), m)
    modifies bd, bd.b, bd.n, bd.g, bd.p, bd.gi, bd.fmap
    ensures bd.Valid() && Sized(old(bd.Snap())) && (bd.Snap(), ok, u) == QuickPlay(old(bd.Snap()), m)
  {
    hide AtariOK, InfoOK, ListsOf, ListOf, Quiet, BooksOK, PlayStone, StoneRecord, KoOK;
    ghost var s := bd.Snap();
    QuickSized(s);
    var fullWas, lastsWas := bd.full, bd.lasts;
    bd.full, bd.lasts := false, [];
    ghost var q := Quick(s);
    assert bd.Snap() == q;
    u := Record(bd.recent[(4 + bd.recentAt - 1) % 4], bd.ko, bd.lastKo, bd.lastKoAge, 0, 0, [], [], [], 0);
    assert u == InitRecord(s);
    if m.coord == PASS {
      bd.PassMove(m);
      ok := true;
    } else if bd.b[m.coord] != Empty {
      ok := false;
    } else {
      ghost var ch :| Quiet(K(q), ch);
      EmptyIsInner(q, m.coord);
      ok, u := TryStone(bd, m, u, ch);
      if ok { u := u.(lasts := bd.lasts); }
    }
    QuickPlayParts(s, m);
    bd.full, bd.lasts := fullWas, lastsWas;
  }

  lemma QuickPlayParts(s: State, m: Move)
    requires Sized(s) && Offered(s, m)
    ensures m.coord == PASS ==> QuickPlay(s, m) == (Play(Quick(s), m).0.(full := s.full, lasts := s.lasts), true,
        InitRecord(s))
    ensures m.coord != PASS && s.b[m.coord] != Empty ==> QuickPlay(s, m) == (s, false, InitRecord(s))
    ensures m.coord != PASS && s.b[m.coord] == Empty && Inner(s, m.coord) ==>
      QuickPlay(s, m) == QuickStone(s, m)
  {
    hide PlayStone, SaveUpTo, SaveSuicide, PlayOutside, Eyelike;
  }

  function QuickStone(s: State, m: Move): (State, bool, Record)
    requires Inner(s, m.coord)
  {
    var q := Quick(s);
    var (r, ok) := PlayStone(q, m);
    (r.(full := s.full, lasts := s.lasts), ok, if ok then StoneRecord(q, InitRecord(s),
        m).(lasts := r.lasts) else InitRecord(s))
  }

  // ------------------------------------------------------------ splitting merged chains

  /** A chain of the record is linked as it was once the later ones are split off. */
  lemma ListLinked(c: Core, ch: Chains, x: int, col: Stone, u: Record, i: nat)
    requires CanSplit(c, ch, x, col, u) && 1 <= i < |u.merged|
    ensures var h := u.merged[i].grp; var p := PAfter(c.p, ch, x, u, i);
      h in ch && |p| == |c.p| && ChainList(c.(p := p), h, ch[h])
  {
    hide Touch, Framed, Cover;
    var h := u.merged[i].grp;
    IdPositive(c, ch, h);
    var p, l := PAfter(c.p, ch, x, u, i), ch[h];
    assert ChainList(c, h, l);
    forall k | 0 <= k < |l| ensures p[l[k]] == c.p[l[k]] {
      assert Pt(c, l[k]) && c.g[l[k]] == h;
      LinkKept(c, ch, x, col, u, i, l[k]);
    }
    assert Links(p, l);
  }

  /** The ids of a chain that is linked but still labelled otherwise. */
  method RelabelLinked(bd: Board, was: int, ghost core: Core, ghost l: seq<int>)
    requires bd.Valid() && ChainList(core, was, l) && core.p == bd.p[..] && |core.b| == bd.b.Length && core.st == bd.st
    modifies bd.g
    ensures bd.Valid() && (forall j :: 0 <= j < |l| ==> 0 <= l[j] < bd.g.Length)
    ensures bd.g[..] == Relabel(old(bd.g[..]), l, was, |l|)
  {
    hide ChainList, Links, Relabel, ListsOf, InfoOK;
    ghost var g0, k := bd.g[..], 0;
    ChainStarts(core, was, l);
    LinkNext(core, was, l, 0);
    forall j | 0 <= j < |l| ensures 0 <= l[j] < bd.g.Length { LinkNext(core, was, l, j); }
    NoneRelabelled(g0, l, was);
    var c := was;
    while c != 0
      invariant 0 <= k <= |l| && c == (if k < |l| then l[k] else 0) && bd.g[..] == Relabel(g0, l, was, k)
      decreases |l| - k
    {
      LinkNext(core, was, l, k);
      NextRelabelled(g0, l, was, k);
      bd.g[c] := was;
      c := bd.p[c];
      k := k + 1;
    }
    if k < |l| { LinkNext(core, was, l, k); }
  }

  lemma FitsAt(c: Core, h: int)
    requires ListsFit(c) && 0 <= h < |c.lib|
    ensures ListFits(c.lib[h], |c.b|)
  {
  }

  /** One merged chain split off: its list, its links and its ids. */
  method SplitChain(bd: Board, u: Record, i: nat, grp: int, ghost r: State, ghost x: int, ghost c: Core,
      ghost ch: Chains, ghost col: Stone)
    requires bd.Valid() && CanSplit(c, ch, x, col, u) && ListsFit(c)
    requires |c.b| == |c.g| == |c.lib| == |c.p| == bd.b.Length && c.st == bd.st
    requires 0 < i < |u.merged| && grp == Home(u) && Sized(r) && |r.g| == |c.g| && |r.lib| == |c.lib|
    requires r.p == PAfter(c.p, ch, x, u, |u.merged|)
    requires bd.Snap() == SplitFrom(r, u, grp, i + 1)
    modifies bd.g, bd.p, bd.gi
    ensures bd.Valid() && bd.Snap() == SplitFrom(r, u, grp, i)
  {
    hide CanSplit, PAfter, SplitFrom, SplitTo, InfoOK, ListOf, ListsOf, Packed, ListFits, ListsFit, ChainList, Relabel;
    ghost var t := bd.Snap();
    SplitLoop(r, c, ch, x, col, u, i + 1);
    SplitOne(r, t, c, ch, x, col, u, i);
    MergedLib(c, ch, x, col, u, i);
    LastRecorded(c, ch, x, col, u, i);
    ListKept(c, ch, x, col, u, i);
    ListLinked(c, ch, x, col, u, i);
    UnlinkOne(c.p, ch, x, u, i);
    SplitLinks(r, t, c, ch, x, u, i + 1);
    FitsAt(c, u.merged[i].grp);
    var was, last := u.merged[i].grp, u.lasts[i - 1];
    PutList(bd, was, u.merged[i].lib);
    bd.p[grp] := bd.p[last];
    bd.p[last] := 0;
    RelabelLinked(bd, was, c.(p := bd.p[..]), ch[was]);
  }

  /** A saved list back into its group record. */
  method PutList(bd: Board, h: int, l: seq<int>)
    requires bd.Valid() && 0 <= h < bd.gi.Length && ListFits(l, bd.b.Length)
    modifies bd.gi
    ensures bd.Valid() && 0 <= h < |old(bd.Snap()).lib|
    ensures bd.Snap() == old(bd.Snap()).(lib := old(bd.Snap()).lib[h := l])
  {
    hide InfoOK, ListOf, ListsOf, Packed, ListFits;
    PackedFits(l, bd.b.Length);
    PackedOK(l, bd.b.Length);
    ListsUpdate(bd.gi[..], h, Packed(l));
    ghost var was := bd.gi[..];
    bd.gi[h] := Packed(l);
    assert bd.gi[..] == was[h := Packed(l)];
  }

  /** The merged chains split off again, the last one first, and then the first chain restored. */
  method SplitMerges(bd: Board, u: Record, x: int, ghost c: Core, ghost ch: Chains, ghost col: Stone)
    requires bd.Valid() && CanSplit(c, ch, x, col, u) && ListsFit(c)
    requires |c.b| == |c.g| == |c.lib| == |c.p| == bd.b.Length && c.st == bd.st
    requires 0 <= x < bd.b.Length && bd.g[x] == Home(u) && bd.p[..] == PAfter(c.p, ch, x, u, |u.merged|)
    modifies bd.g, bd.p, bd.gi
    ensures bd.Valid() && |u.merged| > 0 && bd.Snap() == UndoMerge(old(bd.Snap()), u, x)
  {
    hide CanSplit, PAfter, SplitFrom, SplitTo, InfoOK, ListOf, ListsOf, ListFits, ListsFit, ChainList;
    ghost var r := bd.Snap();
    var grp := bd.g[x];
    FirstRecord(c, ch, x, col, u);
    var i := |u.merged| - 1;
    SplitNone(r, u, grp);
    while i > 0
      invariant 0 <= i < |u.merged| && bd.Valid() && bd.Snap() == SplitFrom(r, u, grp, i + 1)
    {
      SplitChain(bd, u, i, grp, r, x, c, ch, col);
      i := i - 1;
    }
    FitsAt(c, Home(u));
    bd.p[u.inserted] := bd.p[x];
    PutList(bd, u.merged[0].grp, u.merged[0].lib);
  }

  lemma PackedFits(l: seq<int>, size: int)
    requires ListFits(l, size)
    ensures |l| <= KEEP
  {
  }

  lemma SplitNone(r: State, u: Record, grp: int)
    requires Sized(r) && |u.merged| >= 1
    ensures SplitFrom(r, u, grp, |u.merged|) == r
  {
  }

  lemma SplitLinks(r: State, t: State, c: Core, ch: Chains, x: int, u: Record, i: nat)
    requires SplitTo(r, t, c, ch, x, u, i)
    ensures t.p == PAfter(c.p, ch, x, u, i)
  {
  }

  // ------------------------------------------------------------ captured stones back

  /** With some stones still missing, a chain whose list gets repaired is linked as it will be. */
  lemma MissingChain(s: State, t: Core, ch: Chains, hue: Stone, spared: set<int>, gone: set<int>, y: int)
    requires Target(t, ch, hue, spared) && Missing(s, t, hue, gone) && 0 <= y < |s.b| && s.b[y] == Other(hue)
    requires s.g[y] !in spared
    ensures var h := s.g[y]; h in ch && 0 < h < |s.b| && h < |s.lib| && ChainList(K(s), h, ch[h])
  {
    hide Reach, Framed, LibOK, Libs, Linked, Links;
    assert y !in gone;
    var h := t.g[y];
    assert Repaired(t, ch, hue, spared, h);
    var l := ch[h];
    assert ChainList(t, h, l);
    forall i | 0 <= i < |l| ensures Pt(K(s), l[i]) && s.g[l[i]] == h {
      assert Pt(t, l[i]) && t.g[l[i]] == h;
      assert t.b[l[i]] == Other(hue);
    }
  }

  lemma CountNext(s: State, c: int, hue: Stone, k: int)
    requires 0 <= k < 4 && Inner(s, c)
    ensures CountBack(s, c, hue, 0) == s
    ensures var t := CountBack(s, c, hue, k); var y := Nb(s.st, c, k);
      CountBack(s, c, hue, k + 1) == t.(n := t.n[y := BumpN(t.n[y], hue, 1)])
  {
  }

  lemma ShrinkNext(s: State, c: int, hue: Stone, spared: set<int>, k: int)
    requires 0 <= k < 4 && Inner(s, c)
    ensures ShrinkBack(s, c, hue, spared, 0) == s
    ensures var t := ShrinkBack(s, c, hue, spared, k); var y := Nb(s.st, c, k);
      ShrinkBack(s, c, hue, spared, k + 1) == if t.b[y] == Other(hue) && 0 <= t.g[y] < |t.lib|
        && t.g[y] !in spared then RemoveLib(t, t.g[y], c) else t
  {
    hide RemoveLib;
  }

  ghost predicate Halfway(s: State, t: Core, ch: Chains, hue: Stone, spared: set<int>, gone: set<int>, due: set<int>) {
    Target(t, ch, hue, spared) && DueOK(t, ch, hue, spared, due) && |t.p| == |t.b|
      && Half(s, t, ch, hue, spared, gone, due)
  }

  lemma HalfwayFacts(s: State, t: Core, ch: Chains, hue: Stone, spared: set<int>, gone: set<int>, due: set<int>, z: int)
    requires Halfway(s, t, ch, hue, spared, gone, due) && z in gone
    ensures IsColour(hue) && Inner(s, z) && s.st < z < |s.b| - s.st && |t.b| == |s.b| == |t.g| == |t.p| && !s.full
  {
    hide Repaired, RightList, Extends, Near;
  }

  lemma CountedStart(s: State, t: Core, ch: Chains, hue: Stone, spared: set<int>, gone: set<int>, due: set<int>, z: int)
    requires Halfway(s, t, ch, hue, spared, gone, due) && z in gone
    ensures Inner(s, z) && 0 <= z < |t.p| && 0 <= z < |t.g|
    ensures var s1 := s.(b := s.b[z := hue], g := s.g[z := t.g[z]], p := s.p[z := t.p[z]]);
      var s2 := CountBack(s1, z, hue, 4);
      Inner(s1, z) && Missing(s2, t, hue, gone - {z}) && s2.st == s.st && |s2.lib| == |t.lib| && t.st >= 3
        && t.st < z < |t.b| - t.st
      && Shrunk(s2, t, ch, hue, spared, gone, due, z, 0) && t.b[z] == hue && Interiors(t, gone)
  {
    hide Target, Repaired, CountBack, Extends, Near, DueOK;
    var s1 := s.(b := s.b[z := hue], g := s.g[z := t.g[z]], p := s.p[z := t.p[z]]);
    assert s1.p == t.p;
    CountBackOnly(s1, z, hue, 4);
    var s2 := CountBack(s1, z, hue, 4);
    assert Missing(s2, t, hue, gone - {z});
    ShrunkStart(s2, t, ch, hue, spared, gone, due, z);
    GoneInside(s, t, hue, gone);
  }

  /** One captured stone put back. */
  method PutStoneBack(bd: Board, c: int, next: int, was: int, hue: Stone, spared: set<int>,
                      ghost t: Core, ghost ch: Chains, ghost gone: set<int>, ghost due: set<int>)
    requires bd.Valid() && Halfway(bd.Snap(), t, ch, hue, spared, gone, due) && c in gone
    requires 0 <= c < |t.p| == |t.g| && next == t.p[c] && was == t.g[c]
    modifies bd`atari, bd.b, bd.n, bd.g, bd.p, bd.gi
    ensures bd.Valid() && Inner(old(bd.Snap()), c) && bd.Snap() == StoneBack(old(bd.Snap()), c, next, was, hue, spared)
  {
    hide AtariOK, InfoOK, ListOf, ListsOf, ChainList, Halfway, Target, DueOK, Half, Missing, Shrunk, RemoveLib,
         CountBack, ShrinkBack, Interiors, BumpN;
    ghost var s := bd.Snap();
    HalfwayFacts(s, t, ch, hue, spared, gone, due, c);
    CountedStart(s, t, ch, hue, spared, gone, due, c);
    HalfwayParts(s, t, ch, hue, spared, gone, due);
    bd.b[c] := hue;
    bd.g[c] := was;
    bd.p[c] := next;
    ghost var s1 := bd.Snap();
    assert s1 == s.(b := s.b[c := hue], g := s.g[c := was], p := s.p[c := next]);
    CountNext(s1, c, hue, 0);
    var k := 0;
    while k < 4
      invariant 0 <= k <= 4 && bd.Valid() && bd.Snap() == CountBack(s1, c, hue, k)
    {
      CountNext(s1, c, hue, k);
      var y := Nb(bd.st, c, k);
      bd.n[y] := BumpN(bd.n[y], hue, 1);
      k := k + 1;
    }
    ghost var s2 := bd.Snap();
    CountBackOnly(s1, c, hue, 4);
    ShrinkNext(s2, c, hue, spared, 0);
    k := 0;
    while k < 4
      invariant 0 <= k <= 4 && bd.Valid() && bd.Snap() == ShrinkBack(s2, c, hue, spared, k)
    {
      ghost var r := bd.Snap();
      ShrinkNext(s2, c, hue, spared, k);
      ShrinkLoop(s2, t, ch, hue, spared, gone, due, c, k);
      MissingSized(r, t, hue, gone - {c});
      var y := Nb(bd.st, c, k);
      if bd.b[y] == Other(hue) {
        var grp := bd.g[y];
        if grp !in spared {
          MissingChain(r, t, ch, hue, spared, gone - {c}, y);
          bd.RemoveLib(grp, c, ch[grp]);
        }
      }
      k := k + 1;
    }
  }

  lemma MissingSized(s: State, t: Core, hue: Stone, gone: set<int>)
    requires Missing(s, t, hue, gone)
    ensures Sized(s) && !s.full
  {
  }

  lemma HalfwayParts(s: State, t: Core, ch: Chains, hue: Stone, spared: set<int>, gone: set<int>, due: set<int>)
    requires Halfway(s, t, ch, hue, spared, gone, due)
    ensures Target(t, ch, hue, spared) && DueOK(t, ch, hue, spared, due) && Half(s, t, ch, hue, spared, gone, due)
  {
    hide Target, DueOK, Half;
  }

  lemma BackNext(s: State, l: seq<int>, was: int, hue: Stone, spared: set<int>, j: int)
    requires 0 <= j < |l| && Sized(s)
    ensures StonesBack(s, l, was, hue, spared, 0) == s
    ensures var r := StonesBack(s, l, was, hue, spared, j); Inner(r, l[j]) ==>
      StonesBack(s, l, was, hue, spared, j + 1) ==
        StoneBack(r, l[j], if j + 1 < |l| then l[j + 1] else 0, was, hue, spared)
  {
    hide StoneBack;
  }

  lemma HalfwayIs(s: State, t: Core, ch: Chains, hue: Stone, spared: set<int>, gone: set<int>, due: set<int>)
    requires Target(t, ch, hue, spared) && DueOK(t, ch, hue, spared, due) && |t.p| == |t.b|
    requires Half(s, t, ch, hue, spared, gone, due)
    ensures Halfway(s, t, ch, hue, spared, gone, due)
  {
  }

  lemma MoreBack(s: State, t: Core, ch: Chains, hue: Stone, spared: set<int>, gone: set<int>, due: set<int>, was: int,
      l: seq<int>, j: int)
    requires Target(t, ch, hue, spared) && DueOK(t, ch, hue, spared, due) && |t.p| == |t.b|
    requires Half(s, t, ch, hue, spared, gone, due) && 0 <= j < |l| && ChainList(t, was, l) && Members(l) <= gone
    ensures var r := StonesBack(s, l, was, hue, spared, j); var left := gone - Members(l[..j]);
      Halfway(r, t, ch, hue, spared, left, due) && l[j] in left && Inner(r, l[j])
    ensures 0 <= l[j] < |t.p| == |t.g| && t.g[l[j]] == was && t.p[l[j]] == if j + 1 < |l| then l[j + 1] else 0
  {
    hide Target, DueOK, Half, StonesBack, Halfway;
    HalfSized(s, t, ch, hue, spared, gone, due);
    StonesBackHalf(s, t, ch, hue, spared, gone, due, was, l, j);
    MembersMore(l, j + 1);
    assert l[..j + 1][..j] == l[..j];
    assert l[j] in Members(l);
    var left := gone - Members(l[..j]);
    HalfwayIs(StonesBack(s, l, was, hue, spared, j), t, ch, hue, spared, left, due);
    HalfwayFacts(StonesBack(s, l, was, hue, spared, j), t, ch, hue, spared, left, due, l[j]);
    LinkNext(t, was, l, j);
  }

  /** The stones of one captured chain. */
  method PutChainBack(bd: Board, e: EnemyRec, hue: Stone, spared: set<int>, ghost t: Core, ghost ch: Chains,
      ghost gone: set<int>, ghost due: set<int>)
    requires bd.Valid() && Target(t, ch, hue, spared) && DueOK(t, ch, hue, spared, due) && |t.p| == |t.b|
    requires Half(bd.Snap(), t, ch, hue, spared, gone, due) && (e.stones != [] ==> ChainList(t, e.grp, e.stones))
    requires Members(e.stones) <= gone
    modifies bd`atari, bd.b, bd.n, bd.g, bd.p, bd.gi
    ensures bd.Valid() && Sized(old(bd.Snap()))
    ensures bd.Snap() == StonesBack(old(bd.Snap()), e.stones, e.grp, hue, spared, |e.stones|)
  {
    hide InfoOK, ListOf, ListsOf, ChainList, Halfway, Target, DueOK, Half, StonesBack, StoneBack, Members;
    ghost var s := bd.Snap();
    HalfSized(s, t, ch, hue, spared, gone, due);
    NoneBack(s, e.stones, e.grp, hue, spared);
    var j := 0;
    while j < |e.stones|
      invariant 0 <= j <= |e.stones| && bd.Valid() && bd.Snap() == StonesBack(s, e.stones, e.grp, hue, spared, j)
    {
      BackNext(s, e.stones, e.grp, hue, spared, j);
      MoreBack(s, t, ch, hue, spared, gone, due, e.grp, e.stones, j);
      PutStoneBack(bd, e.stones[j], if j + 1 < |e.stones| then e.stones[j + 1] else 0,
                   e.grp, hue, spared, t, ch, gone - Members(e.stones[..j]), due);
      j := j + 1;
    }
  }

  lemma NoneBack(s: State, l: seq<int>, was: int, hue: Stone, spared: set<int>)
    requires Sized(s)
    ensures StonesBack(s, l, was, hue, spared, 0) == s
  {
  }

  predicate RecordFits(es: seq<EnemyRec>, size: int) { forall i :: 0 <= i < |es| ==> ListFits(es[i].lib, size) }

  /** All captured chains of the record put back, and distant lists repaired on the way. */
  method PutEnemiesBack(bd: Board, es: seq<EnemyRec>, hue: Stone, spared: set<int>, ghost t: Core, ghost ch: Chains)
    requires bd.Valid() && Target(t, ch, hue, spared) && Recorded(t, ch, hue, spared, es) && RecordFits(es, bd.b.Length)
    requires Half(bd.Snap(), t, ch, hue, spared, GoneFrom(es, 0), DueFrom(es, 0))
    modifies bd`atari, bd.b, bd.n, bd.g, bd.p, bd.gi
    ensures bd.Valid() && Sized(old(bd.Snap())) && bd.Snap() == RestoreUpTo(old(bd.Snap()), es, hue, spared, |es|)
  {
    hide InfoOK, ListOf, ListsOf, ChainList, Target, DueOK, Half, StonesBack, Recorded, GoneFrom, DueFrom, Members,
         RestoreUpTo, Packed, ListFits;
    ghost var s := bd.Snap();
    HalfSized(s, t, ch, hue, spared, GoneFrom(es, 0), DueFrom(es, 0));
    RestoreNone(s, es, hue, spared);
    var i := 0;
    while i < |es|
      invariant 0 <= i <= |es| && bd.Valid() && bd.Snap() == RestoreUpTo(s, es, hue, spared, i)
    {
      NextChain(s, t, ch, hue, spared, es, i);
      RestoreNext(s, es, hue, spared, i);
      var e := es[i];
      PutList(bd, e.grp, e.lib);
      PutChainBack(bd, e, hue, spared, t, ch, GoneFrom(es, i), DueFrom(es, i + 1));
      i := i + 1;
    }
  }

  // ------------------------------------------------------------ the played stone off again

  lemma UncountNext(s: State, x: int, col: Stone, k: int)
    requires 0 <= k < 4 && Inner(s, x)
    ensures UncountUpTo(s, x, col, 0) == s
    ensures var t := UncountUpTo(s, x, col, k); var y := Nb(s.st, x, k);
      UncountUpTo(s, x, col, k + 1) == t.(n := t.n[y := BumpN(t.n[y], col, -1)])
  {
  }

  method LiftStone(bd: Board, u: Record, m: Move)
    requires bd.Valid() && bd.st <= m.coord < bd.b.Length - bd.st
    modifies bd.b, bd.n, bd.g, bd.p
    ensures bd.Valid() && Inner(old(bd.Snap()), m.coord) && bd.Snap() == LiftPlayed(old(bd.Snap()), u, m)
  {
    hide InfoOK, ListOf, ListsOf, UncountUpTo, BumpN;
    ghost var s := bd.Snap();
    var x := m.coord;
    bd.b[x] := Empty;
    bd.g[x] := 0;
    bd.p[x] := u.nextAt;
    ghost var s1 := bd.Snap();
    assert s1 == s.(b := s.b[x := Empty], g := s.g[x := 0], p := s.p[x := u.nextAt]);
    UncountNext(s1, x, m.colour, 0);
    var k := 0;
    while k < 4
      invariant 0 <= k <= 4 && bd.Valid() && bd.Snap() == UncountUpTo(s1, x, m.colour, k)
    {
      UncountNext(s1, x, m.colour, k);
      var y := Nb(bd.st, x, k);
      bd.n[y] := BumpN(bd.n[y], m.colour, -1);
      k := k + 1;
    }
  }

  lemma FitsRecord(q: State, ch: Chains, m: Move, s: State, v: Record)
    requires Put(q, ch, m, s, v) && ListsFit(K(q)) && |q.lib| == |q.b|
    ensures RecordFits(v.enemies, |q.b|)
  {
    hide Put, ListsFit, ListFits, Target, Recorded, MergedIds, ChainList, Repaired;
    PutTarget(q, ch, m, s, v);
    forall i | 0 <= i < |v.enemies| ensures ListFits(v.enemies[i].lib, |q.b|) {
      RecordedAt(K(q), ch, Other(m.colour), MergedIds(v), v.enemies, i);
      FitsAt(K(q), v.enemies[i].grp);
    }
  }

  /** The chain of the played stone gone, or split into what it was. */
  method UnlinkStone(bd: Board, u: Record, m: Move, ghost q: State, ghost ch: Chains, ghost s0: State)
    requires bd.Valid() && !bd.full && Put(q, ch, m, s0, u) && K(bd.Snap()) == K(PlayOutside(q, m).0)
    requires ListsFit(K(q)) && |q.b| == |q.lib| == |q.g| == |q.p|
    modifies bd.b, bd.n, bd.g, bd.p, bd.gi
    ensures bd.Valid() && Inner(old(bd.Snap()), m.coord) && bd.Snap() == LiftedOff(old(bd.Snap()), u, m)
  {
    hide InfoOK, ListOf, ListsOf, Put, PlayOutside, ListsFit, UndoMerge, LiftPlayed, CanSplit, PAfter, DrawnOn;
    ghost var w := bd.Snap();
    PutColour(q, ch, m, s0, u);
    InnerPlayed(q, m, w);
    var x := m.coord;
    if |u.merged| > 0 {
      SplitReady(q, ch, m, s0, u);
      CoreParts(w);
      CoreParts(PlayOutside(q, m).0);
      SplitMerges(bd, u, x, K(q), ch, m.colour);
    } else {
      PutDrawn(q, ch, m, s0, u);
      DrawnSame(s0, PlayOutside(q, m).0, w, x, m.colour, 0);
      FoundedId(s0, w, x, m.colour);
      ListsUpdate(bd.gi[..], bd.g[x], NO_GROUP);
      NoGroup(bd.b.Length);
      bd.gi[bd.g[x]] := NO_GROUP;
    }
    LiftStone(bd, u, m);
  }

  /** Undoing a move whose stone is still there. */
  method TakeBackStone(bd: Board, u: Record, m: Move, ghost q: State, ghost ch: Chains, ghost s0: State)
    requires bd.Valid() && !bd.full && Put(q, ch, m, s0, u) && K(bd.Snap()) == K(PlayOutside(q, m).0)
    requires ListsFit(K(q)) && |q.b| == |q.lib| == |q.g| == |q.p|
    modifies bd`atari, bd`caps, bd.b, bd.n, bd.g, bd.p, bd.gi
    ensures bd.Valid() && Inner(old(bd.Snap()), m.coord) && bd.Snap() == UndoStone(old(bd.Snap()), u, m)
  {
    hide InfoOK, ListOf, ListsOf, Put, PlayOutside, ListsFit, LiftedOff, RestoreUpTo, Target, Recorded, Half,
         GoneFrom, DueFrom, ListFits;
    ghost var w := bd.Snap();
    PutTarget(q, ch, m, s0, u);
    FitsRecord(q, ch, m, s0, u);
    InnerPlayed(q, m, w) by { PutColour(q, ch, m, s0, u); }
    UnlinkStone(bd, u, m, q, ch, s0);
    LiftedOffHalf(q, ch, m, s0, u, w, Bump(bd.Snap().caps, m.colour, -u.ncaptures));
    bd.caps := Bump(bd.caps, m.colour, -u.ncaptures);
    var merged := MergedIds(u);
    PutEnemiesBack(bd, u.enemies, Other(m.colour), merged, K(q), ch);
  }

  lemma SuicideFits(v: Record, own: int, l: seq<int>, size: int)
    requires RecordFits(v.enemies, size)
    ensures RecordFits(SuicideRecord(v, own, l).enemies, size)
  {
  }

  lemma RestoringParts(w: State, t: Core, ch: Chains, hue: Stone, u: Record)
    requires Restoring(w, t, ch, hue, u)
    ensures Target(t, ch, hue, EnemyIds(u)) && Recorded(t, ch, hue, EnemyIds(u), u.enemies)
    ensures Half(w, t, ch, hue, EnemyIds(u), GoneFrom(u.enemies, 0), DueFrom(u.enemies, 0))
  {
    hide Target, Recorded, Half, EnemyIds;
  }

  /** The board with the drowned chain back, ready to be split. */
  lemma SplitAgain(q: State, ch: Chains, m: Move, s: State, v: Record, ch1: Chains, w: State, u: Record)
    requires Sinks(q, ch, m, s, v, ch1) && Sized(w) && !w.full
    requires K(w) == K(Capture(PlayOutside(q, m).0, PlayOutside(q, m).1))
    requires PlayOutside(q, m).1 in ch1 && u == SuicideRecord(v, PlayOutside(q, m).1, ch1[PlayOutside(q, m).1])
    ensures |u.merged| > 0 && Inner(w, m.coord) && CanSplit(K(q), ch, m.coord, m.colour, u)
    ensures var r := PutBack(w, u, m);
      |r.g| == |q.g| && |r.p| == |q.p| && m.coord < |r.g| && r.g[m.coord] == Home(u)
      && r.p == PAfter(q.p, ch, m.coord, u, |u.merged|)
  {
    hide Sinks, Put, PlayOutside, Capture, EnemyIds, MergedIds, Reset, CanSplit, Unmerged, UndoMerge, PAfter, PutBack,
         LibOK;
    SinksInner(q, ch, m, s, v, ch1);
    SinksDown(q, ch, m, s, v, ch1);
    SplitBackOK(q, ch, m, s, v, ch1, w, u);
    PutBackOK(q, ch, m, s, v, ch1, w);
    FriendJoined(q, ch, m, s, v, ch1);
    SplitReady(q, ch, m, s, v);
    hide Down;
    SplitAlike(K(q), ch, m.coord, m.colour, v, u);
    CoreParts(PutBack(w, u, m));
    CoreParts(PlayOutside(q, m).0);
  }

  /** Undoing a suicide: the drowned chain comes back like a captured one, then it is split. */
  method TakeBackSuicide(bd: Board, u: Record, m: Move, ghost q: State, ghost ch: Chains, ghost s0: State,
      ghost v: Record, ghost ch1: Chains)
    requires bd.Valid() && !bd.full && Sinks(q, ch, m, s0, v, ch1) && ListsFit(K(q))
    requires |q.b| == |q.lib| == |q.g| == |q.p| == bd.b.Length && q.st == bd.st
    requires K(bd.Snap()) == K(Capture(PlayOutside(q, m).0, PlayOutside(q, m).1))
    requires PlayOutside(q, m).1 in ch1 && u == SuicideRecord(v, PlayOutside(q, m).1, ch1[PlayOutside(q, m).1])
    modifies bd`atari, bd`caps, bd.b, bd.n, bd.g, bd.p, bd.gi
    ensures bd.Valid() && Inner(old(bd.Snap()), m.coord) && bd.Snap() == UndoSuicide(old(bd.Snap()), u, m)
  {
    hide InfoOK, ListOf, ListsOf, Sinks, Put, PlayOutside, Capture, ListsFit, RestoreUpTo, Restoring, Reset,
         UndoMerge, LiftPlayed, CanSplit, PAfter, SuicideRecord, Target, Recorded, Half, GoneFrom, DueFrom, ListFits;
    ghost var w := bd.Snap();
    SinksInner(q, ch, m, s0, v, ch1);
    SinksDown(q, ch, m, s0, v, ch1);
    SplitAgain(q, ch, m, s0, v, ch1, w, u);
    FitsRecord(q, ch, m, s0, v);
    SuicideFits(v, PlayOutside(q, m).1, ch1[PlayOutside(q, m).1], bd.b.Length);
    var enemies := EnemyIds(u);
    bd.caps := Bump(bd.caps, Other(m.colour), -u.ncaptures);
    ghost var w1 := bd.Snap();
    assert w1 == w.(caps := Bump(w.caps, Other(m.colour), -u.ncaptures));
    SuicideHalf(q, ch, m, s0, v, ch1, w1);
    ghost var t := K(PlayOutside(q, m).0).(lib := Reset(PlayOutside(q, m).0.lib, q.lib, EnemyIds(v)));
    RestoringParts(w1, t, ch1, m.colour, u);
    PutEnemiesBack(bd, u.enemies, m.colour, enemies, t, ch1);
    ghost var s2 := bd.Snap();
    assert s2 == PutBack(w, u, m);
    SplitMerges(bd, u, m.coord, K(q), ch, m.colour);
    UndoSuicideIs(w, u, m);
    LiftStone(bd, u, m);
  }

  // ------------------------------------------------------------ taking back

  lemma QuickFits(s: State)
    requires Sound(Quick(s))
    ensures var q := Quick(s); ListsFit(K(q)) && |q.b| == |q.lib| == |q.g| == |q.p| && Sized(s)
  {
    hide Sound, ListFits;
    QuickSized(s);
    forall h | 0 <= h < |s.b| ensures ListFits(s.lib[h], |s.b|) { SoundListFits(Quick(s), h); }
  }

  /** What undoing finds when the stone stayed. */
  lemma StayedFacts(s: State, ch: Chains, m: Move)
    requires Accepts(s, ch, m) && !Drowns(Quick(s), m)
    ensures var q := Quick(s); var r := Play(q, m).0; var v := PlayRecord(q, m);
      Inner(q, m.coord) && Sized(r) && QuickPlay(s, m) == (r.(full := s.full, lasts := s.lasts), true, v)
      && Put(q, ch, m, PlayUpTo(q, m.coord, m.colour, 4).0, v)
    ensures var q := Quick(s); var r := Play(q, m).0; var w := AfterQuick(s, r, PlayRecord(q, m));
      K(w) == K(PlayOutside(q, m).0) && Inner(w, m.coord) && w.b[m.coord] == m.colour && w.b == r.b && Inner(r, m.coord)
  {
    var q := Quick(s);
    var r := Play(q, m).0;
    var v := PlayRecord(q, m);
    hide *;
    AcceptsFacts(s, ch, m);
    PutAny(s, ch, m);
    SplitCases(q, ch, m);
    QuickPlayIs(s, m);
    RecordIs(q, m);
    StayedRestored(s, ch, m, r);
    InnerAfter(s, r, v, m);
    QuietCore(s, r, v);
    KoIgnored(PlayOutside(q, m).0, r);
  }

  lemma KoIgnored(o: State, r: State)
    requires r == o.(ko := r.ko, lastKo := r.lastKo, lastKoAge := r.lastKoAge)
    ensures K(r) == K(o) && r.lasts == o.lasts
  {
  }

  /** What undoing finds after a suicide. */
  lemma DrownedFacts(s: State, ch: Chains, m: Move) returns (ch1: Chains)
    requires Accepts(s, ch, m) && Drowns(Quick(s), m)
    ensures var q := Quick(s); var r := Play(q, m).0; var v := PlayRecord(q, m); var own := PlayOutside(q, m).1;
      Inner(q, m.coord) && Sized(r) && own in ch1 && QuickPlay(s, m) == (r.(full := s.full, lasts := s.lasts), true,
          SuicideRecord(v, own, ch1[own]))
      && Sinks(q, ch, m, PlayUpTo(q, m.coord, m.colour, 4).0, v, ch1)
    ensures var q := Quick(s); var r := Play(q, m).0; var (o, own) := PlayOutside(q, m);
      var u := SuicideRecord(PlayRecord(q, m), own, ch1[own]);
      var w := AfterQuick(s, r, u);
      K(w) == K(Capture(o, own)) && Inner(w, m.coord) && w.b[m.coord] == Empty && w.b == r.b && Inner(r, m.coord)
  {
    var q := Quick(s);
    var r := Play(q, m).0;
    var v := PlayRecord(q, m);
    var own := PlayOutside(q, m).1;
    hide *;
    AcceptsFacts(s, ch, m);
    PutAny(s, ch, m);
    QuickPlayIs(s, m);
    ch1 := SinksNow(s, ch, m);
    DrownedParts(q, ch, m, ch1, r);
    SuicideRecordIs(q, ch, m, PlayUpTo(q, m.coord, m.colour, 4).0, v, ch1);
    var u := SuicideRecord(v, own, ch1[own]);
    SuicideStones(v, own, ch1[own]);
    DrownedRestored(s, ch, m, ch1, r, u);
    InnerAfter(s, r, u, m);
    QuietCore(s, r, u);
  }

  /** The moves, the ko and the counters from the record. */
  method Rewind(bd: Board, u: Record)
    requires bd.Valid()
    modifies bd`recent, bd`ko, bd`lastKo, bd`lastKoAge, bd`moves
    ensures bd.Valid() && Sized(old(bd.Snap())) && bd.Snap() == Rewound(old(bd.Snap()), u)
  {
    hide InfoOK, ListsOf;
    var j := (4 + bd.recentAt - 1) % 4;
    bd.recent := bd.recent[bd.recentAt := bd.recent[j]][j := u.last2];
    bd.ko, bd.lastKo, bd.lastKoAge := u.ko, u.lastKo, u.lastKoAge;
    bd.moves := bd.moves - 1;
  }

  /** The stone case of undo: the state the undo function computes. */
  method TakeBackPlay(bd: Board, m: Move, u: Record, ghost s: State, ghost ch: Chains)
    requires bd.Valid() && Accepts(s, ch, m) && QuickPlay(s, m).1 && u == QuickPlay(s, m).2
    requires Sized(Play(Quick(s), m).0) && bd.Snap() == AfterQuick(s, Play(Quick(s), m).0, u)
    modifies bd`atari, bd`caps, bd.b, bd.n, bd.g, bd.p, bd.gi
    ensures var w := AfterQuick(s, Play(Quick(s), m).0, u); Inner(w, m.coord) && 0 <= m.coord < |w.b|
    ensures var w := AfterQuick(s, Play(Quick(s), m).0, u);
      bd.Valid() && bd.Snap() == if w.b[m.coord] == m.colour then UndoStone(w, u, m) else UndoSuicide(w, u, m)
  {
    hide InfoOK, ListOf, ListsOf, Accepts, Play, QuickPlay, PlayRecord, PlayOutside, AfterQuick, Put, Sinks, Drowns,
         SuicideRecord, PlayUpTo, UndoStone, UndoSuicide, Capture, ListsFit;
    ghost var q := Quick(s);
    AcceptsFacts(s, ch, m);
    QuickFits(s);
    QuietCore(s, Play(q, m).0, u);
    assert !bd.full by { assert !bd.Snap().full; }
    WhichCase(s, ch, m, u);
    if bd.b[m.coord] == m.colour {
      StayedFacts(s, ch, m);
      TakeBackStone(bd, u, m, q, ch, PlayUpTo(q, m.coord, m.colour, 4).0);
    } else {
      ghost var ch1 := DrownedFacts(s, ch, m);
      TakeBackSuicide(bd, u, m, q, ch, PlayUpTo(q, m.coord, m.colour, 4).0, PlayRecord(q, m), ch1);
    }
  }

  /** The stone is missing exactly if its chain drowned. */
  lemma WhichCase(s: State, ch: Chains, m: Move, u: Record)
    requires Accepts(s, ch, m) && Sized(Play(Quick(s), m).0) && u == QuickPlay(s, m).2
    ensures var w := AfterQuick(s, Play(Quick(s), m).0, u);
      Inner(Quick(s), m.coord) && 0 <= m.coord < |w.b| && (w.b[m.coord] == m.colour <==> !Drowns(Quick(s), m))
  {
    hide Accepts, Play, QuickPlay, PlayRecord, PlayOutside, AfterQuick, Put, Sinks, Drowns, SuicideRecord, PlayUpTo,
         Capture;
    AcceptsFacts(s, ch, m);
    if Drowns(Quick(s), m) {
      var ch1 := DrownedFacts(s, ch, m);
      ColourThere(m.colour);
    } else {
      StayedFacts(s, ch, m);
    }
  }

  /** Taking a tried move back. On a sound board this restores every field; only the pass stone
      of a Siming pass stays with the opponent. */
  method TakeBack(bd: Board, m: Move, u: Record, ghost s: State)
    requires bd.Valid() && Sound(Quick(s)) && Offered(s, m) && QuickPlay(s, m) == (bd.Snap(), true, u)
    modifies bd, bd.b, bd.n, bd.g, bd.p, bd.gi
    ensures bd.Valid()
    ensures bd.Snap() ==
      if m.coord == PASS && s.rules == Siming then s.(caps := Bump(s.caps, Other(m.colour), 1)) else s
  {
    hide InfoOK, ListOf, ListsOf, Play, QuickPlay, UndoStone, UndoSuicide, Quiet, BooksOK, KoOK, Rewound, Accepts;
    QuickUndoExact(s, m);
    ghost var r0 := bd.Snap();
    var fullWas := bd.full;
    bd.full := false;
    assert bd.Snap() == r0.(full := false);
    Rewind(bd, u);
    ghost var w := bd.Snap();
    if m.coord == PASS {
      PassBack(s, m);
      bd.passes := Bump(bd.passes, m.colour, -1);
    } else {
      PlayedOK(s, m);
      ghost var ch :| Quiet(K(Quick(s)), ch);
      AcceptsNow(s, ch, m);
      AcceptsFacts(s, ch, m);
      ghost var r := Play(Quick(s), m).0;
      assert w == AfterQuick(s, r, u);
      TakeBackPlay(bd, m, u, s, ch);
      InnerAfter1(s, r, u, m);
      UndoIs(s, m, r, u);
    }
    bd.full := fullWas;
  }

  lemma AcceptsNow(s: State, ch: Chains, m: Move)
    requires Sound(Quick(s)) && Quiet(K(Quick(s)), ch) && IsColour(m.colour) && Inner(s, m.coord)
    requires s.b[m.coord] == Empty && Play(Quick(s), m).1
    ensures Accepts(s, ch, m)
  {
    hide Sound, Quiet, Play;
  }

  lemma InnerAfter1(s: State, r: State, u: Record, m: Move)
    requires Sized(r) && Inner(AfterQuick(s, r, u), m.coord)
    ensures Inner(r, m.coord) && AfterQuick(s, r, u).b == r.b
  {
    hide Previous;
  }

  // ------------------------------------------------------------ trials

  /** A trial with the trials nested in it, on the live board: no trace is left. */
  method TryOut(bd: Board, t: Trial)
    requires bd.Valid() && Sound(Quick(bd.Snap())) && Fits(bd.Snap(), t) && NoSimingPass(bd.rules, t)
    modifies bd, bd.b, bd.n, bd.g, bd.p, bd.gi, bd.fmap
    ensures bd.Valid() && bd.Snap() == old(bd.Snap())
    decreases t
  {
    hide InfoOK, ListsOf, Sound, QuickPlay, Fits, Step, QuickUndo;
    ghost var s := bd.Snap();
    FitsHere(s, t);
    QuickPlayRefinesStep(s, t.m);
    QuickUndoExact(s, t.m);
    QuickShape(s, t.m);
    var ok, u := TryMove(bd, t.m);
    if ok {
      ghost var r := bd.Snap();
      FitsAfter(s, r, t);
      var i := 0;
      while i < |t.inner|
        invariant 0 <= i <= |t.inner| && bd.Valid() && bd.Snap() == r
      {
        TryOut(bd, t.inner[i]);
        i := i + 1;
      }
      TakeBack(bd, t.m, u, s);
    }
  }

  /** The self-atari test: a short cut, and otherwise a trial on the live board. */
  method IsSelfAtari(bd: Board, m: Move) returns (r: bool)
    requires bd.Valid() && Sound(Quick(bd.Snap())) && IsColour(m.colour) && 0 <= m.coord < bd.b.Length
    modifies bd, bd.b, bd.n, bd.g, bd.p, bd.gi, bd.fmap
    ensures bd.Valid() && bd.Snap() == old(bd.Snap()) && Sized(bd.Snap()) && r == SelfAtari(bd.Snap(), m)
  {
    hide InfoOK, ListOf, ListsOf, Sound, QuickPlay, QuickUndo, Step;
    ghost var s := bd.Snap();
    QuickUndoExact(s, m);
    QuickPlayRefinesStep(s, m);
    if 4 - bd.n[m.coord].black - bd.n[m.coord].white - bd.n[m.coord].off > 1 { return false; }
    var ok, u := TryMove(bd, m);
    r := true;
    if ok {
      QuickShape(s, m);
      CounterCaptures.IdFacts(bd.Snap(), m.coord);
      var g := bd.g[m.coord];
      ListAt(bd.gi[..], g);
      InUse(bd.gi[g], 1, bd.b.Length);
      if g != 0 && bd.gi[g].libs > 1 { r := false; }
      TakeBack(bd, m, u, s);
    }
  }
}
