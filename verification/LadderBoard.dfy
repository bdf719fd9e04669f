/** The ladder reader on the live board: it plays and takes back moves in place, answers what the
    search computes, and leaves no trace. */
module LadderBoard {
  import opened Grid
  import opened LibList
  import opened Engine
  import opened Invariant
  import opened Rules
  import opened PlayTheorem
  import opened Reachable
  import opened Legality
  import opened Undo
  import opened UndoTheorem
  import opened GoBoard
  import opened BoardUndo
  import opened CounterCaptures
  import opened LadderRules
  import L = Ladder
  import Nakade

  // ------------------------------------------------------------ counter-captures

  /** The stones of a chain, counted up to a limit. */
  method StoneCount(bd: Board, grp: int, limit: nat, ghost l: seq<int>) returns (n: nat)
    requires bd.Valid() && ChainList(K(bd.Snap()), grp, l) && limit > 0
    ensures n == if |l| < limit then |l| else limit
  {
    hide InfoOK, ListOf, ListsOf, ChainList, Links;
    ghost var core := K(bd.Snap());
    ChainStarts(core, grp, l);
    LinkNext(core, grp, l, 0);
    n := 0;
    var c := grp;
    while c != 0
      invariant n <= |l| && n < limit && c == (if n < |l| then l[n] else 0)
      decreases |l| - n
    {
      LinkNext(core, grp, l, n);
      n := n + 1;
      if n >= limit { return limit; }
      c := bd.p[c];
    }
    if n < |l| { LinkNext(core, grp, l, n); }
  }

  /** The list of a chain, and facts the methods need about it. */
  lemma GroupList(s: State, h: int) returns (l: seq<int>)
    requires Sound(Quick(s)) && IsGroup(s, h)
    ensures ChainList(K(s), h, l) && ChainOf(s, h) == l && |l| > 0 && (s.p[h] == 0 <==> |l| < 2)
  {
    hide Sound, Quiet, ChainList, ChainOf;
    var ch := ChainSound(Quick(s), h);
    l := ch[h];
    SameChainOf(s, h);
    FirstLink(K(s), h, l);
  }

  lemma FirstLink(c: Core, h: int, l: seq<int>)
    requires ChainList(c, h, l)
    ensures |l| > 0 && 0 <= h < |c.p| && (c.p[h] == 0 <==> |l| < 2)
  {
    hide ChainList;
    ChainStarts(c, h, l);
    LinkNext(c, h, l, 0);
    if |l| > 1 { LinkNext(c, h, l, 1); }
  }

  lemma LibsAt(bd: Board, h: int)
    requires bd.Valid() && 0 <= h < bd.gi.Length
    ensures bd.Snap().lib[h] == ListOf(bd.gi[h]) && |ListOf(bd.gi[h])| == bd.gi[h].libs <= |bd.gi[h].lib| == KEEP
    ensures forall k :: 0 <= k < bd.gi[h].libs ==> bd.Snap().lib[h][k] == bd.gi[h].lib[k]
  {
    hide InfoOK, ListsOf;
    ListAt(bd.gi[..], h);
    InUse(bd.gi[h], 1, bd.b.Length);
  }

  /** Whether capturing the chain h, which is in atari, is a snapback. */
  method IsSnapback(bd: Board, h: int) returns (r: bool)
    requires bd.Valid() && Sound(Quick(bd.Snap())) && IsGroup(bd.Snap(), h) && h < bd.gi.Length && bd.gi[h].libs == 1
    ensures |bd.Snap().lib[h]| == 1 && Inner(bd.Snap(), bd.Snap().lib[h][0]) && r == Snapback(bd.Snap(), h)
  {
    hide InfoOK, ListOf, ListsOf, Sound, Eyelike, ChainList, Reach, LibOK, LibSet, ChainOf;
    ghost var s := bd.Snap();
    LibsAt(bd, h);
    OnlyLib(s, h);
    ghost var l := GroupList(s, h);
    var c := bd.gi[h].lib[0];
    if 4 - bd.n[c].black - bd.n[c].white - bd.n[c].off > 0 { return false; }
    var stones := StoneCount(bd, h, 2, l);
    if stones > 1 { return false; }
    var colour := bd.b[h];
    EyelikeIs(s, c, colour);
    if CountOf(bd.n[c], colour) + bd.n[c].off == 4 { return false; }
    var k := 0;
    while k < 4
      invariant 0 <= k <= 4 && SidesOK(s, h, c, k)
    {
      var z := Nb(bd.st, c, k);
      IdFacts(s, z);
      var g := bd.g[z];
      LibsAt(bd, g);
      if !(bd.b[z] == Off || g == h) {
        if (bd.b[z] == colour && bd.gi[g].libs == 1) || (bd.b[z] == Other(colour) && bd.gi[g].libs > 1) {
          SidesFail(s, h, c, k);
          return false;
        }
      }
      k := k + 1;
    }
    r := true;
  }

  lemma SidesFail(s: State, h: int, c: int, k: int)
    requires Sized(s) && 0 <= h < |s.b| && 0 <= k < 4 && !SideOK(s, h, Nb(s.st, c, k))
    ensures !SidesOK(s, h, c, 4)
  {
    hide SideOK;
    SidesAll(s, h, c);
  }

  /** Whether the chain at z is worth capturing. */
  method WorthTaking(bd: Board, z: int, col: Stone) returns (r: bool)
    requires bd.Valid() && Sound(Quick(bd.Snap())) && IsColour(col) && 0 <= z < bd.b.Length
    ensures Sized(bd.Snap()) && r == Takes(bd.Snap(), col, z)
  {
    hide InfoOK, ListOf, ListsOf, Sound, Eyelike, ChainList, Reach, LibOK, LibSet, Snapback, ValidPlay, Legal;
    ghost var s := bd.Snap();
    QuickSized(s);
    if bd.b[z] != Other(col) { return false; }
    OtherIs(col);
    StoneFacts(s, z);
    var g := bd.g[z];
    LibsAt(bd, g);
    if bd.gi[g].libs > 1 { return false; }
    OnlyLib(s, z);
    var c := bd.gi[g].lib[0];
    r := bd.IsValidPlay(Move(c, col));
    if r {
      var snap := IsSnapback(bd, g);
      r := !snap;
    }
  }

  lemma NextNb(s: State, col: Stone, x: int, q: seq<int>, k: int)
    requires Sized(s) && 0 <= k < 4
    ensures CounterNbs(s, col, x, q, 0) == q
    ensures var z := Nb(s.st, x, k); var q1 := CounterNbs(s, col, x, q, k);
      CounterNbs(s, col, x, q, k + 1) == if Takes(s, col, z) then Queued(q1, s.lib[s.g[z]][0]) else q1
  {
    hide WorthCapture;
  }

  lemma NextStone(s: State, col: Stone, l: seq<int>, i: int)
    requires Sized(s) && 0 <= i < |l|
    ensures CounterUpTo(s, col, l, 0) == []
    ensures CounterUpTo(s, col, l, i + 1) == CounterNbs(s, col, l[i], CounterUpTo(s, col, l, i), 4)
  {
    hide CounterNbs;
  }

  /** The queue of counter-captures of a chain. */
  method FindCounters(bd: Board, h: int) returns (q: seq<int>)
    requires bd.Valid() && Sound(Quick(bd.Snap())) && IsGroup(bd.Snap(), h)
    ensures q == Counters(bd.Snap(), h)
  {
    hide InfoOK, ListOf, ListsOf, Sound, ChainList, ChainOf, Takes, CounterNbs, CounterUpTo, Links;
    ghost var s := bd.Snap();
    QuickSized(s);
    ghost var l := GroupList(s, h);
    var col := bd.b[h];
    ChainStarts(K(s), h, l);
    LinkNext(K(s), h, l, 0);
    NextStone(s, col, l, 0);
    q := [];
    var c := h;
    ghost var i := 0;
    while c != 0
      invariant 0 <= i <= |l| && c == (if i < |l| then l[i] else 0) && q == CounterUpTo(s, col, l, i)
      decreases |l| - i
    {
      LinkNext(K(s), h, l, i);
      NextStone(s, col, l, i);
      ghost var q0 := q;
      NextNb(s, col, c, q0, 0);
      var k := 0;
      while k < 4
        invariant 0 <= k <= 4 && q == CounterNbs(s, col, c, q0, k)
      {
        NextNb(s, col, c, q0, k);
        var z := Nb(bd.st, c, k);
        var take := WorthTaking(bd, z, col);
        if take {
          TakesList(s, col, z);
          LibsAt(bd, bd.g[z]);
          var x := bd.gi[bd.g[z]].lib[0];
          if x !in q { q := q + [x]; }
        }
        k := k + 1;
      }
      c := bd.p[c];
      i := i + 1;
    }
    if i < |l| { LinkNext(K(s), h, l, i); }
  }

  lemma TakesList(s: State, col: Stone, z: int)
    requires Sized(s) && Takes(s, col, z)
    ensures 0 <= z < |s.b| && 0 <= s.g[z] < |s.b| && |s.lib[s.g[z]]| == 1
  {
    hide WorthCapture;
  }

  // ------------------------------------------------------------ the reader

  /** What a call of the reader hands back: an answer, or that its fuel ran out. */
  predicate Answers(v: L.Verdict, done: bool, len: nat) { if done then v == L.Done(len) else v == L.Unfinished }

  /** One atari of the list: what it leads to, and how the answer goes on. */
  ghost predicate AtariStep(s: State, h: int, col: Stone, len: nat, tries: seq<int>, i: nat, fuel: nat, r: State,
      ok: bool)
    requires Sound(Quick(s)) && L.IsPrey(s, h, col) && h < |s.lib| && |s.lib[h]| == 2
    requires (forall c :: c in tries ==> c in s.lib[h]) && i < |tries|
  {
    && 0 <= tries[i] < |r.g| && (ok && r.g[tries[i]] != 0 ==> Sound(Quick(r)) && L.IsPrey(r, h, col) && |r.lib[h]| == 1)
    && L.ChaseFrom(s, h, col, len, tries, i, fuel) ==
       if !ok || r.g[tries[i]] == 0 then L.ChaseFrom(s, h, col, len, tries, i + 1, fuel)
       else if fuel == 0 then L.Unfinished
       else OrElse(L.Flee(r, h, col, len, fuel - 1), L.ChaseFrom(s, h, col, len, tries, i + 1, fuel))
  }

  function OrElse(w: L.Verdict, rest: L.Verdict): L.Verdict { if w.Unfinished? || w.len != 0 then w else rest }

  lemma FromNext(s: State, h: int, col: Stone, len: nat, tries: seq<int>, i: nat, fuel: nat)
    requires Sound(Quick(s)) && L.IsPrey(s, h, col) && h < |s.lib| && |s.lib[h]| == 2
    requires (forall c :: c in tries ==> c in s.lib[h]) && i < |tries|
    ensures Sized(s) && 0 <= tries[i] < |s.b| && Offered(s, Move(tries[i], Other(col)))
    ensures AtariStep(s, h, col, len, tries, i, fuel, QuickPlay(s, Move(tries[i], Other(col))).0,
        QuickPlay(s, Move(tries[i], Other(col))).1)
  {
    hide Sound, QuickPlay, L.IsPrey, L.Flee;
    L.PreyPoints(s, h, col);
    var c := tries[i];
    assert c in tries;
    L.AfterMove(s, Move(c, Other(col)));
    if QuickPlay(s, Move(c, Other(col))).1 { L.AtariFollows(s, h, col, c); }
  }

  /** The chaser to move. */
  method Chase(bd: Board, x: int, col: Stone, len: nat, fuel: nat) returns (done: bool, r: nat)
    requires bd.Valid() && Sound(Quick(bd.Snap())) && 0 <= x < bd.b.Length && IsColour(col)
    requires Sized(bd.Snap()) && (bd.Snap().b[x] == col || bd.Snap().g[x] == 0)
    modifies bd, bd.b, bd.n, bd.g, bd.p, bd.gi, bd.fmap
    ensures bd.Valid() && bd.Snap() == old(bd.Snap()) && Answers(L.Chase(old(bd.Snap()), x, col, len, fuel), done, r)
    decreases fuel, 2, 0
  {
    hide InfoOK, ListOf, ListsOf, Sound, QuickPlay, L.IsPrey, L.ChaseFrom;
    ghost var s := bd.Snap();
    L.ChaseFacts(s, x, col);
    var h := bd.g[x];
    if h == 0 { return true, len; }
    LibsAt(bd, h);
    if bd.gi[h].libs == 1 { return true, len; }
    if bd.gi[h].libs > 2 { return true, 0; }
    L.PreyPoints(s, h, col);
    var a, b := bd.gi[h].lib[0], bd.gi[h].lib[1];
    var roomA := FreeAround(bd, b) > 2 + (if Nakade.Adjacent(bd.st, a, b) then 1 else 0);
    var roomB := FreeAround(bd, a) > 2 + (if Nakade.Adjacent(bd.st, b, a) then 1 else 0);
    var tries: seq<int> := [];
    if !roomA { tries := tries + [a]; }
    if !roomB { tries := tries + [b]; }
    if |tries| == 2 && FreeAround(bd, a) < FreeAround(bd, b) { tries := [b, a]; }
    assert s.lib[h] == [a, b];
    assert tries == L.Ataris(s, s.lib[h]);
    done, r := ChaseAll(bd, h, col, len, tries, fuel);
  }

  function FreeAround(bd: Board, c: int): int
    requires 0 <= c < bd.n.Length
    reads bd.n
  {
    4 - bd.n[c].black - bd.n[c].white - bd.n[c].off
  }

  /** The ataris, one after the other. */
  method ChaseAll(bd: Board, h: int, col: Stone, len: nat, tries: seq<int>, fuel: nat) returns (done: bool, r: nat)
    requires bd.Valid() && Sound(Quick(bd.Snap())) && L.IsPrey(bd.Snap(), h, col)
    requires h < |bd.Snap().lib| && |bd.Snap().lib[h]| == 2 && forall c :: c in tries ==> c in bd.Snap().lib[h]
    modifies bd, bd.b, bd.n, bd.g, bd.p, bd.gi, bd.fmap
    ensures bd.Valid() && bd.Snap() == old(bd.Snap())
    ensures Answers(L.ChaseFrom(old(bd.Snap()), h, col, len, tries, 0, fuel), done, r)
    decreases fuel, 1, 0
  {
    hide InfoOK, ListOf, ListsOf, Sound, QuickPlay, L.IsPrey, L.ChaseFrom, L.Flee, QuickUndo, Quick;
    ghost var s := bd.Snap();
    var i := 0;
    while i < |tries|
      invariant 0 <= i <= |tries| && bd.Valid() && bd.Snap() == s
      invariant L.ChaseFrom(s, h, col, len, tries, 0, fuel) == L.ChaseFrom(s, h, col, len, tries, i, fuel)
    {
      FromNext(s, h, col, len, tries, i, fuel);
      var m := Move(tries[i], Other(col));
      NotAPass(m);
      var ok, u := TryMove(bd, m);
      QuickUndoExact(s, m);
      if ok {
        if bd.g[m.coord] == 0 {
          TakeBack(bd, m, u, s);
        } else if fuel == 0 {
          TakeBack(bd, m, u, s);
          return false, 0;
        } else {
          done, r := Flee(bd, h, col, len, fuel - 1);
          TakeBack(bd, m, u, s);
          if !done || r != 0 { return; }
        }
      }
      i := i + 1;
    }
    FromEnd(s, h, col, len, tries, fuel);
    done, r := true, 0;
  }

  lemma NotAPass(m: Move)
    ensures 0 <= m.coord ==> m.coord != PASS
  {
  }

  lemma FromEnd(s: State, h: int, col: Stone, len: nat, tries: seq<int>, fuel: nat)
    requires Sound(Quick(s)) && L.IsPrey(s, h, col) && h < |s.lib| && |s.lib[h]| == 2
    requires forall c :: c in tries ==> c in s.lib[h]
    ensures L.ChaseFrom(s, h, col, len, tries, |tries|, fuel) == L.Done(0)
  {
    hide Sound, L.IsPrey;
  }

  /** The escaper to move. */
  method Flee(bd: Board, h: int, col: Stone, len: nat, fuel: nat) returns (done: bool, r: nat)
    requires bd.Valid() && Sound(Quick(bd.Snap())) && L.IsPrey(bd.Snap(), h, col) && |bd.Snap().lib[h]| == 1
    modifies bd, bd.b, bd.n, bd.g, bd.p, bd.gi, bd.fmap
    ensures bd.Valid() && bd.Snap() == old(bd.Snap()) && Answers(L.Flee(old(bd.Snap()), h, col, len, fuel), done, r)
    decreases fuel, 4, 0
  {
    hide InfoOK, ListOf, ListsOf, Sound, QuickPlay, L.IsPrey, L.Chase, L.Escapes, Counters, L.KoBeside;
    ghost var s := bd.Snap();
    L.PreyFacts(s, h, col);
    LibsAt(bd, h);
    var besideKo := IsKoBeside(bd, h);
    if besideKo { return true, 0; }
    var q := FindCounters(bd, h);
    var escaped: bool;
    done, escaped := CounterEscapes(bd, h, col, q, fuel);
    if !done { return false, 0; }
    if escaped { return true, 0; }
    LibsAt(bd, h);
    var m := Move(bd.gi[h].lib[0], col);
    L.EscapeAccepted(s, h, col);
    L.ReplyLeaves(s, h, col, m.coord);
    L.AfterMove(s, m);
    var ok, u := TryMove(bd, m);
    done, r := Chase(bd, h, col, len + 1, fuel);
    TakeBack(bd, m, u, s);
  }

  lemma KoNext(s: State, h: int, c: int, k: int)
    requires Sized(s) && 0 <= k < 4
    ensures L.BesideUpTo(s, h, c, 0) == false
    ensures L.BesideUpTo(s, h, c, k + 1) <==>
      L.BesideUpTo(s, h, c, k) || (0 <= Nb(s.st, c, k) < |s.g| && s.g[Nb(s.st, c, k)] == h)
  {
  }

  lemma {:induction false} KoMore(s: State, h: int, c: int, j: int, k: int)
    requires Sized(s) && 0 <= j <= k <= 4 && L.BesideUpTo(s, h, c, j)
    ensures L.BesideUpTo(s, h, c, k)
    decreases k
  {
    if j < k { KoMore(s, h, c, j, k - 1); }
  }

  method IsKoBeside(bd: Board, h: int) returns (r: bool)
    requires bd.Valid()
    ensures Sized(bd.Snap()) && r == L.KoBeside(bd.Snap(), h)
  {
    hide InfoOK, ListsOf, L.BesideUpTo;
    ghost var s := bd.Snap();
    if bd.ko.coord == PASS { return false; }
    var c := bd.recent[bd.recentAt].coord;
    KoNext(s, h, c, 0);
    var k := 0;
    while k < 4
      invariant 0 <= k <= 4 && !L.BesideUpTo(s, h, c, k)
    {
      KoNext(s, h, c, k);
      var z := Nb(bd.st, c, k);
      if 0 <= z < bd.g.Length && bd.g[z] == h {
        KoMore(s, h, c, k + 1, 4);
        return true;
      }
      k := k + 1;
    }
    r := false;
  }

  /** How the answer after one counter-capture combines with the answer for the rest. */
  function Outcome(w: L.Verdict, rest: L.Verdict): L.Verdict {
    if w.Unfinished? then w else if w.len == 0 then L.Done(1) else rest
  }

  /** One counter-capture of the list that can be played. */
  ghost predicate CaptureStep(s: State, h: int, col: Stone, moves: seq<int>, i: nat, fuel: nat, r: State)
    requires Sound(Quick(s)) && L.IsPrey(s, h, col) && i < |moves|
  {
    && Sized(r) && Sound(Quick(r)) && |r.b| == |s.b| && 0 <= h < |r.b| && (r.b[h] == col || r.g[h] == 0)
      && IsColour(col)
    && L.Escapes(s, h, col, moves, i, fuel) == Outcome(L.Chase(r, h, col, 0, fuel),
        L.Escapes(s, h, col, moves, i + 1, fuel))
  }

  lemma EscapesNext(s: State, h: int, col: Stone, moves: seq<int>, i: nat, fuel: nat)
    requires Sound(Quick(s)) && L.IsPrey(s, h, col) && i < |moves|
    ensures L.CanTry(s, moves[i], col) ==>
      Sized(s) && Offered(s, Move(moves[i], col)) && 0 <= moves[i] && QuickPlay(s, Move(moves[i], col)).1
    ensures L.CanTry(s, moves[i], col) ==> CaptureStep(s, h, col, moves, i, fuel, QuickPlay(s, Move(moves[i], col)).0)
    ensures !L.CanTry(s, moves[i], col) ==>
      L.Escapes(s, h, col, moves, i, fuel) == L.Escapes(s, h, col, moves, i + 1, fuel)
  {
    hide Sound, QuickPlay, L.IsPrey, ValidPlay, L.Chase;
    L.PreyPoints(s, h, col);
    if L.CanTry(s, moves[i], col) {
      L.TryAccepted(s, moves[i], col);
      L.ReplyLeaves(s, h, col, moves[i]);
      L.AfterMove(s, Move(moves[i], col));
    }
  }

  /** Whether capturing a chaser escapes. */
  method CounterEscapes(bd: Board, h: int, col: Stone, moves: seq<int>, fuel: nat) returns (done: bool, escaped: bool)
    requires bd.Valid() && Sound(Quick(bd.Snap())) && L.IsPrey(bd.Snap(), h, col)
    modifies bd, bd.b, bd.n, bd.g, bd.p, bd.gi, bd.fmap
    ensures bd.Valid() && bd.Snap() == old(bd.Snap())
    ensures Answers(L.Escapes(old(bd.Snap()), h, col, moves, 0, fuel), done, if escaped then 1 else 0)
    decreases fuel, 3, 0
  {
    hide InfoOK, ListOf, ListsOf, Sound, QuickPlay, L.IsPrey, L.Escapes, L.Chase, ValidPlay;
    ghost var s := bd.Snap();
    L.PreyFacts(s, h, col);
    var i := 0;
    while i < |moves|
      invariant 0 <= i <= |moves| && bd.Valid() && bd.Snap() == s
      invariant L.Escapes(s, h, col, moves, 0, fuel) == L.Escapes(s, h, col, moves, i, fuel)
    {
      EscapesNext(s, h, col, moves, i, fuel);
      var m := Move(moves[i], col);
      var valid := CanTryNow(bd, m);
      if valid {
        var ok, u := TryMove(bd, m);
        var len: nat;
        done, len := Chase(bd, h, col, 0, fuel);
        TakeBack(bd, m, u, s);
        if !done { return false, false; }
        if len == 0 { return true, true; }
      }
      i := i + 1;
    }
    EscapesEnd(s, h, col, moves, fuel);
    done, escaped := true, false;
  }

  lemma EscapesEnd(s: State, h: int, col: Stone, moves: seq<int>, fuel: nat)
    requires Sound(Quick(s)) && L.IsPrey(s, h, col)
    ensures L.Escapes(s, h, col, moves, |moves|, fuel) == L.Done(0)
  {
    hide Sound, L.IsPrey;
  }

  method CanTryNow(bd: Board, m: Move) returns (r: bool)
    requires bd.Valid() && Sound(Quick(bd.Snap())) && IsColour(m.colour)
    ensures r == L.CanTry(bd.Snap(), m.coord, m.colour)
  {
    hide InfoOK, ListsOf, Sound, ValidPlay, Legal;
    QuickSized(bd.Snap());
    if m.coord < 0 || m.coord >= bd.b.Length { return false; }
    r := bd.IsValidPlay(m);
  }

  lemma AtariNext(s: State, x: int, c: Stone, k: int)
    requires 0 <= k < 4 && Inner(s, x)
    ensures AtariFrom(s, x, c, 4) == false && RoomyFrom(s, x, c, 4) == false
    ensures AtariFrom(s, x, c, k) <==>
      (s.b[Nb(s.st, x, k)] == c && InAtari(s, s.g[Nb(s.st, x, k)]) == 1) || AtariFrom(s, x, c, k + 1)
    ensures RoomyFrom(s, x, c, k) <==>
      (s.b[Nb(s.st, x, k)] == c && Roomy(s, s.g[Nb(s.st, x, k)])) || RoomyFrom(s, x, c, k + 1)
  {
  }

  /** Some neighbour has the colour c and a chain of one liberty. */
  method AtariBeside(bd: Board, x: int, c: Stone) returns (r: bool)
    requires bd.Valid() && Sound(Quick(bd.Snap())) && bd.st <= x < bd.b.Length - bd.st
    ensures Inner(bd.Snap(), x) && r == AtariFrom(bd.Snap(), x, c, 0)
  {
    hide InfoOK, ListOf, ListsOf, Sound, AtariFrom, RoomyFrom;
    ghost var s := bd.Snap();
    QuickSized(s);
    AtariNext(s, x, c, 0);
    var k := 0;
    while k < 4
      invariant 0 <= k <= 4 && AtariFrom(s, x, c, 0) == AtariFrom(s, x, c, k)
    {
      AtariNext(s, x, c, k);
      var z := Nb(bd.st, x, k);
      IdFacts(s, z);
      LibsAt(bd, bd.g[z]);
      if bd.b[z] == c && bd.gi[bd.g[z]].libs == 1 { return true; }
      k := k + 1;
    }
    r := false;
  }

  /** Some neighbour has the colour c and a chain of several liberties. */
  method RoomBeside(bd: Board, x: int, c: Stone) returns (r: bool)
    requires bd.Valid() && Sound(Quick(bd.Snap())) && bd.st <= x < bd.b.Length - bd.st
    ensures Inner(bd.Snap(), x) && r == RoomyFrom(bd.Snap(), x, c, 0)
  {
    hide InfoOK, ListOf, ListsOf, Sound, AtariFrom, RoomyFrom;
    ghost var s := bd.Snap();
    QuickSized(s);
    AtariNext(s, x, c, 0);
    var k := 0;
    while k < 4
      invariant 0 <= k <= 4 && RoomyFrom(s, x, c, 0) == RoomyFrom(s, x, c, k)
    {
      AtariNext(s, x, c, k);
      var z := Nb(bd.st, x, k);
      IdFacts(s, z);
      LibsAt(bd, bd.g[z]);
      if bd.b[z] == c && bd.gi[bd.g[z]].libs > 1 { return true; }
      k := k + 1;
    }
    r := false;
  }

  /** The test of a move that also refuses suicide. */
  method IsValidPlayNoSuicide(bd: Board, m: Move) returns (r: bool)
    requires bd.Valid() && Sound(Quick(bd.Snap())) && IsColour(m.colour) && 0 <= m.coord < bd.b.Length
    ensures Sized(bd.Snap()) && (bd.Snap().b[m.coord] == Empty ==> Inner(bd.Snap(), m.coord))
    ensures r == ValidPlayNoSuicide(bd.Snap(), m)
  {
    hide InfoOK, ListOf, ListsOf, Sound, Eyelike, AtariFrom, RoomyFrom;
    ghost var s := bd.Snap();
    L.StayAccepted(s, m);
    if bd.b[m.coord] != Empty { return false; }
    if FreeAround(bd, m.coord) >= 1 { return true; }
    EyelikeIs(s, m.coord, Other(m.colour));
    if CountOf(bd.n[m.coord], Other(m.colour)) + bd.n[m.coord].off == 4 && m == bd.ko { return false; }
    var takes := AtariBeside(bd, m.coord, Other(m.colour));
    if takes { return true; }
    r := RoomBeside(bd, m.coord, m.colour);
  }

  /** The entry for a chain in atari with some space to run; without it there is no ladder. */
  method IsMiddleLadder(bd: Board, h: int, fuel: nat) returns (done: bool, r: nat)
    requires bd.Valid() && Sound(Quick(bd.Snap())) && IsGroup(bd.Snap(), h) && |bd.Snap().lib[h]| == 1
    modifies bd, bd.b, bd.n, bd.g, bd.p, bd.gi, bd.fmap
    ensures bd.Valid() && bd.Snap() == old(bd.Snap()) && Sized(bd.Snap()) && L.IsPrey(bd.Snap(), h, bd.Snap().b[h])
    ensures var s := bd.Snap(); 0 <= s.lib[h][0] < |s.n| && Answers(L.MiddleLadder(s, h, s.b[h], fuel), done, r)
    ensures done && r != 0 ==> EscaperLoses(L.Position(bd.Snap()), bd.Snap().st, h, bd.Snap().b[h], fuel)
  {
    hide InfoOK, ListOf, ListsOf, Sound, L.Flee, LibSet, EscaperLoses;
    OnlyLib(bd.Snap(), h);
    L.MiddleLadderSound(bd.Snap(), h, bd.Snap().b[h], fuel);
    LibsAt(bd, h);
    if FreeAround(bd, bd.gi[h].lib[0]) != 2 { return true, 0; }
    done, r := Flee(bd, h, bd.b[h], 0, fuel);
  }

  /** Would the chain, now with two liberties, be caught after a chasing move at c? */
  method WouldBeLadder(bd: Board, h: int, c: int, fuel: nat) returns (done: bool, r: nat)
    requires bd.Valid() && Sound(Quick(bd.Snap())) && IsGroup(bd.Snap(), h) && |bd.Snap().lib[h]| == 2
    requires c in bd.Snap().lib[h]
    modifies bd, bd.b, bd.n, bd.g, bd.p, bd.gi, bd.fmap
    ensures bd.Valid() && bd.Snap() == old(bd.Snap()) && Sized(bd.Snap()) && L.IsPrey(bd.Snap(), h, bd.Snap().b[h])
    ensures Answers(L.WouldBe(bd.Snap(), h, bd.Snap().b[h], c, fuel), done, r)
    ensures done && r != 0 ==> Attack(L.Position(bd.Snap()), bd.Snap().st, h, bd.Snap().b[h], c, fuel + 1)
  {
    hide InfoOK, ListOf, ListsOf, Sound, QuickPlay, L.Flee, ValidPlayNoSuicide, Snapback, Attack;
    ghost var s := bd.Snap();
    var col := bd.b[h];
    L.WouldBeSound(s, h, col, c, fuel);
    L.PreyLibs(s, h, col);
    L.PreyPoints(s, h, col);
    var m := Move(c, Other(col));
    L.StayAccepted(s, m);
    var valid := IsValidPlayNoSuicide(bd, m);
    if !valid { return true, 0; }
    L.AtariFollows(s, h, col, c);
    var ok, u := TryMove(bd, m);
    done, r := Flee(bd, h, col, 0, fuel);
    TakeBack(bd, m, u, s);
  }
}
