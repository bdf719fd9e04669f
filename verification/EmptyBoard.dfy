/** The empty square board: its margin, its neighbour counts and its free points. */
module EmptyBoard {
  import opened Grid
  import opened Engine
  import opened Rules
  import opened Reachable

  // ------------------------------------------------------------ the empty board

  predicate Margin(st: int, x: int) { st > 0 && (x < st || x >= st * st - st || x % st == 0 || x % st == st - 1) }

  /** A square board without stones inside its margin. */
  function EmptyGrid(st: int): (v: seq<Stone>)
    requires st >= 3
    ensures |v| == st * st && forall x :: 0 <= x < st * st ==> v[x] == if Margin(st, x) then Off else Empty
  {
    seq(st * st, x requires 0 <= x < st * st => if Margin(st, x) then Off else Empty)
  }

  lemma OwnRemainder(st: int)
    requires st >= 3
    ensures st % st == 0
  {
  }

  lemma EmptyGridBare(st: int)
    requires st >= 3
    ensures st * st >= 9 && Bare(EmptyGrid(st), st) && EmptyGrid(st)[0] == Off
  {
    var v := EmptyGrid(st);
    assert st * st >= 3 * st by { assert (st - 3) * st >= 0; }
    forall x | 0 <= x < |v| && v[x] != Off ensures st < x < |v| - st {
      OwnRemainder(st);
    }
  }

  /** The margin once its first and last rows, and the ends of the first r rows, are drawn. */
  predicate Edged(st: int, r: int, x: int) {
    st > 0 && (x < st || x >= st * st - st || ((x % st == 0 || x % st == st - 1) && x / st < r))
  }

  lemma Times(a: int, b: int, k: int)
    requires k >= 0
    ensures a <= b ==> a * k <= b * k
  {
    if a <= b { assert (b - a) * k >= 0; }
  }

  lemma DivMod(st: int, r: int, x: int)
    requires 0 < st && r * st <= x < r * st + st
    ensures x / st == r && x % st == x - r * st
  {
    var q := x / st;
    assert x == q * st + x % st;
    Times(r + 1, q, st);
    Times(q + 1, r, st);
  }

  lemma RowEnds(st: int, r: int, next: int, i: int, n: int)
    requires st >= 3 && 0 <= r < st && i == r * st && n == st * st && next == r + 1
    ensures 0 <= i && i + st <= n
    ensures forall x :: 0 <= x < n ==> (Edged(st, next, x) <==> Edged(st, r, x) || x == i || x == i + st - 1)
  {
    Times(r + 1, st, st);
    Times(0, r, st);
    forall x | 0 <= x < n ensures Edged(st, next, x) <==> Edged(st, r, x) || x == i || x == i + st - 1 {
      RowEnd(st, r, x);
    }
  }

  lemma RowEnd(st: int, r: int, x: int)
    requires st >= 3 && 0 <= r < st && 0 <= x < st * st
    ensures Edged(st, r + 1, x) <==> Edged(st, r, x) || x == r * st || x == r * st + st - 1
  {
    DivMod(st, r, r * st);
    DivMod(st, r, r * st + st - 1);
    assert x == (x / st) * st + x % st;
  }

  lemma AllEdged(st: int)
    requires st >= 3
    ensures forall x :: 0 <= x < st * st ==> (Edged(st, st, x) <==> Margin(st, x))
  {
    forall x | 0 <= x < st * st ensures x / st < st {
      assert x == (x / st) * st + x % st;
      Times(st, x / st, st);
    }
  }

  lemma NoEnds(st: int)
    requires st >= 3
    ensures forall x :: 0 <= x < st * st ==> (Edged(st, 0, x) <==> x < st || x >= st * st - st)
  {
  }

  function Inc(t: Counts, col: Stone): Counts {
    match col
    case Black => t.(black := t.black + 1)
    case White => t.(white := t.white + 1)
    case Off => t.(off := t.off + 1)
    case Empty => t
  }

  function CountUpTo(b: seq<Stone>, st: int, x: int, k: int): Counts
    requires 0 <= k <= 4 && Interior(b, st, x)
  {
    if k == 0 then Counts(0, 0, 0) else Inc(CountUpTo(b, st, x, k - 1), b[Nb(st, x, k - 1)])
  }

  lemma CountsAll(b: seq<Stone>, st: int, x: int)
    requires Interior(b, st, x)
    ensures CountUpTo(b, st, x, 4) == CountsAt(b, st, x)
  {
    assert CountUpTo(b, st, x, 1) == Inc(Counts(0, 0, 0), b[x - st]);
    assert CountUpTo(b, st, x, 2) == Inc(CountUpTo(b, st, x, 1), b[x - 1]);
    assert CountUpTo(b, st, x, 3) == Inc(CountUpTo(b, st, x, 2), b[x + 1]);
    assert CountUpTo(b, st, x, 4) == Inc(CountUpTo(b, st, x, 3), b[x + st]);
  }

  lemma RowFits(st: int, r: int)
    requires st >= 3 && 0 <= r <= st
    ensures r * st <= st * st - st <==> r < st
  {
    Times(r + 1, st, st);
  }

  lemma NoneCounted(b: seq<Stone>, st: int, x: int)
    requires Interior(b, st, x)
    ensures CountUpTo(b, st, x, 0) == Counts(0, 0, 0)
  {
  }

  lemma OneCounted(b: seq<Stone>, st: int, x: int, k: int)
    requires 0 <= k < 4 && Interior(b, st, x)
    ensures CountUpTo(b, st, x, k + 1) == Inc(CountUpTo(b, st, x, k), b[Nb(st, x, k)])
  {
  }

  lemma ClearedIs(s: State, keys: seq<Key>, rules: Ruleset)
    requires s.st >= 3 && |s.b| == |s.g| == |s.p| == |s.lib| == |s.fmap|
    requires s == Cleared(s.b, s.st, keys, rules).(g := s.g, p := s.p, lib := s.lib, fmap := s.fmap)
    requires forall x :: 0 <= x < |s.b| ==> s.g[x] == 0 && s.p[x] == 0 && s.lib[x] == []
    requires forall x :: 0 <= x < |s.b| ==> s.fmap[x] == if s.b[x] == Empty then |FreePoints(s.b, x)| else 0
    ensures s == Cleared(s.b, s.st, keys, rules)
  {
  }
}
