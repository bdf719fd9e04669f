/** On the quick board a move leaves the side indexes alone. */
module UndoFrame {
  import opened Grid
  import opened Engine
  import opened UndoCounts

  /** Only the core, the counts and the stones taken may differ. */
  ghost predicate Quickly(s: State, r: State) {
    r == s.(b := r.b, n := r.n, g := r.g, p := r.p, lib := r.lib, caps := r.caps, lasts := r.lasts)
  }

  lemma AddLibQuick(s: State, grp: int, x: int)
    requires 0 <= grp < |s.lib| && !s.full
    ensures Quickly(s, AddLib(s, grp, x))
  {
  }

  lemma {:induction false} RemoveNbsQuick(s: State, grp: int, x: int, col: Stone, k: int)
    requires 0 <= k <= 4 && Inner(s, x) && !s.full
    ensures Quickly(s, RemoveNbs(s, grp, x, col, k))
    decreases k
  {
    hide AddLib, BumpN;
    if k > 0 {
      RemoveNbsQuick(s, grp, x, col, k - 1);
      var s1 := RemoveNbs(s, grp, x, col, k - 1);
      var y := Nb(s.st, x, k - 1);
      var s2 := s1.(n := s1.n[y := BumpN(s1.n[y], col, -1)]);
      if 0 <= s2.g[y] < |s2.lib| { AddLibQuick(s2, s2.g[y], x); }
    }
  }

  lemma {:induction false} CaptureUpToQuick(s: State, grp: int, l: seq<int>, i: int)
    requires 0 <= i <= |l| && !s.full && forall j :: 0 <= j < |l| ==> Inner(s, l[j])
    ensures Quickly(s, CaptureUpTo(s, grp, l, i))
    decreases i
  {
    hide RemoveNbs, Bump;
    if i > 0 {
      CaptureUpToQuick(s, grp, l, i - 1);
      var s1 := CaptureUpTo(s, grp, l, i - 1);
      var x := l[i - 1];
      assert Inner(s, x);
      var s2 := s1.(caps := Bump(s1.caps, Other(s1.b[x]), 1));
      RemoveNbsQuick(HashUpdate(s2.(b := s2.b[x := Empty], g := s2.g[x := 0]), x, s2.b[x]), grp, x, s2.b[x], 4);
    }
  }

  lemma CaptureQuick(s: State, grp: int)
    requires !s.full
    ensures Quickly(s, Capture(s, grp))
  {
    if Walkable(s, grp) { CaptureUpToQuick(s, grp, ChainOf(s, grp), |ChainOf(s, grp)|); }
  }

  lemma {:induction false} AddEmptyNbsQuick(s: State, grp: int, x: int, k: int)
    requires 0 <= k <= 4 && Inner(s, x) && 0 <= grp < |s.lib| && !s.full
    ensures Quickly(s, AddEmptyNbs(s, grp, x, k))
    decreases k
  {
    hide AddLib;
    if k > 0 {
      AddEmptyNbsQuick(s, grp, x, k - 1);
      AddLibQuick(AddEmptyNbs(s, grp, x, k - 1), grp, Nb(s.st, x, k - 1));
    }
  }

  lemma {:induction false} AppendLibsQuick(s: State, to: int, l: seq<int>, i: int)
    requires Sized(s) && 0 <= to < |s.lib| && 0 <= i <= |l| && !s.full
    ensures Quickly(s, AppendLibs(s, to, l, i))
    decreases i
  {
    hide AddLib;
    if i > 0 {
      AppendLibsQuick(s, to, l, i - 1);
      AddLibQuick(AppendLibs(s, to, l, i - 1), to, l[i - 1]);
    }
  }

  lemma MergeQuick(s: State, to: int, from: int)
    requires Sized(s) && 0 <= to < |s.lib| && !s.full
    ensures Quickly(s, Merge(s, to, from))
  {
    hide AppendLibs, Relabel;
    if Walkable(s, from) { AppendLibsQuick(s, to, s.lib[from], |s.lib[from]|); }
  }

  lemma PlayOneQuick(s: State, x: int, col: Stone, y: int, grp: int)
    requires Inner(s, x) && 0 <= y < |s.b| && 0 <= grp < |s.b| && !s.full
    ensures Quickly(s, PlayOne(s, x, col, y, grp).0)
  {
    hide Merge, Capture, AddEmptyNbs, RemoveLib, BumpN;
    var h := s.g[y];
    var s1 := s.(n := s.n[y := BumpN(s.n[y], col, 1)]);
    if 0 < h < |s.b| {
      RemoveLibQuick(s1, h, x);
      var s2 := RemoveLib(s1, h, x);
      if s.b[y] == col && h != grp {
        if grp == 0 { AddEmptyNbsQuick(s2.(g := s2.g[x := h], p := s2.p[x := s2.p[y]][y := x]), h, x, 4); }
        else { MergeQuick(s2, grp, h); }
      } else {
        CaptureQuick(s2, h);
      }
    }
  }

  lemma {:induction false} PlayUpToQuick(s: State, x: int, col: Stone, k: int)
    requires 0 <= k <= 4 && Inner(s, x) && !s.full
    ensures Quickly(s, PlayUpTo(s, x, col, k).0)
    decreases k
  {
    hide PlayOne;
    if k > 0 {
      PlayUpToQuick(s, x, col, k - 1);
      var (s1, grp) := PlayUpTo(s, x, col, k - 1);
      PlayOneQuick(s1, x, col, Nb(s.st, x, k - 1), grp);
    }
  }

  /** A stone put down on the quick board: what changed outside the core. */
  lemma OutsideQuick(q: State, m: Move)
    requires Inner(q, m.coord) && !q.full
    ensures var o := PlayOutside(q, m).0; Quickly(Commit(q, m).(ko := NO_MOVE), o)
  {
    hide PlayUpTo;
    PlayUpToQuick(q, m.coord, m.colour, 4);
    var (s1, grp) := PlayUpTo(q, m.coord, m.colour, 4);
    assert TakeFree(q, m.coord) == q;
  }
}
