/** What a quick play leaves behind, told from the board before it and the saved record. */
module UndoTrace {
  import opened Grid
  import opened LibList
  import opened Engine
  import opened Invariant
  import opened Steps
  import opened Moves
  import opened PlayTheorem
  import opened Undo

  /** Chains the move captures. */
  ghost function Dead(u: Record): set<int> {
    set i | 0 <= i < |u.enemies| && u.enemies[i].stones != [] :: u.enemies[i].grp
  }

  /** The chain the stone joins, 0 for none. */
  function Home(u: Record): int { if u.merged == [] then 0 else u.merged[0].grp }

  ghost predicate MergesOK(c: Core, ch: Chains, x: int, col: Stone, u: Record)
    requires Shape(c)
  {
    && (forall i :: 0 <= i < |u.merged| ==> u.merged[i].grp in ch)
    && (forall i :: 0 <= i < |u.merged| && 0 <= u.merged[i].grp < |c.b| ==>
          u.merged[i].lib == c.lib[u.merged[i].grp] && c.b[u.merged[i].grp] == col && Touch(c, x, u.merged[i].grp))
    && (forall i, j :: 0 <= i < j < |u.merged| ==> u.merged[i].grp != u.merged[j].grp)
    && (u.merged != [] ==> 0 <= u.inserted < |c.b| && c.g[u.inserted] == u.merged[0].grp && u.inserted != x)
  }

  ghost predicate EnemiesOK(c: Core, ch: Chains, x: int, col: Stone, u: Record)
    requires Shape(c)
  {
    && (forall i :: 0 <= i < |u.enemies| ==> u.enemies[i].grp in ch)
    && (forall i :: 0 <= i < |u.enemies| && 0 <= u.enemies[i].grp < |c.b| && u.enemies[i].grp in ch ==>
          u.enemies[i].lib == c.lib[u.enemies[i].grp] && c.b[u.enemies[i].grp] == Other(col)
          && Touch(c, x, u.enemies[i].grp)
          && u.enemies[i].stones == if |u.enemies[i].lib| <= 1 then ch[u.enemies[i].grp] else [])
    && (forall i, j :: 0 <= i < j < |u.enemies| ==> u.enemies[i].grp != u.enemies[j].grp)
  }

  /** The record covers the first k neighbours. */
  ghost predicate Covers(c: Core, x: int, col: Stone, u: Record, k: int)
    requires Shape(c)
  {
    forall j :: 0 <= j < k && 0 <= Nb(c.st, x, j) < |c.b| ==>
      (c.b[Nb(c.st, x, j)] == col ==> c.g[Nb(c.st, x, j)] in MergedIds(u))
      && (c.b[Nb(c.st, x, j)] == Other(col) ==> c.g[Nb(c.st, x, j)] in EnemyIds(u))
  }

  ghost predicate RecordOK(c: Core, ch: Chains, x: int, col: Stone, u: Record, k: int) {
    && Shape(c) && MergesOK(c, ch, x, col, u) && EnemiesOK(c, ch, x, col, u) && Covers(c, x, col, u, k)
  }

  lemma SavedMergeIff(u: Record, grp: int)
    ensures SavedMerge(u, grp) <==> grp in MergedIds(u)
  {
  }

  lemma SavedEnemyIff(u: Record, grp: int)
    ensures SavedEnemy(u, grp) <==> grp in EnemyIds(u)
  {
  }

  lemma MergedIdsMore(u: Record, r: MergeRec, ins: int)
    ensures MergedIds(u.(inserted := ins, merged := u.merged + [r])) == MergedIds(u) + {r.grp}
  {
    var u' := u.(inserted := ins, merged := u.merged + [r]);
    forall i | 0 <= i < |u.merged| ensures u.merged[i].grp in MergedIds(u') {
      assert u'.merged[i].grp == u.merged[i].grp;
    }
    assert u'.merged[|u.merged|].grp == r.grp;
  }

  lemma EnemyIdsMore(u: Record, r: EnemyRec, n: int)
    ensures var u' := u.(enemies := u.enemies + [r], ncaptures := n);
      EnemyIds(u') == EnemyIds(u) + {r.grp} && Dead(u') == Dead(u) + (if r.stones != [] then {r.grp} else {})
  {
    var u' := u.(enemies := u.enemies + [r], ncaptures := n);
    forall i | 0 <= i < |u.enemies| ensures u.enemies[i].grp in EnemyIds(u') {
      assert u'.enemies[i].grp == u.enemies[i].grp;
    }
    forall i | 0 <= i < |u.enemies| && u.enemies[i].stones != [] ensures u.enemies[i].grp in Dead(u') {
      assert u'.enemies[i] == u.enemies[i];
    }
    assert u'.enemies[|u.enemies|] == r;
  }

  ghost predicate PlayPoint(s: State, ch: Chains, x: int, col: Stone) {
    Sized(s) && Quiet(K(s), ch) && 0 <= x < |s.b| && s.b[x] == Empty && IsColour(col)
  }

  /** A neighbour of the played point, by its colour. */
  lemma NbChain(s: State, ch: Chains, x: int, col: Stone, k: int)
    requires PlayPoint(s, ch, x, col) && 0 <= k < 4
    ensures Inner(s, x) && Shape(K(s)) && 0 <= Nb(s.st, x, k) < |s.b| && Nb(s.st, x, k) != x
    ensures var y := Nb(s.st, x, k); 0 <= s.g[y] < |s.lib| && Touch(K(s), x, s.g[y])
    ensures var y := Nb(s.st, x, k); if IsColour(s.b[y]) then s.g[y] in ch && s.g[y] != 0 && s.b[s.g[y]] == s.b[y]
      else s.g[y] == 0
    ensures var y := Nb(s.st, x, k); s.b[y] == col || s.b[y] == Other(col) || !IsColour(s.b[y])
    ensures ChainsRight(s, ch)
  {
    hide Maximal, LibOK, Reach;
    var y := Nb(s.st, x, k);
    assert View(K(s), QUIET) == s.b;
    if s.g[y] != 0 {
      IdPositive(K(s), ch, s.g[y]);
      SameHue(K(s), ch, QUIET, s.g[y], y);
    }
    forall h | h in ch ensures 0 < h < |s.b| && Walk(s.p, h, |s.p|) == ch[h] && ch[h] != [] {
      IdPositive(K(s), ch, h);
      WalkIsChain(K(s), h, ch[h]);
    }
  }

  /** Walking a chain from its id gives its list. */
  ghost predicate ChainsRight(s: State, ch: Chains) {
    forall h :: h in ch ==> 0 < h < |s.b| && ChainOf(s, h) == ch[h] && ch[h] != []
  }

  /** A stone of colour hue at y next to x, whose chain is about to be saved. */
  ghost predicate Savable(s: State, ch: Chains, x: int, y: int, hue: Stone) {
    && Sized(s) && ChainsRight(s, ch) && 0 <= y < |s.b| && y != x && s.b[y] == hue
    && s.g[y] in ch && 0 <= s.g[y] < |s.b| && s.b[s.g[y]] == hue && Touch(K(s), x, s.g[y])
  }

  lemma SaveMergeOK(s: State, ch: Chains, x: int, col: Stone, u: Record, k: int)
    requires RecordOK(K(s), ch, x, col, u, k) && 0 <= k < 4 && IsColour(col) && Savable(s, ch, x, Nb(s.st, x, k), col)
    ensures var y := Nb(s.st, x, k); RecordOK(K(s), ch, x, col, SaveMerge(s, u, s.g[y], y), k + 1)
  {
    hide Touch, Framed, ChainOf;
    var y := Nb(s.st, x, k);
    var grp := s.g[y];
    var u' := SaveMerge(s, u, grp, y);
    SavedMergeIff(u, grp);
    if !SavedMerge(u, grp) {
      MergedIdsMore(u, MergeRec(grp, s.lib[grp]), u'.inserted);
      assert MergesOK(K(s), ch, x, col, u');
      assert EnemyIds(u') == EnemyIds(u);
    }
  }

  lemma EnemiesMore(c: Core, ch: Chains, x: int, col: Stone, u: Record, r: EnemyRec, n: int)
    requires Shape(c) && EnemiesOK(c, ch, x, col, u) && r.grp !in EnemyIds(u)
    requires r.grp in ch && 0 <= r.grp < |c.b| && r.lib == c.lib[r.grp] && c.b[r.grp] == Other(col)
    requires Touch(c, x, r.grp)
    requires r.stones == if |r.lib| <= 1 then ch[r.grp] else []
    ensures EnemiesOK(c, ch, x, col, u.(enemies := u.enemies + [r], ncaptures := n))
  {
    hide Touch, Framed;
  }

  lemma SaveEnemyOK(s: State, ch: Chains, x: int, col: Stone, u: Record, k: int)
    requires RecordOK(K(s), ch, x, col, u, k) && 0 <= k < 4 && IsColour(col)
    requires Savable(s, ch, x, Nb(s.st, x, k), Other(col))
    ensures var y := Nb(s.st, x, k); RecordOK(K(s), ch, x, col, SaveEnemy(s, u, s.g[y]), k + 1)
  {
    hide Touch, Framed, ChainOf, EnemiesOK;
    var y := Nb(s.st, x, k);
    var grp := s.g[y];
    SavedEnemyIff(u, grp);
    if !SavedEnemy(u, grp) {
      var stones := if |s.lib[grp]| <= 1 then ChainOf(s, grp) else [];
      var n := u.ncaptures + |stones|;
      EnemyIdsMore(u, EnemyRec(grp, s.lib[grp], stones), n);
      EnemiesMore(K(s), ch, x, col, u, EnemyRec(grp, s.lib[grp], stones), n);
      assert MergedIds(SaveEnemy(s, u, grp)) == MergedIds(u);
    }
  }

  lemma {:induction false} SaveUpToOK(s: State, ch: Chains, x: int, col: Stone, u: Record, k: int)
    requires PlayPoint(s, ch, x, col) && 0 <= k <= 4 && u.merged == [] && u.enemies == []
    ensures Inner(s, x) && RecordOK(K(s), ch, x, col, SaveUpTo(s, u, x, col, k), k)
    decreases k
  {
    hide Quiet, MergesOK, EnemiesOK, Covers, SaveMerge, SaveEnemy, ChainsRight;
    NbChain(s, ch, x, col, 0);
    if k == 0 {
      EmptyRecordOK(K(s), ch, x, col, SaveUpTo(s, u, x, col, 0));
    } else {
      SaveUpToOK(s, ch, x, col, u, k - 1);
      var u1 := SaveUpTo(s, u, x, col, k - 1);
      NbChain(s, ch, x, col, k - 1);
      var y := Nb(s.st, x, k - 1);
      if IsColour(s.b[y]) { assert Savable(s, ch, x, y, s.b[y]); }
      hide Savable;
      if s.b[y] == col { SaveMergeOK(s, ch, x, col, u1, k - 1); }
      else if s.b[y] == Other(col) { SaveEnemyOK(s, ch, x, col, u1, k - 1); }
      else { CoversMore(K(s), x, col, u1, k - 1); }
    }
  }

  lemma EmptyRecordOK(c: Core, ch: Chains, x: int, col: Stone, u: Record)
    requires Shape(c) && u.merged == [] && u.enemies == []
    ensures RecordOK(c, ch, x, col, u, 0)
  {
  }

  lemma CoversMore(c: Core, x: int, col: Stone, u: Record, k: int)
    requires Shape(c) && Covers(c, x, col, u, k) && 0 <= Nb(c.st, x, k) < |c.b|
    requires c.b[Nb(c.st, x, k)] != col && c.b[Nb(c.st, x, k)] != Other(col)
    ensures Covers(c, x, col, u, k + 1)
  {
  }
}
