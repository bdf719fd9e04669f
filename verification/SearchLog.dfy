/** The statistics of a tree search read off the list of its actions alone: which replies and finished
    games were counted at each node, with which value, and which selections were dropped. */
module SearchLog {
  import opened SearchTree

  // ------------------------------------------------------------ what the actions say

  /** The node an action is about; backup steps are about none. */
  function LeafOf(a: Action): int {
    match a
    case Select(path, _) => if path == [] then -1 else path[|path| - 1]
    case Reply(leaf, _, _) => leaf
    case BackUp(_) => -1
  }

  /** A reply and a selection that ends in a finished game bring a value. */
  predicate BringsValue(a: Action) { a.Reply? || (a.Select? && a.fate.Terminal?) }

  function Value(a: Action): real {
    match a
    case Select(_, Terminal(z)) => z
    case Reply(_, z, _) => z
    case _ => 0.0
  }

  function One(b: bool): nat { if b then 1 else 0 }

  /** How many values were brought to x, and what they add up to. */
  function Brought(acts: seq<Action>, x: int): nat {
    if acts == [] then 0
    else
      var a := acts[|acts| - 1];
      Brought(acts[..|acts| - 1], x) + One(LeafOf(a) == x && BringsValue(a))
  }

  function Gained(acts: seq<Action>, x: int): real {
    if acts == [] then 0.0
    else
      var a := acts[|acts| - 1];
      Gained(acts[..|acts| - 1], x) + if LeafOf(a) == x && BringsValue(a) then Value(a) else 0.0
  }

  /** How many selections were dropped at x for repetition. */
  function Dropped(acts: seq<Action>, x: int): nat {
    if acts == [] then 0
    else
      var a := acts[|acts| - 1];
      Dropped(acts[..|acts| - 1], x) + One(LeafOf(a) == x && a.Select? && a.fate.Repetition?)
  }

  predicate Evaluates(a: Action, x: int) { LeafOf(a) == x && a.Select? && a.fate.Evaluate? }

  predicate Replies(a: Action, x: int) { LeafOf(a) == x && a.Reply? }

  predicate Answered(acts: seq<Action>, x: int) {
    acts != [] && (Answered(acts[..|acts| - 1], x) || Replies(acts[|acts| - 1], x))
  }

  /** How many selections wanted an evaluation of x: before its reply, and after. */
  function Early(acts: seq<Action>, x: int): nat {
    if acts == [] then 0
    else
      Early(acts[..|acts| - 1], x)
      + One(Evaluates(acts[|acts| - 1], x) && !Answered(acts[..|acts| - 1], x))
  }

  function TooLate(acts: seq<Action>, x: int): nat {
    if acts == [] then 0
    else
      TooLate(acts[..|acts| - 1], x)
      + One(Evaluates(acts[|acts| - 1], x) && Answered(acts[..|acts| - 1], x))
  }

  function KidsIn(a: Action): nat { if a.Reply? then a.kids else 0 }

  /** How many children the replies brought: to x, and in all. */
  function KidsOf(acts: seq<Action>, x: int): nat {
    if acts == [] then 0
    else KidsOf(acts[..|acts| - 1], x) + if LeafOf(acts[|acts| - 1]) == x then KidsIn(acts[|acts| - 1]) else 0
  }

  function AllKids(acts: seq<Action>): nat {
    if acts == [] then 0 else AllKids(acts[..|acts| - 1]) + KidsIn(acts[|acts| - 1])
  }

  /** How many values were brought to nodes below the edge of e, and what they add up to. */
  function BroughtUnder(nodes: seq<Node>, acts: seq<Action>, e: int): nat {
    if acts == [] then 0
    else
      var a := acts[|acts| - 1];
      BroughtUnder(nodes, acts[..|acts| - 1], e) + One(Under(nodes, LeafOf(a), e) && BringsValue(a))
  }

  function GainedUnder(nodes: seq<Node>, acts: seq<Action>, e: int): real {
    if acts == [] then 0.0
    else
      var a := acts[|acts| - 1];
      GainedUnder(nodes, acts[..|acts| - 1], e) + if Under(nodes, LeafOf(a), e) && BringsValue(a) then Value(a) else 0.0
  }

  lemma Last(acts: seq<Action>, a: Action)
    ensures (acts + [a])[..|acts + [a]| - 1] == acts && (acts + [a])[|acts + [a]| - 1] == a
  {
  }

  // ------------------------------------------------------------ what the search recorded

  function At<T>(xs: seq<T>, x: int, d: T): T { if 0 <= x < |xs| then xs[x] else d }

  predicate Known(s: Search, x: int) { 0 <= x < |s.nodes| }

  function Children(nodes: seq<Node>, x: int, k: nat): nat
    requires k <= |nodes|
  {
    if k == 0 then 0 else Children(nodes, x, k - 1) + One(nodes[k - 1].father == x)
  }

  /** The counters of the node x are those of the actions. */
  ghost predicate CountersAt(s: Search, acts: seq<Action>, x: int) {
    && At(s.begun, x, 0) == Brought(acts, x) && At(s.won, x, 0.0) == Gained(acts, x)
    && At(s.lost, x, 0) == Dropped(acts, x) && At(s.late, x, 0) == TooLate(acts, x)
  }

  /** So is where it stands: asked for, run into again while waiting, answered. */
  ghost predicate StageAt(s: Search, acts: seq<Action>, x: int) {
    (Answered(acts, x) ==> Early(acts, x) > 0) &&
    if !Known(s, x) then Early(acts, x) == 0 && !Answered(acts, x)
    else
      && (s.nodes[x].asked <==> Early(acts, x) > 0) && (s.nodes[x].ready <==> Answered(acts, x))
      && s.nodes[x].invalid == (if Early(acts, x) > 0 then Early(acts, x) - 1 else 0)
  }

  ghost predicate KidsAt(s: Search, acts: seq<Action>, x: int) {
    Children(s.nodes, x, |s.nodes|) == if x == -1 then 1 else KidsOf(acts, x)
  }

  ghost predicate Logged(s: Search, acts: seq<Action>) {
    && Tree(s) && |s.nodes| == 1 + AllKids(acts)
    && (forall x :: CountersAt(s, acts, x)) && (forall x :: StageAt(s, acts, x))
    && (forall x :: KidsAt(s, acts, x))
  }

  // ------------------------------------------------------------ one step

  /** Weighing a path changes nothing but virtual loss. */
  lemma WeighLogged(s: Search, path: seq<int>, vl: int, acts: seq<Action>)
    requires Logged(s, acts) && Descends(s, path)
    ensures Logged(s.(nodes := Weigh(s.nodes, path, |path|, vl)), acts)
  {
    hide Weigh, Children, Brought, Gained, Dropped, TooLate, Early, Answered, KidsOf, AllKids;
    var r := s.(nodes := Weigh(s.nodes, path, |path|, vl));
    WeighOnly(s.nodes, path, |path|, vl);
    forall x ensures CountersAt(r, acts, x) { assert CountersAt(s, acts, x); }
    forall x ensures StageAt(r, acts, x) { assert StageAt(s, acts, x); }
    forall x ensures KidsAt(r, acts, x) {
      assert KidsAt(s, acts, x);
      SameChildren(s.nodes, r.nodes, x, |s.nodes|);
    }
  }

  lemma {:induction false} SameChildren(nodes: seq<Node>, r: seq<Node>, x: int, k: nat)
    requires k <= |nodes| == |r| && forall i :: 0 <= i < |nodes| ==> r[i].father == nodes[i].father
    ensures Children(r, x, k) == Children(nodes, x, k)
    decreases k
  {
    if k > 0 { SameChildren(nodes, r, x, k - 1); }
  }

  lemma SettleCounters(s: Search, path: seq<int>, fate: Fate, acts: seq<Action>, x: int)
    requires Tree(s) && path != [] && 0 <= path[|path| - 1] < |s.nodes|
    requires CountersAt(s, acts, x) && StageAt(s, acts, x)
    ensures CountersAt(Settle(s, path[|path| - 1], fate), acts + [Select(path, fate)], x)
  {
    hide Children;
    var a := Select(path, fate);
    Last(acts, a);
    var leaf := path[|path| - 1];
    assert LeafOf(a) == leaf;
    if x != leaf { assert CountersAt(Settle(s, leaf, fate), acts, x); }
  }

  lemma SettleStage(s: Search, path: seq<int>, fate: Fate, acts: seq<Action>, x: int)
    requires Tree(s) && path != [] && 0 <= path[|path| - 1] < |s.nodes| && StageAt(s, acts, x)
    ensures StageAt(Settle(s, path[|path| - 1], fate), acts + [Select(path, fate)], x)
  {
    var a := Select(path, fate);
    Last(acts, a);
    var leaf := path[|path| - 1];
    assert LeafOf(a) == leaf;
    if x != leaf { assert StageAt(Settle(s, leaf, fate), acts, x); }
  }

  lemma SettleShapes(s: Search, leaf: int, fate: Fate)
    requires Tree(s) && 0 <= leaf < |s.nodes|
    ensures var r := Settle(s, leaf, fate); Tree(r) && |r.nodes| == |s.nodes|
    ensures var r := Settle(s, leaf, fate); forall i :: 0 <= i < |s.nodes| ==> r.nodes[i].father == s.nodes[i].father
  {
  }

  lemma NoKids(acts: seq<Action>, a: Action, x: int)
    requires !a.Reply?
    ensures KidsOf(acts + [a], x) == KidsOf(acts, x) && AllKids(acts + [a]) == AllKids(acts)
  {
    Last(acts, a);
  }

  lemma SettleLogged(s: Search, path: seq<int>, fate: Fate, acts: seq<Action>)
    requires Logged(s, acts) && path != [] && 0 <= path[|path| - 1] < |s.nodes|
    ensures Logged(Settle(s, path[|path| - 1], fate), acts + [Select(path, fate)])
  {
    hide Children, CountersAt, StageAt, Settle, KidsOf, AllKids;
    var a := Select(path, fate);
    var r := Settle(s, path[|path| - 1], fate);
    SettleShapes(s, path[|path| - 1], fate);
    NoKids(acts, a, 0);
    forall x ensures CountersAt(r, acts + [a], x) {
      assert CountersAt(s, acts, x) && StageAt(s, acts, x);
      SettleCounters(s, path, fate, acts, x);
    }
    forall x ensures StageAt(r, acts + [a], x) {
      assert StageAt(s, acts, x);
      SettleStage(s, path, fate, acts, x);
    }
    forall x ensures KidsAt(r, acts + [a], x) {
      assert KidsAt(s, acts, x);
      NoKids(acts, a, x);
      SameChildren(s.nodes, r.nodes, x, |s.nodes|);
    }
  }

  lemma {:induction false} NewChildren(nodes: seq<Node>, more: seq<Node>, leaf: int, x: int, k: nat)
    requires k <= |more| && forall i :: 0 <= i < |more| ==> more[i].father == leaf
    ensures Children(nodes + more, x, |nodes| + k) == Children(nodes, x, |nodes|) + if x == leaf then k else 0
    decreases k
  {
    if k > 0 { NewChildren(nodes, more, leaf, x, k - 1); }
    else { PrefixChildren(nodes, more, x, |nodes|); }
  }

  lemma {:induction false} PrefixChildren(nodes: seq<Node>, more: seq<Node>, x: int, k: nat)
    requires k <= |nodes|
    ensures Children(nodes + more, x, k) == Children(nodes, x, k)
    decreases k
  {
    if k > 0 { PrefixChildren(nodes, more, x, k - 1); }
  }

  lemma ExpandChildren(s: Search, leaf: int, z: real, kids: nat, x: int)
    requires Tree(s) && 0 <= leaf < |s.nodes|
    ensures var r := Expand(s, leaf, z, kids);
      Children(r.nodes, x, |r.nodes|) == Children(s.nodes, x, |s.nodes|) + if x == leaf then kids else 0
  {
    hide Children;
    var nodes := s.nodes[leaf := s.nodes[leaf].(ready := true)];
    SameChildren(s.nodes, nodes, x, |s.nodes|);
    NewChildren(nodes, Repeat(kids, Child(leaf)), leaf, x, kids);
  }

  lemma ReplyLogged(s: Search, leaf: int, z: real, kids: nat, acts: seq<Action>)
    requires Logged(s, acts) && 0 <= leaf < |s.nodes| && s.nodes[leaf].asked && !s.nodes[leaf].ready
    ensures Logged(Expand(s, leaf, z, kids), acts + [Reply(leaf, z, kids)])
  {
    hide Children;
    var a := Reply(leaf, z, kids);
    var r := Expand(s, leaf, z, kids);
    Last(acts, a);
    GrownTree(s, leaf, kids);
    assert Tree(r);
    forall x ensures CountersAt(r, acts + [a], x) { assert CountersAt(s, acts, x); }
    forall x ensures StageAt(r, acts + [a], x) { assert StageAt(s, acts, x); }
    forall x ensures KidsAt(r, acts + [a], x) {
      assert KidsAt(s, acts, x);
      ExpandChildren(s, leaf, z, kids, x);
    }
  }

  lemma BackUpShapes(s: Search, i: nat, vl: int)
    requires Tree(s) && Enabled(s, BackUp(i))
    ensures var r := BackOne(s, i, vl); Tree(r) && |r.nodes| == |s.nodes|
    ensures var r := BackOne(s, i, vl); (r.begun, r.won, r.lost, r.late) == (s.begun, s.won, s.lost, s.late)
    ensures var r := BackOne(s, i, vl); forall x :: 0 <= x < |s.nodes| ==>
      r.nodes[x].father == s.nodes[x].father && r.nodes[x].asked == s.nodes[x].asked
      && r.nodes[x].ready == s.nodes[x].ready && r.nodes[x].invalid == s.nodes[x].invalid
  {
  }

  /** A backup step is about no node. */
  lemma AboutNone(acts: seq<Action>, i: nat, x: int)
    ensures Brought(acts + [BackUp(i)], x) == Brought(acts, x) && Gained(acts + [BackUp(i)], x) == Gained(acts, x)
    ensures Dropped(acts + [BackUp(i)], x) == Dropped(acts, x) && Answered(acts + [BackUp(i)], x) == Answered(acts, x)
    ensures Early(acts + [BackUp(i)], x) == Early(acts, x) && TooLate(acts + [BackUp(i)], x) == TooLate(acts, x)
  {
    Last(acts, BackUp(i));
  }

  lemma BackUpLogged(s: Search, i: nat, vl: int, acts: seq<Action>)
    requires Logged(s, acts) && Enabled(s, BackUp(i))
    ensures Logged(BackOne(s, i, vl), acts + [BackUp(i)])
  {
    hide Children, BackOne, KidsOf, AllKids, Brought, Gained, Dropped, Answered, Early, TooLate;
    var a := BackUp(i);
    assert Tree(s);
    var r := BackOne(s, i, vl);
    BackUpShapes(s, i, vl);
    NoKids(acts, a, 0);
    forall x ensures CountersAt(r, acts + [a], x) { assert CountersAt(s, acts, x); AboutNone(acts, i, x); }
    forall x ensures StageAt(r, acts + [a], x) { assert StageAt(s, acts, x); AboutNone(acts, i, x); }
    forall x ensures KidsAt(r, acts + [a], x) {
      assert KidsAt(s, acts, x);
      NoKids(acts, a, x);
      SameChildren(s.nodes, r.nodes, x, |s.nodes|);
    }
  }

  lemma StepLogged(s: Search, a: Action, vl: int, acts: seq<Action>)
    requires Logged(s, acts) && Enabled(s, a)
    ensures Tree(s) && Logged(Do(s, a, vl), acts + [a])
  {
    hide Settle, Expand, BackOne, Weigh, CountersAt, StageAt, KidsAt, AllKids;
    match a
    case Select(path, fate) =>
      WeighLogged(s, path, vl, acts);
      SettleLogged(s.(nodes := Weigh(s.nodes, path, |path|, vl)), path, fate, acts);
    case Reply(leaf, z, kids) => ReplyLogged(s, leaf, z, kids, acts);
    case BackUp(i) => BackUpLogged(s, i, vl, acts);
  }

  /** All along a search from a bare root, every counter of every node is what the actions say. */
  lemma {:induction false} SearchLogged(run: seq<Search>, acts: seq<Action>, vl: int, i: nat)
    requires IsRun(run, acts, vl) && run[0] == Bare() && i < |run|
    ensures Logged(run[i], acts[..i])
  {
    hide Logged, Do;
    if i == 0 {
      BareLogged();
    } else {
      SearchLogged(run, acts, vl, i - 1);
      assert Next(run[i - 1], run[i - 1 + 1], acts[i - 1], vl);
      StepLogged(run[i - 1], acts[i - 1], vl, acts[..i - 1]);
      assert acts[..i] == acts[..i - 1] + [acts[i - 1]];
    }
  }

  lemma BareLogged()
    ensures Logged(Bare(), [])
  {
    var s := Bare();
    assert forall x :: Children(s.nodes, x, 1) == One(x == -1);
  }

  // ------------------------------------------------------------ the edges

  /** The backups that still have to pass the edge of e, and their values. */
  function Coming(nodes: seq<Node>, tasks: seq<Task>, e: int, k: nat): nat
    requires k <= |tasks|
  {
    if k == 0 then 0 else Coming(nodes, tasks, e, k - 1) + One(Under(nodes, tasks[k - 1].at, e))
  }

  function ValueComing(nodes: seq<Node>, tasks: seq<Task>, e: int, k: nat): real
    requires k <= |tasks|
  {
    if k == 0 then 0.0
    else ValueComing(nodes, tasks, e, k - 1) + if Under(nodes, tasks[k - 1].at, e) then tasks[k - 1].z else 0.0
  }

  /** The edge of e has the values brought below it, but for those still on their way up. */
  ghost predicate EdgeAt(s: Search, acts: seq<Action>, e: int)
    requires 0 <= e < |s.nodes|
  {
    && s.nodes[e].n + Coming(s.nodes, s.tasks, e, |s.tasks|) == BroughtUnder(s.nodes, acts, e)
    && s.nodes[e].w + ValueComing(s.nodes, s.tasks, e, |s.tasks|) == GainedUnder(s.nodes, acts, e)
  }

  /** Every action was about a node the tree has. */
  ghost predicate Inside(acts: seq<Action>, n: int) { forall i :: 0 <= i < |acts| ==> LeafOf(acts[i]) < n }

  ghost predicate EdgesLogged(s: Search, acts: seq<Action>) {
    Tree(s) && Inside(acts, |s.nodes|) && forall e :: 0 < e < |s.nodes| ==> EdgeAt(s, acts, e)
  }

  lemma {:induction false} UnderGrown(nodes: seq<Node>, r: seq<Node>, acts: seq<Action>, e: int)
    requires SameFathers(nodes, r) && Inside(acts, |nodes|)
    ensures BroughtUnder(r, acts, e) == BroughtUnder(nodes, acts, e)
    ensures GainedUnder(r, acts, e) == GainedUnder(nodes, acts, e)
    decreases acts
  {
    hide Under, LeafOf;
    if acts != [] {
      UnderGrown(nodes, r, acts[..|acts| - 1], e);
      UnderSame(nodes, r, LeafOf(acts[|acts| - 1]), e);
    }
  }

  /** Nothing was brought below a node that is new. */
  lemma {:induction false} UnderNew(nodes: seq<Node>, acts: seq<Action>, e: int)
    requires Inside(acts, e)
    ensures BroughtUnder(nodes, acts, e) == 0 && GainedUnder(nodes, acts, e) == 0.0
    decreases acts
  {
    hide Under, LeafOf;
    if acts != [] {
      UnderNew(nodes, acts[..|acts| - 1], e);
      var x := LeafOf(acts[|acts| - 1]);
      if Under(nodes, x, e) { UnderLater(nodes, x, e); }
    }
  }

  lemma {:induction false} ComingSame(nodes: seq<Node>, r: seq<Node>, tasks: seq<Task>, e: int, k: nat)
    requires SameFathers(nodes, r) && k <= |tasks| && forall i :: 0 <= i < |tasks| ==> tasks[i].at < |nodes|
    ensures Coming(r, tasks, e, k) == Coming(nodes, tasks, e, k)
    ensures ValueComing(r, tasks, e, k) == ValueComing(nodes, tasks, e, k)
    decreases k
  {
    hide Under;
    if k > 0 {
      ComingSame(nodes, r, tasks, e, k - 1);
      UnderSame(nodes, r, tasks[k - 1].at, e);
    }
  }

  lemma {:induction false} ComingMore(nodes: seq<Node>, tasks: seq<Task>, t: Task, e: int, k: nat)
    requires k <= |tasks|
    ensures Coming(nodes, tasks + [t], e, k) == Coming(nodes, tasks, e, k)
    ensures ValueComing(nodes, tasks + [t], e, k) == ValueComing(nodes, tasks, e, k)
    decreases k
  {
    hide Under;
    if k > 0 { ComingMore(nodes, tasks, t, e, k - 1); }
  }

  lemma {:induction false} ComingUpdate(nodes: seq<Node>, tasks: seq<Task>, i: int, t: Task, e: int, k: nat)
    requires k <= |tasks| && 0 <= i < |tasks|
    ensures Coming(nodes, tasks[i := t], e, k) == Coming(nodes, tasks, e, k)
      + if i < k then One(Under(nodes, t.at, e)) - One(Under(nodes, tasks[i].at, e)) else 0
    ensures ValueComing(nodes, tasks[i := t], e, k) == ValueComing(nodes, tasks, e, k)
      + if i < k then (if Under(nodes, t.at, e) then t.z else 0.0)
        - (if Under(nodes, tasks[i].at, e) then tasks[i].z else 0.0) else 0.0
    decreases k
  {
    hide Under;
    if k > 0 { ComingUpdate(nodes, tasks, i, t, e, k - 1); }
  }

  lemma {:induction false} NothingComing(nodes: seq<Node>, tasks: seq<Task>, e: int, k: nat)
    requires k <= |tasks| && forall i :: 0 <= i < k ==> tasks[i].at < e
    ensures Coming(nodes, tasks, e, k) == 0 && ValueComing(nodes, tasks, e, k) == 0.0
    decreases k
  {
    hide Under;
    if k > 0 {
      NothingComing(nodes, tasks, e, k - 1);
      if Under(nodes, tasks[k - 1].at, e) { UnderLater(nodes, tasks[k - 1].at, e); }
    }
  }

  /** A step that moves no value: the edges and the tasks are as before. */
  lemma QuietEdges(s: Search, r: Search, acts: seq<Action>, a: Action)
    requires EdgesLogged(s, acts) && Tree(r) && r.tasks == s.tasks && |r.nodes| == |s.nodes|
    requires SameFathers(s.nodes, r.nodes) && LeafOf(a) < |s.nodes| && !BringsValue(a)
    requires forall x :: 0 <= x < |s.nodes| ==> r.nodes[x].n == s.nodes[x].n && r.nodes[x].w == s.nodes[x].w
    ensures EdgesLogged(r, acts + [a])
  {
    hide Under, LeafOf, BringsValue, Coming, ValueComing;
    Last(acts, a);
    forall e | 0 < e < |r.nodes| ensures EdgeAt(r, acts + [a], e) {
      assert EdgeAt(s, acts, e);
      UnderGrown(s.nodes, r.nodes, acts, e);
      ComingSame(s.nodes, r.nodes, s.tasks, e, |s.tasks|);
    }
  }

  /** A value arrives at a leaf of a tree that may have grown; the new edges have nothing. */
  lemma ValueEdges(s: Search, r: Search, t: Task, acts: seq<Action>, a: Action)
    requires EdgesLogged(s, acts) && Tree(r) && r.tasks == s.tasks + [t]
    requires SameFathers(s.nodes, r.nodes) && LeafOf(a) == t.at < |s.nodes| && BringsValue(a) && Value(a) == t.z
    requires forall x :: 0 <= x < |r.nodes| ==>
      r.nodes[x].n == (if x < |s.nodes| then s.nodes[x].n else 0)
      && r.nodes[x].w == if x < |s.nodes| then s.nodes[x].w else 0.0
    ensures EdgesLogged(r, acts + [a])
  {
    hide Under, LeafOf, BringsValue, Value;
    Last(acts, a);
    forall e | 0 < e < |r.nodes| ensures EdgeAt(r, acts + [a], e) {
      UnderGrown(s.nodes, r.nodes, acts, e);
      ComingSame(s.nodes, r.nodes, s.tasks, e, |s.tasks|);
      ComingMore(r.nodes, s.tasks, t, e, |s.tasks|);
      if e < |s.nodes| {
        assert EdgeAt(s, acts, e);
      } else {
        UnderNew(r.nodes, acts, e);
        NothingComing(r.nodes, s.tasks, e, |s.tasks|);
      }
    }
  }

  lemma BackUpEdges(s: Search, i: nat, vl: int, acts: seq<Action>)
    requires EdgesLogged(s, acts) && Enabled(s, BackUp(i))
    ensures EdgesLogged(BackOne(s, i, vl), acts + [BackUp(i)])
  {
    hide Under, Coming, ValueComing;
    var a := BackUp(i);
    Last(acts, a);
    var r := BackOne(s, i, vl);
    var t := s.tasks[i];
    assert Tree(r);
    forall e | 0 < e < |r.nodes| ensures EdgeAt(r, acts + [a], e) {
      assert EdgeAt(s, acts, e);
      UnderGrown(s.nodes, r.nodes, acts, e);
      ComingSame(s.nodes, r.nodes, r.tasks, e, |r.tasks|);
      ComingUpdate(s.nodes, s.tasks, i, r.tasks[i], e, |s.tasks|);
      FatherUnder(s, t.at, e);
      assert !Under(r.nodes, -1, e) by { NotUnder(r.nodes, e); }
    }
  }

  lemma NotUnder(nodes: seq<Node>, e: int)
    ensures !Under(nodes, -1, e)
  {
  }

  lemma StepEdges(s: Search, a: Action, vl: int, acts: seq<Action>)
    requires EdgesLogged(s, acts) && Enabled(s, a)
    ensures Tree(s) && EdgesLogged(Do(s, a, vl), acts + [a])
  {
    hide Weigh, EdgeAt;
    match a
    case Select(path, fate) =>
      var leaf := path[|path| - 1];
      WeighOnly(s.nodes, path, |path|, vl);
      var s1 := s.(nodes := Weigh(s.nodes, path, |path|, vl));
      if fate.Terminal? {
        ValueEdges(s, Settle(s1, leaf, fate), Task(leaf, fate.z, 1), acts, a);
      } else {
        QuietEdges(s, Settle(s1, leaf, fate), acts, a);
      }
    case Reply(leaf, z, kids) =>
      GrownTree(s, leaf, kids);
      ValueEdges(s, Expand(s, leaf, z, kids), Task(leaf, z, s.nodes[leaf].invalid + 1), acts, a);
    case BackUp(i) => BackUpEdges(s, i, vl, acts);
  }

  /** All along a search from a bare root, the statistics of every edge are the values the actions brought
      below it, less those on their way up. */
  lemma {:induction false} SearchEdges(run: seq<Search>, acts: seq<Action>, vl: int, i: nat)
    requires IsRun(run, acts, vl) && run[0] == Bare() && i < |run|
    ensures EdgesLogged(run[i], acts[..i])
  {
    hide EdgesLogged, Do;
    if i == 0 {
      assert EdgesLogged(Bare(), []) by { BareEdges(); }
    } else {
      SearchEdges(run, acts, vl, i - 1);
      assert Next(run[i - 1], run[i - 1 + 1], acts[i - 1], vl);
      StepEdges(run[i - 1], acts[i - 1], vl, acts[..i - 1]);
      assert acts[..i] == acts[..i - 1] + [acts[i - 1]];
    }
  }

  lemma BareEdges()
    ensures EdgesLogged(Bare(), [])
  {
  }

  /** Once every backup has arrived, an edge has been visited as often as values were brought below it,
      and its win sum is their sum. */
  lemma ArrivedEdges(run: seq<Search>, acts: seq<Action>, vl: int, i: nat, e: int)
    requires IsRun(run, acts, vl) && run[0] == Bare() && i < |run| && 0 < e < |run[i].nodes|
    requires forall j :: 0 <= j < |run[i].tasks| ==> run[i].tasks[j].at == 0
    ensures run[i].nodes[e].n == BroughtUnder(run[i].nodes, acts[..i], e)
    ensures run[i].nodes[e].w == GainedUnder(run[i].nodes, acts[..i], e)
  {
    SearchEdges(run, acts, vl, i);
    assert EdgeAt(run[i], acts[..i], e);
    NothingComing(run[i].nodes, run[i].tasks, e, |run[i].tasks|);
  }

  // ------------------------------------------------------------ the backups

  /** Where the values were brought, and the values, in the order of the actions. */
  function Births(acts: seq<Action>): seq<(int, real)> {
    if acts == [] then []
    else
      var a := acts[|acts| - 1];
      Births(acts[..|acts| - 1]) + if BringsValue(a) then [(LeafOf(a), Value(a))] else []
  }

  /** How many steps the i-th backup has made. */
  function Climbs(acts: seq<Action>, i: int): nat {
    if acts == [] then 0
    else
      var a := acts[|acts| - 1];
      Climbs(acts[..|acts| - 1], i) + One(a.BackUp? && a.task == i)
  }

  /** The node k fathers above x. */
  function Above(nodes: seq<Node>, x: int, k: nat): int {
    if k == 0 then x
    else var y := Above(nodes, x, k - 1); if 0 <= y < |nodes| then nodes[y].father else -1
  }

  /** The i-th backup carries the i-th value, and has climbed one edge for each of its steps. */
  ghost predicate BackupAt(s: Search, acts: seq<Action>, i: int)
    requires 0 <= i < |s.tasks| == |Births(acts)|
  {
    var (leaf, z) := Births(acts)[i];
    s.tasks[i].z == z && 0 <= leaf < |s.nodes| && s.tasks[i].at == Above(s.nodes, leaf, Climbs(acts, i))
  }

  ghost predicate BackupsLogged(s: Search, acts: seq<Action>) {
    && Tree(s) && |s.tasks| == |Births(acts)| && (forall i :: i >= |s.tasks| ==> Climbs(acts, i) == 0)
    && forall i :: 0 <= i < |s.tasks| ==> BackupAt(s, acts, i)
  }

  lemma {:induction false} AboveSame(nodes: seq<Node>, r: seq<Node>, x: int, k: nat)
    requires SameFathers(nodes, r) && 0 <= Above(nodes, x, k) < |nodes| && 0 <= x < |nodes|
    requires forall i :: 0 <= i < |nodes| ==> nodes[i].father < |nodes|
    ensures Above(r, x, k) == Above(nodes, x, k)
    decreases k
  {
    if k > 0 { AboveSame(nodes, r, x, k - 1); }
  }

  /** An action that is no backup step may begin one more backup; the others stay as they are. */
  lemma BackupsStay(s: Search, r: Search, acts: seq<Action>, a: Action, weight: nat)
    requires BackupsLogged(s, acts) && Tree(r) && SameFathers(s.nodes, r.nodes) && !a.BackUp?
    requires r.tasks == s.tasks + if BringsValue(a) then [Task(LeafOf(a), Value(a), weight)] else []
    requires 0 <= LeafOf(a) < |s.nodes|
    ensures BackupsLogged(r, acts + [a])
  {
    hide LeafOf, BringsValue, Value;
    Last(acts, a);
    assert forall i :: Climbs(acts + [a], i) == Climbs(acts, i);
    var bs, bs' := Births(acts), Births(acts + [a]);
    assert bs' == bs + if BringsValue(a) then [(LeafOf(a), Value(a))] else [];
    forall i | 0 <= i < |r.tasks| ensures BackupAt(r, acts + [a], i) {
      if i < |s.tasks| {
        assert BackupAt(s, acts, i);
        AboveSame(s.nodes, r.nodes, bs[i].0, Climbs(acts, i));
      } else {
        assert Above(r.nodes, LeafOf(a), 0) == LeafOf(a);
      }
    }
  }

  lemma ClimbOne(s: Search, j: nat, vl: int, acts: seq<Action>)
    requires BackupsLogged(s, acts) && Enabled(s, BackUp(j))
    ensures BackupsLogged(BackOne(s, j, vl), acts + [BackUp(j)])
  {
    var a, r := BackUp(j), BackOne(s, j, vl);
    Last(acts, a);
    assert Tree(r) && SameFathers(s.nodes, r.nodes);
    forall i | 0 <= i < |r.tasks| ensures BackupAt(r, acts + [a], i) {
      assert BackupAt(s, acts, i);
      AboveSame(s.nodes, r.nodes, Births(acts)[i].0, Climbs(acts, i));
    }
  }

  lemma SelectBackups(s: Search, path: seq<int>, fate: Fate, vl: int, acts: seq<Action>)
    requires BackupsLogged(s, acts) && Descends(s, path)
    ensures Tree(s) && BackupsLogged(Do(s, Select(path, fate), vl), acts + [Select(path, fate)])
  {
    hide Weigh, BackupAt, Births, Climbs;
    var leaf := path[|path| - 1];
    WeighOnly(s.nodes, path, |path|, vl);
    var s1 := s.(nodes := Weigh(s.nodes, path, |path|, vl));
    SettleShapes(s1, leaf, fate);
    BackupsStay(s, Settle(s1, leaf, fate), acts, Select(path, fate), 1);
  }

  lemma ReplyBackups(s: Search, leaf: int, z: real, kids: nat, acts: seq<Action>)
    requires BackupsLogged(s, acts) && 0 <= leaf < |s.nodes|
    ensures BackupsLogged(Expand(s, leaf, z, kids), acts + [Reply(leaf, z, kids)])
  {
    hide BackupAt, Births, Climbs;
    GrownTree(s, leaf, kids);
    BackupsStay(s, Expand(s, leaf, z, kids), acts, Reply(leaf, z, kids), s.nodes[leaf].invalid + 1);
  }

  lemma StepBackups(s: Search, a: Action, vl: int, acts: seq<Action>)
    requires BackupsLogged(s, acts) && Enabled(s, a)
    ensures Tree(s) && BackupsLogged(Do(s, a, vl), acts + [a])
  {
    hide Settle, Expand, BackOne, Weigh, BackupAt, Births, Climbs;
    match a
    case Select(path, fate) => SelectBackups(s, path, fate, vl, acts);
    case Reply(leaf, z, kids) => ReplyBackups(s, leaf, z, kids, acts);
    case BackUp(i) => ClimbOne(s, i, vl, acts);
  }

  /** All along a search from a bare root, each value is carried by its own backup, as many edges up as
      the backup has made steps. */
  lemma {:induction false} SearchBackups(run: seq<Search>, acts: seq<Action>, vl: int, i: nat)
    requires IsRun(run, acts, vl) && run[0] == Bare() && i < |run|
    ensures BackupsLogged(run[i], acts[..i])
  {
    hide BackupsLogged, Do;
    if i == 0 {
      assert BackupsLogged(Bare(), []) by { BareBackups(); }
    } else {
      SearchBackups(run, acts, vl, i - 1);
      assert Next(run[i - 1], run[i - 1 + 1], acts[i - 1], vl);
      StepBackups(run[i - 1], acts[i - 1], vl, acts[..i - 1]);
      assert acts[..i] == acts[..i - 1] + [acts[i - 1]];
    }
  }

  lemma BareBackups()
    ensures BackupsLogged(Bare(), [])
  {
  }

  // ------------------------------------------------------------ the root

  lemma {:induction false} WeighRoot(nodes: seq<Node>, path: seq<int>, k: nat, vl: int)
    requires k <= |path| && |nodes| > 0 && forall i :: 0 <= i < |path| ==> 0 <= path[i] < |nodes|
    ensures Weigh(nodes, path, k, vl)[0] == nodes[0]
    decreases k
  {
    if k > 0 { WeighRoot(nodes, path, k - 1, vl); }
  }

  /** The root has no edge: no virtual loss, visit or value is ever put on it. */
  ghost predicate RootFree(s: Search) {
    Tree(s) && s.nodes[0].vl == 0 && s.nodes[0].n == 0 && s.nodes[0].w == 0.0
  }

  lemma SelectRoot(s: Search, path: seq<int>, fate: Fate, vl: int)
    requires RootFree(s) && Descends(s, path)
    ensures RootFree(Do(s, Select(path, fate), vl))
  {
    hide Weigh;
    WeighOnly(s.nodes, path, |path|, vl);
    WeighRoot(s.nodes, path, |path|, vl);
    SettleShapes(s.(nodes := Weigh(s.nodes, path, |path|, vl)), path[|path| - 1], fate);
  }

  lemma StepRoot(s: Search, a: Action, vl: int)
    requires RootFree(s) && Enabled(s, a)
    ensures RootFree(Do(s, a, vl))
  {
    hide Weigh, Settle;
    match a
    case Select(path, fate) => SelectRoot(s, path, fate, vl);
    case Reply(leaf, z, kids) => GrownTree(s, leaf, kids);
    case BackUp(i) => BackUpShapes(s, i, vl);
  }

  lemma {:induction false} SearchRoot(run: seq<Search>, acts: seq<Action>, vl: int, i: nat)
    requires IsRun(run, acts, vl) && run[0] == Bare() && i < |run|
    ensures RootFree(run[i])
  {
    hide RootFree, Do;
    if i == 0 {
      assert RootFree(Bare()) by { BareRoot(); }
    } else {
      SearchRoot(run, acts, vl, i - 1);
      assert Next(run[i - 1], run[i - 1 + 1], acts[i - 1], vl);
      StepRoot(run[i - 1], acts[i - 1], vl);
    }
  }

  lemma BareRoot()
    ensures RootFree(Bare())
  {
  }
}
