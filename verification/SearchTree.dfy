/** The bookkeeping of the tree search: visit counts, win sums and virtual loss under every
    interleaving of selections, evaluation replies and backup steps below a fixed root. */
module SearchTree {

  /** A node with its edge to its father; node 0 is the root. */
  datatype Node = Node(father: int, vl: int, n: int, w: real, total: int, asked: bool, ready: bool, invalid: nat)

  /** A backup under way: the edges from `at` up to the root are still to be updated. */
  datatype Task = Task(at: int, z: real, weight: nat)

  /** `begun` and `won` count the backups begun at each node and add up their values, `lost` the
      selections dropped there for repetition, `late` those that met an evaluated leaf. */
  datatype Search = Search(nodes: seq<Node>, tasks: seq<Task>, begun: seq<int>, won: seq<real>, lost: seq<nat>,
      late: seq<nat>)

  datatype Fate = Repetition | Terminal(z: real) | Evaluate
  datatype Action = Select(path: seq<int>, fate: Fate) | Reply(leaf: int, z: real, kids: nat) | BackUp(task: nat)

  ghost predicate Tree(s: Search) {
    && |s.nodes| > 0 && |s.begun| == |s.won| == |s.lost| == |s.late| == |s.nodes|
    && s.nodes[0].father == -1
    && (forall x :: 0 < x < |s.nodes| ==> 0 <= s.nodes[x].father < x)
    && (forall i :: 0 <= i < |s.tasks| ==> 0 <= s.tasks[i].at < |s.nodes|)
  }

  // ------------------------------------------------------------ the steps

  /** The i-th node of the path is a child of the one before, which is evaluated. */
  predicate Below(s: Search, path: seq<int>, i: int)
    requires 0 < i < |path| && forall i :: 0 <= i < |path| ==> 0 <= path[i] < |s.nodes|
  {
    s.nodes[path[i]].father == path[i - 1] && s.nodes[path[i - 1]].ready
  }

  /** A way down the tree through evaluated nodes. */
  predicate Descends(s: Search, path: seq<int>) {
    && |path| > 0 && path[0] == 0 && (forall i :: 0 <= i < |path| ==> 0 <= path[i] < |s.nodes|)
    && forall i :: 0 < i < |path| ==> Below(s, path, i)
  }

  predicate Enabled(s: Search, a: Action) {
    match a
    case Select(path, fate) => Descends(s, path)
    case Reply(leaf, _, _) => 0 <= leaf < |s.nodes| && s.nodes[leaf].asked && !s.nodes[leaf].ready
    case BackUp(i) => i < |s.tasks| && 0 < s.tasks[i].at < |s.nodes| && 0 <= s.nodes[s.tasks[i].at].father < |s.nodes|
  }

  /** Virtual loss on the first k nodes of the path; the root has no edge. */
  function Weigh(nodes: seq<Node>, path: seq<int>, k: nat, vl: int): (r: seq<Node>)
    requires k <= |path| && forall i :: 0 <= i < |path| ==> 0 <= path[i] < |nodes|
    ensures |r| == |nodes|
  {
    if k == 0 then nodes
    else
      var r := Weigh(nodes, path, k - 1, vl);
      var x := path[k - 1];
      if x == 0 then r else r[x := r[x].(vl := r[x].vl + vl)]
  }

  function Begin(s: Search, leaf: int, z: real, weight: nat): Search
    requires 0 <= leaf < |s.nodes| == |s.begun| == |s.won|
  {
    s.(tasks := s.tasks + [Task(leaf, z, weight)], begun := s.begun[leaf := s.begun[leaf] + 1],
        won := s.won[leaf := s.won[leaf] + z])
  }

  function Settle(s: Search, leaf: int, fate: Fate): Search
    requires 0 <= leaf < |s.nodes| == |s.begun| == |s.won| == |s.lost| == |s.late|
  {
    match fate
    case Repetition => s.(lost := s.lost[leaf := s.lost[leaf] + 1])
    case Terminal(z) => Begin(s, leaf, z, 1)
    case Evaluate =>
      var node := s.nodes[leaf];
      if !node.asked then s.(nodes := s.nodes[leaf := node.(asked := true)])
      else if node.ready then s.(late := s.late[leaf := s.late[leaf] + 1])
      else s.(nodes := s.nodes[leaf := node.(invalid := node.invalid + 1)])
  }

  function Repeat<T>(k: nat, x: T): (r: seq<T>)
    ensures |r| == k && forall i :: 0 <= i < k ==> r[i] == x
  {
    seq(k, i => x)
  }

  function Child(leaf: int): Node { Node(leaf, 0, 0, 0.0, 0, false, false, 0) }

  /** The tree with new children under a leaf that is now evaluated. */
  function Grown(s: Search, leaf: int, kids: nat): Search
    requires 0 <= leaf < |s.nodes|
  {
    s.(nodes := s.nodes[leaf := s.nodes[leaf].(ready := true)] + Repeat(kids, Child(leaf)),
        begun := s.begun + Repeat(kids, 0), won := s.won + Repeat(kids, 0.0),
       lost := s.lost + Repeat(kids, 0), late := s.late + Repeat(kids, 0))
  }

  /** A reply arrives: the children appear, the leaf is evaluated, its backup begins. */
  function Expand(s: Search, leaf: int, z: real, kids: nat): Search
    requires 0 <= leaf < |s.nodes| == |s.begun| == |s.won|
  {
    Begin(Grown(s, leaf, kids), leaf, z, s.nodes[leaf].invalid + 1)
  }

  /** One edge of a backup, and its father's visit count. */
  function BackOne(s: Search, i: nat, vl: int): Search
    requires i < |s.tasks| && 0 <= s.tasks[i].at < |s.nodes| && 0 <= s.nodes[s.tasks[i].at].father < |s.nodes|
  {
    var t := s.tasks[i];
    var node := s.nodes[t.at];
    var nodes := s.nodes[t.at := node.(vl := node.vl - t.weight * vl, n := node.n + 1, w := node.w + t.z)];
    var f := nodes[node.father];
    s.(nodes := nodes[node.father := f.(total := f.total + 1)], tasks := s.tasks[i := t.(at := node.father)])
  }

  function Do(s: Search, a: Action, vl: int): Search
    requires Enabled(s, a) && |s.begun| == |s.won| == |s.lost| == |s.late| == |s.nodes|
  {
    match a
    case Select(path, fate) => Settle(s.(nodes := Weigh(s.nodes, path, |path|, vl)), path[|path| - 1], fate)
    case Reply(leaf, z, kids) => Expand(s, leaf, z, kids)
    case BackUp(i) => BackOne(s, i, vl)
  }

  // ------------------------------------------------------------ what is conserved

  function SumN(nodes: seq<Node>, x: int, k: nat): int
    requires k <= |nodes|
  {
    if k == 0 then 0 else SumN(nodes, x, k - 1) + if nodes[k - 1].father == x then nodes[k - 1].n else 0
  }

  function SumW(nodes: seq<Node>, x: int, k: nat): real
    requires k <= |nodes|
  {
    if k == 0 then 0.0 else SumW(nodes, x, k - 1) + if nodes[k - 1].father == x then nodes[k - 1].w else 0.0
  }

  /** Backups that have reached x but not yet its edge. */
  function TasksAt(tasks: seq<Task>, x: int, k: nat): int
    requires k <= |tasks|
  {
    if k == 0 then 0 else TasksAt(tasks, x, k - 1) + if tasks[k - 1].at == x then 1 else 0
  }

  function ValuesAt(tasks: seq<Task>, x: int, k: nat): real
    requires k <= |tasks|
  {
    if k == 0 then 0.0 else ValuesAt(tasks, x, k - 1) + if tasks[k - 1].at == x then tasks[k - 1].z else 0.0
  }

  /** Visits and values: what the children got plus what began here, less what is still to arrive. */
  ghost predicate CountsKept(s: Search) {
    && Tree(s)
    && (forall x :: 0 <= x < |s.nodes| ==> s.nodes[x].total == SumN(s.nodes, x, |s.nodes|))
    && (forall x :: 0 < x < |s.nodes| ==>
          s.nodes[x].n == SumN(s.nodes, x, |s.nodes|) + s.begun[x] - TasksAt(s.tasks, x, |s.tasks|))
    && (forall x :: 0 < x < |s.nodes| ==>
          s.nodes[x].w == SumW(s.nodes, x, |s.nodes|) + s.won[x] - ValuesAt(s.tasks, x, |s.tasks|))
  }

  lemma {:induction false} SumsUpdate(nodes: seq<Node>, y: int, v: Node, x: int, k: nat)
    requires k <= |nodes| && 0 <= y < |nodes| && v.father == nodes[y].father
    ensures SumN(nodes[y := v], x, k) == SumN(nodes, x, k) + if y < k && v.father == x then v.n - nodes[y].n else 0
    ensures SumW(nodes[y := v], x, k) == SumW(nodes, x, k) + if y < k && v.father == x then v.w - nodes[y].w else 0.0
    decreases k
  {
    if k > 0 { SumsUpdate(nodes, y, v, x, k - 1); }
  }

  lemma {:induction false} SumsAppend(nodes: seq<Node>, more: seq<Node>, x: int, k: nat)
    requires k <= |nodes| + |more| && forall i :: 0 <= i < |more| ==> more[i].n == 0 && more[i].w == 0.0
    ensures var m := if k <= |nodes| then k else |nodes|;
      SumN(nodes + more, x, k) == SumN(nodes, x, m) && SumW(nodes + more, x, k) == SumW(nodes, x, m)
    decreases k
  {
    if k > 0 { SumsAppend(nodes, more, x, k - 1); }
  }

  lemma {:induction false} NoChildren(nodes: seq<Node>, x: int, k: nat)
    requires k <= |nodes| && forall i :: 0 <= i < k ==> nodes[i].father != x
    ensures SumN(nodes, x, k) == 0 && SumW(nodes, x, k) == 0.0
    decreases k
  {
    if k > 0 { NoChildren(nodes, x, k - 1); }
  }

  lemma {:induction false} TasksUpdate(tasks: seq<Task>, i: int, v: Task, x: int, k: nat)
    requires k <= |tasks| && 0 <= i < |tasks|
    ensures TasksAt(tasks[i := v], x, k) == TasksAt(tasks, x, k)
      + if i < k then (if v.at == x then 1 else 0) - (if tasks[i].at == x then 1 else 0) else 0
    ensures ValuesAt(tasks[i := v], x, k) == ValuesAt(tasks, x, k)
      + if i < k then (if v.at == x then v.z else 0.0) - (if tasks[i].at == x then tasks[i].z else 0.0) else 0.0
    decreases k
  {
    if k > 0 { TasksUpdate(tasks, i, v, x, k - 1); }
  }

  lemma {:induction false} TasksPrefix(tasks: seq<Task>, v: Task, x: int, k: nat)
    requires k <= |tasks|
    ensures TasksAt(tasks + [v], x, k) == TasksAt(tasks, x, k) && ValuesAt(tasks + [v], x, k) == ValuesAt(tasks, x, k)
    decreases k
  {
    if k > 0 { TasksPrefix(tasks, v, x, k - 1); }
  }

  lemma {:induction false} NoTasks(tasks: seq<Task>, x: int, k: nat)
    requires k <= |tasks| && forall i :: 0 <= i < k ==> tasks[i].at != x
    ensures TasksAt(tasks, x, k) == 0 && ValuesAt(tasks, x, k) == 0.0
    decreases k
  {
    if k > 0 { NoTasks(tasks, x, k - 1); }
  }

  /** Beginning a backup is paid for by the count of backups begun. */
  lemma BeginKeeps(s: Search, leaf: int, z: real, weight: nat)
    requires CountsKept(s) && 0 <= leaf < |s.nodes|
    ensures CountsKept(Begin(s, leaf, z, weight))
  {
    var t := Task(leaf, z, weight);
    forall x ensures TasksAt(s.tasks + [t], x, |s.tasks|) == TasksAt(s.tasks, x, |s.tasks|)
      && ValuesAt(s.tasks + [t], x, |s.tasks|) == ValuesAt(s.tasks, x, |s.tasks|) {
      TasksPrefix(s.tasks, t, x, |s.tasks|);
    }
  }

  /** Changes that leave fathers, visits and values alone. */
  lemma {:induction false} SumsSame(nodes: seq<Node>, r: seq<Node>, x: int, k: nat)
    requires k <= |nodes| == |r|
    requires forall i :: 0 <= i < |r| ==> r[i].father == nodes[i].father && r[i].n == nodes[i].n && r[i].w == nodes[i].w
    ensures SumN(r, x, k) == SumN(nodes, x, k) && SumW(r, x, k) == SumW(nodes, x, k)
    decreases k
  {
    if k > 0 { SumsSame(nodes, r, x, k - 1); }
  }

  lemma OtherwiseKept(s: Search, r: Search)
    requires CountsKept(s) && |r.nodes| == |s.nodes| && r.tasks == s.tasks && r.begun == s.begun && r.won == s.won
    requires |r.lost| == |r.late| == |r.nodes|
    requires forall i :: 0 <= i < |r.nodes| ==> r.nodes[i] == s.nodes[i].(vl := r.nodes[i].vl,
        asked := r.nodes[i].asked, ready := r.nodes[i].ready, invalid := r.nodes[i].invalid)
    ensures CountsKept(r)
  {
    forall x
      ensures SumN(r.nodes, x, |r.nodes|) == SumN(s.nodes, x, |s.nodes|)
      ensures SumW(r.nodes, x, |r.nodes|) == SumW(s.nodes, x, |s.nodes|)
    {
      SumsSame(s.nodes, r.nodes, x, |r.nodes|);
    }
  }

  lemma {:induction false} WeighOnly(nodes: seq<Node>, path: seq<int>, k: nat, vl: int)
    requires k <= |path| && forall i :: 0 <= i < |path| ==> 0 <= path[i] < |nodes|
    ensures var r := Weigh(nodes, path, k, vl); forall i :: 0 <= i < |nodes| ==> r[i] == nodes[i].(vl := r[i].vl)
    decreases k
  {
    if k > 0 { WeighOnly(nodes, path, k - 1, vl); }
  }

  lemma SettleKeeps(s: Search, leaf: int, fate: Fate)
    requires CountsKept(s) && 0 <= leaf < |s.nodes|
    ensures CountsKept(Settle(s, leaf, fate))
  {
    match fate
    case Repetition => OtherwiseKept(s, Settle(s, leaf, fate));
    case Terminal(z) => BeginKeeps(s, leaf, z, 1);
    case Evaluate => OtherwiseKept(s, Settle(s, leaf, fate));
  }

  lemma GrownSums(s: Search, leaf: int, kids: nat, x: int)
    requires 0 <= leaf < |s.nodes|
    ensures var r := Grown(s, leaf, kids);
      SumN(r.nodes, x, |r.nodes|) == SumN(s.nodes, x, |s.nodes|)
      && SumW(r.nodes, x, |r.nodes|) == SumW(s.nodes, x, |s.nodes|)
  {
    hide SumN, SumW;
    var nodes := s.nodes[leaf := s.nodes[leaf].(ready := true)];
    SumsSame(s.nodes, nodes, x, |s.nodes|);
    SumsAppend(nodes, Repeat(kids, Child(leaf)), x, |Grown(s, leaf, kids).nodes|);
  }

  lemma GrownTree(s: Search, leaf: int, kids: nat)
    requires Tree(s) && 0 <= leaf < |s.nodes|
    ensures Tree(Grown(s, leaf, kids))
  {
  }

  lemma GrownKeeps(s: Search, leaf: int, kids: nat)
    requires CountsKept(s) && 0 <= leaf < |s.nodes|
    ensures CountsKept(Grown(s, leaf, kids))
  {
    hide SumN, SumW, TasksAt, ValuesAt;
    var r := Grown(s, leaf, kids);
    GrownTree(s, leaf, kids);
    forall x
      ensures SumN(r.nodes, x, |r.nodes|) == SumN(s.nodes, x, |s.nodes|)
      ensures SumW(r.nodes, x, |r.nodes|) == SumW(s.nodes, x, |s.nodes|)
    {
      GrownSums(s, leaf, kids, x);
    }
    forall x | |s.nodes| <= x < |r.nodes| ensures SumN(r.nodes, x, |r.nodes|) == 0 && SumW(r.nodes, x, |r.nodes|) == 0.0
      && TasksAt(s.tasks, x, |s.tasks|) == 0 && ValuesAt(s.tasks, x, |s.tasks|) == 0.0
    {
      NoChildren(r.nodes, x, |r.nodes|);
      NoTasks(s.tasks, x, |s.tasks|);
    }
  }

  lemma ExpandKeeps(s: Search, leaf: int, z: real, kids: nat)
    requires CountsKept(s) && 0 <= leaf < |s.nodes|
    ensures CountsKept(Expand(s, leaf, z, kids))
  {
    hide SumN, SumW, TasksAt, ValuesAt, Tree, CountsKept;
    GrownKeeps(s, leaf, kids);
    BeginKeeps(Grown(s, leaf, kids), leaf, z, s.nodes[leaf].invalid + 1);
  }

  lemma BackOneKeeps(s: Search, i: nat, vl: int)
    requires CountsKept(s) && i < |s.tasks| && 0 < s.tasks[i].at
    ensures CountsKept(BackOne(s, i, vl))
  {
    var t := s.tasks[i];
    var node := s.nodes[t.at];
    var v := node.(vl := node.vl - t.weight * vl, n := node.n + 1, w := node.w + t.z);
    var nodes := s.nodes[t.at := v];
    var f := nodes[node.father];
    var f' := f.(total := f.total + 1);
    var k := |nodes|;
    var r := BackOne(s, i, vl);
    var arrived := t.(at := node.father);
    forall x
      ensures SumN(r.nodes, x, k) == SumN(s.nodes, x, k) + if x == node.father then 1 else 0
      ensures SumW(r.nodes, x, k) == SumW(s.nodes, x, k) + if x == node.father then t.z else 0.0
    {
      SumsUpdate(s.nodes, t.at, v, x, k);
      SumsUpdate(nodes, node.father, f', x, k);
    }
    forall x
      ensures TasksAt(r.tasks, x, |r.tasks|) ==
        TasksAt(s.tasks, x, |s.tasks|) + (if x == node.father then 1 else 0) - (if x == t.at then 1 else 0)
      ensures ValuesAt(r.tasks, x, |r.tasks|)
           == ValuesAt(s.tasks, x, |s.tasks|) + (if x == node.father then t.z else 0.0) - (if x == t.at then t.z
             else 0.0)
    {
      TasksUpdate(s.tasks, i, arrived, x, |s.tasks|);
    }
    assert Tree(r);
    hide SumN, SumW, TasksAt, ValuesAt, Tree;
  }

  lemma SelectKeeps(s: Search, path: seq<int>, fate: Fate, vl: int)
    requires CountsKept(s) && Descends(s, path)
    ensures CountsKept(Settle(s.(nodes := Weigh(s.nodes, path, |path|, vl)), path[|path| - 1], fate))
  {
    hide SumN, SumW, TasksAt, ValuesAt;
    WeighOnly(s.nodes, path, |path|, vl);
    var s1 := s.(nodes := Weigh(s.nodes, path, |path|, vl));
    OtherwiseKept(s, s1);
    hide CountsKept;
    SettleKeeps(s1, path[|path| - 1], fate);
  }

  lemma KeptTree(s: Search)
    requires CountsKept(s)
    ensures Tree(s)
  {
  }

  /** Every step keeps the visit counts, the win sums and the fathers' totals in step. */
  lemma CountsConserved(s: Search, a: Action, vl: int)
    requires CountsKept(s) && Enabled(s, a)
    ensures Tree(s) && CountsKept(Do(s, a, vl))
  {
    hide CountsKept, Settle, Expand, BackOne, Weigh;
    KeptTree(s);
    match a
    case Select(path, fate) => SelectKeeps(s, path, fate, vl);
    case Reply(leaf, z, kids) => ExpandKeeps(s, leaf, z, kids);
    case BackUp(i) => BackOneKeeps(s, i, vl);
  }

  // ------------------------------------------------------------ virtual loss

  /** The edge of e is on the way from x to the root. */
  predicate Under(nodes: seq<Node>, x: int, e: int)
    decreases x
  {
    0 <= x < |nodes| && (x == e || (0 <= nodes[x].father < x && Under(nodes, nodes[x].father, e)))
  }

  /** Selections of the leaf x not yet given back: the request and those that ran into it, those
      dropped for repetition, and those that met it evaluated. */
  function Owed(s: Search, x: int): nat
    requires 0 <= x < |s.nodes| == |s.lost| == |s.late|
  {
    (if s.nodes[x].asked && !s.nodes[x].ready then 1 + s.nodes[x].invalid else 0) + s.lost[x] + s.late[x]
  }

  function LeafLoad(s: Search, e: int, k: nat): nat
    requires k <= |s.nodes| == |s.lost| == |s.late|
  {
    if k == 0 then 0 else LeafLoad(s, e, k - 1) + if Under(s.nodes, k - 1, e) then Owed(s, k - 1) else 0
  }

  function TaskLoad(nodes: seq<Node>, tasks: seq<Task>, e: int, k: nat): nat
    requires k <= |tasks|
  {
    if k == 0 then 0 else TaskLoad(nodes, tasks, e, k - 1) + if Under(nodes, tasks[k - 1].at, e)
      then tasks[k - 1].weight else 0
  }

  /** Selections through the edge of e whose virtual loss is still on it. */
  function Load(s: Search, e: int): nat
    requires |s.nodes| == |s.lost| == |s.late|
  {
    LeafLoad(s, e, |s.nodes|) + TaskLoad(s.nodes, s.tasks, e, |s.tasks|)
  }

  /** A node nobody asked about has not been run into and is not evaluated. */
  predicate Fresh(node: Node) { !node.asked ==> node.invalid == 0 && !node.ready }

  ghost predicate LossKept(s: Search, vl: int) {
    && Tree(s) && (forall x :: 0 <= x < |s.nodes| ==> Fresh(s.nodes[x]))
    && forall e :: 0 < e < |s.nodes| ==> s.nodes[e].vl == Load(s, e) * vl
  }

  ghost predicate SameFathers(nodes: seq<Node>, r: seq<Node>) {
    |nodes| <= |r| && forall i :: 0 <= i < |nodes| ==> r[i].father == nodes[i].father
  }

  lemma {:induction false} UnderSame(nodes: seq<Node>, r: seq<Node>, x: int, e: int)
    requires SameFathers(nodes, r) && x < |nodes|
    ensures Under(r, x, e) == Under(nodes, x, e)
    decreases x
  {
    if 0 <= x && x != e && 0 <= nodes[x].father < x { UnderSame(nodes, r, nodes[x].father, e); }
  }

  lemma {:induction false} UnderLater(nodes: seq<Node>, x: int, e: int)
    requires Under(nodes, x, e)
    ensures e <= x
    decreases x
  {
    if x != e { UnderLater(nodes, nodes[x].father, e); }
  }

  lemma {:induction false} TaskLoadSame(nodes: seq<Node>, r: seq<Node>, tasks: seq<Task>, e: int, k: nat)
    requires SameFathers(nodes, r) && k <= |tasks| && forall i :: 0 <= i < |tasks| ==> tasks[i].at < |nodes|
    ensures TaskLoad(r, tasks, e, k) == TaskLoad(nodes, tasks, e, k)
    decreases k
  {
    if k > 0 {
      TaskLoadSame(nodes, r, tasks, e, k - 1);
      UnderSame(nodes, r, tasks[k - 1].at, e);
    }
  }

  lemma {:induction false} TaskLoadMore(nodes: seq<Node>, tasks: seq<Task>, t: Task, e: int, k: nat)
    requires k <= |tasks|
    ensures TaskLoad(nodes, tasks + [t], e, k) == TaskLoad(nodes, tasks, e, k)
    decreases k
  {
    if k > 0 { TaskLoadMore(nodes, tasks, t, e, k - 1); }
  }

  lemma {:induction false} TaskLoadUpdate(nodes: seq<Node>, tasks: seq<Task>, i: int, t: Task, e: int, k: nat)
    requires k <= |tasks| && 0 <= i < |tasks|
    ensures TaskLoad(nodes, tasks[i := t], e, k) == TaskLoad(nodes, tasks, e, k)
      + if i < k then (if Under(nodes, t.at, e) then t.weight else 0)
        - (if Under(nodes, tasks[i].at, e) then tasks[i].weight else 0) else 0
    decreases k
  {
    if k > 0 { TaskLoadUpdate(nodes, tasks, i, t, e, k - 1); }
  }

  /** Only the node y owes a different number. */
  lemma {:induction false} LeafLoadUpdate(s: Search, r: Search, y: int, e: int, k: nat)
    requires k <= |s.nodes| == |s.lost| == |s.late| == |r.nodes| == |r.lost| == |r.late|
    requires SameFathers(s.nodes, r.nodes) && 0 <= y < |s.nodes|
    requires forall x :: 0 <= x < |s.nodes| && x != y ==> Owed(r, x) == Owed(s, x)
    ensures LeafLoad(r, e, k) == LeafLoad(s, e, k) + if y < k && Under(s.nodes, y, e) then Owed(r, y) - Owed(s, y)
      else 0
    decreases k
  {
    if k > 0 {
      LeafLoadUpdate(s, r, y, e, k - 1);
      UnderSame(s.nodes, r.nodes, k - 1, e);
    }
  }

  /** New leaves owe nothing. */
  lemma {:induction false} LeafLoadMore(s: Search, r: Search, e: int, k: nat)
    requires |s.nodes| == |s.lost| == |s.late| && k <= |r.nodes| == |r.lost| == |r.late|
    requires SameFathers(s.nodes, r.nodes)
    requires forall x :: 0 <= x < |r.nodes| ==> Owed(r, x) == if x < |s.nodes| then Owed(s, x) else 0
    ensures LeafLoad(r, e, k) == LeafLoad(s, e, if k <= |s.nodes| then k else |s.nodes|)
    decreases k
  {
    if k > 0 {
      LeafLoadMore(s, r, e, k - 1);
      if k <= |s.nodes| { UnderSame(s.nodes, r.nodes, k - 1, e); }
    }
  }

  lemma {:induction false} NothingBelow(s: Search, e: int, k: nat)
    requires k <= |s.nodes| == |s.lost| == |s.late| && forall x :: 0 <= x < k ==> x < e || Owed(s, x) == 0
    ensures LeafLoad(s, e, k) == 0
    decreases k
  {
    if k > 0 {
      NothingBelow(s, e, k - 1);
      if Under(s.nodes, k - 1, e) { UnderLater(s.nodes, k - 1, e); }
    }
  }

  lemma {:induction false} NoTaskBelow(nodes: seq<Node>, tasks: seq<Task>, e: int, k: nat)
    requires k <= |tasks| && forall i :: 0 <= i < k ==> tasks[i].at < e
    ensures TaskLoad(nodes, tasks, e, k) == 0
    decreases k
  {
    if k > 0 {
      NoTaskBelow(nodes, tasks, e, k - 1);
      if Under(nodes, tasks[k - 1].at, e) { UnderLater(nodes, tasks[k - 1].at, e); }
    }
  }

  // ------------------------------------------------------------ a selection

  lemma {:induction false} PathUp(s: Search, path: seq<int>, i: nat, e: int)
    requires Tree(s) && Descends(s, path) && i < |path|
    ensures Under(s.nodes, path[i], e) <==> e in path[..i + 1]
    ensures i > 0 ==> path[i] > path[i - 1] && path[i] !in path[..i]
    decreases i
  {
    assert path[..i + 1] == path[..i] + [path[i]];
    if i > 0 {
      PathUp(s, path, i - 1, e);
      assert Below(s, path, i);
      if path[i] in path[..i] { PathUp(s, path, i - 1, path[i]); UnderLater(s.nodes, path[i - 1], path[i]); }
    }
  }

  /** Each edge of the path gets the virtual loss once. */
  lemma {:induction false} WeighAt(s: Search, path: seq<int>, k: nat, vl: int, e: int)
    requires Tree(s) && Descends(s, path) && k <= |path| && 0 < e < |s.nodes|
    ensures Weigh(s.nodes, path, k, vl)[e].vl == s.nodes[e].vl + if e in path[..k] then vl else 0
    decreases k
  {
    if k > 0 {
      WeighAt(s, path, k - 1, vl, e);
      assert path[..k] == path[..k - 1] + [path[k - 1]];
      if k > 1 { PathUp(s, path, k - 1, e); }
    }
  }

  lemma Distribute(a: int, b: int, vl: int)
    ensures (a + b) * vl == a * vl + b * vl
  {
  }

  /** Beginning a backup adds its weight to the edges above. */
  lemma BeginLoad(s: Search, leaf: int, z: real, weight: nat, e: int)
    requires Tree(s) && 0 <= leaf < |s.nodes|
    ensures Load(Begin(s, leaf, z, weight), e) == Load(s, e) + if Under(s.nodes, leaf, e) then weight else 0
  {
    hide Under;
    TaskLoadMore(s.nodes, s.tasks, Task(leaf, z, weight), e, |s.tasks|);
    LeafLoadUpdate(s, Begin(s, leaf, z, weight), leaf, e, |s.nodes|);
  }

  /** A leaf that owes one more adds it to the edges above. */
  lemma OwesMore(s: Search, r: Search, leaf: int, e: int)
    requires Tree(s) && 0 <= leaf < |s.nodes| && r.tasks == s.tasks
    requires |r.nodes| == |s.nodes| == |r.lost| == |r.late| && SameFathers(s.nodes, r.nodes)
    requires forall x :: 0 <= x < |s.nodes| ==> Owed(r, x) == Owed(s, x) + if x == leaf then 1 else 0
    ensures Load(r, e) == Load(s, e) + if Under(s.nodes, leaf, e) then 1 else 0
  {
    hide Under, Owed;
    LeafLoadUpdate(s, r, leaf, e, |s.nodes|);
    TaskLoadSame(s.nodes, r.nodes, s.tasks, e, |s.tasks|);
  }

  /** Settling a selection adds one to what its leaf owes, or begins a backup of weight one. */
  lemma SettleLoad(s: Search, leaf: int, fate: Fate, e: int)
    requires Tree(s) && 0 <= leaf < |s.nodes| && Fresh(s.nodes[leaf])
    ensures var r := Settle(s, leaf, fate); |r.nodes| == |s.nodes| == |r.lost| == |r.late|
    ensures Load(Settle(s, leaf, fate), e) == Load(s, e) + if Under(s.nodes, leaf, e) then 1 else 0
  {
    hide Under, Load;
    match fate
    case Terminal(z) => BeginLoad(s, leaf, z, 1, e);
    case _ => OwesMore(s, Settle(s, leaf, fate), leaf, e);
  }

  lemma SettleShape(s: Search, leaf: int, fate: Fate)
    requires Tree(s) && 0 <= leaf < |s.nodes| && forall x :: 0 <= x < |s.nodes| ==> Fresh(s.nodes[x])
    ensures var r := Settle(s, leaf, fate); Tree(r) && |r.nodes| == |s.nodes| && forall i :: 0 <= i < |s.nodes| ==>
      r.nodes[i].vl == s.nodes[i].vl
    ensures var r := Settle(s, leaf, fate); forall x :: 0 <= x < |r.nodes| ==> Fresh(r.nodes[x])
  {
  }

  lemma SelectLossAt(s: Search, path: seq<int>, fate: Fate, vl: int, e: int)
    requires LossKept(s, vl) && Descends(s, path) && 0 < e < |s.nodes|
    ensures var s1 := s.(nodes := Weigh(s.nodes, path, |path|, vl)); var r := Settle(s1, path[|path| - 1], fate);
      |r.nodes| == |s.nodes| && |r.lost| == |r.late| == |r.nodes| && r.nodes[e].vl == Load(r, e) * vl
  {
    hide Under, Settle, Load, Weigh;
    WeighOnly(s.nodes, path, |path|, vl);
    var s1 := s.(nodes := Weigh(s.nodes, path, |path|, vl));
    var leaf := path[|path| - 1];
    SettleShape(s1, leaf, fate);
    WeighAt(s, path, |path|, vl, e);
    PathUp(s, path, |path| - 1, e);
    assert path[..|path|] == path;
    WeighLoad(s, s1, e);
    UnderSame(s.nodes, s1.nodes, leaf, e);
    SettleLoad(s1, leaf, fate, e);
    Distribute(Load(s, e), if Under(s.nodes, leaf, e) then 1 else 0, vl);
  }

  lemma SelectLoss(s: Search, path: seq<int>, fate: Fate, vl: int)
    requires LossKept(s, vl) && Descends(s, path)
    ensures LossKept(Settle(s.(nodes := Weigh(s.nodes, path, |path|, vl)), path[|path| - 1], fate), vl)
  {
    hide Under, Settle, Load, Weigh;
    WeighOnly(s.nodes, path, |path|, vl);
    var s1 := s.(nodes := Weigh(s.nodes, path, |path|, vl));
    var r := Settle(s1, path[|path| - 1], fate);
    SettleShape(s1, path[|path| - 1], fate);
    forall e | 0 < e < |s.nodes| ensures r.nodes[e].vl == Load(r, e) * vl { SelectLossAt(s, path, fate, vl, e); }
  }

  lemma WeighLoad(s: Search, s1: Search, e: int)
    requires Tree(s) && s1 == s.(nodes := s1.nodes) && |s1.nodes| == |s.nodes|
    requires forall i :: 0 <= i < |s.nodes| ==> s1.nodes[i] == s.nodes[i].(vl := s1.nodes[i].vl)
    ensures Load(s1, e) == Load(s, e)
  {
    LeafLoadUpdate(s, s1, 0, e, |s.nodes|);
    TaskLoadSame(s.nodes, s1.nodes, s.tasks, e, |s.tasks|);
  }

  // ------------------------------------------------------------ replies and backups

  lemma ReplyLoss(s: Search, leaf: int, z: real, kids: nat, vl: int)
    requires LossKept(s, vl) && 0 <= leaf < |s.nodes| && s.nodes[leaf].asked && !s.nodes[leaf].ready
    ensures LossKept(Expand(s, leaf, z, kids), vl)
  {
    var node := s.nodes[leaf];
    var s0 := s.(nodes := s.nodes[leaf := node.(ready := true)]);
    var s1 := s0.(nodes := s0.nodes + Repeat(kids, Child(leaf)), begun := s.begun + Repeat(kids, 0),
        won := s.won + Repeat(kids, 0.0),
                  lost := s.lost + Repeat(kids, 0), late := s.late + Repeat(kids, 0));
    assert Expand(s, leaf, z, kids) == Begin(s1, leaf, z, node.invalid + 1);
    assert Tree(s0) && Tree(s1);
    var r := Expand(s, leaf, z, kids);
    assert Tree(r);
    assert forall x :: 0 <= x < |s1.nodes| ==> Owed(s1, x) == if x < |s0.nodes| then Owed(s0, x) else 0;
    hide Under, Load, LeafLoad, TaskLoad;
    forall e | 0 < e < |r.nodes| ensures r.nodes[e].vl == Load(r, e) * vl {
      BeginLoad(s1, leaf, z, node.invalid + 1, e);
      GrowLoad(s0, s1, e);
      UnderSame(s0.nodes, s1.nodes, leaf, e);
      UnderSame(s.nodes, s0.nodes, leaf, e);
      if e < |s.nodes| {
        ReadyLoad(s, s0, leaf, e);
      } else {
        NothingBelow(s0, e, |s0.nodes|);
        NoTaskBelow(s0.nodes, s0.tasks, e, |s0.tasks|);
        NewEdge(s0, leaf, e);
      }
    }
  }

  lemma NewEdge(s: Search, leaf: int, e: int)
    requires Tree(s) && 0 <= leaf < |s.nodes| <= e && LeafLoad(s, e, |s.nodes|) == 0
    requires TaskLoad(s.nodes, s.tasks, e, |s.tasks|) == 0
    ensures Load(s, e) == 0 && !Under(s.nodes, leaf, e)
  {
    if Under(s.nodes, leaf, e) { UnderLater(s.nodes, leaf, e); }
  }

  lemma GrowLoad(s: Search, r: Search, e: int)
    requires Tree(s) && r.tasks == s.tasks && |r.nodes| == |r.lost| == |r.late| && SameFathers(s.nodes, r.nodes)
    requires forall x :: 0 <= x < |r.nodes| ==> Owed(r, x) == if x < |s.nodes| then Owed(s, x) else 0
    ensures Load(r, e) == Load(s, e)
  {
    hide Under, Owed;
    LeafLoadMore(s, r, e, |r.nodes|);
    TaskLoadSame(s.nodes, r.nodes, s.tasks, e, |s.tasks|);
  }

  lemma ReadyLoad(s: Search, r: Search, leaf: int, e: int)
    requires Tree(s) && 0 <= leaf < |s.nodes| && s.nodes[leaf].asked && !s.nodes[leaf].ready
    requires r == s.(nodes := s.nodes[leaf := s.nodes[leaf].(ready := true)])
    ensures Load(r, e) == Load(s, e) - if Under(s.nodes, leaf, e) then s.nodes[leaf].invalid + 1 else 0
  {
    hide Under;
    LeafLoadUpdate(s, r, leaf, e, |s.nodes|);
    TaskLoadSame(s.nodes, r.nodes, s.tasks, e, |s.tasks|);
  }

  lemma BackUpLoss(s: Search, i: nat, vl: int)
    requires LossKept(s, vl) && i < |s.tasks| && 0 < s.tasks[i].at
    ensures LossKept(BackOne(s, i, vl), vl)
  {
    var t := s.tasks[i];
    var r := BackOne(s, i, vl);
    assert Tree(r);
    var father := s.nodes[t.at].father;
    hide Load, TaskLoad;
    forall e | 0 < e < |r.nodes| ensures r.nodes[e].vl == Load(r, e) * vl {
      BackLoad(s, r, i, e);
      FatherUnder(s, t.at, e);
      if e == t.at { Distribute(Load(r, e), t.weight, vl); }
    }
  }

  lemma FatherUnder(s: Search, x: int, e: int)
    requires Tree(s) && 0 < x < |s.nodes|
    ensures Under(s.nodes, x, e) <==> x == e || Under(s.nodes, s.nodes[x].father, e)
    ensures x == e ==> !Under(s.nodes, s.nodes[x].father, e)
  {
    if Under(s.nodes, s.nodes[x].father, x) { UnderLater(s.nodes, s.nodes[x].father, x); }
  }

  lemma BackLoad(s: Search, r: Search, i: nat, e: int)
    requires Tree(s) && i < |s.tasks| && 0 < s.tasks[i].at && |r.nodes| == |s.nodes| == |r.lost| == |r.late|
    requires SameFathers(s.nodes, r.nodes)
    requires r.tasks == s.tasks[i := s.tasks[i].(at := s.nodes[s.tasks[i].at].father)]
    requires forall x :: 0 <= x < |s.nodes| ==> Owed(r, x) == Owed(s, x)
    ensures var t := s.tasks[i]; var f := s.nodes[t.at].father;
      Load(r, e) == Load(s, e) + (if Under(s.nodes, f, e) then t.weight else 0)
        - (if Under(s.nodes, t.at, e) then t.weight else 0)
  {
    hide Under, Owed;
    LeafLoadUpdate(s, r, 0, e, |s.nodes|);
    TaskLoadUpdate(s.nodes, s.tasks, i, r.tasks[i], e, |s.tasks|);
    TaskLoadSame(s.nodes, r.nodes, r.tasks, e, |r.tasks|);
  }

  /** Every step keeps the virtual loss of each edge at the configured amount for each selection
      through it not yet given back. */
  lemma LossConserved(s: Search, a: Action, vl: int)
    requires LossKept(s, vl) && Enabled(s, a)
    ensures LossKept(Do(s, a, vl), vl)
  {
    hide Load, Settle, Expand, BackOne, Weigh;
    match a
    case Select(path, fate) => SelectLoss(s, path, fate, vl);
    case Reply(leaf, z, kids) => ReplyLoss(s, leaf, z, kids, vl);
    case BackUp(i) => BackUpLoss(s, i, vl);
  }

  // ------------------------------------------------------------ values

  predicate Bounded(z: real) { -1.0 <= z <= 1.0 }

  predicate Fair(a: Action) {
    match a
    case Select(_, Terminal(z)) => Bounded(z)
    case Reply(_, z, _) => Bounded(z)
    case _ => true
  }

  ghost predicate ValuesKept(s: Search) {
    && (forall i :: 0 <= i < |s.tasks| ==> Bounded(s.tasks[i].z))
    && forall x :: 0 <= x < |s.nodes| ==>
      s.nodes[x].n >= 0 && -(s.nodes[x].n as real) <= s.nodes[x].w <= s.nodes[x].n as real
  }

  lemma ValuesConserved(s: Search, a: Action, vl: int)
    requires Tree(s) && ValuesKept(s) && Enabled(s, a) && Fair(a)
    ensures ValuesKept(Do(s, a, vl))
  {
    match a
    case Select(path, fate) => WeighOnly(s.nodes, path, |path|, vl);
    case Reply(leaf, z, kids) =>
    case BackUp(i) =>
  }

  // ------------------------------------------------------------ whole searches

  ghost predicate Conserved(s: Search, vl: int) { CountsKept(s) && LossKept(s, vl) && ValuesKept(s) }

  /** A search begins with a bare root. */
  function Bare(): Search { Search([Node(-1, 0, 0, 0.0, 0, false, false, 0)], [], [0], [0.0], [0], [0]) }

  lemma BareConserved(vl: int)
    ensures Conserved(Bare(), vl)
  {
    var s := Bare();
    assert SumN(s.nodes, 0, 1) == 0 && SumW(s.nodes, 0, 1) == 0.0;
  }

  ghost predicate Next(s: Search, r: Search, a: Action, vl: int) {
    Tree(s) && Enabled(s, a) && Fair(a) && r == Do(s, a, vl)
  }

  /** A run: each state comes from the one before by a step that was enabled there. */
  ghost predicate IsRun(run: seq<Search>, acts: seq<Action>, vl: int) {
    |run| == |acts| + 1 && forall i :: 0 <= i < |acts| ==> Next(run[i], run[i + 1], acts[i], vl)
  }

  /** Whatever the interleaving, the statistics are conserved all along a search. */
  lemma {:induction false} SearchConserves(run: seq<Search>, acts: seq<Action>, vl: int, i: nat)
    requires IsRun(run, acts, vl) && Conserved(run[0], vl) && i < |run|
    ensures Conserved(run[i], vl)
  {
    hide CountsKept, LossKept, ValuesKept, Do;
    if i > 0 {
      SearchConserves(run, acts, vl, i - 1);
      assert Next(run[i - 1], run[i - 1 + 1], acts[i - 1], vl);
      CountsConserved(run[i - 1], acts[i - 1], vl);
      LossConserved(run[i - 1], acts[i - 1], vl);
      ValuesConserved(run[i - 1], acts[i - 1], vl);
    }
  }

  /** Nothing is outstanding: every request is answered and every backup has arrived. */
  ghost predicate Idle(s: Search) {
    && (forall x :: 0 <= x < |s.nodes| ==> s.nodes[x].asked ==> s.nodes[x].ready)
    && forall i :: 0 <= i < |s.tasks| ==> s.tasks[i].at == 0
  }

  lemma {:induction false} NothingOwed(s: Search, e: int, k: nat)
    requires k <= |s.nodes| == |s.lost| == |s.late| && forall x :: 0 <= x < |s.nodes| ==> Owed(s, x) == 0
    ensures LeafLoad(s, e, k) == 0
    decreases k
  {
    if k > 0 { NothingOwed(s, e, k - 1); }
  }

  lemma {:induction false} OwedShows(s: Search, x: int, e: int, k: nat)
    requires k <= |s.nodes| == |s.lost| == |s.late| && 0 <= x < k && Under(s.nodes, x, e)
    ensures LeafLoad(s, e, k) >= Owed(s, x)
    decreases k
  {
    if k - 1 > x { OwedShows(s, x, e, k - 1); }
  }

  lemma Scale(a: int, b: int, vl: int)
    requires a >= b && vl >= 0
    ensures a * vl >= b * vl
  {
  }

  /** Once a search is idle, virtual loss is gone from the whole tree exactly if no selection was
      dropped for repetition or came too late; what was dropped stays on the edges above for good. */
  lemma IdleLoss(s: Search, vl: int)
    requires Conserved(s, vl) && vl > 0 && Idle(s)
    ensures (forall e :: 0 < e < |s.nodes| ==> s.nodes[e].vl == 0) <==>
      forall x :: 0 < x < |s.nodes| ==> s.lost[x] == 0 && s.late[x] == 0
    ensures forall x, e :: 0 < e <= x < |s.nodes| && Under(s.nodes, x, e) ==>
      s.nodes[e].vl >= (s.lost[x] + s.late[x]) * vl
  {
    hide CountsKept, ValuesKept, TaskLoad, LeafLoad, Under;
    forall x, e | 0 < e <= x < |s.nodes| && Under(s.nodes, x, e) ensures s.nodes[e].vl >= (s.lost[x] + s.late[x]) * vl {
      OwedShows(s, x, e, |s.nodes|);
      Scale(Load(s, e), s.lost[x] + s.late[x], vl);
    }
    if forall x :: 0 < x < |s.nodes| ==> s.lost[x] == 0 && s.late[x] == 0 {
      forall e | 0 < e < |s.nodes| ensures s.nodes[e].vl == 0 { IdleEdge(s, e); }
    }
    forall x | 0 < x < |s.nodes| && s.nodes[x].vl == 0 ensures s.lost[x] == 0 && s.late[x] == 0 {
      UnderSelf(s.nodes, x);
      if s.lost[x] + s.late[x] > 0 { Scale(s.lost[x] + s.late[x], 1, vl); }
    }
  }

  lemma UnderSelf(nodes: seq<Node>, x: int)
    requires 0 <= x < |nodes|
    ensures Under(nodes, x, x)
  {
  }

  lemma IdleEdge(s: Search, e: int)
    requires Tree(s) && Idle(s) && 0 < e < |s.nodes|
    requires forall x :: 0 < x < |s.nodes| ==> s.lost[x] == 0 && s.late[x] == 0
    ensures Load(s, e) == 0
  {
    NothingBelow(s, e, |s.nodes|);
    NoTaskBelow(s.nodes, s.tasks, e, |s.tasks|);
  }

  /** A quotient of a part by a whole. */
  lemma PartOfWhole(a: real, b: real)
    requires 0.0 <= a <= b && b > 0.0
    ensures 0.0 <= a / b <= 1.0
  {
  }

  /** The win rate shown for a node, with a small constant in its divisor, lies between 0 and 1. */
  lemma WinRateInRange(s: Search, x: int, small: real)
    requires ValuesKept(s) && 0 <= x < |s.nodes| && small >= 0.0 && s.nodes[x].n as real + small > 0.0
    ensures var n := s.nodes[x].n as real; 0.0 <= (s.nodes[x].w + n) / 2.0 / (n + small) <= 1.0
  {
    var n, w := s.nodes[x].n as real, s.nodes[x].w;
    PartOfWhole((w + n) / 2.0, n + small);
  }
}
