/** Going on with a subtree after a move: the node becomes the root, the statistics below it stay
    conserved, whatever is still outstanding. */
module Rerooting {
  import opened SearchTree

  /** The nodes below c, c itself first, among the first k. */
  function Below1(nodes: seq<Node>, c: int, k: nat): (l: seq<int>)
    requires k <= |nodes|
    ensures forall i :: 0 <= i < |l| ==> 0 <= l[i] < k && Under(nodes, l[i], c)
    ensures forall i, j :: 0 <= i < j < |l| ==> l[i] < l[j]
  {
    if k == 0 then [] else Below1(nodes, c, k - 1) + if Under(nodes, k - 1, c) then [k - 1] else []
  }

  function Subtree(nodes: seq<Node>, c: int): seq<int> { Below1(nodes, c, |nodes|) }

  /** The place of x in the subtree. */
  function Rank(nodes: seq<Node>, c: int, x: nat): nat
    requires x <= |nodes|
  {
    |Below1(nodes, c, x)|
  }

  function Moved(nodes: seq<Node>, c: int, x: int): Node
    requires 0 <= x < |nodes|
  {
    var f := nodes[x].father;
    nodes[x].(father := if x == c || !(0 <= f < |nodes|) then -1 else Rank(nodes, c, f))
  }

  function Picked<T>(xs: seq<T>, l: seq<int>): (r: seq<T>)
    requires forall i :: 0 <= i < |l| ==> 0 <= l[i] < |xs|
    ensures |r| == |l| && forall i :: 0 <= i < |l| ==> r[i] == xs[l[i]]
  {
    seq(|l|, i requires 0 <= i < |l| => xs[l[i]])
  }

  /** The backups still under way below c. */
  function TasksBelow(nodes: seq<Node>, tasks: seq<Task>, c: int, k: nat): (r: seq<Task>)
    requires k <= |tasks|
  {
    if k == 0 then []
    else
      var r, t := TasksBelow(nodes, tasks, c, k - 1), tasks[k - 1];
      if 0 <= t.at < |nodes| && Under(nodes, t.at, c) then r + [t.(at := Rank(nodes, c, t.at))] else r
  }

  /** The search with c as its root. */
  function Reroot(s: Search, c: int): (r: Search)
    requires |s.begun| == |s.won| == |s.lost| == |s.late| == |s.nodes|
    ensures |r.begun| == |r.won| == |r.lost| == |r.late| == |r.nodes|
  {
    var l := Subtree(s.nodes, c);
    Search(seq(|l|, i requires 0 <= i < |l| => Moved(s.nodes, c, l[i])), TasksBelow(s.nodes, s.tasks, c, |s.tasks|),
           Picked(s.begun, l), Picked(s.won, l), Picked(s.lost, l), Picked(s.late, l))
  }

  // ------------------------------------------------------------ places

  lemma {:induction false} Prefix(nodes: seq<Node>, c: int, j: nat, k: nat)
    requires j <= k <= |nodes|
    ensures Below1(nodes, c, j) <= Below1(nodes, c, k)
    decreases k
  {
    if j < k { Prefix(nodes, c, j, k - 1); }
  }

  /** A node of the subtree is at its rank. */
  lemma AtRank(nodes: seq<Node>, c: int, x: nat, k: nat)
    requires x < k <= |nodes| && Under(nodes, x, c)
    ensures Rank(nodes, c, x) < Rank(nodes, c, k) && Below1(nodes, c, k)[Rank(nodes, c, x)] == x
  {
    hide Under;
    Prefix(nodes, c, x + 1, k);
  }

  /** Ranks tell the nodes of the subtree apart. */
  lemma RankOrder(nodes: seq<Node>, c: int, x: nat, y: nat)
    requires x <= |nodes| && y <= |nodes|
    ensures x < y && Under(nodes, x, c) ==> Rank(nodes, c, x) < Rank(nodes, c, y)
  {
    hide Under;
    if x < y && Under(nodes, x, c) { AtRank(nodes, c, x, y); }
  }

  /** Below c there is nothing before c. */
  lemma {:induction false} NoneBefore(nodes: seq<Node>, c: int, k: nat)
    requires k <= |nodes| && k <= c
    ensures Below1(nodes, c, k) == []
    decreases k
  {
    if k > 0 {
      NoneBefore(nodes, c, k - 1);
      if Under(nodes, k - 1, c) { UnderLater(nodes, k - 1, c); }
    }
  }

  /** The father of a node of the subtree, other than c, is in the subtree. */
  lemma FatherBelow(nodes: seq<Node>, c: int, x: int)
    requires Under(nodes, x, c) && x != c
    ensures 0 <= nodes[x].father < x < |nodes| && Under(nodes, nodes[x].father, c) && c < x
  {
    UnderLater(nodes, x, c);
  }

  /** What the new search holds at the place of x. */
  lemma NodeAt(s: Search, c: int, x: int)
    requires Tree(s) && 0 <= c < |s.nodes| && Under(s.nodes, x, c)
    ensures 0 <= x < |s.nodes|
    ensures var r := Reroot(s, c); var i := Rank(s.nodes, c, x);
      i < |r.nodes| && r.nodes[i] == Moved(s.nodes, c, x) && Subtree(s.nodes, c)[i] == x
      && r.begun[i] == s.begun[x] && r.won[i] == s.won[x] && r.lost[i] == s.lost[x] && r.late[i] == s.late[x]
    ensures x == c ==> Rank(s.nodes, c, x) == 0
    ensures x != c ==> 0 <= s.nodes[x].father < x && Rank(s.nodes, c, s.nodes[x].father) < Rank(s.nodes, c, x)
  {
    hide Moved;
    UnderLater(s.nodes, x, c);
    AtRank(s.nodes, c, x, |s.nodes|);
    if x == c {
      NoneBefore(s.nodes, c, c);
    } else {
      FatherBelow(s.nodes, c, x);
      AtRank(s.nodes, c, s.nodes[x].father, x);
    }
  }

  /** Every place of the new search is that of a node of the subtree. */
  lemma NodeOf(s: Search, c: int, i: int) returns (x: int)
    requires Tree(s) && 0 <= c < |s.nodes| && 0 <= i < |Reroot(s, c).nodes|
    ensures 0 <= x < |s.nodes| && Under(s.nodes, x, c) && Rank(s.nodes, c, x) == i && (i > 0 ==> x != c)
  {
    hide Under, Moved;
    var l := Subtree(s.nodes, c);
    x := l[i];
    AtRank(s.nodes, c, x, |s.nodes|);
    var j := Rank(s.nodes, c, x);
    assert l[j] == x && l[i] == x;
    NodeAt(s, c, x);
  }

  lemma RerootTree(s: Search, c: int)
    requires Tree(s) && 0 <= c < |s.nodes|
    ensures Tree(Reroot(s, c))
  {
    hide Under, Rank, Below1;
    var r := Reroot(s, c);
    assert Under(s.nodes, c, c) by { UnderSelf(s.nodes, c); }
    NodeAt(s, c, c);
    forall i | 0 < i < |r.nodes| ensures 0 <= r.nodes[i].father < i {
      var x := NodeOf(s, c, i);
      NodeAt(s, c, x);
    }
    TasksIn(s, c, |s.tasks|);
  }

  predicate TasksFit(ts: seq<Task>, n: int) { forall i :: 0 <= i < |ts| ==> 0 <= ts[i].at < n }

  lemma {:induction false} TasksIn(s: Search, c: int, k: nat)
    requires Tree(s) && 0 <= c < |s.nodes| && k <= |s.tasks|
    ensures TasksFit(TasksBelow(s.nodes, s.tasks, c, k), |Reroot(s, c).nodes|)
    decreases k
  {
    hide Under, Rank, Below1, Moved, Reroot;
    if k > 0 {
      TasksIn(s, c, k - 1);
      var t := s.tasks[k - 1];
      if Under(s.nodes, t.at, c) { NodeAt(s, c, t.at); }
    }
  }

  // ------------------------------------------------------------ sums below a node

  /** A child of x is a child of x afterwards. */
  lemma ChildKept(s: Search, c: int, x: int, y: int)
    requires Tree(s) && 0 <= c < |s.nodes| && Under(s.nodes, x, c) && Under(s.nodes, y, c)
    ensures 0 <= x < |s.nodes| && 0 <= y < |s.nodes|
    ensures Moved(s.nodes, c, y).father == Rank(s.nodes, c, x) <==> s.nodes[y].father == x
  {
    hide Below1;
    NodeAt(s, c, x);
    NodeAt(s, c, y);
    UnderLater(s.nodes, x, c);
    if y != c {
      FatherBelow(s.nodes, c, y);
      var f := s.nodes[y].father;
      RankOrder(s.nodes, c, x, f);
      RankOrder(s.nodes, c, f, x);
    }
  }

  lemma {:induction false} SumsBelow(s: Search, c: int, x: int, k: nat)
    requires Tree(s) && 0 <= c < |s.nodes| && Under(s.nodes, x, c) && k <= |s.nodes|
    ensures 0 <= x < |s.nodes| && Rank(s.nodes, c, k) <= |Reroot(s, c).nodes|
    ensures SumN(Reroot(s, c).nodes, Rank(s.nodes, c, x), Rank(s.nodes, c, k)) == SumN(s.nodes, x, k)
    ensures SumW(Reroot(s, c).nodes, Rank(s.nodes, c, x), Rank(s.nodes, c, k)) == SumW(s.nodes, x, k)
    decreases k
  {
    hide Under, Moved, Reroot, Rank;
    NodeAt(s, c, x);
    RankNext(s.nodes, c, k);
    if k > 0 {
      SumsBelow(s, c, x, k - 1);
      if Under(s.nodes, k - 1, c) {
        NodeAt(s, c, k - 1);
        ChildKept(s, c, x, k - 1);
        MovedKeeps(s.nodes, c, k - 1);
      } else if s.nodes[k - 1].father == x {
        ChildUnder(s.nodes, k - 1, c);
      }
    }
  }

  lemma RankNext(nodes: seq<Node>, c: int, k: nat)
    requires k <= |nodes|
    ensures Rank(nodes, c, k) == if k == 0 then 0 else Rank(nodes, c, k - 1) + if Under(nodes, k - 1, c) then 1 else 0
  {
    hide Under;
  }

  lemma MovedKeeps(nodes: seq<Node>, c: int, x: int)
    requires 0 <= x < |nodes|
    ensures Moved(nodes, c, x) == nodes[x].(father := Moved(nodes, c, x).father)
  {
  }

  lemma ChildUnder(nodes: seq<Node>, y: int, c: int)
    requires 0 <= y < |nodes| && 0 <= nodes[y].father < y && Under(nodes, nodes[y].father, c)
    ensures Under(nodes, y, c)
  {
  }

  /** The backups at a node of the subtree. */
  lemma {:induction false} TasksKept(s: Search, c: int, x: int, k: nat)
    requires Tree(s) && 0 <= c < |s.nodes| && Under(s.nodes, x, c) && k <= |s.tasks|
    ensures 0 <= x < |s.nodes|
    ensures var ts, i := TasksBelow(s.nodes, s.tasks, c, k), Rank(s.nodes, c, x);
      TasksAt(ts, i, |ts|) == TasksAt(s.tasks, x, k) && ValuesAt(ts, i, |ts|) == ValuesAt(s.tasks, x, k)
    decreases k
  {
    hide Under, Rank, Reroot, Moved, Below1;
    NodeAt(s, c, x);
    if k > 0 {
      TasksKept(s, c, x, k - 1);
      var t, was := s.tasks[k - 1], TasksBelow(s.nodes, s.tasks, c, k - 1);
      if Under(s.nodes, t.at, c) {
        TasksPrefix(was, t.(at := Rank(s.nodes, c, t.at)), Rank(s.nodes, c, x), |was|);
        RankOrder(s.nodes, c, x, t.at);
        RankOrder(s.nodes, c, t.at, x);
      }
    }
  }

  // ------------------------------------------------------------ virtual loss below a node

  /** Within the subtree, being under an edge is kept. */
  lemma {:induction false} UnderKept(s: Search, c: int, x: int, e: int)
    requires Tree(s) && 0 <= c < |s.nodes| && Under(s.nodes, x, c) && Under(s.nodes, e, c)
    ensures 0 <= x < |s.nodes| && 0 <= e < |s.nodes|
    ensures Under(Reroot(s, c).nodes, Rank(s.nodes, c, x), Rank(s.nodes, c, e)) == Under(s.nodes, x, e)
    decreases x
  {
    hide Below1, Reroot, Rank;
    NodeAt(s, c, x);
    NodeAt(s, c, e);
    RankOrder(s.nodes, c, x, e);
    RankOrder(s.nodes, c, e, x);
    UnderLater(s.nodes, e, c);
    if x == c {
      if Under(s.nodes, c, e) { UnderLater(s.nodes, c, e); }
    } else {
      FatherBelow(s.nodes, c, x);
      UnderKept(s, c, s.nodes[x].father, e);
    }
  }

  /** What is under a node of the subtree is in the subtree. */
  lemma {:induction false} UnderWithin(nodes: seq<Node>, x: int, e: int, c: int)
    requires Under(nodes, x, e) && Under(nodes, e, c)
    ensures Under(nodes, x, c)
    decreases x
  {
    if x != e { UnderWithin(nodes, nodes[x].father, e, c); }
  }

  lemma {:induction false} LeavesKept(s: Search, c: int, e: int, k: nat)
    requires Tree(s) && 0 <= c < |s.nodes| && Under(s.nodes, e, c) && k <= |s.nodes|
    ensures 0 <= e < |s.nodes| && Rank(s.nodes, c, k) <= |Reroot(s, c).nodes|
    ensures LeafLoad(Reroot(s, c), Rank(s.nodes, c, e), Rank(s.nodes, c, k)) == LeafLoad(s, e, k)
    decreases k
  {
    hide Under, Moved, Reroot, Rank;
    NodeAt(s, c, e);
    RankNext(s.nodes, c, k);
    if k > 0 {
      LeavesKept(s, c, e, k - 1);
      if Under(s.nodes, k - 1, c) {
        NodeAt(s, c, k - 1);
        UnderKept(s, c, k - 1, e);
        MovedKeeps(s.nodes, c, k - 1);
      } else if Under(s.nodes, k - 1, e) {
        UnderWithin(s.nodes, k - 1, e, c);
      }
    }
  }

  lemma {:induction false} TaskLoadKept(s: Search, c: int, e: int, k: nat)
    requires Tree(s) && 0 <= c < |s.nodes| && Under(s.nodes, e, c) && k <= |s.tasks|
    ensures 0 <= e < |s.nodes|
    ensures var ts := TasksBelow(s.nodes, s.tasks, c, k);
      TaskLoad(Reroot(s, c).nodes, ts, Rank(s.nodes, c, e), |ts|) == TaskLoad(s.nodes, s.tasks, e, k)
    decreases k
  {
    hide Under, Rank, Reroot;
    NodeAt(s, c, e);
    if k > 0 {
      TaskLoadKept(s, c, e, k - 1);
      var t, was := s.tasks[k - 1], TasksBelow(s.nodes, s.tasks, c, k - 1);
      if Under(s.nodes, t.at, c) {
        TaskLoadMore(Reroot(s, c).nodes, was, t.(at := Rank(s.nodes, c, t.at)), Rank(s.nodes, c, e), |was|);
        UnderKept(s, c, t.at, e);
      } else if Under(s.nodes, t.at, e) {
        UnderWithin(s.nodes, t.at, e, c);
      }
    }
  }

  // ------------------------------------------------------------ the search goes on

  lemma CountsBelow(s: Search, c: int)
    requires CountsKept(s) && 0 <= c < |s.nodes|
    ensures CountsKept(Reroot(s, c))
  {
    hide Under, Moved, Reroot, Rank, Tree;
    KeptTree(s);
    RerootTree(s, c);
    var r := Reroot(s, c);
    forall i | 0 <= i < |r.nodes|
      ensures r.nodes[i].total == SumN(r.nodes, i, |r.nodes|)
      ensures i > 0 ==> r.nodes[i].n == SumN(r.nodes, i, |r.nodes|) + r.begun[i] - TasksAt(r.tasks, i, |r.tasks|)
      ensures i > 0 ==> r.nodes[i].w == SumW(r.nodes, i, |r.nodes|) + r.won[i] - ValuesAt(r.tasks, i, |r.tasks|)
    {
      CountsAt(s, c, i);
    }
  }

  lemma CountsAt(s: Search, c: int, i: int)
    requires CountsKept(s) && 0 <= c < |s.nodes|
    ensures Tree(Reroot(s, c))
    ensures var r := Reroot(s, c); 0 <= i < |r.nodes| ==> r.nodes[i].total == SumN(r.nodes, i, |r.nodes|)
    ensures var r := Reroot(s, c); 0 < i < |r.nodes| ==>
      r.nodes[i].n == SumN(r.nodes, i, |r.nodes|) + r.begun[i] - TasksAt(r.tasks, i, |r.tasks|)
    ensures var r := Reroot(s, c); 0 < i < |r.nodes| ==>
      r.nodes[i].w == SumW(r.nodes, i, |r.nodes|) + r.won[i] - ValuesAt(r.tasks, i, |r.tasks|)
  {
    hide Under, Moved, Rank, Tree;
    KeptTree(s);
    RerootTree(s, c);
    if 0 <= i < |Reroot(s, c).nodes| {
      var x := NodeOf(s, c, i);
      NodeAt(s, c, x);
      MovedKeeps(s.nodes, c, x);
      SumsBelow(s, c, x, |s.nodes|);
      TasksKept(s, c, x, |s.tasks|);
      RankAll(s, c);
    }
  }

  lemma RankAll(s: Search, c: int)
    requires |s.begun| == |s.won| == |s.lost| == |s.late| == |s.nodes|
    ensures Rank(s.nodes, c, |s.nodes|) == |Reroot(s, c).nodes|
  {
  }

  lemma LossBelow(s: Search, c: int, vl: int)
    requires LossKept(s, vl) && 0 <= c < |s.nodes|
    ensures LossKept(Reroot(s, c), vl)
  {
    hide Under, Moved, Rank, Load, Reroot;
    RerootTree(s, c);
    var r := Reroot(s, c);
    forall i | 0 <= i < |r.nodes| ensures Fresh(r.nodes[i]) && (i > 0 ==> r.nodes[i].vl == Load(r, i) * vl) {
      var x := NodeOf(s, c, i);
      NodeAt(s, c, x);
      MovedKeeps(s.nodes, c, x);
      LoadKept(s, c, x);
    }
  }

  lemma LoadKept(s: Search, c: int, e: int)
    requires Tree(s) && 0 <= c < |s.nodes| && Under(s.nodes, e, c)
    ensures 0 <= e < |s.nodes| && Load(Reroot(s, c), Rank(s.nodes, c, e)) == Load(s, e)
  {
    hide Under, Rank, Moved;
    UnderLater(s.nodes, e, c);
    LeavesKept(s, c, e, |s.nodes|);
    TaskLoadKept(s, c, e, |s.tasks|);
    RankAll(s, c);
  }

  predicate AllBounded(ts: seq<Task>) { forall i :: 0 <= i < |ts| ==> Bounded(ts[i].z) }

  lemma {:induction false} BoundedBelow(s: Search, c: int, k: nat)
    requires k <= |s.tasks| && forall i :: 0 <= i < |s.tasks| ==> Bounded(s.tasks[i].z)
    ensures AllBounded(TasksBelow(s.nodes, s.tasks, c, k))
    decreases k
  {
    hide Under, Rank;
    if k > 0 { BoundedBelow(s, c, k - 1); }
  }

  lemma ValuesBelow(s: Search, c: int)
    requires Tree(s) && ValuesKept(s) && 0 <= c < |s.nodes|
    ensures ValuesKept(Reroot(s, c))
  {
    hide Under, Rank, Moved;
    BoundedBelow(s, c, |s.tasks|);
    var r := Reroot(s, c);
    forall i | 0 <= i < |r.nodes|
      ensures r.nodes[i].n >= 0 && -(r.nodes[i].n as real) <= r.nodes[i].w <= r.nodes[i].n as real
    {
      var x := NodeOf(s, c, i);
      NodeAt(s, c, x);
      MovedKeeps(s.nodes, c, x);
    }
  }

  /** The node x of s is in the new search, at its rank, with all it had but its father. */
  ghost predicate Carried(s: Search, c: int, x: int, r: Search) {
    0 <= x < |s.nodes| && Rank(s.nodes, c, x) < |r.nodes|
    && var v := r.nodes[Rank(s.nodes, c, x)]; v == s.nodes[x].(father := v.father)
  }

  /** After a move the search goes on below c. Every node there keeps its statistics, and they stay
      conserved, with what is still outstanding there. */
  lemma SubtreeConserved(s: Search, c: int, vl: int)
    requires Conserved(s, vl) && 0 <= c < |s.nodes|
    ensures Tree(s) && Conserved(Reroot(s, c), vl)
    ensures Rank(s.nodes, c, c) == 0 && forall x :: Under(s.nodes, x, c) ==> Carried(s, c, x, Reroot(s, c))
    ensures |Reroot(s, c).nodes| == Rank(s.nodes, c, |s.nodes|)
  {
    hide Under, Rank, Moved, Reroot, CountsKept, LossKept, ValuesKept;
    KeptTree(s);
    CountsBelow(s, c);
    LossBelow(s, c, vl);
    ValuesBelow(s, c);
    RankAll(s, c);
    UnderSelf(s.nodes, c);
    NodeAt(s, c, c);
    forall x | Under(s.nodes, x, c) ensures Carried(s, c, x, Reroot(s, c)) {
      NodeAt(s, c, x);
      MovedKeeps(s.nodes, c, x);
    }
  }
}
