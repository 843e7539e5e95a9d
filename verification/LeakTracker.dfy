/**
 LeakTracker (components/io_thread/leak_tracker.h): every tracked object links
 itself into a circular doubly linked list with a sentinel and unlinks itself when
 destroyed, in any order.
 */
module LeakTracker {
  /** A list node, or the sentinel. `stack` stands for the allocation stack. */
  class Node {
    var previous: Node?
    var next: Node?
    const stack: int

    constructor (stack: int)
      ensures this.stack == stack && previous == null && next == null
    {
      this.stack := stack;
      previous, next := null, null;
    }
  }

  datatype Op = New(node: Node) | Delete(node: Node)

  function Without(s: seq<Node>, x: Node): seq<Node> {
    if s == [] then [] else if s[0] == x then s[1..] else [s[0]] + Without(s[1..], x)
  }

  /** The trackers alive after a history, oldest first. */
  function Live(ops: seq<Op>): seq<Node> {
    if ops == [] then []
    else
      var before, op := Live(ops[..|ops| - 1]), ops[|ops| - 1];
      if op.New? then before + [op.node] else Without(before, op.node)
  }

  /** Objects are constructed once and destroyed while alive. */
  ghost predicate LegalHistory(ops: seq<Op>) {
    forall i :: 0 <= i < |ops| ==> (if ops[i].New? then ops[i].node !in Live(ops[..i]) else ops[i].node in Live(ops[..i]))
  }

  function Constructions(ops: seq<Op>): nat {
    if ops == [] then 0 else Constructions(ops[..|ops| - 1]) + if ops[|ops| - 1].New? then 1 else 0
  }

  function Destructions(ops: seq<Op>): nat {
    if ops == [] then 0 else Destructions(ops[..|ops| - 1]) + if ops[|ops| - 1].Delete? then 1 else 0
  }

  function Position(s: seq<Node>, x: Node): (k: nat)
    requires x in s
    ensures k < |s| && s[k] == x && forall i :: 0 <= i < k ==> s[i] != x
  {
    if s[0] == x then 0 else 1 + Position(s[1..], x)
  }

  lemma {:induction false} WithoutAt(s: seq<Node>, k: nat)
    requires k < |s| && forall i :: 0 <= i < k ==> s[i] != s[k]
    ensures Without(s, s[k]) == s[..k] + s[k + 1..]
  {
    if k > 0 {
      WithoutAt(s[1..], k - 1);
      assert s[..k] == [s[0]] + s[1..][..k - 1];
      assert s[1..][k..] == s[k + 1..];
    }
  }

  /** For every order of creating and destroying, the number alive is the difference. */
  lemma {:induction false} LiveCount(ops: seq<Op>)
    requires LegalHistory(ops)
    ensures |Live(ops)| == Constructions(ops) - Destructions(ops)
    ensures forall i, j :: 0 <= i < j < |Live(ops)| ==> Live(ops)[i] != Live(ops)[j]
  {
    if ops != [] {
      var front, op := ops[..|ops| - 1], ops[|ops| - 1];
      assert forall i :: 0 <= i < |front| ==> front[..i] == ops[..i];
      LiveCount(front);
      assert front == ops[..|front|];
      if op.Delete? {
        var k :| 0 <= k < |Live(front)| && Live(front)[k] == op.node;
        WithoutAt(Live(front), k);
      }
    }
  }

  lemma HistoryStep(ops: seq<Op>, op: Op)
    requires LegalHistory(ops)
    requires if op.New? then op.node !in Live(ops) else op.node in Live(ops)
    ensures LegalHistory(ops + [op])
    ensures Live(ops + [op]) == if op.New? then Live(ops) + [op.node] else Without(Live(ops), op.node)
  {
    var all := ops + [op];
    assert all[..|ops|] == ops;
    assert forall i :: 0 <= i < |ops| ==> all[..i] == ops[..i];
  }

  /** The per-type list, with its history. */
  class Instances {
    const root: Node
    ghost var nodes: seq<Node>
    ghost var history: seq<Op>

    /** Once round the list, from the sentinel back to it. */
    ghost function Round(s: seq<Node>): seq<Node> {
      [root] + s + [root]
    }

    /** Neighbours point at each other all the way round. */
    ghost predicate Linked(path: seq<Node>)
      reads path
    {
      && (forall i :: 0 <= i < |path| - 1 ==> path[i].next == path[i + 1])
      && (forall i :: 0 < i < |path| ==> path[i].previous == path[i - 1])
    }

    /** The sentinel and the nodes are all different objects. */
    ghost predicate Separate(s: seq<Node>) {
      && root !in s
      && forall i, j :: 0 <= i < j < |s| ==> s[i] != s[j]
    }

    ghost predicate Valid()
      reads this, root, nodes
    {
      && Separate(nodes) && Linked(Round(nodes))
      && LegalHistory(history) && nodes == Live(history)
    }

    constructor ()
      ensures Valid() && fresh(root) && nodes == [] && history == []
    {
      root := new Node(0);
      nodes, history := [], [];
      new;
      root.next, root.previous := root, root;
    }

    /** LinkNode::InsertBefore(&root_). */
    method InsertBeforeRoot(t: Node)
      requires Separate(nodes) && Linked(Round(nodes)) && t != root && t !in nodes
      modifies root, nodes, t
      ensures Linked(Round(nodes + [t]))
    {
      ghost var path, longer := Round(nodes), Round(nodes + [t]);
      ghost var n := |nodes|;
      assert path[n + 1] == root && path[n + 1].previous == path[n];
      assert forall i :: 0 <= i <= n ==> longer[i] == path[i];
      assert longer[n + 1] == t && longer[n + 2] == root;
      t.next := root;
      t.previous := root.previous;
      root.previous.next := t;
      root.previous := t;
    }

    /** A tracker is constructed: it goes to the end of the list. */
    method Construct(stack: int) returns (t: Node)
      requires Valid()
      modifies this, root, nodes
      ensures Valid() && fresh(t) && t.stack == stack
      ensures nodes == old(nodes) + [t] && history == old(history) + [New(t)]
    {
      t := new Node(stack);
      InsertBeforeRoot(t);
      HistoryStep(history, New(t));
      history := history + [New(t)];
      nodes := nodes + [t];
    }

    /** LinkNode::RemoveFromList on the k-th node. */
    method RemoveFromList(t: Node, ghost k: nat)
      requires Separate(nodes) && Linked(Round(nodes)) && k < |nodes| && nodes[k] == t
      modifies root, nodes
      ensures Linked(Round(nodes[..k] + nodes[k + 1..])) && t.next == null && t.previous == null
      ensures Separate(nodes[..k] + nodes[k + 1..])
    {
      ghost var path, shorter := Round(nodes), Round(nodes[..k] + nodes[k + 1..]);
      assert path[k + 1] == t && path[k + 1].previous == path[k] && path[k + 1].next == path[k + 2];
      assert forall i :: 0 <= i < |shorter| ==> shorter[i] == path[if i <= k then i else i + 1];
      assert forall i, j :: 0 <= i < j < |path| - 1 ==> path[i] != path[j];
      assert forall i, j :: 0 < i < j < |path| ==> path[i] != path[j];
      t.previous.next := t.next;
      t.next.previous := t.previous;
      t.next := null;
      t.previous := null;
    }

    /** A tracker is destroyed: it leaves the list from wherever it stands. */
    method Destruct(t: Node)
      requires Valid() && t in nodes
      modifies this, root, nodes
      ensures Valid() && t.next == null && t.previous == null
      ensures nodes == Without(old(nodes), t) && history == old(history) + [Delete(t)]
    {
      ghost var k := Position(nodes, t);
      RemoveFromList(t, k);
      WithoutAt(nodes, k);
      HistoryStep(history, Delete(t));
      history := history + [Delete(t)];
      nodes := nodes[..k] + nodes[k + 1..];
    }

    /** The walk visits every live tracker once and comes back to the sentinel. */
    method NumLiveInstances() returns (count: nat)
      requires Valid()
      ensures count == |nodes| && count == Constructions(history) - Destructions(history)
    {
      count := 0;
      assert Round(nodes)[0] == root;
      var node := root.next;
      while node != root
        invariant 0 <= count <= |nodes|
        invariant node == Round(nodes)[count + 1]
        decreases |nodes| - count
      {
        node := node.next;
        count := count + 1;
      }
      LiveCount(history);
    }

    /** The check passes exactly when nothing is alive; the first three allocation
        stacks are copied out in list order. */
    method CheckForLeaks() returns (passes: bool, copied: seq<int>)
      requires Valid()
      ensures passes <==> nodes == []
      ensures |copied| == (if |nodes| < 3 then |nodes| else 3)
      ensures forall i :: 0 <= i < |copied| ==> copied[i] == nodes[i].stack
    {
      var count := 0;
      copied := [];
      assert Round(nodes)[0] == root;
      var node := root.next;
      while node != root
        invariant 0 <= count <= |nodes|
        invariant node == Round(nodes)[count + 1]
        invariant |copied| == if count < 3 then count else 3
        invariant forall i :: 0 <= i < |copied| ==> copied[i] == nodes[i].stack
        decreases |nodes| - count
      {
        if count < 3 {
          copied := copied + [node.stack];
        }
        count := count + 1;
        node := node.next;
      }
      passes := count == 0;
    }
  }
}
