/**
 The centralized scheduler for immediate execution (CentralizedIBP in src/oldsim/CentralizedScheduler.cpp):
 every task goes to an idle node of its own, among those that have the least to spare.
 */
module CentralizedIBP {
  import opened CentralizedQueue

  datatype NodeAvail = NodeAvail(n: nat, a: nat)

  /**
   What is known of the nodes: which can run the tasks, what they would have to spare, and how long a task takes there.
   */
  datatype Nodes = Nodes(suitable: seq<bool>, spare: seq<nat>, taskTime: seq<nat>)

  predicate GoodNodes(nodes: Nodes, count: nat) {
    |nodes.suitable| == count && |nodes.spare| == count && |nodes.taskTime| == count
  }

  /** The node can run a task at once. */
  predicate Usable(queues: seq<seq<TaskDesc>>, nodes: Nodes, n: nat)
    requires GoodNodes(nodes, |queues|)
  {
    n < |queues| && nodes.suitable[n] && queues[n] == []
  }

  function NumUsable(queues: seq<seq<TaskDesc>>, nodes: Nodes, upto: nat): nat
    requires GoodNodes(nodes, |queues|)
  {
    if upto == 0 then 0 else NumUsable(queues, nodes, upto - 1) + if Usable(queues, nodes, upto - 1) then 1 else 0
  }

  predicate Holds(chosen: seq<NodeAvail>, n: nat) {
    exists i :: 0 <= i < |chosen| && chosen[i].n == n
  }

  /** Different usable nodes among the first ones, and none that was passed over has less to spare. */
  ghost predicate LeastSpare(queues: seq<seq<TaskDesc>>, nodes: Nodes, chosen: seq<NodeAvail>, upto: nat)
    requires GoodNodes(nodes, |queues|)
  {
    && (forall i | 0 <= i < |chosen| ::
          chosen[i].n < upto && Usable(queues, nodes, chosen[i].n) && chosen[i].a == nodes.spare[chosen[i].n])
    && (forall i, j | 0 <= i < j < |chosen| :: chosen[i].n != chosen[j].n)
    && (forall m, i | 0 <= m < upto && Usable(queues, nodes, m) && !Holds(chosen, m) && 0 <= i < |chosen| ::
          chosen[i].a <= nodes.spare[m])
  }

  /** The front of the heap: nobody has more to spare. */
  predicate IsTop(heap: seq<NodeAvail>, i: nat) {
    i < |heap| && forall j | 0 <= j < |heap| :: heap[j].a <= heap[i].a
  }

  method Top(heap: seq<NodeAvail>) returns (i: nat)
    requires heap != []
    ensures IsTop(heap, i)
  {
    i := 0;
    for k := 1 to |heap|
      invariant i < k && forall j | 0 <= j < k :: heap[j].a <= heap[i].a
    {
      if heap[k].a > heap[i].a { i := k; }
    }
  }

  lemma PushOne(queues: seq<seq<TaskDesc>>, nodes: Nodes, chosen: seq<NodeAvail>, n: nat)
    requires GoodNodes(nodes, |queues|) && LeastSpare(queues, nodes, chosen, n) && Usable(queues, nodes, n)
    requires |chosen| == NumUsable(queues, nodes, n)
    requires forall m | 0 <= m < n && Usable(queues, nodes, m) :: Holds(chosen, m)
    ensures
      var chosen' := chosen + [NodeAvail(n, nodes.spare[n])];
      LeastSpare(queues, nodes, chosen', n + 1) && forall m | 0 <= m <= n && Usable(queues, nodes, m) ::
        Holds(chosen', m)
  {
    var chosen' := chosen + [NodeAvail(n, nodes.spare[n])];
    forall m | 0 <= m <= n && Usable(queues, nodes, m) ensures Holds(chosen', m) {
      if m == n {
        assert chosen'[|chosen|].n == n;
      } else {
        assert Holds(chosen, m);
        var i :| 0 <= i < |chosen| && chosen[i].n == m;
        assert chosen'[i].n == m;
      }
    }
  }

  lemma StillHeld(chosen: seq<NodeAvail>, top: nat, x: NodeAvail, m: nat)
    requires top < |chosen| && Holds(chosen, m)
    ensures Holds(chosen[top := x], m) || chosen[top].n == m
  {
    var k :| 0 <= k < |chosen| && chosen[k].n == m;
    assert k == top || chosen[top := x][k].n == m;
  }

  /** A node with less to spare than the one at the front takes its place. */
  lemma ReplaceTop(queues: seq<seq<TaskDesc>>, nodes: Nodes, chosen: seq<NodeAvail>, n: nat, top: nat)
    requires GoodNodes(nodes, |queues|) && LeastSpare(queues, nodes, chosen, n) && Usable(queues, nodes, n)
    requires IsTop(chosen, top) && chosen[top].a > nodes.spare[n]
    ensures LeastSpare(queues, nodes, chosen[top := NodeAvail(n, nodes.spare[n])], n + 1)
  {
    var chosen' := chosen[top := NodeAvail(n, nodes.spare[n])];
    forall m, i | 0 <= m <= n && Usable(queues, nodes, m) && !Holds(chosen', m) && 0 <= i < |chosen'|
      ensures chosen'[i].a <= nodes.spare[m]
    {
      assert chosen'[top].n == n;
      assert chosen'[i].a <= chosen[top].a;
      if Holds(chosen, m) { StillHeld(chosen, top, NodeAvail(n, nodes.spare[n]), m); }
    }
  }

  lemma KeepTop(queues: seq<seq<TaskDesc>>, nodes: Nodes, chosen: seq<NodeAvail>, n: nat, top: nat)
    requires GoodNodes(nodes, |queues|) && LeastSpare(queues, nodes, chosen, n) && n < |queues|
    requires Usable(queues, nodes, n) ==> IsTop(chosen, top) && chosen[top].a <= nodes.spare[n]
    ensures LeastSpare(queues, nodes, chosen, n + 1)
  {
  }

  class CentralizedIBP {
    var queues: seq<seq<TaskDesc>>

    constructor (count: nat)
      ensures queues == seq(count, _ => [])
    {
      queues := seq(count, _ => []);
    }

    /** The usable nodes with the least to spare: as many as there are tasks, or all of them. */
    method Select(nodes: Nodes, numTasks: nat) returns (usableNodes: seq<NodeAvail>)
      requires GoodNodes(nodes, |queues|) && numTasks > 0
      ensures LeastSpare(queues, nodes, usableNodes, |queues|)
      ensures var all := NumUsable(queues, nodes, |queues|); |usableNodes| == if all < numTasks then all else numTasks
    {
      usableNodes := [];
      for n := 0 to |queues|
        invariant LeastSpare(queues, nodes, usableNodes, n)
        invariant |usableNodes| == if NumUsable(queues, nodes, n) < numTasks
            then NumUsable(queues, nodes, n) else numTasks
        invariant |usableNodes| < numTasks ==>
            forall m | 0 <= m < n && Usable(queues, nodes, m) :: Holds(usableNodes, m)
      {
        if nodes.suitable[n] && queues[n] == [] {
          if |usableNodes| < numTasks {
            PushOne(queues, nodes, usableNodes, n);
            usableNodes := usableNodes + [NodeAvail(n, nodes.spare[n])];
          } else {
            var top := Top(usableNodes);
            if usableNodes[top].a > nodes.spare[n] {
              ReplaceTop(queues, nodes, usableNodes, n, top);
              usableNodes := usableNodes[top := NodeAvail(n, nodes.spare[n])];
            } else {
              KeepTop(queues, nodes, usableNodes, n, top);
            }
          }
        } else {
          KeepTop(queues, nodes, usableNodes, n, 0);
        }
      }
    }

    /**
     Each of the chosen nodes, which are idle, gets one task; the tasks are numbered in any order of the nodes. The
     nodes that are passed over keep their queues, and have at least as much to spare.
     */
    method NewApp(nodes: Nodes, request: int, numTasks: nat, now: int) returns (chosen: seq<NodeAvail>)
      requires GoodNodes(nodes, |queues|) && numTasks > 0
      modifies this
      ensures LeastSpare(old(queues), nodes, chosen, |old(queues)|) && |queues| == |old(queues)|
      ensures var all := NumUsable(old(queues), nodes, |old(queues)|);
              |chosen| == if all < numTasks then all else numTasks
      ensures forall i | 0 <= i < |chosen| ::
                old(queues)[chosen[i].n] == []
                && queues[chosen[i].n] == [TaskDesc(request, i + 1, now, nodes.taskTime[chosen[i].n])]
      ensures forall n | 0 <= n < |queues| && !Holds(chosen, n) :: queues[n] == old(queues)[n]
    {
      chosen := Select(nodes, numTasks);
      var i := 0;
      while i < |chosen|
        invariant i <= |chosen| && Handed(nodes, request, now, chosen, old(queues), queues, i)
      {
        var node := chosen[i].n;
        var sorted := SortQueue(queues[node] + [TaskDesc(request, i + 1, now, nodes.taskTime[node])]);
        SortOne(TaskDesc(request, i + 1, now, nodes.taskTime[node]));
        HandsOneMore(nodes, request, now, chosen, old(queues), queues, i);
        queues := queues[node := sorted];
        i := i + 1;
      }
    }
  }

  /** The first `i` of the chosen nodes have got their tasks. */
  ghost predicate Handed(nodes: Nodes, request: int, now: int, chosen: seq<NodeAvail>, was: seq<seq<TaskDesc>>,
                         queues: seq<seq<TaskDesc>>, i: nat)
    requires GoodNodes(nodes, |was|)
  {
    && i <= |chosen| && |queues| == |was| && (forall k | 0 <= k < |chosen| :: chosen[k].n < |was|)
    && (forall k | 0 <= k < i ::
          queues[chosen[k].n] == [TaskDesc(request, k + 1, now, nodes.taskTime[chosen[k].n])])
    && (forall k | i <= k < |chosen| :: queues[chosen[k].n] == [])
    && (forall n | 0 <= n < |was| && !Holds(chosen, n) :: queues[n] == was[n])
  }

  lemma HandsOneMore(nodes: Nodes, request: int, now: int, chosen: seq<NodeAvail>, was: seq<seq<TaskDesc>>,
                     queues: seq<seq<TaskDesc>>, i: nat)
    requires GoodNodes(nodes, |was|) && i < |chosen| && Handed(nodes, request, now, chosen, was, queues, i)
    requires forall j, k | 0 <= j < k < |chosen| :: chosen[j].n != chosen[k].n
    ensures
      var queues' := queues[chosen[i].n := [TaskDesc(request, i + 1, now, nodes.taskTime[chosen[i].n])]];
      Handed(nodes, request, now, chosen, was, queues', i + 1)
  {
    assert Holds(chosen, chosen[i].n);
  }

  lemma SortOne(x: TaskDesc)
    ensures Sort([] + [x]) == [x]
  {
    assert [] + [x] == [x] && [x][1..] == [];
  }
}
