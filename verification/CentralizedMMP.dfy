/**
 The centralized makespan policy (`CentralizedMMP` in src/oldsim/CentralizedScheduler.cpp): each task
 of a bag goes to the node where it would end first.
 */
module CentralizedMMP {
  import opened CentralizedQueue

  /**
   What is known of the nodes: when their queues end, which of them can run the tasks, and how long a task takes there.
   */
  datatype Nodes = Nodes(ends: seq<int>, suitable: seq<bool>, taskTime: seq<nat>)

  predicate GoodNodes(nodes: Nodes) {
    |nodes.suitable| == |nodes.ends| && |nodes.taskTime| == |nodes.ends|
  }

  /** When the queue of node `n` ends with `k` more tasks. */
  function Ends(nodes: Nodes, now: int, n: nat, k: nat): int
    requires GoodNodes(nodes) && n < |nodes.ends|
  {
    (if nodes.ends[n] < now then now else nodes.ends[n]) + k * nodes.taskTime[n]
  }

  /** Some way to give `total` tasks to the suitable nodes. */
  predicate Allocation(nodes: Nodes, given: seq<nat>, total: nat)
    requires GoodNodes(nodes)
  {
    && |given| == |nodes.ends| && Total(given) == total
    && forall n | 0 <= n < |given| && given[n] > 0 :: nodes.suitable[n]
  }

  /** Every queue that gets tasks ends by `t`. */
  predicate DoneBy(nodes: Nodes, now: int, given: seq<nat>, t: int)
    requires GoodNodes(nodes) && |given| == |nodes.ends|
  {
    forall n | 0 <= n < |given| && given[n] > 0 :: Ends(nodes, now, n, given[n]) <= t
  }

  /** No queue that gets tasks ends later than it would if some suitable node took one task more. */
  predicate Balanced(nodes: Nodes, now: int, given: seq<nat>)
    requires GoodNodes(nodes) && |given| == |nodes.ends|
  {
    forall n, m | 0 <= n < |given| && given[n] > 0 && 0 <= m < |given| && nodes.suitable[m] ::
      Ends(nodes, now, n, given[n]) <= Ends(nodes, now, m, given[m] + 1)
  }

  lemma EndsGrows(nodes: Nodes, now: int, n: nat, k: nat, l: nat)
    requires GoodNodes(nodes) && n < |nodes.ends| && k <= l
    ensures Ends(nodes, now, n, k) <= Ends(nodes, now, n, l)
    ensures Ends(nodes, now, n, k + 1) == Ends(nodes, now, n, k) + nodes.taskTime[n]
  {
    var t := nodes.taskTime[n];
    assert l * t == k * t + (l - k) * t;
    assert (k + 1) * t == k * t + t;
  }

  /** Two different ways to give the same number of tasks: one of them gives some node more. */
  lemma {:induction false} SomeNodeGetsMore(a: seq<nat>, b: seq<nat>) returns (n: nat)
    requires |a| == |b| && a != b && Total(a) <= Total(b)
    ensures n < |a| && a[n] < b[n]
  {
    if a[0] < b[0] {
      n := 0;
    } else {
      assert a == [a[0]] + a[1..] && b == [b[0]] + b[1..];
      var k := SomeNodeGetsMore(a[1..], b[1..]);
      n := k + 1;
    }
  }

  /** A balanced allocation ends by any time by which another one of as many tasks does. */
  lemma BalancedIsOptimal(nodes: Nodes, now: int, given: seq<nat>, other: seq<nat>, total: nat, t: int)
    requires GoodNodes(nodes) && Allocation(nodes, given, total) && Balanced(nodes, now, given)
    requires Allocation(nodes, other, total) && DoneBy(nodes, now, other, t)
    ensures DoneBy(nodes, now, given, t)
  {
    if given != other {
      var m := SomeNodeGetsMore(given, other);
      EndsGrows(nodes, now, m, given[m] + 1, other[m]);
    }
  }

  lemma BalancedAddsOne(nodes: Nodes, now: int, given: seq<nat>, b: nat)
    requires GoodNodes(nodes) && |given| == |nodes.ends| && Balanced(nodes, now, given) && b < |given|
    requires forall m | 0 <= m < |given| && nodes.suitable[m] ::
        Ends(nodes, now, b, given[b] + 1) <= Ends(nodes, now, m, given[m] + 1)
    ensures Balanced(nodes, now, given[b := given[b] + 1])
  {
    var more := given[b := given[b] + 1];
    EndsGrows(nodes, now, b, given[b] + 1, given[b] + 2);
    forall n, m | 0 <= n < |more| && more[n] > 0 && 0 <= m < |more| && nodes.suitable[m]
      ensures Ends(nodes, now, n, more[n]) <= Ends(nodes, now, m, more[m] + 1)
    {
      assert Ends(nodes, now, m, given[m] + 1) <= Ends(nodes, now, m, more[m] + 1);
    }
  }

  /** A node and when its queue would end with one task more. */
  datatype QueueTime = QueueTime(node: nat, qTime: int)

  /** Brings an entry that ends first to the back of the heap. */
  method PopHeap(cache: seq<QueueTime>) returns (cache': seq<QueueTime>)
    requires cache != []
    ensures |cache'| == |cache| && (forall q :: q in cache' <==> q in cache)
    ensures forall q | q in cache :: cache'[|cache'| - 1].qTime <= q.qTime
    ensures Distinct(cache) ==> Distinct(cache')
  {
    var i := 0;
    for k := 1 to |cache|
      invariant 0 <= i < k && forall j | 0 <= j < k :: cache[i].qTime <= cache[j].qTime
    {
      if cache[k].qTime < cache[i].qTime { i := k; }
    }
    cache' := ToBack(cache, i);
    ToBackSame(cache, i);
  }

  function ToBack(cache: seq<QueueTime>, i: nat): (cache': seq<QueueTime>)
    requires i < |cache|
  {
    cache[..i] + cache[i + 1..] + [cache[i]]
  }

  lemma ToBackSame(cache: seq<QueueTime>, i: nat)
    requires i < |cache|
    ensures forall q :: q in ToBack(cache, i) <==> q in cache
    ensures Distinct(cache) ==> Distinct(ToBack(cache, i))
  {
    var cache' := ToBack(cache, i);
    forall j | 0 <= j < |cache| ensures cache'[j] ==
      (if j < i then cache[j] else if j < |cache| - 1 then cache[j + 1] else cache[i]) {}
    forall q | q in cache ensures q in cache' {
      var j :| 0 <= j < |cache| && cache[j] == q;
      assert cache'[if j < i then j else if j == i then |cache| - 1 else j - 1] == q;
    }
  }

  predicate Distinct(cache: seq<QueueTime>) {
    forall i, j | 0 <= i < j < |cache| :: cache[i].node != cache[j].node
  }

  /** The heap has every suitable node, with the time at which its queue would end with one task more. */
  predicate Candidates(nodes: Nodes, now: int, given: seq<nat>, cache: seq<QueueTime>)
    requires GoodNodes(nodes) && |given| == |nodes.ends|
  {
    && Distinct(cache)
    && (forall q | q in cache ::
       q.node < |given| && nodes.suitable[q.node] && q.qTime == Ends(nodes, now, q.node, given[q.node] + 1))
    && (forall n | 0 <= n < |given| && nodes.suitable[n] :: QueueTime(n, Ends(nodes, now, n, given[n] + 1)) in cache)
  }

  method FirstCandidates(nodes: Nodes, now: int) returns (cache: seq<QueueTime>)
    requires GoodNodes(nodes)
    ensures Candidates(nodes, now, seq(|nodes.ends|, _ => 0), cache)
  {
    cache := [];
    ghost var none := seq(|nodes.ends|, _ => 0);
    for n := 0 to |nodes.ends|
      invariant Distinct(cache)
      invariant forall q | q in cache :: q.node < n && nodes.suitable[q.node] && q.qTime == Ends(nodes, now, q.node, 1)
      invariant forall m | 0 <= m < n && nodes.suitable[m] :: QueueTime(m, Ends(nodes, now, m, 1)) in cache
    {
      if nodes.suitable[n] {
        var qTime := if nodes.ends[n] < now then now else nodes.ends[n];
        cache := cache + [QueueTime(n, qTime + nodes.taskTime[n])];
      }
    }
  }

  lemma NextCandidates(nodes: Nodes, now: int, given: seq<nat>, cache: seq<QueueTime>)
    requires GoodNodes(nodes) && |given| == |nodes.ends| && cache != [] && Candidates(nodes, now, given, cache)
    ensures
      var best := cache[|cache| - 1];
      && best.node < |given|
      && Candidates(nodes, now, given[best.node := given[best.node] + 1],
                    cache[|cache| - 1 := QueueTime(best.node, best.qTime + nodes.taskTime[best.node])])
  {
    var best, last := cache[|cache| - 1], |cache| - 1;
    assert best in cache;
    EndsGrows(nodes, now, best.node, given[best.node] + 1, given[best.node] + 2);
    var given', cache' := given[best.node := given[best.node] + 1],
      cache[last := QueueTime(best.node, best.qTime + nodes.taskTime[best.node])];
    forall i | 0 <= i < |cache'|
      ensures cache'[i].node < |given'| && nodes.suitable[cache'[i].node]
      ensures cache'[i].qTime == Ends(nodes, now, cache'[i].node, given'[cache'[i].node] + 1)
    {
      if i < last { assert cache[i] in cache && cache[i].node != best.node; }
    }
    forall n | 0 <= n < |given'| && nodes.suitable[n]
      ensures QueueTime(n, Ends(nodes, now, n, given'[n] + 1)) in cache' {
      StillCandidate(nodes, now, given, cache, n);
    }
  }

  lemma StillCandidate(nodes: Nodes, now: int, given: seq<nat>, cache: seq<QueueTime>, n: nat)
    requires GoodNodes(nodes) && |given| == |nodes.ends| && cache != [] && Candidates(nodes, now, given, cache)
    requires n < |given| && nodes.suitable[n]
    ensures
      var best := cache[|cache| - 1];
      && best.node < |given|
      && QueueTime(n, Ends(nodes, now, n, given[best.node := given[best.node] + 1][n] + 1))
         in cache[|cache| - 1 := QueueTime(best.node, best.qTime + nodes.taskTime[best.node])]
  {
    var best, last := cache[|cache| - 1], |cache| - 1;
    assert best in cache;
    EndsGrows(nodes, now, best.node, given[best.node] + 1, given[best.node] + 2);
    var cache' := cache[last := QueueTime(best.node, best.qTime + nodes.taskTime[best.node])];
    if n == best.node {
      assert cache'[last] in cache';
    } else {
      var i :| 0 <= i < |cache| && cache[i] == QueueTime(n, Ends(nodes, now, n, given[n] + 1));
      assert cache'[i] in cache';
    }
  }

  /** `i` tasks have been given, and the heap is up to date. */
  predicate Given(nodes: Nodes, now: int, given: seq<nat>, i: nat, heap: seq<QueueTime>)
    requires GoodNodes(nodes)
  {
    Allocation(nodes, given, i) && Balanced(nodes, now, given) && Candidates(nodes, now, given, heap)
  }

  lemma SameCandidates(nodes: Nodes, now: int, given: seq<nat>, heap: seq<QueueTime>, heap': seq<QueueTime>)
    requires GoodNodes(nodes) && |given| == |nodes.ends| && Candidates(nodes, now, given, heap)
    requires Distinct(heap') && forall q :: q in heap' <==> q in heap
    ensures Candidates(nodes, now, given, heap')
  {
  }

  lemma OneMoreGiven(nodes: Nodes, now: int, given: seq<nat>, i: nat, heap: seq<QueueTime>)
    requires GoodNodes(nodes) && heap != [] && Given(nodes, now, given, i, heap)
    requires forall q | q in heap :: heap[|heap| - 1].qTime <= q.qTime
    ensures
      var best := heap[|heap| - 1];
      && best.node < |given| && best.node < |nodes.taskTime|
      && Given(nodes, now, given[best.node := given[best.node] + 1], i + 1,
               heap[|heap| - 1 := QueueTime(best.node, best.qTime + nodes.taskTime[best.node])])
  {
    var best := heap[|heap| - 1];
    BestIsFirst(nodes, now, given, heap);
    BalancedAddsOne(nodes, now, given, best.node);
    NextCandidates(nodes, now, given, heap);
    TotalUpdate(given, best.node, given[best.node] + 1);
  }

  /** Gives the tasks one by one to the node where they end first: no other way to give them ends sooner. */
  method Allocate(nodes: Nodes, now: int, numTasks: nat, cache: seq<QueueTime>) returns (given: seq<nat>)
    requires GoodNodes(nodes) && cache != [] && Candidates(nodes, now, seq(|nodes.ends|, _ => 0), cache)
    ensures Allocation(nodes, given, numTasks)
    ensures forall other, t ::
        Allocation(nodes, other, numTasks) && DoneBy(nodes, now, other, t) ==> DoneBy(nodes, now, given, t)
  {
    var heap := cache;
    given := seq(|nodes.ends|, _ => 0);
    NothingGiven(nodes, now, given, cache);
    for i := 0 to numTasks
      invariant heap != [] && Given(nodes, now, given, i, heap)
    {
      given, heap := GiveOne(nodes, now, given, i, heap);
    }
    NoneEndsSooner(nodes, now, given, numTasks);
  }

  lemma NothingGiven(nodes: Nodes, now: int, given: seq<nat>, heap: seq<QueueTime>)
    requires GoodNodes(nodes) && |given| == |nodes.ends| && Candidates(nodes, now, given, heap)
    requires forall n | 0 <= n < |given| :: given[n] == 0
    ensures Given(nodes, now, given, 0, heap)
  {
    TotalZero(given);
  }

  method GiveOne(nodes: Nodes, now: int, given: seq<nat>, ghost i: nat, heap: seq<QueueTime>)
    returns (given': seq<nat>, heap': seq<QueueTime>)
    requires GoodNodes(nodes) && heap != [] && Given(nodes, now, given, i, heap)
    ensures heap' != [] && Given(nodes, now, given', i + 1, heap')
  {
    var popped := PopHeap(heap);
    SameCandidates(nodes, now, given, heap, popped);
    OneMoreGiven(nodes, now, given, i, popped);
    var best := popped[|popped| - 1];
    given' := given[best.node := given[best.node] + 1];
    heap' := popped[|popped| - 1 := QueueTime(best.node, best.qTime + nodes.taskTime[best.node])];
  }

  lemma NoneEndsSooner(nodes: Nodes, now: int, given: seq<nat>, total: nat)
    requires GoodNodes(nodes) && Allocation(nodes, given, total) && Balanced(nodes, now, given)
    ensures forall other, t ::
        Allocation(nodes, other, total) && DoneBy(nodes, now, other, t) ==> DoneBy(nodes, now, given, t)
  {
    forall other, t | Allocation(nodes, other, total) && DoneBy(nodes, now, other, t)
      ensures DoneBy(nodes, now, given, t) {
      BalancedIsOptimal(nodes, now, given, other, total, t);
    }
  }

  lemma BestIsFirst(nodes: Nodes, now: int, given: seq<nat>, heap: seq<QueueTime>)
    requires GoodNodes(nodes) && |given| == |nodes.ends| && heap != [] && Candidates(nodes, now, given, heap)
    requires forall q | q in heap :: heap[|heap| - 1].qTime <= q.qTime
    ensures
      var b := heap[|heap| - 1].node;
      && b < |given| && nodes.suitable[b]
      && forall m | 0 <= m < |given| && nodes.suitable[m] ::
         Ends(nodes, now, b, given[b] + 1) <= Ends(nodes, now, m, given[m] + 1)
  {
    var best := heap[|heap| - 1];
    assert best in heap;
  }

  /** What node `n` has after the tasks were given out: its new tasks, sorted in, and a later end. */
  predicate Served(nodes: Nodes, now: int, request: int, given: seq<nat>, n: nat,
                   was: seq<TaskDesc>, queue: seq<TaskDesc>, end: int)
    requires GoodNodes(nodes) && |given| == |nodes.ends| && n < |given|
  {
    if given[n] == 0 then queue == was && end == nodes.ends[n]
    else && queue == Sort(was + Bag(request, FirstTid(given, n), given[n], now, nodes.taskTime[n]))
         && end == Ends(nodes, now, n, given[n])
  }

  class CentralizedMMP {
    var queues: seq<seq<TaskDesc>>
    var queueEnds: seq<int>
    var maxQueue: int

    predicate Valid()
      reads this
    {
      |queueEnds| == |queues| && forall n | 0 <= n < |queueEnds| :: queueEnds[n] <= maxQueue
    }

    constructor (count: nat, now: int)
      ensures Valid() && queues == seq(count, _ => []) && queueEnds == seq(count, _ => now) && maxQueue == now
    {
      queues, queueEnds, maxQueue := seq(count, _ => []), seq(count, _ => now), now;
    }

    /**
     The tasks of a request are given to the suitable nodes so that the last of their queues ends as soon as possible;
     without a suitable node nothing happens. `maxQueue` stays the latest end of any queue.
     */
    method NewApp(request: int, numTasks: nat, suitable: seq<bool>, taskTime: seq<nat>, now: int)
      returns (given: seq<nat>)
      requires Valid() && |suitable| == |queues| && |taskTime| == |queues|
      modifies this
      ensures Valid() && |queues| == |old(queues)| && |given| == |queues|
      ensures (forall n | 0 <= n < |suitable| :: !suitable[n]) ==>
          queues == old(queues) && queueEnds == old(queueEnds) && Total(given) == 0
      ensures
        var nodes := Nodes(old(queueEnds), suitable, taskTime);
        (exists n :: 0 <= n < |suitable| && suitable[n]) ==>
          && Allocation(nodes, given, numTasks)
          && (forall other, t ::
             Allocation(nodes, other, numTasks) && DoneBy(nodes, now, other, t) ==> DoneBy(nodes, now, given, t))
      ensures
        var nodes := Nodes(old(queueEnds), suitable, taskTime);
        forall n | 0 <= n < |queues| :: Served(nodes, now, request, given, n, old(queues)[n], queues[n], queueEnds[n])
    {
      var nodes := Nodes(queueEnds, suitable, taskTime);
      var cache := FirstCandidates(nodes, now);
      if cache == [] {
        given := seq(|queues|, _ => 0);
        TotalZero(given);
        return;
      }
      assert cache[0] in cache;
      given := Allocate(nodes, now, numTasks, cache);
      Give(nodes, request, given, now);
    }

    method Give(nodes: Nodes, request: int, given: seq<nat>, now: int)
      requires Valid() && GoodNodes(nodes) && nodes.ends == queueEnds && |given| == |queues|
      modifies this
      ensures Valid() && |queues| == |old(queues)|
      ensures forall n | 0 <= n < |queues| ::
          Served(nodes, now, request, given, n, old(queues)[n], queues[n], queueEnds[n])
    {
      var tid := 1;
      for i := 0 to |given|
        invariant Valid() && |queues| == |old(queues)| && tid == FirstTid(given, i)
        invariant forall n | i <= n < |queues| :: queueEnds[n] == old(queueEnds)[n] && queues[n] == old(queues)[n]
        invariant forall n | 0 <= n < i ::
            Served(nodes, now, request, given, n, old(queues)[n], queues[n], queueEnds[n])
      {
        if given[i] > 0 {
          PushTasks(i, request, tid, given[i], now, nodes.taskTime[i]);
          UpdateQueueLengths(i, given[i] * nodes.taskTime[i], now);
          tid := tid + given[i];
        }
      }
    }

    method PushTasks(n: nat, request: int, tid: nat, k: nat, now: int, runtime: nat)
      requires n < |queues|
      modifies this`queues
      ensures queues == old(queues)[n := Sort(old(queues)[n] + Bag(request, tid, k, now, runtime))]
    {
      var queue := queues[n];
      for j := 0 to k
        invariant queue == queues[n] + Bag(request, tid, j, now, runtime)
      {
        queue := queue + [TaskDesc(request, tid + j, now, runtime)];
      }
      var sorted := SortQueue(queue);
      queues := queues[n := sorted];
    }

    method UpdateQueueLengths(n: nat, time: nat, now: int)
      requires Valid() && n < |queues|
      modifies this`queueEnds, this`maxQueue
      ensures Valid()
      ensures queueEnds == old(queueEnds)[n := (if old(queueEnds)[n] < now then now else old(queueEnds)[n]) + time]
      ensures maxQueue == if old(maxQueue) < queueEnds[n] then queueEnds[n] else old(maxQueue)
    {
      if queueEnds[n] < now { queueEnds := queueEnds[n := now]; }
      queueEnds := queueEnds[n := queueEnds[n] + time];
      if maxQueue < queueEnds[n] { maxQueue := queueEnds[n]; }
    }
  }

  /** Number of the first task of node `n`: tasks are numbered in the order of the nodes. */
  function FirstTid(given: seq<nat>, n: nat): nat
    requires n <= |given|
  {
    if n == 0 then 1 else FirstTid(given, n - 1) + given[n - 1]
  }
}
