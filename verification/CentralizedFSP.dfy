/**
 The centralized fairness policy (`CentralizedFSP::calculateTasksPerNode` in
 src/oldsim/CentralizedScheduler.cpp): how many tasks each node gets so that the largest slowness is
 least. The slowness of a node is an abstract function that grows with the number of tasks added to it.
 */
module CentralizedFSP {
  import opened Common

  /** `slow(n, k)` is the slowness of node `n` with `k` more tasks. */
  type Slowness = (nat, nat) -> real

  ghost predicate Growing(slow: Slowness) {
    forall n: nat, k: nat, l: nat | k <= l :: slow(n, k) <= slow(n, l)
  }

  datatype Entry = Entry(slowness: real, node: nat)

  /** The order of pairs. */
  predicate Less(a: Entry, b: Entry) {
    a.slowness < b.slowness || (a.slowness == b.slowness && a.node < b.node)
  }

  function Count(heap: seq<Entry>, e: Entry): nat {
    if heap == [] then 0 else One(heap[0] == e) + Count(heap[1..], e)
  }

  /** How many of the first `k` tasks of node `n` have slowness `v`. */
  function Times(slow: Slowness, n: nat, k: nat, v: real): nat {
    if k == 0 then 0 else Times(slow, n, k - 1, v) + One(slow(n, k) == v)
  }

  /** Number of tasks given; -1 marks the nodes that cannot run them. */
  function Total(tpn: seq<int>): nat {
    if tpn == [] then 0 else (if tpn[0] > 0 then tpn[0] else 0) + Total(tpn[1..])
  }

  /** The heap is exactly the pairs of a node and its slowness with 1, 2, ... up to its number of tasks. */
  ghost predicate Exact(slow: Slowness, heap: seq<Entry>, tpn: seq<int>) {
    forall e: Entry ::
      Count(heap, e) == if e.node < |tpn| && tpn[e.node] > 0 then Times(slow, e.node, tpn[e.node], e.slowness) else 0
  }

  // ---------------------------------------------------------------------------------------------
  // Counting
  // ---------------------------------------------------------------------------------------------

  lemma {:induction false} CountAppend(a: seq<Entry>, b: seq<Entry>, e: Entry)
    ensures Count(a + b, e) == Count(a, e) + Count(b, e)
  {
    if a == [] {
      assert a + b == b;
    } else {
      CountAppend(a[1..], b, e);
      assert (a + b)[1..] == a[1..] + b;
    }
  }

  lemma {:induction false} CountIn(heap: seq<Entry>, e: Entry)
    ensures Count(heap, e) > 0 <==> e in heap
  {
    if heap != [] { CountIn(heap[1..], e); }
  }

  lemma CountWithout(heap: seq<Entry>, i: nat, e: Entry)
    requires i < |heap|
    ensures Count(Without(heap, i), e) + One(heap[i] == e) == Count(heap, e)
  {
    CountAppend(heap[..i], heap[i..], e);
    CountAppend(heap[..i], heap[i + 1..], e);
    assert heap == heap[..i] + heap[i..] && heap[i..][1..] == heap[i + 1..];
  }

  lemma CountWith(heap: seq<Entry>, x: Entry, e: Entry)
    ensures Count(heap + [x], e) == Count(heap, e) + One(x == e)
  {
    CountAppend(heap, [x], e);
    assert [x][1..] == [];
  }

  lemma {:induction false} TimesIn(slow: Slowness, n: nat, k: nat, v: real) returns (j: nat)
    requires Times(slow, n, k, v) > 0
    ensures 1 <= j <= k && slow(n, j) == v
  {
    if slow(n, k) == v { j := k; } else { j := TimesIn(slow, n, k - 1, v); }
  }

  lemma {:induction false} TimesLast(slow: Slowness, n: nat, k: nat, j: nat)
    requires 1 <= j <= k
    ensures Times(slow, n, k, slow(n, j)) > 0
  {
    if j < k { TimesLast(slow, n, k - 1, j); }
  }

  lemma {:induction false} TotalUpdate(tpn: seq<int>, n: nat, k: int)
    requires n < |tpn| && tpn[n] >= 0 && k >= 0
    ensures Total(tpn[n := k]) + tpn[n] == Total(tpn) + k
  {
    if n == 0 {
      assert tpn[0 := k][1..] == tpn[1..];
    } else {
      TotalUpdate(tpn[1..], n - 1, k);
      assert tpn[n := k][1..] == tpn[1..][n - 1 := k];
    }
  }

  lemma {:induction false} TotalBounds(tpn: seq<int>, n: nat)
    requires n < |tpn|
    ensures tpn[n] <= Total(tpn)
  {
    if n > 0 { TotalBounds(tpn[1..], n - 1); }
  }

  lemma {:induction false} TotalAlone(tpn: seq<int>, n: nat, m: nat)
    requires n < |tpn| && m < |tpn| && m != n && tpn[n] > 0 && tpn[m] > 0
    ensures tpn[n] + tpn[m] <= Total(tpn)
  {
    if n > 0 && m > 0 {
      TotalAlone(tpn[1..], n - 1, m - 1);
    } else if n == 0 {
      TotalBounds(tpn[1..], m - 1);
    } else {
      TotalBounds(tpn[1..], n - 1);
    }
  }

  lemma {:induction false} TotalZero(tpn: seq<int>)
    requires forall n | 0 <= n < |tpn| :: tpn[n] <= 0
    ensures Total(tpn) == 0
  {
    if tpn != [] { TotalZero(tpn[1..]); }
  }

  // ---------------------------------------------------------------------------------------------
  // The heap
  // ---------------------------------------------------------------------------------------------

  /** The place of the front of the heap. */
  predicate IsTop(heap: seq<Entry>, i: nat) {
    i < |heap| && forall j | 0 <= j < |heap| :: !Less(heap[i], heap[j])
  }

  method Top(heap: seq<Entry>) returns (i: nat)
    requires heap != []
    ensures IsTop(heap, i)
  {
    i := 0;
    for k := 1 to |heap|
      invariant i < k && forall j | 0 <= j < k :: !Less(heap[i], heap[j])
    {
      if Less(heap[i], heap[k]) { i := k; }
    }
  }

  /** What is in the heap is below the top; each node's last task is. */
  lemma TopBounds(slow: Slowness, heap: seq<Entry>, tpn: seq<int>, i: nat, n: nat)
    requires Exact(slow, heap, tpn) && IsTop(heap, i) && n < |tpn| && tpn[n] > 0
    ensures slow(n, tpn[n]) <= heap[i].slowness
  {
    var e := Entry(slow(n, tpn[n]), n);
    TimesLast(slow, n, tpn[n], tpn[n]);
    CountIn(heap, e);
  }

  /** The front is the last task of its node. */
  lemma TopIsLast(slow: Slowness, heap: seq<Entry>, tpn: seq<int>, i: nat)
    requires Growing(slow) && Exact(slow, heap, tpn) && IsTop(heap, i)
    ensures var j := heap[i].node; j < |tpn| && tpn[j] > 0 && heap[i].slowness == slow(j, tpn[j])
  {
    var top := heap[i];
    CountIn(heap, top);
    var k := TimesIn(slow, top.node, tpn[top.node], top.slowness);
    TopBounds(slow, heap, tpn, i, top.node);
  }

  lemma PushKeepsExact(slow: Slowness, heap: seq<Entry>, tpn: seq<int>, n: nat)
    requires Exact(slow, heap, tpn) && n < |tpn| && tpn[n] >= 0
    ensures Exact(slow, heap + [Entry(slow(n, tpn[n] + 1), n)], tpn[n := tpn[n] + 1])
  {
    var x := Entry(slow(n, tpn[n] + 1), n);
    forall e: Entry
      ensures Count(heap + [x], e)
              == if e.node < |tpn| && tpn[n := tpn[n] + 1][e.node] > 0
                 then Times(slow, e.node, tpn[n := tpn[n] + 1][e.node], e.slowness) else 0
    {
      CountWith(heap, x, e);
    }
  }

  lemma PopKeepsExact(slow: Slowness, heap: seq<Entry>, tpn: seq<int>, i: nat)
    requires Growing(slow) && Exact(slow, heap, tpn) && IsTop(heap, i)
    ensures var j := heap[i].node;
            j < |tpn| && tpn[j] > 0 && Exact(slow, Without(heap, i), tpn[j := tpn[j] - 1])
  {
    TopIsLast(slow, heap, tpn, i);
    var j := heap[i].node;
    forall e: Entry
      ensures Count(Without(heap, i), e)
              == if e.node < |tpn| && tpn[j := tpn[j] - 1][e.node] > 0
                 then Times(slow, e.node, tpn[j := tpn[j] - 1][e.node], e.slowness) else 0
    {
      CountWithout(heap, i, e);
      if e.node == j {
        assert Times(slow, j, tpn[j], e.slowness) == Times(slow, j, tpn[j] - 1, e.slowness) + One(heap[i] == e);
      }
    }
  }

  lemma NotEmpty(slow: Slowness, heap: seq<Entry>, tpn: seq<int>)
    requires Exact(slow, heap, tpn) && Total(tpn) > 0
    ensures heap != []
  {
    if forall n | 0 <= n < |tpn| :: tpn[n] <= 0 {
      TotalZero(tpn);
    } else {
      var n :| 0 <= n < |tpn| && tpn[n] > 0;
      TimesLast(slow, n, tpn[n], tpn[n]);
      CountIn(heap, Entry(slow(n, tpn[n]), n));
    }
  }

  // ---------------------------------------------------------------------------------------------
  // Trying nodes
  // ---------------------------------------------------------------------------------------------

  /** One more task on node `n` would not be better than any that is given. */
  ghost predicate Closed(slow: Slowness, heap: seq<Entry>, tpn: seq<int>, n: nat, numTasks: nat)
    requires n < |tpn| && tpn[n] >= 0
  {
    Total(tpn) == numTasks && forall e | e in heap :: e.slowness <= slow(n, tpn[n] + 1)
  }

  ghost predicate Fits(tpn: seq<int>, suitable: seq<bool>) {
    |tpn| == |suitable| && forall n | 0 <= n < |tpn| :: if suitable[n] then tpn[n] >= 0 else tpn[n] == -1
  }

  /**
   In the round that tries task number `c`, with nodes up to `i` tried: every suitable node is closed, or has just got
   its task number `c`, or still waits to be tried with it.
   */
  ghost predicate InRound(slow: Slowness, heap: seq<Entry>, tpn: seq<int>, suitable: seq<bool>, c: nat, i: nat,
                          numTasks: nat) {
    && c > 0 && Fits(tpn, suitable) && Exact(slow, heap, tpn) && Total(tpn) <= numTasks
    && forall n | 0 <= n < |tpn| && suitable[n] ::
         && tpn[n] <= (if n < i then c else c - 1)
         && (tpn[n] == (if n < i then c else c - 1) || Closed(slow, heap, tpn, n, numTasks))
  }

  /** There is room: the node gets the task. */
  lemma Takes(slow: Slowness, heap: seq<Entry>, tpn: seq<int>, suitable: seq<bool>, c: nat, i: nat, numTasks: nat)
    requires InRound(slow, heap, tpn, suitable, c, i, numTasks) && i < |tpn| && tpn[i] == c - 1 && Total(tpn) < numTasks
    ensures var tpn' := tpn[i := c];
            && InRound(slow, heap + [Entry(slow(i, c), i)], tpn', suitable, c, i + 1, numTasks)
            && Total(tpn') == Total(tpn) + 1 && c <= numTasks
  {
    PushKeepsExact(slow, heap, tpn, i);
    TotalUpdate(tpn, i, c);
    TotalBounds(tpn[i := c], i);
  }

  /** There is no room, but the task is better here than the worst one, which is taken back. */
  lemma Replaces(slow: Slowness, heap: seq<Entry>, tpn: seq<int>, suitable: seq<bool>, c: nat, i: nat, numTasks: nat,
                 f: nat, top: nat)
    requires Growing(slow) && InRound(slow, heap, tpn, suitable, c, i, numTasks) && i < |tpn| && tpn[i] == c - 1
    requires Total(tpn) == numTasks && IsTop(heap, f) && slow(i, c) < heap[f].slowness
    requires IsTop(heap + [Entry(slow(i, c), i)], top)
    ensures
      var heap' := heap + [Entry(slow(i, c), i)];
      var j := heap'[top].node;
      && j < |tpn| && j != i && tpn[j] > 0
      && InRound(slow, Without(heap', top), tpn[i := c][j := tpn[j] - 1], suitable, c, i + 1, numTasks)
      && Total(tpn[i := c][j := tpn[j] - 1]) == numTasks
  {
    var x := Entry(slow(i, c), i);
    var heap', tpn' := heap + [x], tpn[i := c];
    PushKeepsExact(slow, heap, tpn, i);
    TotalUpdate(tpn, i, c);
    PopKeepsExact(slow, heap', tpn', top);
    TopIsLast(slow, heap', tpn', top);
    var j := heap'[top].node;
    assert heap'[f] == heap[f] && !Less(heap'[top], heap'[f]);
    TotalUpdate(tpn', j, tpn'[j] - 1);
    RestIsBetter(heap, x, f, top);
    ReplacedRound(slow, heap, tpn, suitable, c, i, numTasks, heap[f], heap'[top], Without(heap', top),
      tpn'[j := tpn'[j] - 1]);
  }

  lemma ReplacedRound(slow: Slowness, heap: seq<Entry>, tpn: seq<int>, suitable: seq<bool>, c: nat, i: nat,
                      numTasks: nat,
                      front: Entry, popped: Entry, rest: seq<Entry>, tpn': seq<int>)
    requires InRound(slow, heap, tpn, suitable, c, i, numTasks) && i < |tpn| && tpn[i] == c - 1
    requires Total(tpn) == numTasks
    requires front in heap && forall e | e in rest :: e.slowness <= popped.slowness && e.slowness <= front.slowness
    requires
      var j := popped.node;
      && j < |tpn| && j != i && tpn[j] > 0 && popped.slowness == slow(j, tpn[j])
      && |tpn'| == |tpn| && tpn'[i] == c && tpn'[j] == tpn[j] - 1
      && (forall n | 0 <= n < |tpn| && n != i && n != j :: tpn'[n] == tpn[n])
    requires Exact(slow, rest, tpn') && Total(tpn') == numTasks
    ensures InRound(slow, rest, tpn', suitable, c, i + 1, numTasks)
  {
    forall n | 0 <= n < |tpn'| && suitable[n]
      ensures tpn'[n] <= (if n < i + 1 then c else c - 1)
      ensures tpn'[n] == (if n < i + 1 then c else c - 1) || Closed(slow, rest, tpn', n, numTasks)
    {
      if n != i && n != popped.node && Closed(slow, heap, tpn, n, numTasks) {
        StaysClosed(slow, heap, tpn, rest, tpn', n, numTasks, front);
      }
    }
  }

  /** What remains is no worse than the entry that is taken back; what is new is better than the old front. */
  lemma RestIsBetter(heap: seq<Entry>, x: Entry, f: nat, top: nat)
    requires IsTop(heap, f) && x.slowness < heap[f].slowness && IsTop(heap + [x], top)
    ensures forall e | e in Without(heap + [x], top) ::
        e.slowness <= (heap + [x])[top].slowness && e.slowness <= heap[f].slowness
    ensures heap[f] in heap
  {
    var heap' := heap + [x];
    forall e | e in Without(heap', top) ensures e.slowness <= heap'[top].slowness && e.slowness <= heap[f].slowness {
      var k :| 0 <= k < |heap'| && heap'[k] == e;
      assert !Less(heap'[top], heap'[k]);
      if k < |heap| { assert !Less(heap[f], heap[k]); }
    }
  }

  lemma StaysClosed(slow: Slowness, heap: seq<Entry>, tpn: seq<int>, rest: seq<Entry>, tpn': seq<int>, n: nat,
                    numTasks: nat, front: Entry)
    requires n < |tpn| && tpn[n] >= 0 && Closed(slow, heap, tpn, n, numTasks) && front in heap
    requires |tpn'| == |tpn| && tpn'[n] == tpn[n] && Total(tpn') == numTasks
    requires forall e | e in rest :: e.slowness <= front.slowness
    ensures Closed(slow, rest, tpn', n, numTasks)
  {
  }

  /** No room, and the task would be no better here: the node is closed. */
  lemma Refuses(slow: Slowness, heap: seq<Entry>, tpn: seq<int>, suitable: seq<bool>, c: nat, i: nat, numTasks: nat,
                f: nat)
    requires InRound(slow, heap, tpn, suitable, c, i, numTasks) && i < |tpn| && tpn[i] == c - 1
    requires Total(tpn) == numTasks && IsTop(heap, f) && heap[f].slowness <= slow(i, c)
    ensures InRound(slow, heap, tpn, suitable, c, i + 1, numTasks)
  {
    forall e | e in heap ensures e.slowness <= heap[f].slowness {
      var k :| 0 <= k < |heap| && heap[k] == e;
      assert !Less(heap[f], heap[k]);
    }
    assert Closed(slow, heap, tpn, i, numTasks);
  }

  /** A node is given a better task only while it does not have them all. */
  lemma NotThemAll(slow: Slowness, heap: seq<Entry>, tpn: seq<int>, c: nat, i: nat, numTasks: nat, f: nat)
    requires Growing(slow) && Exact(slow, heap, tpn) && i < |tpn| && c > 0 && tpn[i] == c - 1
    requires Total(tpn) == numTasks > 0
    requires IsTop(heap, f) && slow(i, c) < heap[f].slowness
    ensures c <= numTasks
  {
    TotalBounds(tpn, i);
    TopIsLast(slow, heap, tpn, f);
    if c > numTasks && heap[f].node != i {
      TotalAlone(tpn, i, heap[f].node);
    }
  }

  /** Tries one more task on node `i`. */
  method TryNode(slow: Slowness, heap: seq<Entry>, tpn: seq<int>, totalTasks: nat, ghost suitable: seq<bool>, c: nat,
                 i: nat, numTasks: nat)
    returns (heap': seq<Entry>, tpn': seq<int>, totalTasks': nat, taken: bool)
    requires Growing(slow) && InRound(slow, heap, tpn, suitable, c, i, numTasks) && i < |tpn| && numTasks > 0
    requires totalTasks == Total(tpn) && tpn[i] == c - 1
    ensures InRound(slow, heap', tpn', suitable, c, i + 1, numTasks) && totalTasks' == Total(tpn')
    ensures taken ==> c <= numTasks
    ensures !taken ==> tpn' == tpn
  {
    heap', tpn', totalTasks', taken := heap, tpn, totalTasks, false;
    var slowness := slow(i, c);
    if totalTasks < numTasks {
      Takes(slow, heap, tpn, suitable, c, i, numTasks);
      heap', tpn', totalTasks', taken := heap + [Entry(slowness, i)], tpn[i := c], totalTasks + 1, true;
    } else {
      NotEmpty(slow, heap, tpn);
      var f := Top(heap);
      if slowness < heap[f].slowness {
        NotThemAll(slow, heap, tpn, c, i, numTasks, f);
        heap' := heap + [Entry(slowness, i)];
        var top := Top(heap');
        Replaces(slow, heap, tpn, suitable, c, i, numTasks, f, top);
        var j := heap'[top].node;
        tpn' := tpn[i := c];
        tpn' := tpn'[j := tpn'[j] - 1];
        heap' := Without(heap', top);
        taken := true;
      } else {
        Refuses(slow, heap, tpn, suitable, c, i, numTasks, f);
      }
    }
  }

  // ---------------------------------------------------------------------------------------------
  // The result
  // ---------------------------------------------------------------------------------------------

  /** Some way to give `total` tasks to suitable nodes. */
  ghost predicate Allocation(tpn: seq<int>, suitable: seq<bool>, total: nat) {
    |tpn| == |suitable| && Total(tpn) == total && forall n | 0 <= n < |tpn| && tpn[n] > 0 :: suitable[n]
  }

  /** No node that gets tasks is slower than `bound`. */
  ghost predicate Within(slow: Slowness, tpn: seq<int>, bound: real) {
    forall n | 0 <= n < |tpn| && tpn[n] > 0 :: slow(n, tpn[n]) <= bound
  }

  /** With as many tasks given in another way, every node gets the same or some node gets more. */
  lemma {:induction false} SomeNodeGetsMore(a: seq<int>, b: seq<int>) returns (more: bool, n: nat)
    requires |a| == |b| && Total(a) <= Total(b)
    ensures more ==> n < |a| && b[n] > 0 && b[n] > a[n]
    ensures !more ==> forall m | 0 <= m < |a| :: a[m] == b[m] || (a[m] <= 0 && b[m] <= 0)
    ensures !more ==> Total(a) == Total(b)
  {
    if a == [] {
      more, n := false, 0;
    } else if b[0] > 0 && b[0] > a[0] {
      more, n := true, 0;
    } else {
      var k;
      more, k := SomeNodeGetsMore(a[1..], b[1..]);
      n := k + 1;
      if !more {
        forall m | 0 <= m < |a| ensures a[m] == b[m] || (a[m] <= 0 && b[m] <= 0) {
          if m > 0 { assert a[m] == a[1..][m - 1] && b[m] == b[1..][m - 1]; }
        }
      }
    }
  }

  /** When every suitable node is closed, no other way to give the tasks has a smaller largest slowness. */
  lemma ClosedIsOptimal(slow: Slowness, heap: seq<Entry>, tpn: seq<int>, suitable: seq<bool>, numTasks: nat,
                        other: seq<int>, bound: real)
    requires Growing(slow) && Fits(tpn, suitable) && Exact(slow, heap, tpn) && Total(tpn) == numTasks
    requires forall n | 0 <= n < |tpn| && suitable[n] :: Closed(slow, heap, tpn, n, numTasks)
    requires Allocation(other, suitable, numTasks) && Within(slow, other, bound)
    ensures Within(slow, tpn, bound)
  {
    var more, m := SomeNodeGetsMore(tpn, other);
    forall n | 0 <= n < |tpn| && tpn[n] > 0 ensures slow(n, tpn[n]) <= bound {
      if more {
        var e := Entry(slow(n, tpn[n]), n);
        TimesLast(slow, n, tpn[n], tpn[n]);
        CountIn(heap, e);
        assert Closed(slow, heap, tpn, m, numTasks);
        assert slow(m, tpn[m] + 1) <= slow(m, other[m]);
      }
    }
  }

  /**
   Gives the tasks so that no other way to give as many has a smaller largest slowness. The heap ends up with exactly
   the tasks given, and the search ends by round `numTasks + 2`.
   */
  method CalculateTasksPerNode(slow: Slowness, suitable: seq<bool>, numTasks: nat)
    returns (tpn: seq<int>, ghost heap: seq<Entry>, ghost rounds: nat)
    requires Growing(slow) && numTasks > 0
    ensures Fits(tpn, suitable) && Exact(slow, heap, tpn) && rounds <= numTasks + 2
    ensures (exists n :: 0 <= n < |suitable| && suitable[n]) ==> Total(tpn) == numTasks
    ensures forall other, bound ::
        Allocation(other, suitable, numTasks) && Within(slow, other, bound) ==> Within(slow, tpn, bound)
  {
    tpn := seq(|suitable|, n requires 0 <= n < |suitable| => if suitable[n] then 0 else -1);
    TotalZero(tpn);
    var slownessHeap: seq<Entry> := [];
    var totalTasks := 0;
    var tryOneMoreTask, currentTpn := true, 1;
    while tryOneMoreTask
      invariant 1 <= currentTpn <= numTasks + 2 && (tryOneMoreTask ==> currentTpn <= numTasks + 1)
      invariant InRound(slow, slownessHeap, tpn, suitable, currentTpn, 0, numTasks) && totalTasks == Total(tpn)
      invariant !tryOneMoreTask ==> forall n | 0 <= n < |tpn| && suitable[n] ::
          Closed(slow, slownessHeap, tpn, n, numTasks)
      decreases numTasks + 2 - currentTpn
    {
      tryOneMoreTask := false;
      for n := 0 to |tpn|
        invariant |tpn| == |suitable| && InRound(slow, slownessHeap, tpn, suitable, currentTpn, n, numTasks)
        invariant totalTasks == Total(tpn)
        invariant tryOneMoreTask ==> currentTpn <= numTasks
        invariant !tryOneMoreTask ==> forall m | 0 <= m < |tpn| :: tpn[m] < currentTpn
      {
        if tpn[n] == currentTpn - 1 {
          var taken;
          slownessHeap, tpn, totalTasks, taken :=
            TryNode(slow, slownessHeap, tpn, totalTasks, suitable, currentTpn, n, numTasks);
          if taken { tryOneMoreTask := true; }
        }
      }
      currentTpn := currentTpn + 1;
    }
    heap, rounds := slownessHeap, currentTpn;
    if exists n :: 0 <= n < |suitable| && suitable[n] {
      var n :| 0 <= n < |suitable| && suitable[n];
      assert Closed(slow, heap, tpn, n, numTasks);
      AllClosedIsOptimal(slow, heap, tpn, suitable, numTasks);
    }
  }

  lemma AllClosedIsOptimal(slow: Slowness, heap: seq<Entry>, tpn: seq<int>, suitable: seq<bool>, numTasks: nat)
    requires Growing(slow) && Fits(tpn, suitable) && Exact(slow, heap, tpn) && Total(tpn) == numTasks
    requires forall n | 0 <= n < |tpn| && suitable[n] :: Closed(slow, heap, tpn, n, numTasks)
    ensures forall other, bound ::
        Allocation(other, suitable, numTasks) && Within(slow, other, bound) ==> Within(slow, tpn, bound)
  {
    forall other, bound | Allocation(other, suitable, numTasks) && Within(slow, other, bound)
      ensures Within(slow, tpn, bound) {
      ClosedIsOptimal(slow, heap, tpn, suitable, numTasks, other, bound);
    }
  }
}
