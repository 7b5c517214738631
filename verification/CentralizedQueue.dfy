/**
 The task queues of the centralized schedulers (src/oldsim/CentralizedScheduler.hpp and .cpp): their
 order, and when their tasks finish. Times are in microseconds.
 */
module CentralizedQueue {

  datatype TaskDesc = TaskDesc(request: int, tid: nat, deadline: int, runtime: nat)

  /** The order of a queue: by deadline, then by request, then by task. */
  predicate Before(x: TaskDesc, y: TaskDesc) {
    x.deadline < y.deadline
    || (x.deadline == y.deadline && (x.request < y.request || (x.request == y.request && x.tid <= y.tid)))
  }

  predicate Sorted(q: seq<TaskDesc>) {
    forall i, j | 0 <= i < j < |q| :: Before(q[i], q[j])
  }

  /** `x` goes behind everything that comes before it. */
  function Insert(q: seq<TaskDesc>, x: TaskDesc): seq<TaskDesc> {
    if q == [] then [x] else if Before(q[0], x) then [q[0]] + Insert(q[1..], x) else [x] + q
  }

  /** What sorting a list gives. */
  function Sort(q: seq<TaskDesc>): seq<TaskDesc> {
    if q == [] then [] else Insert(Sort(q[..|q| - 1]), q[|q| - 1])
  }

  /** Total runtime. */
  function Work(q: seq<TaskDesc>): nat {
    if q == [] then 0 else q[0].runtime + Work(q[1..])
  }

  /** Runtime of the tasks that are due by `t`. */
  function Demand(q: seq<TaskDesc>, t: int): nat {
    if q == [] then 0 else (if q[0].deadline <= t then q[0].runtime else 0) + Demand(q[1..], t)
  }

  /** How often a task is in a queue. */
  function Count(q: seq<TaskDesc>, x: TaskDesc): nat {
    if q == [] then 0 else (if q[0] == x then 1 else 0) + Count(q[1..], x)
  }

  /** Run in order from `start` on, every task finishes by its deadline. */
  predicate Meets(q: seq<TaskDesc>, start: int) {
    forall i | 0 <= i < |q| :: start + Work(q[..i + 1]) <= q[i].deadline
  }

  /** The tasks due before `t`, which a sorted queue has in front. */
  function Early(q: seq<TaskDesc>, t: int): seq<TaskDesc> {
    if q == [] || q[0].deadline >= t then [] else [q[0]] + Early(q[1..], t)
  }

  // ---------------------------------------------------------------------------------------------
  // Insertion and sorting
  // ---------------------------------------------------------------------------------------------

  lemma {:induction false} InsertMember(q: seq<TaskDesc>, x: TaskDesc, y: TaskDesc)
    requires y in Insert(q, x)
    ensures y == x || y in q
  {
    if q != [] && Before(q[0], x) && y != q[0] {
      InsertMember(q[1..], x, y);
    }
  }

  lemma {:induction false} InsertSorted(q: seq<TaskDesc>, x: TaskDesc)
    requires Sorted(q)
    ensures Sorted(Insert(q, x))
  {
    if q != [] && Before(q[0], x) {
      InsertSorted(q[1..], x);
      var rest := Insert(q[1..], x);
      forall j | 0 <= j < |rest| ensures Before(q[0], rest[j]) { InsertMember(q[1..], x, rest[j]); }
    }
  }

  lemma {:induction false} InsertDemand(q: seq<TaskDesc>, x: TaskDesc, t: int)
    ensures Demand(Insert(q, x), t) == Demand(q, t) + if x.deadline <= t then x.runtime else 0
  {
    if q != [] {
      if Before(q[0], x) { InsertDemand(q[1..], x, t); } else { assert ([x] + q)[1..] == q; }
    }
  }

  lemma {:induction false} InsertCount(q: seq<TaskDesc>, x: TaskDesc, y: TaskDesc)
    ensures Count(Insert(q, x), y) == Count(q, y) + if x == y then 1 else 0
    ensures |Insert(q, x)| == |q| + 1
  {
    if q != [] {
      if Before(q[0], x) { InsertCount(q[1..], x, y); } else { assert ([x] + q)[1..] == q; }
    }
  }

  lemma {:induction false} InsertEarly(q: seq<TaskDesc>, x: TaskDesc, t: int)
    requires t <= x.deadline
    ensures Early(Insert(q, x), t) == Early(q, t)
  {
    if q != [] && Before(q[0], x) { InsertEarly(q[1..], x, t); }
  }

  /** Sorting gives a sorted queue of the same tasks. */
  lemma {:induction false} SortSorts(q: seq<TaskDesc>, y: TaskDesc)
    ensures Sorted(Sort(q)) && |Sort(q)| == |q| && Count(Sort(q), y) == Count(q, y)
  {
    if q != [] {
      var front, last := q[..|q| - 1], q[|q| - 1];
      SortSorts(front, y);
      InsertSorted(Sort(front), last);
      InsertCount(Sort(front), last, y);
      CountSnoc(front, last, y);
      assert q == front + [last];
    }
  }

  lemma {:induction false} CountSnoc(q: seq<TaskDesc>, x: TaskDesc, y: TaskDesc)
    ensures Count(q + [x], y) == Count(q, y) + if x == y then 1 else 0
  {
    if q == [] {
      assert q + [x] == [x];
    } else {
      CountSnoc(q[1..], x, y);
      assert (q + [x])[1..] == q[1..] + [x];
    }
  }

  lemma {:induction false} InsertLast(q: seq<TaskDesc>, x: TaskDesc)
    requires forall y | y in q :: Before(y, x)
    ensures Insert(q, x) == q + [x]
  {
    if q != [] { InsertLast(q[1..], x); }
  }

  lemma {:induction false} SortOfSorted(q: seq<TaskDesc>)
    requires Sorted(q)
    ensures Sort(q) == q
  {
    if q != [] {
      SortOfSorted(q[..|q| - 1]);
      InsertLast(q[..|q| - 1], q[|q| - 1]);
    }
  }

  // ---------------------------------------------------------------------------------------------
  // Finishing times
  // ---------------------------------------------------------------------------------------------

  lemma {:induction false} WorkSnoc(q: seq<TaskDesc>, x: TaskDesc)
    ensures Work(q + [x]) == Work(q) + x.runtime
  {
    if q == [] {
      assert q + [x] == [x];
    } else {
      WorkSnoc(q[1..], x);
      assert (q + [x])[1..] == q[1..] + [x];
    }
  }

  lemma {:induction false} DemandNone(q: seq<TaskDesc>, t: int)
    requires forall x | x in q :: x.deadline > t
    ensures Demand(q, t) == 0
  {
    if q != [] { DemandNone(q[1..], t); }
  }

  /** How many tasks a sorted queue has to run by `t`. */
  function Due(q: seq<TaskDesc>, t: int): (k: nat)
    ensures k <= |q|
  {
    if q == [] || q[0].deadline > t then 0 else 1 + Due(q[1..], t)
  }

  lemma {:induction false} DueFirst(q: seq<TaskDesc>, t: int, i: nat)
    requires Sorted(q) && i < |q|
    ensures q[i].deadline <= t <==> i < Due(q, t)
  {
    if q[0].deadline <= t && i > 0 { DueFirst(q[1..], t, i - 1); }
  }

  /** The demand by `t` is the work of the tasks that are due. */
  lemma {:induction false} DemandOfDue(q: seq<TaskDesc>, t: int)
    requires Sorted(q)
    ensures Demand(q, t) == Work(q[..Due(q, t)])
  {
    if q != [] {
      if q[0].deadline > t {
        DemandNone(q, t);
      } else {
        DemandOfDue(q[1..], t);
        assert q[..Due(q, t)][1..] == q[1..][..Due(q[1..], t)];
      }
    }
  }

  lemma {:induction false} WorkGrows(q: seq<TaskDesc>, i: nat, j: nat)
    requires i <= j <= |q|
    ensures Work(q[..i]) <= Work(q[..j])
  {
    if i < j {
      WorkGrows(q, i, j - 1);
      WorkSnoc(q[..j - 1], q[j - 1]);
      assert q[..j] == q[..j - 1] + [q[j - 1]];
    }
  }

  /** The demand by `t` covers every task that is due by `t`, and the last of those exactly. */
  lemma DemandIsPrefix(q: seq<TaskDesc>, t: int, i: nat)
    requires Sorted(q) && i < |q| && q[i].deadline <= t
    ensures Work(q[..i + 1]) <= Demand(q, t)
    ensures 0 < Due(q, t) && q[Due(q, t) - 1].deadline <= t && Work(q[..Due(q, t)]) == Demand(q, t)
  {
    DueFirst(q, t, i);
    DueFirst(q, t, Due(q, t) - 1);
    DemandOfDue(q, t);
    WorkGrows(q, i + 1, Due(q, t));
  }

  /** A sorted queue meets its deadlines if and only if the work due by each deadline fits before it. */
  lemma MeetsIffDemandFits(q: seq<TaskDesc>, start: int)
    requires Sorted(q)
    ensures Meets(q, start) <==> forall x | x in q :: start + Demand(q, x.deadline) <= x.deadline
  {
    if Meets(q, start) {
      forall x | x in q ensures start + Demand(q, x.deadline) <= x.deadline {
        var i :| 0 <= i < |q| && q[i] == x;
        DemandIsPrefix(q, x.deadline, i);
        assert start + Work(q[..(Due(q, x.deadline) - 1) + 1]) <= q[Due(q, x.deadline) - 1].deadline;
      }
    }
    if forall x | x in q :: start + Demand(q, x.deadline) <= x.deadline {
      forall i | 0 <= i < |q| ensures start + Work(q[..i + 1]) <= q[i].deadline {
        DemandIsPrefix(q, q[i].deadline, i);
        assert q[i] in q;
      }
    }
  }

  method SortQueue(queue: seq<TaskDesc>) returns (sorted: seq<TaskDesc>)
    ensures sorted == Sort(queue)
  {
    sorted := [];
    for i := 0 to |queue|
      invariant sorted == Sort(queue[..i])
    {
      assert queue[..i + 1][..i] == queue[..i];
      sorted := Insert(sorted, queue[i]);
    }
    assert queue[..|queue|] == queue;
  }

  // ---------------------------------------------------------------------------------------------
  // Tasks given to nodes
  // ---------------------------------------------------------------------------------------------

  /** `k` tasks of a request, numbered from `tid` on. */
  function Bag(request: int, tid: nat, k: nat, t: int, runtime: nat): (bag: seq<TaskDesc>)
    ensures forall x | x in bag :: x.deadline == t
    ensures |bag| == k
  {
    if k == 0 then [] else Bag(request, tid, k - 1, t, runtime) + [TaskDesc(request, tid + k - 1, t, runtime)]
  }

  lemma {:induction false} BagWork(request: int, tid: nat, k: nat, t: int, runtime: nat)
    ensures Work(Bag(request, tid, k, t, runtime)) == k * runtime
  {
    if k > 0 {
      BagWork(request, tid, k - 1, t, runtime);
      WorkSnoc(Bag(request, tid, k - 1, t, runtime), TaskDesc(request, tid + k - 1, t, runtime));
      assert k * runtime == (k - 1) * runtime + runtime;
    }
  }

  /** How many tasks the nodes are given altogether. */
  function Total(given: seq<nat>): nat {
    if given == [] then 0 else given[0] + Total(given[1..])
  }

  lemma {:induction false} TotalUpdate(given: seq<nat>, n: nat, k: nat)
    requires n < |given|
    ensures Total(given[n := k]) + given[n] == Total(given) + k
  {
    if n > 0 {
      TotalUpdate(given[1..], n - 1, k);
      assert given[n := k][1..] == given[1..][n - 1 := k];
    } else {
      assert given[0 := k][1..] == given[1..];
    }
  }

  lemma {:induction false} TotalZero(given: seq<nat>)
    requires forall n | 0 <= n < |given| :: given[n] == 0
    ensures Total(given) == 0
  {
    if given != [] { TotalZero(given[1..]); }
  }

  /** The tasks given out are numbered from 1 to `total`, each once: nodes have disjoint ranges of numbers. */
  predicate Numbered(given: seq<nat>, tids: seq<nat>, total: nat)
    requires |tids| == |given|
  {
    && (forall n | 0 <= n < |given| && given[n] > 0 :: 1 <= tids[n] && tids[n] + given[n] <= total + 1)
    && (forall m, n | 0 <= m < n < |given| && given[m] > 0 && given[n] > 0 ::
          tids[m] + given[m] <= tids[n] || tids[n] + given[n] <= tids[m])
  }

  lemma NumberedMore(given: seq<nat>, tids: seq<nat>, n: nat, k: nat)
    requires |tids| == |given| && n < |given| && given[n] == 0 && Numbered(given, tids, Total(given))
    ensures Numbered(given[n := k], tids[n := 1 + Total(given)], Total(given) + k)
  {
  }
}
