/**
 The centralized deadline policy (`CentralizedDP` in src/oldsim/CentralizedScheduler.cpp): how much
 work due at a deadline still fits in a queue, and how a bag of tasks is spread over the fitting queues.
 */
module CentralizedDP {
  import opened Common
  import opened CentralizedQueue

  // ---------------------------------------------------------------------------------------------
  // Holes
  // ---------------------------------------------------------------------------------------------

  /** The tasks due after `t`. */
  function Later(q: seq<TaskDesc>, t: int): seq<TaskDesc> {
    if q == [] then [] else if q[0].deadline > t then q else Later(q[1..], t)
  }

  /** The latest start from which the tasks of `q`, run in order, all finish by their deadlines and before `top`. */
  function Latest(q: seq<TaskDesc>, top: int): int {
    if q == [] then top
    else (if q[0].deadline < Latest(q[1..], top) then q[0].deadline else Latest(q[1..], top)) - q[0].runtime
  }

  /**
   `w` time for tasks due at `t` can be put into `q`, run from `start` on, without making a task due at `t` or later
   late.
   */
  predicate Room(q: seq<TaskDesc>, start: int, t: int, w: int) {
    start + Demand(q, t) + w <= t && Meets(Later(q, t), start + Demand(q, t) + w)
  }

  lemma MeetsHead(q: seq<TaskDesc>, start: int)
    requires q != []
    ensures Meets(q, start) <==> start + q[0].runtime <= q[0].deadline && Meets(q[1..], start + q[0].runtime)
  {
    assert q[..1] == [q[0]];
    if Meets(q, start) {
      assert Work(q[..0 + 1]) == q[0].runtime;
      forall i | 0 <= i < |q[1..]| ensures start + q[0].runtime + Work(q[1..][..i + 1]) <= q[1..][i].deadline {
        assert start + Work(q[..(i + 1) + 1]) <= q[i + 1].deadline;
        assert q[..i + 2][1..] == q[1..][..i + 1];
      }
    }
    if start + q[0].runtime <= q[0].deadline && Meets(q[1..], start + q[0].runtime) {
      forall i | 0 <= i < |q| ensures start + Work(q[..i + 1]) <= q[i].deadline {
        if i > 0 {
          assert start + q[0].runtime + Work(q[1..][..(i - 1) + 1]) <= q[1..][i - 1].deadline;
          assert q[..i + 1][1..] == q[1..][..i];
        }
      }
    }
  }

  /** The backward computation gives exactly the latest start. */
  lemma {:induction false} LatestIsLatest(q: seq<TaskDesc>, top: int, start: int)
    requires q != [] && top == q[|q| - 1].deadline
    ensures start <= Latest(q, top) <==> Meets(q, start)
  {
    MeetsHead(q, start);
    if |q| > 1 { LatestIsLatest(q[1..], top, start + q[0].runtime); }
  }

  lemma {:induction false} LaterParts(q: seq<TaskDesc>, t: int, u: int)
    requires Sorted(q) && t <= u
    ensures Demand(q, u) == Demand(q, t) + Demand(Later(q, t), u)
    ensures Sorted(Later(q, t)) && forall x | x in Later(q, t) :: x in q && x.deadline > t
    ensures forall x | x in q && x.deadline > t :: x in Later(q, t)
  {
    if q != [] {
      if q[0].deadline > t { DemandNone(q, t); } else { LaterParts(q[1..], t, u); }
    }
  }

  lemma {:induction false} LaterEnds(q: seq<TaskDesc>, t: int)
    requires q != [] && q[|q| - 1].deadline > t
    ensures Later(q, t) != [] && Later(q, t)[|Later(q, t)| - 1] == q[|q| - 1]
  {
    if q[0].deadline <= t { LaterEnds(q[1..], t); }
  }

  lemma {:induction false} LaterNone(q: seq<TaskDesc>, t: int)
    requires Sorted(q) && (q == [] || q[|q| - 1].deadline <= t)
    ensures Later(q, t) == []
  {
    if q != [] { LaterNone(q[1..], t); }
  }

  /** Inserting work for which there is room: nobody due at `t` or later is late, and nobody due before notices. */
  lemma InsertionKeepsDeadlines(q: seq<TaskDesc>, start: int, t: int, bag: seq<TaskDesc>, w: int)
    requires Sorted(q) && Room(q, start, t, w) && Work(bag) <= w
    requires forall x | x in bag :: x.deadline == t
    ensures
      var q' := Sort(q + bag);
      && Sorted(q') && Early(q', t) == Early(q, t)
      && (forall i | 0 <= i < |q'| && q'[i].deadline >= t :: start + Work(q'[..i + 1]) <= q'[i].deadline)
      && (Meets(q', start) <==> Meets(q, start))
  {
    var q' := Sort(q + bag);
    SortedBag(q, bag, t);
    forall x | x in q' && x.deadline >= t ensures start + Demand(q', x.deadline) <= x.deadline {
      SameTasks(q + bag, x);
      DemandOfBag(q, bag, t, x.deadline);
      LaterDemandFits(q, start, t, w, x.deadline, x in q);
    }
    forall i | 0 <= i < |q'| && q'[i].deadline >= t ensures start + Work(q'[..i + 1]) <= q'[i].deadline {
      DemandIsPrefix(q', q'[i].deadline, i);
      assert q'[i] in q';
    }
    MeetsIffDemandFits(q, start);
    MeetsIffDemandFits(q', start);
    if Meets(q', start) {
      forall x | x in q ensures start + Demand(q, x.deadline) <= x.deadline {
        DemandOfBag(q, bag, t, x.deadline);
        InBag(q, bag, x);
      }
    }
    if Meets(q, start) {
      forall x | x in q' ensures start + Demand(q', x.deadline) <= x.deadline {
        if x.deadline < t {
          SameTasks(q + bag, x);
          DemandOfBag(q, bag, t, x.deadline);
        }
      }
    }
  }

  lemma LaterDemandFits(q: seq<TaskDesc>, start: int, t: int, w: int, u: int, mine: bool)
    requires Sorted(q) && Room(q, start, t, w) && t <= u && (u > t ==> mine)
    requires mine ==> exists x :: x in q && x.deadline == u
    ensures start + Demand(q, u) + w <= u
  {
    if u > t {
      var x :| x in q && x.deadline == u;
      LaterParts(q, t, u);
      MeetsIffDemandFits(Later(q, t), start + Demand(q, t) + w);
      assert x in Later(q, t);
    }
  }

  /** Sorting a bag into a sorted queue inserts its tasks one by one. */
  lemma {:induction false} SortedBag(q: seq<TaskDesc>, bag: seq<TaskDesc>, t: int)
    requires Sorted(q) && forall x | x in bag :: x.deadline == t
    ensures var q' := Sort(q + bag);
            Sorted(q') && Early(q', t) == Early(q, t)
    ensures bag != [] ==> Sort(q + bag) == Insert(Sort(q + bag[..|bag| - 1]), bag[|bag| - 1])
  {
    if bag == [] {
      assert q + bag == q;
      SortOfSorted(q);
    } else {
      var most, last := bag[..|bag| - 1], bag[|bag| - 1];
      SortedBag(q, most, t);
      assert (q + bag)[..|q + bag| - 1] == q + most;
      InsertSorted(Sort(q + most), last);
      InsertEarly(Sort(q + most), last, t);
    }
  }

  lemma {:induction false} DemandOfBag(q: seq<TaskDesc>, bag: seq<TaskDesc>, t: int, u: int)
    requires Sorted(q) && forall x | x in bag :: x.deadline == t
    ensures Demand(Sort(q + bag), u) == Demand(q, u) + if t <= u then Work(bag) else 0
  {
    SortedBag(q, bag, t);
    if bag == [] {
      assert q + bag == q;
      SortOfSorted(q);
    } else {
      var most, last := bag[..|bag| - 1], bag[|bag| - 1];
      DemandOfBag(q, most, t, u);
      InsertDemand(Sort(q + most), last, u);
      WorkSnoc(most, last);
      assert bag == most + [last];
    }
  }

  /** Sorting neither adds nor loses a task. */
  lemma SameTasks(q: seq<TaskDesc>, x: TaskDesc)
    ensures x in Sort(q) <==> x in q
  {
    SortSorts(q, x);
    CountIn(q, x);
    CountIn(Sort(q), x);
  }

  lemma InBag(q: seq<TaskDesc>, bag: seq<TaskDesc>, x: TaskDesc)
    requires x in q
    ensures x in Sort(q + bag)
  {
    SameTasks(q + bag, x);
    assert x in q + bag;
  }

  lemma {:induction false} CountIn(q: seq<TaskDesc>, x: TaskDesc)
    ensures Count(q, x) > 0 <==> x in q
  {
    if q != [] { CountIn(q[1..], x); }
  }

  /** When a new task may start: after the running task, which takes `first` more, and everything due by `t`. */
  function Start(queue: seq<TaskDesc>, first: nat, base: int, t: int): int {
    if queue == [] then base else base + first + Demand(queue[1..], t)
  }

  /** When the new tasks have to be done. */
  function End(queue: seq<TaskDesc>, t: int): int {
    if queue == [] || queue[|queue| - 1].deadline <= t then t
    else if t < Latest(Later(queue, t), queue[|queue| - 1].deadline) then t
    else Latest(Later(queue, t), queue[|queue| - 1].deadline)
  }

  /** Goes forward over the tasks that are due by `t`, behind the running one. */
  method FindStart(queue: seq<TaskDesc>, first: nat, base: int, t: int) returns (start: int)
    requires Sorted(queue)
    ensures start == Start(queue, first, base, t)
  {
    start := base;
    if queue != [] {
      start := start + first;
      var i := 1;
      while i < |queue| && queue[i].deadline <= t
        invariant 1 <= i <= |queue| && start + Demand(queue[i..], t) == base + first + Demand(queue[1..], t)
      {
        start := start + queue[i].runtime;
        assert queue[i..][1..] == queue[i + 1..];
        i := i + 1;
      }
      if i < |queue| { DemandNone(queue[i..], t); }
    }
  }

  /** Goes back over the tasks that are due later. */
  method FindEnd(queue: seq<TaskDesc>, t: int) returns (end: int)
    requires Sorted(queue)
    ensures end == End(queue, t)
  {
    end := t;
    if queue != [] && queue[|queue| - 1].deadline > t {
      var top := queue[|queue| - 1].deadline;
      var latest, i := top, |queue|;
      while i > 0 && queue[i - 1].deadline > t
        invariant 0 <= i <= |queue| && latest == Latest(queue[i..], top)
        invariant forall j | i <= j < |queue| :: queue[j].deadline > t
      {
        LatestFrom(queue, i - 1, top);
        if queue[i - 1].deadline < latest { latest := queue[i - 1].deadline; }
        latest := latest - queue[i - 1].runtime;
        i := i - 1;
      }
      LaterFrom(queue, t, i);
      if latest < t { end := latest; }
    }
  }

  lemma LatestFrom(q: seq<TaskDesc>, i: nat, top: int)
    requires i < |q|
    ensures var after := Latest(q[i + 1..], top);
            Latest(q[i..], top) == (if q[i].deadline < after then q[i].deadline else after) - q[i].runtime
  {
    assert q[i..][1..] == q[i + 1..];
  }

  lemma {:induction false} LaterFrom(q: seq<TaskDesc>, t: int, i: nat)
    requires Sorted(q) && i <= |q| && (i > 0 ==> q[i - 1].deadline <= t)
    requires forall j | i <= j < |q| :: q[j].deadline > t
    ensures Later(q, t) == q[i..]
  {
    if i > 0 { LaterFrom(q[1..], t, i - 1); }
  }

  /** The queue that is run from `base` on: its first task takes `first` more. */
  function Running(queue: seq<TaskDesc>, first: nat): seq<TaskDesc> {
    if queue == [] then [] else [queue[0].(runtime := first)] + queue[1..]
  }

  /**
   Work that fits in the hole can be inserted, whether the task that runs now is kept first (then the rest of the queue
   has room behind it) or is sorted in with the others.
   */
  lemma HoleIsRoom(queue: seq<TaskDesc>, first: nat, base: int, t: int, w: int)
    requires Sorted(queue) && w <= End(queue, t) - Start(queue, first, base, t)
    ensures queue != [] ==> Room(queue[1..], base + first, t, w)
    ensures Sorted(Running(queue, first)) && Room(Running(queue, first), base, t, w)
  {
    if queue != [] {
      if queue[0].deadline <= t {
        HoleIsExact(queue, first, base, t, w);
        RunningRoom(queue, first, base, t, w);
      } else {
        HoleAhead(queue, first, base, t, w);
      }
    }
  }

  /** The running task is due by `t`: kept first or sorted in, it is at the front. */
  lemma RunningRoom(queue: seq<TaskDesc>, first: nat, base: int, t: int, w: int)
    requires Sorted(queue) && queue != [] && queue[0].deadline <= t && Room(queue[1..], base + first, t, w)
    ensures Sorted(Running(queue, first)) && Room(Running(queue, first), base, t, w)
  {
    RunningSorted(queue, first);
    assert Running(queue, first)[1..] == queue[1..];
  }

  lemma MeetsFrom(q: seq<TaskDesc>, start: int, sooner: int)
    requires Meets(q, start) && sooner <= start
    ensures Meets(q, sooner)
  {
  }

  /** Every queued task is due after `t`: the new tasks go ahead of all of them, or of all but the running one. */
  lemma HoleAhead(queue: seq<TaskDesc>, first: nat, base: int, t: int, w: int)
    requires Sorted(queue) && queue != [] && queue[0].deadline > t
    requires w <= End(queue, t) - Start(queue, first, base, t)
    ensures Room(queue[1..], base + first, t, w)
    ensures Sorted(Running(queue, first)) && Room(Running(queue, first), base, t, w)
  {
    var rest, top := queue[1..], queue[|queue| - 1].deadline;
    var from := base + first + w;
    DemandNone(rest, t);
    LatestIsLatest(queue, top, from);
    MeetsHead(queue, from);
    MeetsFrom(rest, from + queue[0].runtime, from);
    if rest != [] { assert Later(rest, t) == rest; }
    RunningSorted(queue, first);
    RunningAhead(queue, first, base, t, w);
  }

  lemma RunningSorted(queue: seq<TaskDesc>, first: nat)
    requires Sorted(queue)
    ensures Sorted(Running(queue, first))
  {
  }

  lemma RunningAhead(queue: seq<TaskDesc>, first: nat, base: int, t: int, w: int)
    requires queue != [] && queue[0].deadline > t && base + first + w <= t && Meets(queue[1..], base + first + w)
    requires Demand(queue[1..], t) == 0
    ensures Room(Running(queue, first), base, t, w)
  {
    var run := Running(queue, first);
    assert run[1..] == queue[1..];
    assert Demand(run, t) == 0 && Later(run, t) == run;
    MeetsHead(run, base + w);
  }

  /** When the running task is due by `t`, the hole is exact: nothing longer fits. */
  lemma HoleIsExact(queue: seq<TaskDesc>, first: nat, base: int, t: int, w: int)
    requires Sorted(queue) && queue != [] && queue[0].deadline <= t
    ensures Room(queue[1..], base + first, t, w) <==> w <= End(queue, t) - Start(queue, first, base, t)
  {
    var rest, top := queue[1..], queue[|queue| - 1].deadline;
    var from := base + first + Demand(rest, t) + w;
    if top <= t {
      LaterNone(rest, t);
    } else {
      LaterEnds(queue, t);
      LatestIsLatest(Later(queue, t), top, from);
    }
  }

  /** There is room for `w` behind the running task. */
  predicate RoomFor(queue: seq<TaskDesc>, first: nat, base: int, t: int, w: int)
    requires queue != []
  {
    Room(queue[1..], base + first, t, w)
  }

  /** The hole of `queue` is what fits behind the running task, no more and no less. */
  ghost predicate Exact(queue: seq<TaskDesc>, first: nat, base: int, t: int)
    requires queue != []
  {
    forall w: nat :: RoomFor(queue, first, base, t, w) <==> w <= End(queue, t) - Start(queue, first, base, t)
  }

  /** What fits behind a running task that is due later: the least of `t` and the latest start of the rest. */
  lemma RoomBehind(queue: seq<TaskDesc>, first: nat, base: int, t: int, w: int)
    requires Sorted(queue) && queue != [] && queue[0].deadline > t
    ensures var free := Latest(queue[1..], queue[|queue| - 1].deadline);
            Room(queue[1..], base + first, t, w) <==> base + first + w <= t && base + first + w <= free
  {
    var rest, top := queue[1..], queue[|queue| - 1].deadline;
    DemandNone(rest, t);
    if rest != [] {
      assert Later(rest, t) == rest && rest[|rest| - 1].deadline == top;
      LatestIsLatest(rest, top, base + first + w);
    }
  }

  /** Not even nothing fits behind the running task: it ends after `t`, or too late for the rest of the queue. */
  predicate NoRoomBehind(queue: seq<TaskDesc>, first: nat, base: int, t: int)
    requires queue != []
  {
    base + first > t || base + first > Latest(queue[1..], queue[|queue| - 1].deadline)
  }

  /**
   The hole is exact if and only if the running task is due by the deadline of the new ones, or takes no time, or the
   whole queue, the running task included, could still wait for that deadline, or nothing fits in any case.
   */
  lemma HoleIsExactIff(queue: seq<TaskDesc>, first: nat, base: int, t: int)
    requires Sorted(queue) && queue != []
    ensures Exact(queue, first, base, t) <==>
              || queue[0].deadline <= t || queue[0].runtime == 0 || t <= Latest(queue, queue[|queue| - 1].deadline)
              || NoRoomBehind(queue, first, base, t)
  {
    if queue[0].deadline <= t {
      forall w: nat ensures RoomFor(queue, first, base, t, w) <==> w <= End(queue, t) - Start(queue, first, base, t) {
        HoleIsExact(queue, first, base, t, w);
      }
    } else {
      HoleBehind(queue, first, base, t);
    }
  }

  lemma HoleBehind(queue: seq<TaskDesc>, first: nat, base: int, t: int)
    requires Sorted(queue) && queue != [] && queue[0].deadline > t
    ensures Exact(queue, first, base, t) <==>
              || queue[0].runtime == 0 || t <= Latest(queue, queue[|queue| - 1].deadline)
              || NoRoomBehind(queue, first, base, t)
  {
    var top := queue[|queue| - 1].deadline;
    var free := Latest(queue[1..], top);
    var most := (if t < free then t else free) - base - first;
    DemandNone(queue[1..], t);
    assert Later(queue, t) == queue && top > t;
    forall w ensures RoomFor(queue, first, base, t, w) <==> w <= most {
      RoomBehind(queue, first, base, t, w);
    }
    if most >= 0 && most != End(queue, t) - Start(queue, first, base, t) {
      var w: nat := most;
      assert RoomFor(queue, first, base, t, w);
    }
  }

  /** One that is not: a task that has run for all its 50, and is due at 100, leaves 60 until 60; the hole says 50. */
  lemma HoleMayBeShort()
    ensures var queue := [TaskDesc(1, 1, 100, 50)];
            && Room(queue[1..], 0, 60, 60) && End(queue, 60) - Start(queue, 0, 0, 60) == 50 && !Exact(queue, 0, 0, 60)
  {
    var queue := [TaskDesc(1, 1, 100, 50)];
    assert queue[1..] == [] && Later(queue, 60) == queue;
    assert Latest(queue, 100) == 50 && RoomFor(queue, 0, 0, 60, 60);
  }

  // ---------------------------------------------------------------------------------------------
  // Work and time
  // ---------------------------------------------------------------------------------------------

  /** Operations that fit in a stretch of time, on a node of the given power (operations per second). */
  function Operations(time: int, power: real): nat
    requires power > 0.0
  {
    if time <= 0 then 0 else TimesPower(time, power).Floor
  }

  function TimesPower(time: int, power: real): (r: real)
    requires power > 0.0 && time > 0
    ensures r >= 0.0
  {
    (time as real / 1000000.0) * power
  }

  /** Time that a task of length `a` takes. */
  function Runtime(a: nat, power: real): nat
    requires power > 0.0
  {
    (a as real / power * 1000000.0).Floor
  }

  /** As many tasks as fit by operations also fit by time. */
  lemma TasksFit(k: nat, a: nat, time: int, power: real)
    requires power > 0.0 && k * a <= Operations(time, power) && k > 0 && time > 0
    ensures k * Runtime(a, power) <= time
  {
    var runtime, ops, work := Runtime(a, power), k * a, k * Runtime(a, power);
    ProductAsReal(k, a);
    ProductAsReal(k, runtime);
    FloorBelow(TimesPower(time, power));
    FloorBelow(a as real / power * 1000000.0);
    TasksFitReal(k as real, a as real, ops as real, runtime as real, work as real, time as real, power);
  }

  lemma FloorBelow(x: real)
    ensures x.Floor as real <= x
  {
  }

  lemma TasksFitReal(k: real, a: real, ops: real, runtime: real, work: real, time: real, power: real)
    requires power > 0.0 && k >= 0.0 && ops == k * a && work == k * runtime
    requires ops <= (time / 1000000.0) * power && runtime <= a / power * 1000000.0
    ensures work <= time
  {
    FitsReal(k, a, time, power);
    TimesMonotone(k, runtime, a / power * 1000000.0);
  }

  lemma ProductAsReal(x: int, y: int)
    ensures (x * y) as real == x as real * y as real
  {
  }

  lemma TimesMonotone(k: real, x: real, y: real)
    requires k >= 0.0 && x <= y
    ensures k * x <= k * y
  {
  }

  lemma FitsReal(k: real, a: real, time: real, power: real)
    requires power > 0.0 && k * a <= (time / 1000000.0) * power
    ensures k * (a / power * 1000000.0) <= time
  {
    var x, y := a / power, time / 1000000.0;
    assert x * power == a;
    CancelFactor(k, x, y, power);
    assert k * (x * 1000000.0) == (k * x) * 1000000.0;
  }

  lemma CancelFactor(k: real, x: real, y: real, power: real)
    requires power > 0.0 && k * (x * power) <= y * power
    ensures k * x <= y
  {
    assert k * (x * power) == (k * x) * power;
    if k * x > y { PositiveProduct(k * x - y, power); }
  }

  lemma PositiveProduct(x: real, y: real)
    requires x > 0.0 && y > 0.0
    ensures x * y > 0.0
  {
  }

  // ---------------------------------------------------------------------------------------------
  // The cache of holes
  // ---------------------------------------------------------------------------------------------

  /** A node, how many of the tasks it can hold, and what remains of its hole. */
  datatype Hole = Hole(node: nat, numTasks: nat, remaining: int)

  predicate Less(h: Hole, g: Hole) {
    h.remaining < g.remaining || (h.remaining == g.remaining && h.numTasks < g.numTasks)
  }

  function Capacity(cache: seq<Hole>): nat {
    if cache == [] then 0 else cache[0].numTasks + Capacity(cache[1..])
  }

  /** The heap has a largest hole at its top. */
  predicate IsTop(cache: seq<Hole>, i: nat) {
    i < |cache| && forall j | 0 <= j < |cache| :: !Less(cache[i], cache[j])
  }

  lemma {:induction false} CapacityAppend(a: seq<Hole>, b: seq<Hole>)
    ensures Capacity(a + b) == Capacity(a) + Capacity(b)
  {
    if a == [] {
      assert a + b == b;
    } else {
      CapacityAppend(a[1..], b);
      assert (a + b)[1..] == a[1..] + b;
    }
  }

  lemma CapacityWithout(cache: seq<Hole>, i: nat)
    requires i < |cache|
    ensures Capacity(cache) == Capacity(Without(cache, i)) + cache[i].numTasks
  {
    CapacityAppend(cache[..i], cache[i..]);
    CapacityAppend(cache[..i], cache[i + 1..]);
    assert cache == cache[..i] + cache[i..] && cache[i..][1..] == cache[i + 1..];
  }

  lemma CapacityWith(cache: seq<Hole>, h: Hole)
    ensures Capacity(cache + [h]) == Capacity(cache) + h.numTasks
  {
    CapacityAppend(cache, [h]);
    assert Capacity([h]) == h.numTasks + Capacity([h][1..]);
  }

  lemma {:induction false} CapacityCounts(cache: seq<Hole>)
    requires forall h | h in cache :: h.numTasks > 0
    ensures |cache| <= Capacity(cache)
  {
    if cache != [] { CapacityCounts(cache[1..]); }
  }

  /** Looks at the top of the heap. */
  method Top(cache: seq<Hole>) returns (i: nat)
    requires cache != []
    ensures IsTop(cache, i)
  {
    i := 0;
    for k := 1 to |cache|
      invariant i < k && forall j | 0 <= j < k :: !Less(cache[i], cache[j])
    {
      if Less(cache[i], cache[k]) { i := k; }
    }
  }

  /** Holes of different nodes, each for at least one task, and never more of them than there are tasks. */
  predicate GoodCache(cache: seq<Hole>, numTasks: nat) {
    && |cache| <= numTasks
    && (forall h | h in cache :: h.numTasks > 0)
    && (forall i, j | 0 <= i < j < |cache| :: cache[i].node != cache[j].node)
  }

  lemma GoodWithout(cache: seq<Hole>, numTasks: nat, i: nat)
    requires GoodCache(cache, numTasks) && i < |cache|
    ensures GoodCache(Without(cache, i), numTasks) && forall h | h in Without(cache, i) :: h in cache
    ensures |Without(cache, i)| == |cache| - 1 && cache[i] !in Without(cache, i)
  {
  }

  /** Drops the worst holes that `h` makes unnecessary, and adds `h`: the cache keeps enough room for all the tasks. */
  method AddHole(cache: seq<Hole>, cachedTasks: nat, h: Hole, numTasks: nat)
    returns (cache': seq<Hole>, cachedTasks': nat)
    requires GoodCache(cache, numTasks) && cachedTasks == Capacity(cache) && h.numTasks > 0 && numTasks > 0
    requires forall g | g in cache :: g.node != h.node
    ensures GoodCache(cache', numTasks) && cachedTasks' == Capacity(cache')
    ensures forall g | g in cache' :: g == h || g in cache
    ensures cachedTasks < numTasks ==> cachedTasks' == cachedTasks + h.numTasks
    ensures cachedTasks >= numTasks ==> numTasks <= cachedTasks' <= cachedTasks + h.numTasks
  {
    cache', cachedTasks' := cache, cachedTasks;
    CapacityCounts(cache);
    if cachedTasks == 0 || cachedTasks < numTasks {
      CapacityWith(cache, h);
      cache', cachedTasks' := cache + [h], cachedTasks + h.numTasks;
    } else {
      var top := Top(cache);
      if Less(h, cache[top]) {
        while cachedTasks' > 0 && cachedTasks' - cache'[top].numTasks + h.numTasks >= numTasks && Less(h, cache'[top])
          invariant GoodCache(cache', numTasks) && cachedTasks' == Capacity(cache') && cachedTasks' <= cachedTasks
          invariant forall g | g in cache' :: g in cache
          invariant cachedTasks' + h.numTasks >= numTasks
          invariant cache' == cache || |cache'| < numTasks
          invariant cachedTasks' > 0 ==> cache' != [] && IsTop(cache', top)
          invariant cache' == cache ==> cachedTasks' > 0 && cachedTasks' >= numTasks && Less(h, cache'[top])
          decreases |cache'|
        {
          CapacityWithout(cache', top);
          GoodWithout(cache', numTasks, top);
          cachedTasks' := cachedTasks' - cache'[top].numTasks;
          cache' := Without(cache', top);
          if cachedTasks' > 0 { top := Top(cache'); }
        }
        if cache' == cache { RoomForOne(cache, top, h, numTasks); }
        CapacityWith(cache', h);
        cache', cachedTasks' := cache' + [h], cachedTasks' + h.numTasks;
      }
    }
  }

  /** When not even the worst hole can go, there is room for one more. */
  lemma RoomForOne(cache: seq<Hole>, i: nat, h: Hole, numTasks: nat)
    requires GoodCache(cache, numTasks) && i < |cache| && h.numTasks > 0
    requires Capacity(cache) - cache[i].numTasks + h.numTasks < numTasks
    ensures |cache| < numTasks
  {
    CapacityWithout(cache, i);
    GoodWithout(cache, numTasks, i);
    CapacityCounts(Without(cache, i));
  }

  // ---------------------------------------------------------------------------------------------
  // A new application
  // ---------------------------------------------------------------------------------------------

  /** What is known of the nodes when an application arrives. */
  datatype Nodes = Nodes(suitable: seq<bool>, first: seq<nat>, power: seq<real>)

  predicate GoodNodes(nodes: Nodes, count: nat) {
    && |nodes.suitable| == count && |nodes.first| == count && |nodes.power| == count
    && forall n | 0 <= n < count :: nodes.power[n] > 0.0
  }

  datatype Request = Request(id: int, length: nat, numTasks: nat, deadline: int)

  /** How many of the tasks node `n` can hold: none unless the hole is larger than one task. */
  function Holds(queues: seq<seq<TaskDesc>>, nodes: Nodes, req: Request, base: int, n: nat): nat
    requires GoodNodes(nodes, |queues|) && n < |queues| && req.length > 0
  {
    var avail := Operations(End(queues[n], req.deadline) - Start(queues[n], nodes.first[n], base, req.deadline),
      nodes.power[n]);
    if nodes.suitable[n] && avail > req.length then avail / req.length else 0
  }

  function HoldsUpTo(queues: seq<seq<TaskDesc>>, nodes: Nodes, req: Request, base: int, k: nat): nat
    requires GoodNodes(nodes, |queues|) && k <= |queues| && req.length > 0
  {
    if k == 0 then 0 else HoldsUpTo(queues, nodes, req, base, k - 1) + Holds(queues, nodes, req, base, k - 1)
  }

  /** The new tasks, as they are numbered and given to the nodes, are sorted into the queues; no hole is exceeded. */
  predicate Assigned(was: seq<seq<TaskDesc>>, now: seq<seq<TaskDesc>>, nodes: Nodes, req: Request, base: int,
                     given: seq<nat>, tids: seq<nat>)
    requires GoodNodes(nodes, |was|) && req.length > 0
  {
    AllAssigned(was, now, nodes, req, base, given, tids) && Numbered(given, tids, Total(given))
  }

  predicate AllAssigned(was: seq<seq<TaskDesc>>, now: seq<seq<TaskDesc>>, nodes: Nodes, req: Request, base: int,
                        given: seq<nat>, tids: seq<nat>)
    requires GoodNodes(nodes, |was|) && req.length > 0
  {
    && |now| == |was| && |given| == |was| && |tids| == |was|
    && forall n | 0 <= n < |was| :: NodeAssigned(was, now[n], nodes, req, base, n, given[n], tids[n])
  }

  predicate NodeAssigned(was: seq<seq<TaskDesc>>, queue: seq<TaskDesc>, nodes: Nodes, req: Request, base: int,
                         n: nat, k: nat, tid: nat)
    requires GoodNodes(nodes, |was|) && req.length > 0 && n < |was|
  {
    && k <= Holds(was, nodes, req, base, n)
    && queue == Sort(was[n] + Bag(req.id, tid, k, req.deadline, Runtime(req.length, nodes.power[n])))
  }

  lemma NothingAssigned(queues: seq<seq<TaskDesc>>, nodes: Nodes, req: Request, base: int, given: seq<nat>,
                        tids: seq<nat>)
    requires GoodNodes(nodes, |queues|) && req.length > 0 && |given| == |queues| && |tids| == |queues|
    requires forall n | 0 <= n < |queues| :: Sorted(queues[n]) && given[n] == 0
    ensures Assigned(queues, queues, nodes, req, base, given, tids)
  {
    forall n | 0 <= n < |queues| ensures NodeAssigned(queues, queues[n], nodes, req, base, n, given[n], tids[n]) {
      SortOfSorted(queues[n]);
      assert queues[n] + [] == queues[n];
    }
  }

  lemma OneMoreAssigned(was: seq<seq<TaskDesc>>, now: seq<seq<TaskDesc>>, nodes: Nodes, req: Request, base: int,
                        given: seq<nat>, tids: seq<nat>, n: nat, k: nat)
    requires GoodNodes(nodes, |was|) && req.length > 0 && Assigned(was, now, nodes, req, base, given, tids)
    requires n < |was| && given[n] == 0 && k <= Holds(was, nodes, req, base, n) && Sorted(was[n])
    ensures
      var tid := 1 + Total(given);
      Assigned(was, now[n := Sort(now[n] + Bag(req.id, tid, k, req.deadline, Runtime(req.length, nodes.power[n])))],
               nodes, req, base, given[n := k], tids[n := tid])
  {
    NumberedMore(given, tids, n, k);
    TotalUpdate(given, n, k);
    OneMoreQueue(was, now, nodes, req, base, given, tids, n, k, 1 + Total(given));
  }

  lemma OneMoreQueue(was: seq<seq<TaskDesc>>, now: seq<seq<TaskDesc>>, nodes: Nodes, req: Request, base: int,
                     given: seq<nat>, tids: seq<nat>, n: nat, k: nat, tid: nat)
    requires GoodNodes(nodes, |was|) && req.length > 0 && AllAssigned(was, now, nodes, req, base, given, tids)
    requires n < |was| && given[n] == 0 && k <= Holds(was, nodes, req, base, n) && Sorted(was[n])
    ensures
      AllAssigned(was, now[n := Sort(now[n] + Bag(req.id, tid, k, req.deadline, Runtime(req.length, nodes.power[n])))],
                  nodes, req, base, given[n := k], tids[n := tid])
  {
    var queue := Sort(now[n] + Bag(req.id, tid, k, req.deadline, Runtime(req.length, nodes.power[n])));
    assert NodeAssigned(was, now[n], nodes, req, base, n, given[n], tids[n]);
    NobodyYet(was, now[n], nodes, req, base, n, tids[n]);
    assert NodeAssigned(was, queue, nodes, req, base, n, k, tid);
    OthersAssigned(was, now, nodes, req, base, given, tids, n, now[n := queue], given[n := k], tids[n := tid]);
  }

  lemma OthersAssigned(was: seq<seq<TaskDesc>>, now: seq<seq<TaskDesc>>, nodes: Nodes, req: Request, base: int,
                       given: seq<nat>, tids: seq<nat>, n: nat, now': seq<seq<TaskDesc>>, given': seq<nat>,
                         tids': seq<nat>)
    requires GoodNodes(nodes, |was|) && req.length > 0 && n < |was|
    requires AllAssigned(was, now, nodes, req, base, given, tids)
    requires |now'| == |was| && |given'| == |was| && |tids'| == |was|
    requires forall m | 0 <= m < |was| && m != n :: now'[m] == now[m] && given'[m] == given[m] && tids'[m] == tids[m]
    requires NodeAssigned(was, now'[n], nodes, req, base, n, given'[n], tids'[n])
    ensures AllAssigned(was, now', nodes, req, base, given', tids')
  {
    forall m | 0 <= m < |was| ensures NodeAssigned(was, now'[m], nodes, req, base, m, given'[m], tids'[m]) {
      if m != n { assert NodeAssigned(was, now[m], nodes, req, base, m, given[m], tids[m]); }
    }
  }

  lemma NobodyYet(was: seq<seq<TaskDesc>>, queue: seq<TaskDesc>, nodes: Nodes, req: Request, base: int, n: nat,
                  tid: nat)
    requires GoodNodes(nodes, |was|) && req.length > 0 && n < |was| && Sorted(was[n])
    requires NodeAssigned(was, queue, nodes, req, base, n, 0, tid)
    ensures queue == was[n]
  {
    SortOfSorted(was[n]);
    assert was[n] + [] == was[n];
  }

  lemma AssignedSorted(was: seq<seq<TaskDesc>>, now: seq<seq<TaskDesc>>, nodes: Nodes, req: Request, base: int,
                       given: seq<nat>, tids: seq<nat>)
    requires GoodNodes(nodes, |was|) && req.length > 0 && Assigned(was, now, nodes, req, base, given, tids)
    ensures forall n | 0 <= n < |now| :: Sorted(now[n])
  {
    forall n | 0 <= n < |now| ensures Sorted(now[n]) {
      assert NodeAssigned(was, now[n], nodes, req, base, n, given[n], tids[n]);
      SortSorts(was[n] + Bag(req.id, tids[n], given[n], req.deadline, Runtime(req.length, nodes.power[n])),
        TaskDesc(0, 0, 0, 0));
    }
  }

  /** The holes that are left belong to different nodes that have got nothing yet. */
  predicate Pending(left: seq<Hole>, was: seq<seq<TaskDesc>>, nodes: Nodes, req: Request, base: int, given: seq<nat>)
    requires GoodNodes(nodes, |was|) && req.length > 0
  {
    && |given| == |was|
    && (forall h | h in left ::
       h.node < |was| && given[h.node] == 0 && h.numTasks == Holds(was, nodes, req, base, h.node))
    && (forall i, j | 0 <= i < j < |left| :: left[i].node != left[j].node)
  }

  lemma PendingNext(left: seq<Hole>, was: seq<seq<TaskDesc>>, nodes: Nodes, req: Request, base: int, given: seq<nat>,
                    i: nat)
    requires GoodNodes(nodes, |was|) && req.length > 0 && Pending(left, was, nodes, req, base, given) && i < |left|
    ensures left[i] in left && left[i].node < |was| && |Without(left, i)| == |left| - 1
    ensures given[left[i].node] == 0 && left[i].numTasks == Holds(was, nodes, req, base, left[i].node)
    ensures Pending(Without(left, i), was, nodes, req, base, given)
    ensures forall h | h in Without(left, i) :: h.node != left[i].node
  {
    assert forall h | h in Without(left, i) :: h in left && h.node != left[i].node;
  }

  /** A hole that holds no task is passed over; `all` is what the holes so far hold together. */
  method Consider(cache: seq<Hole>, cachedTasks: nat, h: Hole, numTasks: nat, ghost all: nat)
    returns (cache': seq<Hole>, cachedTasks': nat)
    requires GoodCache(cache, numTasks) && cachedTasks == Capacity(cache) && numTasks > 0
    requires (forall g | g in cache :: g.node != h.node) && cachedTasks <= all
    requires cachedTasks < numTasks ==> cachedTasks == all
    ensures GoodCache(cache', numTasks) && cachedTasks' == Capacity(cache')
    ensures forall g | g in cache' :: g == h || g in cache
    ensures cachedTasks' <= all + h.numTasks && (cachedTasks' < numTasks ==> cachedTasks' == all + h.numTasks)
  {
    cache', cachedTasks' := cache, cachedTasks;
    if h.numTasks > 0 { cache', cachedTasks' := AddHole(cache, cachedTasks, h, numTasks); }
  }

  class CentralizedDP {
    var queues: seq<seq<TaskDesc>>

    predicate Valid()
      reads this
    {
      forall n | 0 <= n < |queues| :: Sorted(queues[n])
    }

    constructor (count: nat)
      ensures Valid() && |queues| == count && forall n | 0 <= n < count :: queues[n] == []
    {
      queues := seq(count, _ => []);
    }

    /** Collects the holes of the suitable nodes. */
    method FindHoles(nodes: Nodes, req: Request, base: int) returns (cache: seq<Hole>, cachedTasks: nat)
      requires Valid() && GoodNodes(nodes, |queues|) && req.length > 0 && req.numTasks > 0
      ensures GoodCache(cache, req.numTasks) && cachedTasks == Capacity(cache)
      ensures forall h | h in cache :: h.node < |queues| && h.numTasks == Holds(queues, nodes, req, base, h.node)
      ensures cachedTasks <= HoldsUpTo(queues, nodes, req, base, |queues|)
      ensures cachedTasks < req.numTasks ==> cachedTasks == HoldsUpTo(queues, nodes, req, base, |queues|)
    {
      cache, cachedTasks := [], 0;
      for n := 0 to |queues|
        invariant GoodCache(cache, req.numTasks) && cachedTasks == Capacity(cache)
        invariant forall h | h in cache :: h.node < n && h.numTasks == Holds(queues, nodes, req, base, h.node)
        invariant cachedTasks <= HoldsUpTo(queues, nodes, req, base, n)
        invariant cachedTasks < req.numTasks ==> cachedTasks == HoldsUpTo(queues, nodes, req, base, n)
      {
        ghost var all := HoldsUpTo(queues, nodes, req, base, n);
        assert HoldsUpTo(queues, nodes, req, base, n + 1) == all + Holds(queues, nodes, req, base, n);
        if nodes.suitable[n] {
          var hole := HoleOf(nodes, req, base, n);
          cache, cachedTasks := Consider(cache, cachedTasks, hole, req.numTasks, all);
        }
      }
    }

    /** The hole of a suitable node; it holds no task unless it is larger than one. */
    method HoleOf(nodes: Nodes, req: Request, base: int, n: nat) returns (hole: Hole)
      requires Valid() && GoodNodes(nodes, |queues|) && req.length > 0 && n < |queues| && nodes.suitable[n]
      ensures hole.node == n && hole.numTasks == Holds(queues, nodes, req, base, n)
    {
      var queue := queues[n];
      var start := FindStart(queue, nodes.first[n], base, req.deadline);
      var end := FindEnd(queue, req.deadline);
      var avail := Operations(end - start, nodes.power[n]);
      var total := if queue == [] || queue[|queue| - 1].deadline <= req.deadline then avail
                   else Operations(Latest(Later(queue, req.deadline), queue[|queue| - 1].deadline) - start,
                        nodes.power[n]);
      var fit := if avail > req.length then avail / req.length else 0;
      hole := Hole(n, fit, total - req.length * fit);
    }

    /**
     Spreads the tasks of a request over the holes. All of them are assigned, or as many as the holes of all suitable
     nodes can hold together; no node gets more than its hole can hold; and the tasks are numbered without a gap.
     */
    method NewApp(nodes: Nodes, req: Request, now: int) returns (given: seq<nat>, tids: seq<nat>)
      requires Valid() && GoodNodes(nodes, |queues|) && req.length > 0 && req.numTasks > 0
      modifies this
      ensures Valid() && Assigned(old(queues), queues, nodes, req, now + 1000000, given, tids)
      ensures
        var all := HoldsUpTo(old(queues), nodes, req, now + 1000000, |queues|);
        Total(given) == if all < req.numTasks then all else req.numTasks
    {
      var cache, cachedTasks := FindHoles(nodes, req, now + 1000000);
      given, tids := Assign(nodes, req, now + 1000000, cache, cachedTasks);
    }

    /** Takes the worst holes first; the tasks that the cache could hold beyond the needed ones are left out of them. */
    method Assign(nodes: Nodes, req: Request, ghost base: int, cache: seq<Hole>, cachedTasks: nat)
      returns (given: seq<nat>, tids: seq<nat>)
      requires Valid() && GoodNodes(nodes, |queues|) && req.length > 0
      requires GoodCache(cache, req.numTasks) && cachedTasks == Capacity(cache)
      requires forall h | h in cache :: h.node < |queues| && h.numTasks == Holds(queues, nodes, req, base, h.node)
      modifies this
      ensures Valid() && Assigned(old(queues), queues, nodes, req, base, given, tids)
      ensures Total(given) == if cachedTasks < req.numTasks then cachedTasks else req.numTasks
    {
      var left := cache;
      var ignoreTasks: nat := if cachedTasks > req.numTasks then cachedTasks - req.numTasks else 0;
      var tid := 1;
      given, tids := seq(|queues|, _ => 0), seq(|queues|, _ => 1);
      TotalZero(given);
      NothingAssigned(queues, nodes, req, base, given, tids);
      while left != []
        invariant Assigned(old(queues), queues, nodes, req, base, given, tids)
        invariant Pending(left, old(queues), nodes, req, base, given)
        invariant ignoreTasks <= Capacity(left) && tid == 1 + Total(given)
        invariant Total(given) + Capacity(left) - ignoreTasks ==
            if cachedTasks < req.numTasks then cachedTasks else req.numTasks
        decreases |left|
      {
        var top := Top(left);
        var best := left[top];
        CapacityWithout(left, top);
        PendingNext(left, old(queues), nodes, req, base, given, top);
        if best.numTasks <= ignoreTasks {
          ignoreTasks := ignoreTasks - best.numTasks;
        } else {
          var k := best.numTasks - ignoreTasks;
          given, tids := Give(old(queues), nodes, req, base, given, tids, tid, best.node, k);
          tid := tid + k;
          ignoreTasks := 0;
        }
        left := Without(left, top);
      }
      assert Capacity(left) == 0;
      AssignedSorted(old(queues), queues, nodes, req, base, given, tids);
    }

    /** Gives the next `k` tasks to a node that has none of them yet. */
    method Give(ghost was: seq<seq<TaskDesc>>, nodes: Nodes, req: Request, ghost base: int,
                given: seq<nat>, tids: seq<nat>, tid: nat, n: nat, k: nat) returns (given': seq<nat>, tids': seq<nat>)
      requires GoodNodes(nodes, |was|) && req.length > 0 && Assigned(was, queues, nodes, req, base, given, tids)
      requires n < |was| && given[n] == 0 && k <= Holds(was, nodes, req, base, n) && Sorted(was[n])
      requires tid == 1 + Total(given)
      modifies this
      ensures |given'| == |given| && given' == given[n := k] && Total(given') == Total(given) + k
      ensures Assigned(was, queues, nodes, req, base, given', tids')
    {
      TotalUpdate(given, n, k);
      OneMoreAssigned(was, queues, nodes, req, base, given, tids, n, k);
      PushTasks(n, req, tid, k, Runtime(req.length, nodes.power[n]));
      given', tids' := given[n := k], tids[n := tid];
    }

    /** Appends `k` tasks to a queue and sorts it. */
    method PushTasks(n: nat, req: Request, tid: nat, k: nat, runtime: nat)
      requires n < |queues|
      modifies this
      ensures queues == old(queues)[n := Sort(old(queues)[n] + Bag(req.id, tid, k, req.deadline, runtime))]
    {
      var queue := queues[n];
      for j := 0 to k
        invariant queue == queues[n] + Bag(req.id, tid, j, req.deadline, runtime)
      {
        queue := queue + [TaskDesc(req.id, tid + j, req.deadline, runtime)];
      }
      var sorted := SortQueue(queue);
      queues := queues[n := sorted];
    }
  }

  /** The tasks that a node is given fit in its hole. */
  lemma BagFits(queues: seq<seq<TaskDesc>>, nodes: Nodes, req: Request, base: int, n: nat, k: nat, tid: nat)
    requires GoodNodes(nodes, |queues|) && n < |queues| && req.length > 0
    requires 0 < k <= Holds(queues, nodes, req, base, n)
    ensures Work(Bag(req.id, tid, k, req.deadline, Runtime(req.length, nodes.power[n])))
            <= End(queues[n], req.deadline) - Start(queues[n], nodes.first[n], base, req.deadline)
  {
    var power := nodes.power[n];
    var time := End(queues[n], req.deadline) - Start(queues[n], nodes.first[n], base, req.deadline);
    FewerFit(k, Operations(time, power), req.length);
    TasksFit(k, req.length, time, power);
    BagWork(req.id, tid, k, req.deadline, Runtime(req.length, power));
  }

  lemma FewerFit(k: nat, ops: nat, length: nat)
    requires length > 0 && k <= ops / length
    ensures k * length <= ops
  {
    assert (ops / length) * length <= ops;
    assert k * length <= (ops / length) * length;
  }

  /** `after` is `before` with new tasks due at `t`, which harm nobody. */
  predicate Harmless(before: seq<TaskDesc>, after: seq<TaskDesc>, start: int, t: int) {
    && Early(after, t) == Early(before, t)
    && (forall i | 0 <= i < |after| && after[i].deadline >= t :: start + Work(after[..i + 1]) <= after[i].deadline)
    && (Meets(after, start) <==> Meets(before, start))
  }

  /**
   The tasks that `NewApp` gives to a node are harmless, whether the running task is sorted in with the others, as in
   the queue, or is kept running first: the tasks due before the new ones keep their places, and the new ones and all
   that are due with or after them finish in time.
   */
  lemma NewAppKeepsDeadlines(queues: seq<seq<TaskDesc>>, nodes: Nodes, req: Request, base: int, n: nat, k: nat,
                             tid: nat)
    requires GoodNodes(nodes, |queues|) && n < |queues| && req.length > 0 && Sorted(queues[n])
    requires 0 < k <= Holds(queues, nodes, req, base, n)
    ensures
      var bag := Bag(req.id, tid, k, req.deadline, Runtime(req.length, nodes.power[n]));
      var first := nodes.first[n];
      && Harmless(Running(queues[n], first), Sort(Running(queues[n], first) + bag), base, req.deadline)
      && (queues[n] != [] ==> Harmless(queues[n][1..], Sort(queues[n][1..] + bag), base + first, req.deadline))
  {
    var bag := Bag(req.id, tid, k, req.deadline, Runtime(req.length, nodes.power[n]));
    BagFits(queues, nodes, req, base, n, k, tid);
    HoleIsRoom(queues[n], nodes.first[n], base, req.deadline, Work(bag));
    RoomIsHarmless(Running(queues[n], nodes.first[n]), base, req.deadline, bag);
    if queues[n] != [] { RoomIsHarmless(queues[n][1..], base + nodes.first[n], req.deadline, bag); }
  }

  lemma RoomIsHarmless(q: seq<TaskDesc>, start: int, t: int, bag: seq<TaskDesc>)
    requires Sorted(q) && Room(q, start, t, Work(bag)) && forall x | x in bag :: x.deadline == t
    ensures Harmless(q, Sort(q + bag), start, t)
  {
    InsertionKeepsDeadlines(q, start, t, bag, Work(bag));
  }
}
