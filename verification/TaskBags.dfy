/**
 Bags of tasks on their way through the tree: dispatchers split them (`sendTasks` in
 include/Dispatcher.hpp, `getSubRequest` in include/TaskBagMsg.hpp) and schedulers accept a first part of
 what they get (include/Scheduler.hpp, src/lib/scheduling/Scheduler.cpp).
 */
module TaskBags {
  import opened Common

  /** Task numbers are 32-bit words. */
  const WORD := 0x1_0000_0000

  /** The tasks of a request from `first` to `last`; a scheduler's request is marked `forEN`. */
  datatype Bag = Bag(first: nat, last: nat, forEN: bool)

  predicate Fits(b: Bag) {
    b.first <= b.last < WORD
  }

  function Size(b: Bag): nat
    requires Fits(b)
  {
    b.last - b.first + 1
  }

  predicate Has(b: Bag, x: nat) {
    b.first <= x <= b.last
  }

  /** In how many bags a task is. */
  function Hits(bags: seq<Bag>, x: nat): nat {
    if bags == [] then 0 else One(Has(bags[0], x)) + Hits(bags[1..], x)
  }

  // ---------------------------------------------------------------------------------------------
  // Splitting
  // ---------------------------------------------------------------------------------------------

  /** What goes to the two children: the first tasks to one, the next ones to the other. */
  function ToChildren(b: Bag, left: nat, right: nat, leftIsLeaf: bool, rightIsLeaf: bool): seq<Bag>
    requires Fits(b) && left + right <= Size(b)
  {
    (if left > 0 then [Bag(b.first, b.first + left - 1, leftIsLeaf)] else [])
    + if right > 0 then [Bag(b.first + left, b.first + left + right - 1, rightIsLeaf)] else []
  }

  /** What is left for the father. The number of the next task wraps around after the last word. */
  function ToFather(b: Bag, left: nat, right: nat): seq<Bag>
    requires Fits(b) && left + right <= Size(b)
  {
    var next := (b.first + left + right) % WORD;
    if next <= b.last then [Bag(next, b.last, b.forEN)] else []
  }

  lemma {:induction false} HitsAppend(a: seq<Bag>, b: seq<Bag>, x: nat)
    ensures Hits(a + b, x) == Hits(a, x) + Hits(b, x)
  {
    if a == [] {
      assert a + b == b;
    } else {
      HitsAppend(a[1..], b, x);
      assert (a + b)[1..] == a[1..] + b;
    }
  }

  lemma HitsOne(b: Bag, x: nat)
    ensures Hits([b], x) == One(Has(b, x))
  {
    assert [b][1..] == [];
  }

  lemma PartsFit(b: Bag, left: nat, right: nat, leftIsLeaf: bool, rightIsLeaf: bool)
    requires Fits(b) && left + right <= Size(b)
    ensures forall p | p in ToChildren(b, left, right, leftIsLeaf, rightIsLeaf) :: Fits(p) && p.last <= b.last
    ensures forall p | p in ToFather(b, left, right) :: Fits(p) && p.last <= b.last
  {
  }

  /**
   The parts are inside the bag, without a gap and without an overlap, unless the number of the next task wraps around.
   */
  lemma SplitIsExact(b: Bag, left: nat, right: nat, leftIsLeaf: bool, rightIsLeaf: bool)
    requires Fits(b) && left + right <= Size(b)
    ensures
      var parts := ToChildren(b, left, right, leftIsLeaf, rightIsLeaf) + ToFather(b, left, right);
      (forall x: nat :: Hits(parts, x) == One(Has(b, x))) <==> b.last < WORD - 1 || left + right < Size(b)
  {
    var parts := ToChildren(b, left, right, leftIsLeaf, rightIsLeaf) + ToFather(b, left, right);
    forall x: nat
      ensures Hits(parts, x) == One(b.first <= x < b.first + left + right) + Hits(ToFather(b, left, right), x)
    {
      ChildrenHit(b, left, right, leftIsLeaf, rightIsLeaf, x);
      HitsAppend(ToChildren(b, left, right, leftIsLeaf, rightIsLeaf), ToFather(b, left, right), x);
    }
    forall x: nat | ToFather(b, left, right) != []
      ensures Hits(ToFather(b, left, right), x) == One(Has(ToFather(b, left, right)[0], x))
    {
      HitsOne(ToFather(b, left, right)[0], x);
    }
    if b.last == WORD - 1 && left + right == Size(b) {
      assert ToFather(b, left, right) == [Bag(0, b.last, b.forEN)];
      assert Hits(parts, b.last) == 2;
    }
  }

  lemma ChildrenHit(b: Bag, left: nat, right: nat, leftIsLeaf: bool, rightIsLeaf: bool, x: nat)
    requires Fits(b) && left + right <= Size(b)
    ensures Hits(ToChildren(b, left, right, leftIsLeaf, rightIsLeaf), x) == One(b.first <= x < b.first + left + right)
  {
    var l := if left > 0 then [Bag(b.first, b.first + left - 1, leftIsLeaf)] else [];
    var r := if right > 0 then [Bag(b.first + left, b.first + left + right - 1, rightIsLeaf)] else [];
    HitsAppend(l, r, x);
    if l != [] { HitsOne(l[0], x); }
    if r != [] { HitsOne(r[0], x); }
  }

  /** The one task of the very last number, given to a child, goes to the father too. */
  lemma LastWordIsSentTwice()
    ensures
      var b := Bag(WORD - 1, WORD - 1, false);
      Fits(b) && Hits(ToChildren(b, 1, 0, true, true) + ToFather(b, 1, 0), WORD - 1) == 2
  {
    var b := Bag(WORD - 1, WORD - 1, false);
    assert ToChildren(b, 1, 0, true, true) == [Bag(WORD - 1, WORD - 1, true)];
    assert ToFather(b, 1, 0) == [Bag(0, WORD - 1, false)];
    HitsAppend([Bag(WORD - 1, WORD - 1, true)], [Bag(0, WORD - 1, false)], WORD - 1);
    HitsOne(Bag(WORD - 1, WORD - 1, true), WORD - 1);
    HitsOne(Bag(0, WORD - 1, false), WORD - 1);
  }

  // ---------------------------------------------------------------------------------------------
  // Runs
  // ---------------------------------------------------------------------------------------------

  /** Where the tasks of one request are: on their way, accepted by schedulers, or dropped. */
  datatype State = State(flying: seq<Bag>, accepted: seq<Bag>, dropped: seq<Bag>)

  datatype Step =
    | Split(i: nat, left: nat, right: nat, leftIsLeaf: bool, rightIsLeaf: bool, sendToFather: bool)
    | Accept(i: nat, k: nat)
    | Drop(i: nat)

  predicate Enabled(s: State, a: Step) {
    && a.i < |s.flying| && Fits(s.flying[a.i])
    && (a.Split? ==> !s.flying[a.i].forEN && a.left + a.right <= Size(s.flying[a.i]))
    && (a.Accept? ==> s.flying[a.i].forEN && a.k <= Size(s.flying[a.i]))
  }

  /** What a scheduler takes, and what it rejects. */
  function Taken(b: Bag, k: nat): seq<Bag>
    requires Fits(b) && k <= Size(b)
  {
    if k > 0 then [Bag(b.first, b.first + k - 1, true)] else []
  }

  function Rejected(b: Bag, k: nat): seq<Bag>
    requires Fits(b) && k <= Size(b)
  {
    if k < Size(b) then [Bag(b.first + k, b.last, true)] else []
  }

  function Does(s: State, a: Step): State
    requires Enabled(s, a)
  {
    var b, rest := s.flying[a.i], Without(s.flying, a.i);
    match a
    case Split(_, left, right, leftIsLeaf, rightIsLeaf, sendToFather) =>
      var down, up := ToChildren(b, left, right, leftIsLeaf, rightIsLeaf), ToFather(b, left, right);
      if sendToFather then s.(flying := rest + down + up)
      else s.(flying := rest + down, dropped := s.dropped + up)
    case Accept(_, k) => s.(flying := rest, accepted := s.accepted + Taken(b, k), dropped := s.dropped + Rejected(b, k))
    case Drop(_) => s.(flying := rest, dropped := s.dropped + [b])
  }

  /** The states that a request goes through with the given steps. */
  ghost predicate Run(request: Bag, ss: seq<State>, steps: seq<Step>) {
    && |ss| == |steps| + 1 && ss[0] == State([request], [], [])
    && forall k | 0 <= k < |steps| :: Enabled(ss[k], steps[k]) && ss[k + 1] == Does(ss[k], steps[k])
  }

  /** In this step the children take all tasks of a bag that ends with the largest word. */
  predicate Wraps(s: State, a: Step)
    requires Enabled(s, a)
  {
    a.Split? && s.flying[a.i].last == WORD - 1 && a.left + a.right == Size(s.flying[a.i])
  }

  /** None of the first `k` steps does. */
  ghost predicate NoneWraps(request: Bag, ss: seq<State>, steps: seq<Step>, k: nat)
    requires Run(request, ss, steps) && k <= |steps|
  {
    forall j | 0 <= j < k :: !Wraps(ss[j], steps[j])
  }

  /** In how many places a task is. */
  function Places(s: State, x: nat): nat {
    Hits(s.flying, x) + Hits(s.accepted, x) + Hits(s.dropped, x)
  }

  /** Every task of the request is in one place, and no other task is anywhere. */
  predicate AllOnce(request: Bag, s: State, x: nat) {
    Places(s, x) == One(Has(request, x))
  }

  lemma HitsWithout(bags: seq<Bag>, i: nat, x: nat)
    requires i < |bags|
    ensures Hits(Without(bags, i), x) + One(Has(bags[i], x)) == Hits(bags, x)
  {
    HitsAppend(bags[..i], bags[i..], x);
    HitsAppend(bags[..i], bags[i + 1..], x);
    assert bags == bags[..i] + bags[i..] && bags[i..][1..] == bags[i + 1..];
  }

  lemma AcceptIsExact(b: Bag, k: nat, x: nat)
    requires Fits(b) && k <= Size(b)
    ensures Hits(Taken(b, k), x) + Hits(Rejected(b, k), x) == One(Has(b, x))
  {
    if Taken(b, k) != [] { HitsOne(Taken(b, k)[0], x); }
    if Rejected(b, k) != [] { HitsOne(Rejected(b, k)[0], x); }
  }

  lemma PartsHit(b: Bag, left: nat, right: nat, leftIsLeaf: bool, rightIsLeaf: bool, x: nat)
    requires Fits(b) && left + right <= Size(b)
    ensures
      var wraps := b.last == WORD - 1 && left + right == Size(b);
      Hits(ToChildren(b, left, right, leftIsLeaf, rightIsLeaf), x) + Hits(ToFather(b, left, right), x)
      == One(Has(b, x)) + One(wraps && x <= b.last)
  {
    ChildrenHit(b, left, right, leftIsLeaf, rightIsLeaf, x);
    if ToFather(b, left, right) != [] { HitsOne(ToFather(b, left, right)[0], x); }
  }

  /** A step moves tasks; when it wraps, it makes all tasks up to the largest word once more. */
  lemma StepMoves(s: State, a: Step, x: nat)
    requires Enabled(s, a)
    ensures Places(Does(s, a), x) == Places(s, x) + One(Wraps(s, a) && x < WORD)
  {
    var b, rest := s.flying[a.i], Without(s.flying, a.i);
    HitsWithout(s.flying, a.i, x);
    match a
    case Split(_, left, right, leftIsLeaf, rightIsLeaf, _) =>
      var down, up := ToChildren(b, left, right, leftIsLeaf, rightIsLeaf), ToFather(b, left, right);
      PartsHit(b, left, right, leftIsLeaf, rightIsLeaf, x);
      HitsAppend(rest, down, x);
      HitsAppend(rest + down, up, x);
      HitsAppend(s.dropped, up, x);
    case Accept(_, k) =>
      AcceptIsExact(b, k, x);
      HitsAppend(s.accepted, Taken(b, k), x);
      HitsAppend(s.dropped, Rejected(b, k), x);
    case Drop(_) =>
      HitsAppend(s.dropped, [b], x);
      HitsOne(b, x);
  }

  /** How many of the first `k` steps wrap. */
  ghost function NumWraps(request: Bag, ss: seq<State>, steps: seq<Step>, k: nat): (n: nat)
    requires Run(request, ss, steps) && k <= |steps|
    ensures n == 0 <==> NoneWraps(request, ss, steps, k)
  {
    if k == 0 then 0 else NumWraps(request, ss, steps, k - 1) + One(Wraps(ss[k - 1], steps[k - 1]))
  }

  lemma {:induction false} PlacesInRun(request: Bag, ss: seq<State>, steps: seq<Step>, k: nat, x: nat)
    requires Run(request, ss, steps) && k <= |steps|
    ensures Places(ss[k], x) == One(Has(request, x)) + if x < WORD then NumWraps(request, ss, steps, k) else 0
  {
    if k == 0 {
      HitsOne(request, x);
    } else {
      PlacesInRun(request, ss, steps, k - 1, x);
      StepMoves(ss[k - 1], steps[k - 1], x);
    }
  }

  /**
   Tasks are neither lost nor duplicated, whatever dispatchers and schedulers do with a request: each of its tasks is in
   exactly one bag, on its way, accepted or dropped, and no bag has a task of anybody else, if and only if no split
   has wrapped.
   */
  lemma TasksAreConserved(request: Bag, ss: seq<State>, steps: seq<Step>, k: nat)
    requires Run(request, ss, steps) && k <= |steps|
    ensures (forall x: nat :: AllOnce(request, ss[k], x)) <==> NoneWraps(request, ss, steps, k)
  {
    forall x: nat ensures Places(ss[k], x) == One(Has(request, x)) + if x < WORD
      then NumWraps(request, ss, steps, k) else 0 {
      PlacesInRun(request, ss, steps, k, x);
    }
    if NumWraps(request, ss, steps, k) > 0 { assert !AllOnce(request, ss[k], 0); }
  }

  /** Only a request that ends with the largest word can come to that. */
  lemma {:induction false} OthersNeverWrap(request: Bag, ss: seq<State>, steps: seq<Step>, k: nat)
    requires Run(request, ss, steps) && k <= |steps| && request.last < WORD - 1
    ensures NoneWraps(request, ss, steps, k) && forall b | b in ss[k].flying :: b.last <= request.last
  {
    if k > 0 {
      OthersNeverWrap(request, ss, steps, k - 1);
      var s, a := ss[k - 1], steps[k - 1];
      var b := s.flying[a.i];
      assert b in s.flying && forall c | c in Without(s.flying, a.i) :: c in s.flying;
      if a.Split? { PartsFit(b, a.left, a.right, a.leftIsLeaf, a.rightIsLeaf); }
    }
  }

  lemma {:induction false} HitsTwice(bags: seq<Bag>, i: nat, j: nat, x: nat)
    requires i < j < |bags| && Has(bags[i], x) && Has(bags[j], x)
    ensures Hits(bags, x) >= 2
  {
    if i > 0 { HitsTwice(bags[1..], i - 1, j - 1, x); } else { HitsOnce(bags[1..], j - 1, x); }
  }

  lemma {:induction false} HitsOnce(bags: seq<Bag>, j: nat, x: nat)
    requires j < |bags| && Has(bags[j], x)
    ensures Hits(bags, x) >= 1
  {
    if j > 0 { HitsOnce(bags[1..], j - 1, x); }
  }

  /** Two bags that share a task, if it is in two places. */
  lemma {:induction false} SharedBy(bags: seq<Bag>, x: nat) returns (i: nat, j: nat)
    requires Hits(bags, x) >= 2
    ensures i < j < |bags| && Has(bags[i], x) && Has(bags[j], x)
  {
    if Has(bags[0], x) {
      i, j := 0, 1 + HeldBy(bags[1..], x);
    } else {
      i, j := SharedBy(bags[1..], x);
      i, j := i + 1, j + 1;
    }
  }

  function HeldBy(bags: seq<Bag>, x: nat): (j: nat)
    requires Hits(bags, x) >= 1
    ensures j < |bags| && Has(bags[j], x)
  {
    if Has(bags[0], x) then 0 else 1 + HeldBy(bags[1..], x)
  }

  ghost predicate Disjoint(bags: seq<Bag>) {
    forall i, j, x: nat | 0 <= i < j < |bags| :: !(Has(bags[i], x) && Has(bags[j], x))
  }

  /** No two bags, wherever they are, share a task, if and only if no split has wrapped. */
  lemma BagsAreDisjoint(request: Bag, ss: seq<State>, steps: seq<Step>, k: nat)
    requires Fits(request) && Run(request, ss, steps) && k <= |steps|
    ensures Disjoint(ss[k].flying + ss[k].accepted + ss[k].dropped) <==> NoneWraps(request, ss, steps, k)
  {
    var s := ss[k];
    var all := s.flying + s.accepted + s.dropped;
    forall x: nat
      ensures Hits(all, x) == One(Has(request, x)) + if x < WORD then NumWraps(request, ss, steps, k) else 0
    {
      PlacesInRun(request, ss, steps, k, x);
      HitsAppend(s.flying + s.accepted, s.dropped, x);
      HitsAppend(s.flying, s.accepted, x);
    }
    if NumWraps(request, ss, steps, k) == 0 {
      forall i, j, x: nat | 0 <= i < j < |all| && Has(all[i], x) && Has(all[j], x) ensures false {
        HitsTwice(all, i, j, x);
      }
    } else {
      var i, j := SharedBy(all, request.last);
    }
  }

  // ---------------------------------------------------------------------------------------------
  // The methods
  // ---------------------------------------------------------------------------------------------

  /** Splits a request; the flags say which children are leaves, whether there is a father, and whether he sent it. */
  method SendTasks(b: Bag, numTasks: seq<nat>, isLeaf: seq<bool>, root: bool, dontSendToFather: bool)
    returns (down: seq<Bag>, up: seq<Bag>, discarded: seq<Bag>)
    requires Fits(b) && |numTasks| == 2 && |isLeaf| == 2 && numTasks[0] + numTasks[1] <= Size(b)
    ensures down == ToChildren(b, numTasks[0], numTasks[1], isLeaf[0], isLeaf[1])
    ensures up + discarded == ToFather(b, numTasks[0], numTasks[1])
    ensures if root || dontSendToFather then up == [] else discarded == []
  {
    var nextTask := b.first;
    down, up, discarded := [], [], [];
    for c := 0 to 2
      invariant nextTask == (b.first + (if c > 0 then numTasks[0] else 0) + (if c > 1 then numTasks[1] else 0)) % WORD
      invariant down == ToChildren(b, if c > 0 then numTasks[0] else 0, if c > 1 then numTasks[1] else 0, isLeaf[0],
          isLeaf[1])
    {
      if numTasks[c] > 0 { down := down + [Bag(nextTask, nextTask + numTasks[c] - 1, isLeaf[c])]; }
      nextTask := (nextTask + numTasks[c]) % WORD;
    }
    if nextTask <= b.last {
      var rest := Bag(nextTask, b.last, b.forEN);
      if root || dontSendToFather { discarded := [rest]; } else { up := [rest]; }
    }
  }

  datatype Task = Task(request: int, number: nat)

  class Scheduler {
    var tasks: seq<Task>

    constructor ()
      ensures tasks == []
    {
      tasks := [];
    }

    /** Creates the accepted tasks at the end of the queue and tells which they are. */
    method Accept(request: int, b: Bag, numAccepted: nat) returns (reply: seq<Bag>)
      requires Fits(b) && b.forEN && numAccepted <= Size(b)
      modifies this
      ensures reply == Taken(b, numAccepted)
      ensures tasks == old(tasks) + seq(numAccepted, i requires i >= 0 => Task(request, b.first + i))
    {
      for i := 0 to numAccepted
        invariant tasks == old(tasks) + seq(i, j requires j >= 0 => Task(request, b.first + j))
      {
        tasks := tasks + [Task(request, b.first + i)];
      }
      reply := if numAccepted > 0 then [Bag(b.first, b.first + numAccepted - 1, true)] else [];
    }
  }
}
