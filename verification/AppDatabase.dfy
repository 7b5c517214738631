/**
 The application database of a submitting node (src/oldsim/SimAppDatabase.cpp): the states of the tasks
 of an application and the slots of its requests, which refer to tasks. A request is named by its
 application and its place among the requests of that application.
 */
module AppDatabase {
  import opened Common

  type Addr = nat

  type AppId = nat

  datatype Rid = Rid(app: AppId, k: nat)

  datatype Task = Ready | Searching | Executing(host: Addr) | Finished

  /** The slots of a request, and the tasks they refer to. */
  type Request = seq<Option<nat>>

  datatype Instance = Instance(tasks: seq<Task>, requests: seq<Request>)

  // ---------------------------------------------------------------------------------------------
  // Slots
  // ---------------------------------------------------------------------------------------------

  /** How many slots refer to task `j`. */
  function Held(r: Request, j: nat): nat {
    if r == [] then 0 else One(r[0] == Some(j)) + Held(r[1..], j)
  }

  function HeldByAll(rs: seq<Request>, j: nat): nat {
    if rs == [] then 0 else Held(rs[0], j) + HeldByAll(rs[1..], j)
  }

  /** Every task that is not ready is held by exactly one slot, and ready tasks by none; slots refer to tasks. */
  ghost predicate SlotsOk(inst: Instance) {
    forall j: nat :: HeldByAll(inst.requests, j) == if j < |inst.tasks| then One(!inst.tasks[j].Ready?) else 0
  }

  lemma {:induction false} HeldIn(r: Request, i: nat, j: nat)
    requires i < |r| && r[i] == Some(j)
    ensures Held(r, j) > 0
  {
    if i > 0 { HeldIn(r[1..], i - 1, j); }
  }

  lemma {:induction false} HeldByOne(rs: seq<Request>, k: nat, j: nat)
    requires k < |rs|
    ensures Held(rs[k], j) <= HeldByAll(rs, j)
  {
    if k > 0 { HeldByOne(rs[1..], k - 1, j); }
  }

  lemma {:induction false} HeldByTwo(rs: seq<Request>, k: nat, l: nat, j: nat)
    requires k < l < |rs|
    ensures Held(rs[k], j) + Held(rs[l], j) <= HeldByAll(rs, j)
  {
    if k > 0 { HeldByTwo(rs[1..], k - 1, l - 1, j); } else { HeldByOne(rs[1..], l - 1, j); }
  }

  lemma {:induction false} HeldTwice(r: Request, i: nat, l: nat, j: nat)
    requires i < l < |r| && r[i] == Some(j) && r[l] == Some(j)
    ensures Held(r, j) >= 2
  {
    if i > 0 { HeldTwice(r[1..], i - 1, l - 1, j); } else { HeldIn(r[1..], l - 1, j); }
  }

  /** A slot refers to a task that is not ready, and no other slot does. */
  lemma SlotIsOnly(inst: Instance, k: nat, i: nat)
    requires SlotsOk(inst) && k < |inst.requests| && i < |inst.requests[k]| && inst.requests[k][i].Some?
    ensures
      var j := inst.requests[k][i].value;
      && j < |inst.tasks| && !inst.tasks[j].Ready?
      && (forall l, h | 0 <= l < |inst.requests| && 0 <= h < |inst.requests[l]| && inst.requests[l][h] == Some(j) ::
         l == k && h == i)
  {
    var j := inst.requests[k][i].value;
    HeldIn(inst.requests[k], i, j);
    HeldByOne(inst.requests, k, j);
    forall l, h | 0 <= l < |inst.requests| && 0 <= h < |inst.requests[l]| && inst.requests[l][h] == Some(j)
      ensures l == k && h == i {
      HeldIn(inst.requests[l], h, j);
      if l < k { HeldByTwo(inst.requests, l, k, j); }
      if k < l { HeldByTwo(inst.requests, k, l, j); }
      if l == k && h < i { HeldTwice(inst.requests[k], h, i, j); }
      if l == k && i < h { HeldTwice(inst.requests[k], i, h, j); }
    }
  }

  // ---------------------------------------------------------------------------------------------
  // Operations
  // ---------------------------------------------------------------------------------------------

  function ReadyFrom(tasks: seq<Task>, j: nat): Request
    requires j <= |tasks|
    decreases |tasks| - j
  {
    if j == |tasks| then [] else (if tasks[j].Ready? then [Some(j)] else []) + ReadyFrom(tasks, j + 1)
  }

  function ReadyTasks(tasks: seq<Task>): set<nat> {
    set j | 0 <= j < |tasks| && tasks[j].Ready?
  }

  /** A new request takes all ready tasks and starts to search for them. */
  function OpenRequest(inst: Instance): Instance {
    Instance(Changed(inst.tasks, ReadyTasks(inst.tasks), Searching), inst.requests + [ReadyFrom(inst.tasks, 0)])
  }

  /** The given tasks become ready and leave their slots. */
  function Freed(inst: Instance, free: set<nat>): Instance {
    Instance(Changed(inst.tasks, free, Ready), FreedSlots(inst.requests, free))
  }

  function FreedSlots(rs: seq<Request>, free: set<nat>): (rs': seq<Request>)
    ensures |rs'| == |rs|
    ensures forall k | 0 <= k < |rs| ::
              |rs'[k]| == |rs[k]| && forall i | 0 <= i < |rs[k]| ::
                rs'[k][i] == if rs[k][i].Some? && rs[k][i].value in free then None else rs[k][i]
  {
    if rs == [] then [] else [FreedOf(rs[0], free)] + FreedSlots(rs[1..], free)
  }

  function FreedOf(r: Request, free: set<nat>): (r': Request)
    ensures |r'| == |r| && forall i | 0 <= i < |r| :: r'[i] == if r[i].Some? && r[i].value in free then None else r[i]
  {
    if r == [] then [] else [if r[0].Some? && r[0].value in free then None else r[0]] + FreedOf(r[1..], free)
  }

  /** The tasks that a request still searches for. */
  function SearchedBy(inst: Instance, k: nat): set<nat> {
    set j | 0 <= j < |inst.tasks| && inst.tasks[j] == Searching && k < |inst.requests| && Some(j) in inst.requests[k]
  }

  function CancelSearch(inst: Instance, k: nat): Instance {
    Freed(inst, SearchedBy(inst, k))
  }

  /** The tasks that run on a host. */
  function RunningAt(inst: Instance, host: Addr): set<nat> {
    set j | 0 <= j < |inst.tasks| && inst.tasks[j] == Executing(host)
  }

  function DeadNode(inst: Instance, host: Addr): Instance {
    Freed(inst, RunningAt(inst, host))
  }

  function AllDead(instances: map<AppId, Instance>, host: Addr): map<AppId, Instance> {
    map a | a in instances :: DeadNode(instances[a], host)
  }

  /** The task behind number `tid` of a request; numbers start from 1. */
  function TaskOf(inst: Instance, k: nat, tid: nat): Option<nat> {
    if k < |inst.requests| && 1 <= tid <= |inst.requests[k]| then inst.requests[k][tid - 1] else None
  }

  /**
   The searched tasks among the numbers from `first` to `last`; from 0 there are none, as 0 - 1 is the largest unsigned
   number.
   */
  function Accepting(inst: Instance, k: nat, first: nat, last: nat): set<nat> {
    set j | first > 0 && 0 <= j < |inst.tasks| && inst.tasks[j] == Searching && exists tid | first <= tid <= last ::
      TaskOf(inst, k, tid) == Some(j)
  }

  function AcceptTasks(inst: Instance, host: Addr, k: nat, first: nat, last: nat): Instance {
    inst.(tasks := Changed(inst.tasks, Accepting(inst, k, first, last), Executing(host)))
  }

  function FinishTask(inst: Instance, k: nat, tid: nat): Instance {
    match TaskOf(inst, k, tid)
    case Some(j) => if j < |inst.tasks| then inst.(tasks := inst.tasks[j := Finished]) else inst
    case None => inst
  }

  function AbortTask(inst: Instance, k: nat, tid: nat): Instance {
    match TaskOf(inst, k, tid)
    case Some(j) => Freed(inst, {j})
    case None => inst
  }

  // ---------------------------------------------------------------------------------------------
  // Operations keep the slots in order
  // ---------------------------------------------------------------------------------------------

  lemma {:induction false} HeldAppend(a: Request, b: Request, j: nat)
    ensures Held(a + b, j) == Held(a, j) + Held(b, j)
  {
    if a == [] {
      assert a + b == b;
    } else {
      HeldAppend(a[1..], b, j);
      assert (a + b)[1..] == a[1..] + b;
    }
  }

  lemma {:induction false} HeldByAppend(a: seq<Request>, r: Request, j: nat)
    ensures HeldByAll(a + [r], j) == HeldByAll(a, j) + Held(r, j)
  {
    if a == [] {
      assert a + [r] == [r] && [r][1..] == [];
    } else {
      HeldByAppend(a[1..], r, j);
      assert (a + [r])[1..] == a[1..] + [r];
    }
  }

  lemma {:induction false} ReadyHeld(tasks: seq<Task>, from: nat, j: nat)
    requires from <= |tasks|
    ensures Held(ReadyFrom(tasks, from), j) == One(from <= j < |tasks| && tasks[j].Ready?)
    decreases |tasks| - from
  {
    if from < |tasks| {
      ReadyHeld(tasks, from + 1, j);
      HeldAppend(if tasks[from].Ready? then [Some(from)] else [], ReadyFrom(tasks, from + 1), j);
      assert [Some(from)][1..] == [];
    }
  }

  lemma OpenKeepsSlots(inst: Instance)
    requires SlotsOk(inst)
    ensures SlotsOk(OpenRequest(inst))
  {
    var inst' := OpenRequest(inst);
    forall j: nat ensures HeldByAll(inst'.requests, j) == if j < |inst'.tasks| then One(!inst'.tasks[j].Ready?) else 0 {
      HeldByAppend(inst.requests, ReadyFrom(inst.tasks, 0), j);
      ReadyHeld(inst.tasks, 0, j);
    }
  }

  lemma {:induction false} FreedHeld(r: Request, free: set<nat>, j: nat)
    ensures Held(FreedOf(r, free), j) == if j in free then 0 else Held(r, j)
  {
    if r != [] {
      FreedHeld(r[1..], free, j);
      assert FreedOf(r, free)[1..] == FreedOf(r[1..], free);
    }
  }

  lemma {:induction false} FreedHeldByAll(rs: seq<Request>, free: set<nat>, j: nat)
    ensures HeldByAll(FreedSlots(rs, free), j) == if j in free then 0 else HeldByAll(rs, j)
  {
    if rs != [] {
      FreedHeld(rs[0], free, j);
      FreedHeldByAll(rs[1..], free, j);
      assert FreedSlots(rs, free)[1..] == FreedSlots(rs[1..], free);
    }
  }

  lemma FreeKeepsSlots(inst: Instance, free: set<nat>)
    requires SlotsOk(inst)
    ensures SlotsOk(Freed(inst, free))
  {
    forall j: nat
      ensures HeldByAll(Freed(inst, free).requests, j)
              == if j < |inst.tasks| then One(!Freed(inst, free).tasks[j].Ready?) else 0
    {
      FreedHeldByAll(inst.requests, free, j);
    }
  }

  lemma AcceptKeepsSlots(inst: Instance, host: Addr, k: nat, first: nat, last: nat)
    requires SlotsOk(inst)
    ensures SlotsOk(AcceptTasks(inst, host, k, first, last))
  {
  }

  /** The task behind a number is not ready, and no other slot refers to it. */
  lemma TaskOfIsOnly(inst: Instance, k: nat, tid: nat)
    requires SlotsOk(inst) && TaskOf(inst, k, tid).Some?
    ensures TaskOf(inst, k, tid).value < |inst.tasks| && !inst.tasks[TaskOf(inst, k, tid).value].Ready?
  {
    SlotIsOnly(inst, k, tid - 1);
  }

  lemma FinishKeepsSlots(inst: Instance, k: nat, tid: nat)
    requires SlotsOk(inst)
    ensures SlotsOk(FinishTask(inst, k, tid))
  {
    if TaskOf(inst, k, tid).Some? { TaskOfIsOnly(inst, k, tid); }
  }

  /** Every operation of the database keeps the slots in order, whatever it is told. */
  lemma OperationsKeepSlots(inst: Instance, host: Addr, k: nat, first: nat, last: nat)
    requires SlotsOk(inst)
    ensures SlotsOk(OpenRequest(inst)) && SlotsOk(CancelSearch(inst, k)) && SlotsOk(DeadNode(inst, host))
    ensures SlotsOk(AcceptTasks(inst, host, k, first, last)) && SlotsOk(FinishTask(inst, k, first))
    ensures SlotsOk(AbortTask(inst, k, first))
  {
    OpenKeepsSlots(inst);
    FreeKeepsSlots(inst, SearchedBy(inst, k));
    FreeKeepsSlots(inst, RunningAt(inst, host));
    AcceptKeepsSlots(inst, host, k, first, last);
    FinishKeepsSlots(inst, k, first);
    if TaskOf(inst, k, first).Some? { FreeKeepsSlots(inst, {TaskOf(inst, k, first).value}); }
  }

  // ---------------------------------------------------------------------------------------------
  // Numbers of tasks
  // ---------------------------------------------------------------------------------------------

  datatype Kind = AreReady | AreSearching | AreExecuting | AreAt(host: Addr)

  predicate Is(t: Task, kind: Kind) {
    match kind
    case AreReady => t.Ready?
    case AreSearching => t.Searching?
    case AreExecuting => t.Executing?
    case AreAt(host) => t == Executing(host)
  }

  /** How many tasks are of a kind. */
  function Num(tasks: seq<Task>, kind: Kind): nat {
    if tasks == [] then 0 else One(Is(tasks[0], kind)) + Num(tasks[1..], kind)
  }

  function InProcess(tasks: seq<Task>): nat {
    Num(tasks, AreSearching) + Num(tasks, AreExecuting)
  }

  lemma {:induction false} NumUpdate(tasks: seq<Task>, j: nat, t: Task, kind: Kind)
    requires j < |tasks|
    ensures Num(tasks[j := t], kind) + One(Is(tasks[j], kind)) == Num(tasks, kind) + One(Is(t, kind))
  {
    if j == 0 {
      assert tasks[j := t][1..] == tasks[1..];
    } else {
      NumUpdate(tasks[1..], j - 1, t, kind);
      assert tasks[j := t][1..] == tasks[1..][j - 1 := t];
    }
  }

  lemma {:induction false} NumSnoc(tasks: seq<Task>, t: Task, kind: Kind)
    ensures Num(tasks + [t], kind) == Num(tasks, kind) + One(Is(t, kind))
  {
    if tasks == [] {
      assert tasks + [t] == [t];
    } else {
      NumSnoc(tasks[1..], t, kind);
      assert (tasks + [t])[1..] == tasks[1..] + [t];
    }
  }

  lemma {:induction false} NumPositive(tasks: seq<Task>, j: nat, kind: Kind)
    requires j < |tasks| && Is(tasks[j], kind)
    ensures Num(tasks, kind) > 0
  {
    if j > 0 { NumPositive(tasks[1..], j - 1, kind); }
  }

  lemma {:induction false} AtIsExecuting(tasks: seq<Task>, host: Addr)
    ensures Num(tasks, AreAt(host)) <= Num(tasks, AreExecuting)
  {
    if tasks != [] { AtIsExecuting(tasks[1..], host); }
  }

  /** How many of a set are among the first `n` numbers. */
  function Among(s: set<nat>, n: nat): nat {
    if n == 0 then 0 else Among(s, n - 1) + One(n - 1 in s)
  }

  /** The given tasks become `t`. */
  function Changed(tasks: seq<Task>, s: set<nat>, t: Task): (r: seq<Task>)
    ensures |r| == |tasks| && forall j | 0 <= j < |tasks| :: r[j] == if j in s then t else tasks[j]
  {
    seq(|tasks|, j requires 0 <= j < |tasks| => if j in s then t else tasks[j])
  }

  lemma ChangedSnoc(front: seq<Task>, last: Task, s: set<nat>, t: Task)
    ensures Changed(front + [last], s, t) == Changed(front, s, t) + [if |front| in s then t else last]
  {
  }

  /** One more task, which changes like the others, or not at all. */
  lemma SameChange(num: nat, num': nat, among: nat, isWas: bool, isT: bool, changes: bool, isLast: bool, isLast': bool)
    requires num' + (if isWas then among else 0) == num + (if isT then among else 0)
    requires if changes then isLast == isWas && isLast' == isT else isLast' == isLast
    ensures num' + One(isLast') + (if isWas then among + One(changes) else 0)
            == num + One(isLast) + if isT then among + One(changes) else 0
  {
  }

  /** What changes in the numbers when many tasks that are all as `was` become `t`. */
  lemma {:induction false} NumChange(tasks: seq<Task>, s: set<nat>, was: Task, t: Task, kind: Kind)
    requires forall j | j in s && j < |tasks| :: tasks[j] == was
    ensures Num(Changed(tasks, s, t), kind) + (if Is(was, kind) then Among(s, |tasks|) else 0)
            == Num(tasks, kind) + if Is(t, kind) then Among(s, |tasks|) else 0
  {
    if tasks != [] {
      var n := |tasks| - 1;
      var front, last := tasks[..n], tasks[n];
      NumChange(front, s, was, t, kind);
      var last' := if n in s then t else last;
      NumSnoc(front, last, kind);
      NumSnoc(Changed(front, s, t), last', kind);
      assert tasks == front + [last];
      ChangedSnoc(front, last, s, t);
      SameChange(Num(front, kind), Num(Changed(front, s, t), kind), Among(s, n), Is(was, kind), Is(t, kind), n in s,
                 Is(last, kind), Is(last', kind));
    }
  }

  // ---------------------------------------------------------------------------------------------
  // The database
  // ---------------------------------------------------------------------------------------------

  lemma {:induction false} AmongAdd(s: set<nat>, j: nat, n: nat)
    requires j !in s
    ensures Among(s + {j}, n) == Among(s, n) + One(j < n)
  {
    if n > 0 { AmongAdd(s, j, n - 1); }
  }

  lemma {:induction false} AmongNone(n: nat)
    ensures Among({}, n) == 0
  {
    if n > 0 { AmongNone(n - 1); }
  }

  lemma {:induction false} HeldSomewhere(rs: seq<Request>, j: nat) returns (k: nat, i: nat)
    requires HeldByAll(rs, j) > 0
    ensures k < |rs| && i < |rs[k]| && rs[k][i] == Some(j)
  {
    if Held(rs[0], j) > 0 {
      k := 0;
      i := HeldAt(rs[0], j);
    } else {
      k, i := HeldSomewhere(rs[1..], j);
      k := k + 1;
    }
  }

  lemma {:induction false} HeldAt(r: Request, j: nat) returns (i: nat)
    requires Held(r, j) > 0
    ensures i < |r| && r[i] == Some(j)
  {
    if r[0] == Some(j) {
      i := 0;
    } else {
      i := HeldAt(r[1..], j);
      i := i + 1;
    }
  }

  /** The tasks of a kind that a request holds. */
  function KindIn(inst: Instance, k: nat, kind: Kind): set<nat> {
    set j | 0 <= j < |inst.tasks| && Is(inst.tasks[j], kind) && k < |inst.requests| && Some(j) in inst.requests[k]
  }

  /** The tasks of a kind in the first `i` slots of a request. */
  function KindBefore(inst: Instance, k: nat, i: nat, kind: Kind): set<nat>
    requires k < |inst.requests| && i <= |inst.requests[k]|
  {
    set j | 0 <= j < |inst.tasks| && Is(inst.tasks[j], kind) && Some(j) in inst.requests[k][..i]
  }

  /** The slots of request `k` are freed up to `i`. */
  ghost predicate FreedBefore(was: Instance, inst: Instance, k: nat, i: nat, kind: Kind)
    requires k < |was.requests| && i <= |was.requests[k]|
  {
    && inst.tasks == Changed(was.tasks, KindBefore(was, k, i, kind), Ready)
    && |inst.requests| == |was.requests|
       && (forall l | 0 <= l < |was.requests| && l != k :: inst.requests[l] == was.requests[l])
    && |inst.requests[k]| == |was.requests[k]|
    && (forall h | i <= h < |was.requests[k]| :: inst.requests[k][h] == was.requests[k][h])
    && (forall h | 0 <= h < i ::
          inst.requests[k][h] == if was.requests[k][h].Some? && was.requests[k][h].value in KindBefore(was, k, i, kind)
                                 then None else was.requests[k][h])
  }

  lemma FreedAll(was: Instance, inst: Instance, k: nat, kind: Kind)
    requires SlotsOk(was) && k < |was.requests| && FreedBefore(was, inst, k, |was.requests[k]|, kind)
    ensures inst == Freed(was, KindIn(was, k, kind))
  {
    var free := KindIn(was, k, kind);
    assert was.requests[k][..|was.requests[k]|] == was.requests[k];
    assert KindBefore(was, k, |was.requests[k]|, kind) == free;
    forall l | 0 <= l < |was.requests| ensures inst.requests[l] == FreedSlots(was.requests, free)[l] {
      if l != k {
        forall h | 0 <= h < |was.requests[l]| && was.requests[l][h].Some? ensures was.requests[l][h].value !in free {
          SlotIsOnly(was, l, h);
        }
      }
    }
  }

  lemma FreedOneMore(was: Instance, inst: Instance, k: nat, i: nat, kind: Kind)
    requires SlotsOk(was) && k < |was.requests| && i < |was.requests[k]| && FreedBefore(was, inst, k, i, kind)
    ensures
      var slot := inst.requests[k][i];
      && slot == was.requests[k][i] && (slot.Some? ==>
         slot.value < |inst.tasks| && inst.tasks[slot.value] == was.tasks[slot.value])
      && (if slot.Some? && Is(was.tasks[slot.value], kind)
          then && slot.value !in KindBefore(was, k, i, kind)
               && KindBefore(was, k, i + 1, kind) == KindBefore(was, k, i, kind) + {slot.value}
          else KindBefore(was, k, i + 1, kind) == KindBefore(was, k, i, kind))
      && (forall h | 0 <= h < i && was.requests[k][h].Some? :: was.requests[k][h] != slot)
  {
    var slot := inst.requests[k][i];
    assert was.requests[k][..i + 1] == was.requests[k][..i] + [was.requests[k][i]];
    if slot.Some? { SlotIsOnly(was, k, i); }
  }

  lemma FreedStep(was: Instance, inst: Instance, k: nat, i: nat, kind: Kind)
    requires SlotsOk(was) && k < |was.requests| && i < |was.requests[k]| && FreedBefore(was, inst, k, i, kind)
    ensures
      var slot := inst.requests[k][i];
      && (slot.Some? ==> slot.value < |inst.tasks| && inst.tasks[slot.value] == was.tasks[slot.value])
      && var freed := if slot.Some? && Is(inst.tasks[slot.value], kind) then FreeSlot(inst, k, i) else inst;
         FreedBefore(was, freed, k, i + 1, kind)
  {
    FreedOneMore(was, inst, k, i, kind);
  }

  /** One slot gives its task back. */
  function FreeSlot(inst: Instance, k: nat, i: nat): Instance
    requires k < |inst.requests| && i < |inst.requests[k]| && inst.requests[k][i].Some?
    requires inst.requests[k][i].value < |inst.tasks|
  {
    Instance(inst.tasks[inst.requests[k][i].value := Ready], inst.requests[k := inst.requests[k][i := None]])
  }

  class SimAppDatabase {
    var instances: map<AppId, Instance>
    var lastInstance: AppId
    var instanceCache: Option<AppId>
    var requestCache: Option<Rid>

    /** The caches name what exists, and the slots are in order. */
    ghost predicate Valid()
      reads this
    {
      && (forall a | a in instances :: a <= lastInstance && SlotsOk(instances[a]))
      && (instanceCache.Some? ==> instanceCache.value in instances)
      && (requestCache.Some? ==> requestCache.value.app in instances
                                 && requestCache.value.k < |instances[requestCache.value.app].requests|)
    }

    constructor ()
      ensures Valid() && instances == map[] && lastInstance == 0
    {
      instances, lastInstance, instanceCache, requestCache := map[], 0, None, None;
    }

    /** The cache never changes the answer. */
    method FindAppInstance(app: AppId) returns (found: bool)
      requires Valid()
      modifies this`instanceCache
      ensures Valid() && (found <==> app in instances)
      ensures found ==> instanceCache == Some(app)
    {
      found := true;
      if instanceCache != Some(app) {
        if app !in instances { return false; }
        instanceCache := Some(app);
      }
    }

    method FindRequest(rid: Rid) returns (found: bool)
      requires Valid()
      modifies this`instanceCache, this`requestCache
      ensures Valid() && (found <==> rid.app in instances && rid.k < |instances[rid.app].requests|)
      ensures found ==> requestCache == Some(rid)
    {
      if requestCache == Some(rid) { return true; }
      found := FindAppInstance(rid.app);
      if found {
        found := rid.k < |instances[rid.app].requests|;
        if found { requestCache := Some(rid); }
      }
    }

    method AppInstanceFinished(app: AppId)
      requires Valid()
      modifies this`instances, this`instanceCache, this`requestCache
      ensures Valid() && instances == old(instances) - {app}
    {
      if app in instances {
        instances := instances - {app};
        instanceCache, requestCache := None, None;
      }
    }

    method CreateAppInstance(numTasks: nat) returns (app: AppId)
      requires Valid()
      modifies this`instances, this`instanceCache, this`lastInstance
      ensures Valid() && app !in old(instances) && app == lastInstance == old(lastInstance) + 1
      ensures instances == old(instances)[app := Instance(seq(numTasks, _ => Ready), [])]
    {
      lastInstance := lastInstance + 1;
      app := lastInstance;
      instances := instances[app := Instance(seq(numTasks, _ => Ready), [])];
      instanceCache := Some(app);
    }

    /** A new request for all ready tasks; it starts to search for them at once. */
    method OpenNewRequest(app: AppId) returns (numTasks: nat)
      requires Valid()
      modifies this`instances, this`instanceCache, this`requestCache
      ensures Valid()
      ensures if app in old(instances)
              then instances == old(instances)[app := OpenRequest(old(instances)[app])]
                   && numTasks == |ReadyFrom(old(instances)[app].tasks, 0)|
              else instances == old(instances) && numTasks == 0
    {
      var found := FindAppInstance(app);
      if !found { return 0; }
      var inst := instances[app];
      var slots, tasks := [], inst.tasks;
      for t := 0 to |inst.tasks|
        invariant slots + ReadyFrom(inst.tasks, t) == ReadyFrom(inst.tasks, 0)
        invariant |tasks| == |inst.tasks|
        invariant forall j | 0 <= j < |tasks| ::
            tasks[j] == if j < t && inst.tasks[j].Ready? then Searching else inst.tasks[j]
      {
        if inst.tasks[t].Ready? {
          slots := slots + [Some(t)];
          tasks := tasks[t := Searching];
        }
      }
      OpenKeepsSlots(inst);
      assert slots + [] == slots && slots == ReadyFrom(inst.tasks, 0);
      assert tasks == Changed(inst.tasks, ReadyTasks(inst.tasks), Searching);
      numTasks := |slots|;
      instances := instances[app := Instance(tasks, inst.requests + [slots])];
      requestCache := Some(Rid(app, |inst.requests|));
    }

    /** How many tasks of an application are ready; of an unknown one, none. */
    method GetNumReady(app: AppId) returns (n: nat)
      requires Valid()
      modifies this`instanceCache
      ensures Valid() && n == if app in instances then Num(instances[app].tasks, AreReady) else 0
    {
      var found := FindAppInstance(app);
      n := 0;
      if found {
        var tasks := instances[app].tasks;
        for t := 0 to |tasks|
          invariant Valid() && n == Num(tasks[..t], AreReady)
        {
          assert tasks[..t + 1] == tasks[..t] + [tasks[t]];
          NumSnoc(tasks[..t], tasks[t], AreReady);
          if tasks[t].Ready? { n := n + 1; }
        }
        assert tasks[..|tasks|] == tasks;
      }
    }

    method CancelRequest(rid: Rid) returns (readyTasks: nat)
      requires Valid()
      modifies this`instances, this`instanceCache, this`requestCache
      ensures Valid()
      ensures if rid.app in old(instances)
              then && instances == old(instances)[rid.app := CancelSearch(old(instances)[rid.app], rid.k)]
                   && readyTasks == Among(SearchedBy(old(instances)[rid.app], rid.k), |old(instances)[rid.app].tasks|)
              else instances == old(instances) && readyTasks == 0
    {
      var found := FindRequest(rid);
      readyTasks := 0;
      if found {
        ghost var was := instances[rid.app];
        var inst;
        inst, readyTasks := FreeRequest(instances[rid.app], rid.k, AreSearching);
        assert SearchedBy(was, rid.k) == KindIn(was, rid.k, AreSearching);
        FreeKeepsSlots(was, SearchedBy(was, rid.k));
        instances := instances[rid.app := inst];
      } else if rid.app in instances {
        NothingToFree(instances[rid.app], rid.k);
        assert instances == instances[rid.app := instances[rid.app]];
      }
    }

    /** Numbers of tasks out of range, or of tasks that are not searched for, are ignored. */
    method AcceptedTasks(host: Addr, rid: Rid, first: nat, last: nat) returns (accepted: nat)
      requires Valid()
      modifies this`instances, this`instanceCache, this`requestCache
      ensures Valid()
      ensures if rid.app in old(instances)
              then && instances == old(instances)[rid.app :=
                   AcceptTasks(old(instances)[rid.app], host, rid.k, first, last)]
                   && accepted == Among(Accepting(old(instances)[rid.app], rid.k, first, last),
                      |old(instances)[rid.app].tasks|)
              else instances == old(instances) && accepted == 0
    {
      var found := FindRequest(rid);
      accepted := 0;
      if found {
        ghost var was := instances[rid.app];
        var tasks;
        tasks, accepted := AcceptIn(instances[rid.app], host, rid.k, first, last);
        instances := instances[rid.app := instances[rid.app].(tasks := tasks)];
        AcceptKeepsSlots(was, host, rid.k, first, last);
      } else if rid.app in instances {
        NothingToFree(instances[rid.app], rid.k);
        NothingToAccept(instances[rid.app], host, rid.k, first, last);
        assert instances == instances[rid.app := instances[rid.app]];
      }
    }

    /** Every application gets back what it had on the node. */
    method FreeDeadNode(host: Addr)
      requires Valid()
      modifies this`instances, this`instanceCache, this`requestCache
      ensures Valid() && instances == AllDead(old(instances), host)
    {
      var todo := instances.Keys;
      while todo != {}
        invariant Valid() && DeadSoFar(old(instances), instances, todo, host)
        decreases todo
      {
        var a :| a in todo;
        assert a in instances && SlotsOk(instances[a]);
        var inst := FreeHost(instances[a], host);
        DeadOneMore(old(instances), instances, todo, host, a, inst);
        Replace(a, inst);
        todo := todo - {a};
      }
    }

    /** Stores what has become of an application. */
    method Replace(a: AppId, inst: Instance)
      requires Valid() && a in instances && SlotsOk(inst) && |inst.requests| == |instances[a].requests|
      modifies this`instances
      ensures Valid() && instances == old(instances)[a := inst]
    {
      instances := instances[a := inst];
    }

    method FinishedTask(rid: Rid, tid: nat) returns (done: bool)
      requires Valid()
      modifies this`instances, this`instanceCache, this`requestCache
      ensures Valid()
      ensures if rid.app in old(instances)
              then && instances == old(instances)[rid.app := FinishTask(old(instances)[rid.app], rid.k, tid)]
                   && (done <==> TaskOf(old(instances)[rid.app], rid.k, tid).Some?)
              else instances == old(instances) && !done
    {
      done := FindRequest(rid);
      if done {
        var inst := instances[rid.app];
        done := 1 <= tid <= |inst.requests[rid.k]| && inst.requests[rid.k][tid - 1].Some?;
        FinishKeepsSlots(inst, rid.k, tid);
        if done {
          TaskOfIsOnly(inst, rid.k, tid);
          instances := instances[rid.app :=
            inst.(tasks := inst.tasks[inst.requests[rid.k][tid - 1].value := Finished])];
        } else {
          assert instances == instances[rid.app := inst];
        }
      } else if rid.app in instances {
        assert instances == instances[rid.app := instances[rid.app]];
      }
    }

    method AbortedTask(rid: Rid, tid: nat) returns (done: bool)
      requires Valid()
      modifies this`instances, this`instanceCache, this`requestCache
      ensures Valid()
      ensures if rid.app in old(instances)
              then && instances == old(instances)[rid.app := AbortTask(old(instances)[rid.app], rid.k, tid)]
                   && (done <==> TaskOf(old(instances)[rid.app], rid.k, tid).Some?)
              else instances == old(instances) && !done
    {
      done := FindRequest(rid);
      if done {
        var inst := instances[rid.app];
        done := 1 <= tid <= |inst.requests[rid.k]| && inst.requests[rid.k][tid - 1].Some?;
        if done {
          var j := inst.requests[rid.k][tid - 1].value;
          TaskOfIsOnly(inst, rid.k, tid);
          FreeKeepsSlots(inst, {j});
          FreeOne(inst, rid.k, tid - 1);
          instances := instances[rid.app := Instance(inst.tasks[j := Ready],
                                                     inst.requests[rid.k := inst.requests[rid.k][tid - 1 := None]])];
        } else {
          assert instances == instances[rid.app := inst];
        }
      } else if rid.app in instances {
        assert instances == instances[rid.app := instances[rid.app]];
      }
    }
  }

  /** All applications but those `todo` have lost their tasks on the host. */
  ghost predicate DeadSoFar(was: map<AppId, Instance>, now: map<AppId, Instance>, todo: set<AppId>, host: Addr) {
    && todo <= was.Keys && now.Keys == was.Keys
    && forall a | a in now :: now[a] == if a in todo then was[a] else DeadNode(was[a], host)
  }

  lemma DeadOneMore(was: map<AppId, Instance>, now: map<AppId, Instance>, todo: set<AppId>, host: Addr, a: AppId,
                    inst: Instance)
    requires DeadSoFar(was, now, todo, host) && a in todo && inst == DeadNode(was[a], host)
    ensures DeadSoFar(was, now[a := inst], todo - {a}, host)
    ensures now[a] == was[a] && |inst.requests| == |now[a].requests|
  {
  }

  /** Freeing the executing tasks of one request after another frees all of a host. */
  method FreeHost(inst: Instance, host: Addr) returns (inst': Instance)
    requires SlotsOk(inst)
    ensures inst' == DeadNode(inst, host) && SlotsOk(inst')
  {
    inst' := inst;
    ghost var free: set<nat> := {};
    NothingFreed(inst);
    for k := 0 to |inst.requests|
      invariant free == AtIn(inst, k, host) && inst' == Freed(inst, free) && SlotsOk(inst')
    {
      FreedTwice(inst, k, host);
      FreeKeepsSlots(inst, free);
      var next, _ := FreeRequest(inst', k, AreAt(host));
      inst' := next;
      free := AtIn(inst, k + 1, host);
      FreeKeepsSlots(inst, free);
    }
    AllAtIn(inst, host);
    FreeKeepsSlots(inst, free);
  }

  /** The tasks that run on a host and are held by the first `k` requests. */
  function AtIn(inst: Instance, k: nat, host: Addr): set<nat> {
    set j | 0 <= j < |inst.tasks| && inst.tasks[j] == Executing(host) && exists l | 0 <= l < k && l < |inst.requests| ::
      Some(j) in inst.requests[l]
  }

  lemma NothingFreed(inst: Instance)
    ensures Freed(inst, {}) == inst
  {
    forall l | 0 <= l < |inst.requests| ensures FreedSlots(inst.requests, {})[l] == inst.requests[l] {}
  }

  lemma FreedTwice(inst: Instance, k: nat, host: Addr)
    requires SlotsOk(inst) && k < |inst.requests|
    ensures
      var half := Freed(inst, AtIn(inst, k, host));
      Freed(half, KindIn(half, k, AreAt(host))) == Freed(inst, AtIn(inst, k + 1, host))
  {
    var free, more := AtIn(inst, k, host), AtIn(inst, k + 1, host);
    var half := Freed(inst, free);
    forall j | j in free ensures Some(j) !in inst.requests[k] {
      var l :| 0 <= l < k && l < |inst.requests| && Some(j) in inst.requests[l];
      var h :| 0 <= h < |inst.requests[l]| && inst.requests[l][h] == Some(j);
      SlotIsOnly(inst, l, h);
    }
    assert half.requests[k] == inst.requests[k];
    assert more == free + KindIn(half, k, AreAt(host));
    FreedUnion(inst, free, KindIn(half, k, AreAt(host)));
  }

  lemma FreedUnion(inst: Instance, a: set<nat>, b: set<nat>)
    ensures Freed(Freed(inst, a), b) == Freed(inst, a + b)
  {
    var rs, rs' := FreedSlots(FreedSlots(inst.requests, a), b), FreedSlots(inst.requests, a + b);
    forall l | 0 <= l < |inst.requests| ensures rs[l] == rs'[l] {}
  }

  lemma AllAtIn(inst: Instance, host: Addr)
    requires SlotsOk(inst)
    ensures AtIn(inst, |inst.requests|, host) == RunningAt(inst, host)
  {
    forall j | j in RunningAt(inst, host) ensures j in AtIn(inst, |inst.requests|, host) {
      assert HeldByAll(inst.requests, j) == 1;
      var l, h := HeldSomewhere(inst.requests, j);
      assert inst.requests[l][h] in inst.requests[l];
    }
  }

  lemma FreeOne(inst: Instance, k: nat, i: nat)
    requires SlotsOk(inst) && k < |inst.requests| && i < |inst.requests[k]| && inst.requests[k][i].Some?
    ensures
      var j := inst.requests[k][i].value;
      j < |inst.tasks| && Freed(inst, {j}) ==
        Instance(inst.tasks[j := Ready], inst.requests[k := inst.requests[k][i := None]])
  {
    SlotIsOnly(inst, k, i);
    var j := inst.requests[k][i].value;
    var rs := inst.requests[k := inst.requests[k][i := None]];
    forall l | 0 <= l < |inst.requests| ensures FreedSlots(inst.requests, {j})[l] == rs[l] {
    }
    assert FreedSlots(inst.requests, {j}) == rs;
  }

  lemma NothingToFree(inst: Instance, k: nat)
    requires k >= |inst.requests|
    ensures CancelSearch(inst, k) == inst && Among(SearchedBy(inst, k), |inst.tasks|) == 0
  {
    assert SearchedBy(inst, k) == {};
    AmongNone(|inst.tasks|);
    forall l | 0 <= l < |inst.requests| ensures FreedSlots(inst.requests, {})[l] == inst.requests[l] {}
  }

  lemma NothingToAccept(inst: Instance, host: Addr, k: nat, first: nat, last: nat)
    requires k >= |inst.requests|
    ensures AcceptTasks(inst, host, k, first, last) == inst && Among(Accepting(inst, k, first, last), |inst.tasks|) == 0
  {
    assert Accepting(inst, k, first, last) == {};
    AmongNone(|inst.tasks|);
  }

  /** Frees the tasks of a kind that a request holds, slot by slot. */
  method FreeRequest(inst: Instance, k: nat, kind: Kind) returns (inst': Instance, freed: nat)
    requires SlotsOk(inst) && k < |inst.requests| && !kind.AreReady?
    ensures inst' == Freed(inst, KindIn(inst, k, kind)) && freed == Among(KindIn(inst, k, kind), |inst.tasks|)
  {
    inst', freed := inst, 0;
    AmongNone(|inst.tasks|);
    assert KindBefore(inst, k, 0, kind) == {};
    for i := 0 to |inst.requests[k]|
      invariant FreedBefore(inst, inst', k, i, kind) && freed == Among(KindBefore(inst, k, i, kind), |inst.tasks|)
    {
      FreedOneMore(inst, inst', k, i, kind);
      FreedStep(inst, inst', k, i, kind);
      var slot := inst'.requests[k][i];
      if slot.Some? && Is(inst'.tasks[slot.value], kind) {
        AmongAdd(KindBefore(inst, k, i, kind), slot.value, |inst.tasks|);
        inst' := FreeSlot(inst', k, i);
        freed := freed + 1;
      }
    }
    assert inst.requests[k][..|inst.requests[k]|] == inst.requests[k];
    assert KindBefore(inst, k, |inst.requests[k]|, kind) == KindIn(inst, k, kind);
    FreedAll(inst, inst', k, kind);
  }

  /** Marks the searched tasks among some numbers as executing, one by one. */
  method AcceptIn(inst: Instance, host: Addr, k: nat, first: nat, last: nat) returns (tasks: seq<Task>, accepted: nat)
    requires SlotsOk(inst) && k < |inst.requests|
    ensures tasks == Changed(inst.tasks, Accepting(inst, k, first, last), Executing(host))
    ensures accepted == Among(Accepting(inst, k, first, last), |inst.tasks|)
  {
    tasks, accepted := inst.tasks, 0;
    AmongNone(|inst.tasks|);
    var tid := first;
    if first == 0 || first > last { assert Accepting(inst, k, first, last) == {}; return; }
    ghost var soFar: set<nat> := {};
    while tid <= last
      invariant first <= tid <= last + 1
      invariant soFar == set j | 0 <= j < |inst.tasks| && inst.tasks[j] == Searching && exists t | first <= t < tid ::
          TaskOf(inst, k, t) == Some(j)
      invariant tasks == Changed(inst.tasks, soFar, Executing(host)) && accepted == Among(soFar, |inst.tasks|)
    {
      var slot := TaskOf(inst, k, tid);
      if slot.Some? {
        TaskOfIsOnly(inst, k, tid);
        SlotIsOnly(inst, k, tid - 1);
        if tasks[slot.value] == Searching {
          AmongAdd(soFar, slot.value, |inst.tasks|);
          tasks := tasks[slot.value := Executing(host)];
          accepted := accepted + 1;
          soFar := soFar + {slot.value};
        }
      }
      tid := tid + 1;
    }
    assert soFar == Accepting(inst, k, first, last);
  }
}
