/**
 A submitting node (src/lib/scheduling/SubmissionNode.cpp) on top of its database: how many tasks of an
 application it still waits for, and how many it believes to run on every node.
 */
module Submission {
  import opened Common
  import opened AppDatabase

  /** Counts of tasks by node and application; nothing is stored for a count of 0. */
  type Remote = map<(Addr, AppId), nat>

  datatype State = State(
    apps: map<AppId, Instance>, remaining: map<AppId, int>, remote: Remote, retries: map<Rid, nat>, pending: set<Rid>,
    inChange: bool, delayed: seq<(AppId, nat)>, lastApp: AppId)

  const START := State(map[], map[], map[], map[], {}, false, [], 0)

  function At(remote: Remote, node: Addr, app: AppId): nat {
    if (node, app) in remote then remote[(node, app)] else 0
  }

  function SetAt(remote: Remote, node: Addr, app: AppId, n: nat): (r: Remote)
    ensures forall m, a :: At(r, m, a) == if m == node && a == app then n else At(remote, m, a)
  {
    if n == 0 then remote - {(node, app)} else remote[(node, app) := n]
  }

  /** What is left of an application; 0 if nothing is stored. */
  function Left(s: State, app: AppId): int {
    if app in s.remaining then s.remaining[app] else 0
  }

  // ---------------------------------------------------------------------------------------------
  // Handlers
  // ---------------------------------------------------------------------------------------------

  /** Asks for nodes for all ready tasks of an application. */
  function SendRequest(s: State, app: AppId, prev: nat): State {
    if s.inChange then s.(delayed := s.delayed + [(app, prev)])
    else if app !in s.apps then s
    else
      var inst, n := s.apps[app], |ReadyFrom(s.apps[app].tasks, 0)|;
      var rid, s' := Rid(app, |inst.requests|), s.(apps := s.apps[app := OpenRequest(inst)]);
      if n == 0 then s'
      else s'.(retries := s.retries[rid := prev + 1], pending := s.pending + {rid},
           remaining := s.remaining[app := Left(s, app) + n])
  }

  function NewApp(s: State, numTasks: nat): State {
    var app := s.lastApp + 1;
    s.(lastApp := app, apps := s.apps[app := Instance(seq(numTasks, _ => Ready), [])],
      remaining := s.remaining[app := 0])
  }

  function OnDispatch(s: State, numTasks: nat): State {
    SendRequest(NewApp(s, numTasks), s.lastApp + 1, 0)
  }

  function OnAccept(s: State, src: Addr, rid: Rid, first: nat, last: nat): State {
    if rid.app !in s.apps then s
    else
      var inst := s.apps[rid.app];
      var n := Among(Accepting(inst, rid.k, first, last), |inst.tasks|);
      var s' := s.(apps := s.apps[rid.app := AcceptTasks(inst, src, rid.k, first, last)]);
      if n == 0 then s'
      else s'.(retries := s.retries[rid := 0], remote := SetAt(s.remote, src, rid.app, At(s.remote, src, rid.app) + n))
  }

  function FinishApp(s: State, app: AppId): State {
    s.(apps := s.apps - {app}, remaining := s.remaining - {app})
  }

  /** The request stops its search and gives its tasks back. */
  function Cancel(s: State, rid: Rid): State
    requires rid.app in s.apps
  {
    var inst := s.apps[rid.app];
    s.(apps := s.apps[rid.app := CancelSearch(inst, rid.k)],
       remaining := s.remaining[rid.app := Left(s, rid.app) - Among(SearchedBy(inst, rid.k), |inst.tasks|)])
  }

  function OnTimeout(s: State, rid: Rid, maxRetries: nat): State
    requires rid in s.retries
  {
    var s := s.(pending := s.pending - {rid});
    if rid.app !in s.apps then s
    else
      var s' := Cancel(s, rid);
      var s'' := if Num(s'.apps[rid.app].tasks, AreReady) > 0 && s.retries[rid] < maxRetries
        then SendRequest(s', rid.app, s.retries[rid])
                 else if Left(s', rid.app) == 0 then FinishApp(s', rid.app) else s';
      s''.(retries := s''.retries - {rid})
  }

  datatype Outcome = Ongoing | Done | Failed

  /** What a node reports about one task. */
  datatype Report = Report(rid: Rid, tid: nat, outcome: Outcome)

  /** The tasks of the application after a report; one that is still searched for is accepted first. */
  function Told(inst: Instance, src: Addr, e: Report): Instance {
    var inst' := AcceptTasks(inst, src, e.rid.k, e.tid, e.tid);
    match e.outcome
    case Ongoing => inst'
    case Done => FinishTask(inst', e.rid.k, e.tid)
    case Failed => AbortTask(inst', e.rid.k, e.tid)
  }

  /** The task of a report. */
  function Reported(s: State, e: Report): Option<nat> {
    if e.rid.app in s.apps then TaskOf(s.apps[e.rid.app], e.rid.k, e.tid) else None
  }

  /** The tasks and the counts after a report. */
  function Count(s: State, src: Addr, e: Report): State {
    var app := e.rid.app;
    if app !in s.apps then s
    else
      var s' := s.(apps := s.apps[app := Told(s.apps[app], src, e)]);
      var here := At(s.remote, src, app);
      if e.outcome == Ongoing || Reported(s, e).None? then s'
      else if e.outcome == Done then
        if here == 0 then s'
        else s'.(remote := SetAt(s.remote, src, app, here - 1),
                 remaining := if app in s.remaining then s.remaining[app := s.remaining[app] - 1] else s.remaining)
      else s'.(remote := SetAt(s.remote, src, app, if here > 0 then here - 1 else 0),
           remaining := s.remaining[app := Left(s, app) - 1])
  }

  /** An application ends with its last task; after a failure its ready tasks are searched for again. */
  function OnReport(s: State, src: Addr, e: Report): State {
    var app, s' := e.rid.app, Count(s, src, e);
    if Reported(s, e).None? || At(s.remote, src, app) == 0 then s'
    else if e.outcome == Done && app in s'.remaining && s'.remaining[app] == 0 then FinishApp(s', app)
    else if e.outcome == Failed then SendRequest(s', app, 0)
    else s'
  }

  /** A task failed on a node that was counted. */
  predicate AsksAgain(s: State, src: Addr, e: Report) {
    Reported(s, e).Some? && At(s.remote, src, e.rid.app) > 0 && e.outcome == Failed
  }

  /** After its counts a report asks again, or forgets an application, or neither. */
  lemma ReportEnds(s: State, src: Addr, e: Report)
    ensures
      var s1, s' := Count(s, src, e), OnReport(s, src, e);
      && (AsksAgain(s, src, e) ==> s' == SendRequest(s1, e.rid.app, 0))
      && (!AsksAgain(s, src, e) ==>
            && s'.inChange == s1.inChange && s'.delayed == s1.delayed && s'.lastApp == s1.lastApp
            && s'.retries == s1.retries && s'.pending == s1.pending && s'.remote == s1.remote
            && (s'.apps == s1.apps || s'.apps == s1.apps - {e.rid.app}))
  {
  }

  /** The counts of a report leave requests alone. */
  lemma CountKeepsRequests(s: State, src: Addr, e: Report)
    ensures var s1 := Count(s, src, e);
            && s1.inChange == s.inChange && s1.delayed == s.delayed && s1.lastApp == s.lastApp
            && s1.retries == s.retries && s1.pending == s.pending
  {
  }

  /** What a dead node had of an application is not remote any more. */
  function TakeBack(s: State, node: Addr, app: AppId): State {
    s.(remaining := s.remaining[app := Left(s, app) - At(s.remote, node, app)], remote := SetAt(s.remote, node, app, 0))
  }

  /** The applications that had tasks on a dead node are relaunched one after another. */
  function Relaunch(s: State, node: Addr, apps: seq<AppId>): State
    decreases |apps|
  {
    if apps == [] then s else Relaunch(SendRequest(TakeBack(s, node, apps[0]), apps[0], 0), node, apps[1..])
  }

  /** `apps` are the applications with tasks on the node, in some order. */
  ghost predicate Lists(remote: Remote, node: Addr, apps: seq<AppId>) {
    && (forall a :: a in apps <==> At(remote, node, a) > 0)
    && (forall i, j | 0 <= i < j < |apps| :: apps[i] != apps[j])
  }

  function FreeAll(s: State, node: Addr): State {
    s.(apps := AllDead(s.apps, node))
  }

  function OnHeartbeatTimeout(s: State, node: Addr, apps: seq<AppId>): State {
    Relaunch(FreeAll(s, node), node, apps)
  }

  function OnFatherChanging(s: State): State {
    s.(inChange := true)
  }

  function SendAll(s: State, delayed: seq<(AppId, nat)>): State
    decreases |delayed|
  {
    if delayed == [] then s else SendAll(SendRequest(s, delayed[0].0, delayed[0].1), delayed[1..])
  }

  function OnFatherChanged(s: State): State {
    SendAll(s.(inChange := false, delayed := []), s.delayed)
  }

  datatype Step =
    | Dispatch(numTasks: nat)
    | Accept(src: Addr, rid: Rid, first: nat, last: nat)
    | Timeout(rid: Rid, maxRetries: nat)
    | Monitor(src: Addr, report: Report)
    | Heartbeat(node: Addr, apps: seq<AppId>)
    | FatherChanging
    | FatherChanged

  /** Messages may arrive at any time, also late ones; a request times out once. */
  ghost predicate Enabled(s: State, a: Step) {
    match a
    case Timeout(rid, _) => rid in s.pending
    case Heartbeat(node, apps) => Lists(s.remote, node, apps)
    case _ => true
  }

  function Does(s: State, a: Step): State
    requires a.Timeout? ==> a.rid in s.retries
  {
    match a
    case Dispatch(n) => OnDispatch(s, n)
    case Accept(src, rid, first, last) => OnAccept(s, src, rid, first, last)
    case Timeout(rid, maxRetries) => OnTimeout(s, rid, maxRetries)
    case Monitor(src, e) => OnReport(s, src, e)
    case Heartbeat(node, apps) => OnHeartbeatTimeout(s, node, apps)
    case FatherChanging => OnFatherChanging(s)
    case FatherChanged => OnFatherChanged(s)
  }

  // ---------------------------------------------------------------------------------------------
  // Whatever messages arrive: slots in order, and nothing is looked up that is not there
  // ---------------------------------------------------------------------------------------------

  ghost predicate AppsOk(apps: map<AppId, Instance>, remaining: map<AppId, int>, lastApp: AppId) {
    forall a | a in apps :: a <= lastApp && a in remaining && SlotsOk(apps[a])
  }

  /** A request whose timeout is pending is an old one, and its retries are known. */
  ghost predicate PendingOk(apps: map<AppId, Instance>, pending: set<Rid>, retries: map<Rid, nat>, lastApp: AppId) {
    forall r | r in pending :: r in retries && r.app <= lastApp && (r.app in apps ==> r.k < |apps[r.app].requests|)
  }

  ghost predicate Sound(s: State) {
    AppsOk(s.apps, s.remaining, s.lastApp) && PendingOk(s.apps, s.pending, s.retries, s.lastApp)
  }

  lemma SendIsSound(s: State, app: AppId, prev: nat)
    requires Sound(s)
    ensures Sound(SendRequest(s, app, prev))
    ensures forall r | r in s.pending :: r in SendRequest(s, app, prev).pending
    ensures forall r | r in SendRequest(s, app, prev).pending && r !in s.pending ::
              !s.inChange && app in s.apps && r == Rid(app, |s.apps[app].requests|)
  {
    if app in s.apps { OpenKeepsSlots(s.apps[app]); }
  }

  lemma {:induction false} SendAllIsSound(s: State, delayed: seq<(AppId, nat)>)
    requires Sound(s)
    ensures Sound(SendAll(s, delayed))
    decreases |delayed|
  {
    if delayed != [] {
      SendIsSound(s, delayed[0].0, delayed[0].1);
      SendAllIsSound(SendRequest(s, delayed[0].0, delayed[0].1), delayed[1..]);
    }
  }

  lemma {:induction false} RelaunchIsSound(s: State, node: Addr, apps: seq<AppId>)
    requires Sound(s)
    ensures Sound(Relaunch(s, node, apps))
    decreases |apps|
  {
    if apps != [] {
      SendIsSound(TakeBack(s, node, apps[0]), apps[0], 0);
      RelaunchIsSound(SendRequest(TakeBack(s, node, apps[0]), apps[0], 0), node, apps[1..]);
    }
  }

  lemma NewIsSound(s: State, numTasks: nat)
    requires Sound(s)
    ensures Sound(NewApp(s, numTasks))
  {
  }

  lemma AcceptIsSound(s: State, src: Addr, rid: Rid, first: nat, last: nat)
    requires Sound(s)
    ensures Sound(OnAccept(s, src, rid, first, last))
  {
    if rid.app in s.apps { AcceptKeepsSlots(s.apps[rid.app], src, rid.k, first, last); }
  }

  lemma CancelIsSound(s: State, rid: Rid)
    requires Sound(s) && rid.app in s.apps
    ensures Sound(Cancel(s, rid)) && |Cancel(s, rid).apps[rid.app].requests| == |s.apps[rid.app].requests|
  {
    FreeKeepsSlots(s.apps[rid.app], SearchedBy(s.apps[rid.app], rid.k));
  }

  lemma TimeoutIsSound(s: State, rid: Rid, maxRetries: nat)
    requires Sound(s) && rid in s.pending
    ensures Sound(OnTimeout(s, rid, maxRetries))
  {
    var s0 := s.(pending := s.pending - {rid});
    if rid.app in s.apps {
      CancelIsSound(s0, rid);
      SendIsSound(Cancel(s0, rid), rid.app, s.retries[rid]);
      var s1 := SendRequest(Cancel(s0, rid), rid.app, s.retries[rid]);
      assert rid !in s1.pending;
    }
  }

  lemma ToldKeepsSlots(inst: Instance, src: Addr, e: Report)
    requires SlotsOk(inst)
    ensures SlotsOk(Told(inst, src, e)) && |Told(inst, src, e).requests| == |inst.requests|
  {
    AcceptKeepsSlots(inst, src, e.rid.k, e.tid, e.tid);
    var inst' := AcceptTasks(inst, src, e.rid.k, e.tid, e.tid);
    match e.outcome
    case Ongoing =>
    case Done => FinishKeepsSlots(inst', e.rid.k, e.tid);
    case Failed => if TaskOf(inst', e.rid.k, e.tid).Some? {
      FreeKeepsSlots(inst', {TaskOf(inst', e.rid.k, e.tid).value});
    }
  }

  lemma CountIsSound(s: State, src: Addr, e: Report)
    requires Sound(s)
    ensures Sound(Count(s, src, e))
  {
    if e.rid.app in s.apps { ToldKeepsSlots(s.apps[e.rid.app], src, e); }
  }

  lemma FreeAllIsSound(s: State, node: Addr)
    requires Sound(s)
    ensures Sound(FreeAll(s, node))
  {
    forall x | x in s.apps ensures SlotsOk(DeadNode(s.apps[x], node)) {
      FreeKeepsSlots(s.apps[x], RunningAt(s.apps[x], node));
    }
  }

  /**
   Whatever messages arrive, in any order, every task that is not ready is in exactly one slot, and no ready one is.
   */
  lemma StepIsSound(s: State, a: Step)
    requires Sound(s) && Enabled(s, a)
    ensures Sound(Does(s, a))
  {
    match a
    case Dispatch(n) =>
      NewIsSound(s, n);
      SendIsSound(NewApp(s, n), s.lastApp + 1, 0);
    case Accept(src, rid, first, last) => AcceptIsSound(s, src, rid, first, last);
    case Timeout(rid, maxRetries) => TimeoutIsSound(s, rid, maxRetries);
    case Monitor(src, e) =>
      CountIsSound(s, src, e);
      SendIsSound(Count(s, src, e), e.rid.app, 0);
    case Heartbeat(node, apps) =>
      FreeAllIsSound(s, node);
      RelaunchIsSound(FreeAll(s, node), node, apps);
    case FatherChanging =>
    case FatherChanged => SendAllIsSound(s.(inChange := false, delayed := []), s.delayed);
  }


  // ---------------------------------------------------------------------------------------------
  // The counts of one application
  // ---------------------------------------------------------------------------------------------

  /** What is left is what is searched for or runs, and on every node runs what is counted there. */
  ghost predicate Fits(tasks: seq<Task>, left: int, remote: Remote, app: AppId) {
    left == InProcess(tasks) && forall n :: At(remote, n, app) == Num(tasks, AreAt(n))
  }

  lemma {:induction false} ReadyFromCounts(tasks: seq<Task>, j: nat)
    requires j <= |tasks|
    ensures |ReadyFrom(tasks, j)| + Among(ReadyTasks(tasks), j) == Among(ReadyTasks(tasks), |tasks|)
    decreases |tasks| - j
  {
    if j < |tasks| { ReadyFromCounts(tasks, j + 1); }
  }

  lemma {:induction false} NumZero(tasks: seq<Task>, kind: Kind)
    requires forall j | 0 <= j < |tasks| :: !Is(tasks[j], kind)
    ensures Num(tasks, kind) == 0
  {
    if tasks != [] { NumZero(tasks[1..], kind); }
  }

  lemma NewFits(numTasks: nat, remote: Remote, app: AppId)
    requires forall n :: At(remote, n, app) == 0
    ensures Fits(seq(numTasks, _ => Ready), 0, remote, app)
  {
    var tasks: seq<Task> := seq(numTasks, _ => Ready);
    NumZero(tasks, AreSearching);
    NumZero(tasks, AreExecuting);
    forall n ensures Num(tasks, AreAt(n)) == 0 { NumZero(tasks, AreAt(n)); }
  }

  lemma OpenFits(tasks: seq<Task>, left: int, remote: Remote, app: AppId)
    requires Fits(tasks, left, remote, app)
    ensures Fits(Changed(tasks, ReadyTasks(tasks), Searching), left + |ReadyFrom(tasks, 0)|, remote, app)
  {
    var free := ReadyTasks(tasks);
    ReadyFromCounts(tasks, 0);
    NumChange(tasks, free, Ready, Searching, AreSearching);
    NumChange(tasks, free, Ready, Searching, AreExecuting);
    forall n ensures Num(Changed(tasks, free, Searching), AreAt(n)) == Num(tasks, AreAt(n)) {
      NumChange(tasks, free, Ready, Searching, AreAt(n));
    }
  }

  lemma CancelFits(tasks: seq<Task>, free: set<nat>, left: int, remote: Remote, app: AppId)
    requires Fits(tasks, left, remote, app) && forall j | j in free && j < |tasks| :: tasks[j] == Searching
    ensures Fits(Changed(tasks, free, Ready), left - Among(free, |tasks|), remote, app)
  {
    NumChange(tasks, free, Searching, Ready, AreSearching);
    NumChange(tasks, free, Searching, Ready, AreExecuting);
    forall n ensures Num(Changed(tasks, free, Ready), AreAt(n)) == Num(tasks, AreAt(n)) {
      NumChange(tasks, free, Searching, Ready, AreAt(n));
    }
  }

  lemma AcceptFits(tasks: seq<Task>, taken: set<nat>, src: Addr, left: int, remote: Remote, app: AppId)
    requires Fits(tasks, left, remote, app) && forall j | j in taken && j < |tasks| :: tasks[j] == Searching
    ensures Fits(Changed(tasks, taken, Executing(src)), left,
                 SetAt(remote, src, app, At(remote, src, app) + Among(taken, |tasks|)), app)
  {
    var remote' := SetAt(remote, src, app, At(remote, src, app) + Among(taken, |tasks|));
    NumChange(tasks, taken, Searching, Executing(src), AreSearching);
    NumChange(tasks, taken, Searching, Executing(src), AreExecuting);
    forall n ensures Num(Changed(tasks, taken, Executing(src)), AreAt(n)) == At(remote', n, app) {
      NumChange(tasks, taken, Searching, Executing(src), AreAt(n));
    }
  }

  lemma DeadFits(inst: Instance, node: Addr, left: int, remote: Remote, app: AppId)
    requires Fits(inst.tasks, left, remote, app)
    ensures Fits(DeadNode(inst, node).tasks, left - At(remote, node, app), SetAt(remote, node, app, 0), app)
  {
    var tasks, free := inst.tasks, RunningAt(inst, node);
    var tasks' := Changed(tasks, free, Ready);
    NumZero(tasks', AreAt(node));
    NumChange(tasks, free, Executing(node), Ready, AreSearching);
    NumChange(tasks, free, Executing(node), Ready, AreExecuting);
    forall n ensures Num(tasks', AreAt(n)) == At(SetAt(remote, node, app, 0), n, app) {
      NumChange(tasks, free, Executing(node), Ready, AreAt(n));
    }
    NumChange(tasks, free, Executing(node), Ready, AreAt(node));
  }

  predicate Active(t: Task) {
    t.Searching? || t.Executing?
  }

  /** Counts that differ only in those of one node and one application. */
  ghost predicate Differ(remote: Remote, remote': Remote, src: Addr, app: AppId) {
    forall n, a | n != src || a != app :: At(remote', n, a) == At(remote, n, a)
  }

  /** When one task becomes `t`, the counts fit if and only if they change with it. */
  lemma FitsAfter(tasks: seq<Task>, j: nat, t: Task, left: int, left': int, remote: Remote, remote': Remote, src: Addr,
                  app: AppId)
    requires Fits(tasks, left, remote, app) && j < |tasks| && Differ(remote, remote', src, app)
    ensures
      Fits(tasks[j := t], left', remote', app)
      <==> && left' == left + One(Active(t)) - One(Active(tasks[j]))
           && At(remote', src, app) == At(remote, src, app) + One(t == Executing(src)) - One(tasks[j] == Executing(src))
           && forall n | n != src :: One(t == Executing(n)) == One(tasks[j] == Executing(n))
  {
    NumUpdate(tasks, j, t, AreSearching);
    NumUpdate(tasks, j, t, AreExecuting);
    forall n
      ensures At(remote', n, app) == Num(tasks[j := t], AreAt(n))
              <==> At(remote', n, app) == At(remote, n, app) + One(t == Executing(n)) - One(tasks[j] == Executing(n))
    {
      NumUpdate(tasks, j, t, AreAt(n));
    }
    assert forall n | n != src :: At(remote', n, app) == At(remote, n, app);
  }

  // ---------------------------------------------------------------------------------------------
  // The counts of all applications
  // ---------------------------------------------------------------------------------------------

  ghost predicate Balanced(apps: map<AppId, Instance>, remaining: map<AppId, int>, remote: Remote) {
    && (forall a | a in apps :: a in remaining && Fits(apps[a].tasks, remaining[a], remote, a))
    && (forall a | a in remaining :: a in apps)
    && (forall a, n | a !in apps :: At(remote, n, a) == 0)
  }

  /**
   What is left of every application is its searched and its running tasks, and every node has what is counted there.
   */
  ghost predicate Counted(s: State) {
    Balanced(s.apps, s.remaining, s.remote)
  }

  /** Only what is known about one application differs. */
  ghost predicate Alters(s: State, s': State, app: AppId) {
    && app in s'.apps && app in s'.remaining
    && (forall a | a != app :: (a in s'.apps <==> a in s.apps) && (a in s'.remaining <==> a in s.remaining))
    && (forall a | a != app && a in s.apps :: s'.apps[a] == s.apps[a])
    && (forall a | a != app && a in s.remaining :: s'.remaining[a] == s.remaining[a])
    && (forall n, a | a != app :: At(s'.remote, n, a) == At(s.remote, n, a))
  }

  lemma OneIsEnough(s: State, s': State, app: AppId)
    requires Counted(s) && Alters(s, s', app)
    ensures Counted(s') <==> Fits(s'.apps[app].tasks, s'.remaining[app], s'.remote, app)
  {
    forall a | a in s.apps && a != app ensures Fits(s'.apps[a].tasks, s'.remaining[a], s'.remote, a) {
      assert Fits(s.apps[a].tasks, s.remaining[a], s.remote, a);
    }
  }

  lemma SendIsCounted(s: State, app: AppId, prev: nat)
    requires Counted(s)
    ensures Counted(SendRequest(s, app, prev))
  {
    if !s.inChange && app in s.apps {
      OpenFits(s.apps[app].tasks, s.remaining[app], s.remote, app);
      OneIsEnough(s, SendRequest(s, app, prev), app);
    }
  }

  lemma {:induction false} SendAllIsCounted(s: State, delayed: seq<(AppId, nat)>)
    requires Counted(s)
    ensures Counted(SendAll(s, delayed))
    decreases |delayed|
  {
    if delayed != [] {
      SendIsCounted(s, delayed[0].0, delayed[0].1);
      SendAllIsCounted(SendRequest(s, delayed[0].0, delayed[0].1), delayed[1..]);
    }
  }

  lemma NewIsCounted(s: State, numTasks: nat)
    requires Counted(s) && Sound(s)
    ensures Counted(NewApp(s, numTasks))
  {
    var app := s.lastApp + 1;
    assert app !in s.apps;
    NewFits(numTasks, s.remote, app);
    OneIsEnough(s, NewApp(s, numTasks), app);
  }

  lemma AcceptIsCounted(s: State, src: Addr, rid: Rid, first: nat, last: nat)
    requires Counted(s)
    ensures Counted(OnAccept(s, src, rid, first, last))
  {
    if rid.app in s.apps {
      var inst, s' := s.apps[rid.app], OnAccept(s, src, rid, first, last);
      var taken := Accepting(inst, rid.k, first, last);
      AcceptFits(inst.tasks, taken, src, s.remaining[rid.app], s.remote, rid.app);
      SameFits(s'.apps[rid.app].tasks, s.remaining[rid.app],
        SetAt(s.remote, src, rid.app, At(s.remote, src, rid.app) + Among(taken, |inst.tasks|)),
               s'.remote, rid.app);
      OneIsEnough(s, s', rid.app);
    }
  }

  lemma SameFits(tasks: seq<Task>, left: int, remote: Remote, remote': Remote, app: AppId)
    requires Fits(tasks, left, remote, app) && forall n :: At(remote', n, app) == At(remote, n, app)
    ensures Fits(tasks, left, remote', app)
  {
  }

  lemma CancelIsCounted(s: State, rid: Rid)
    requires Counted(s) && rid.app in s.apps
    ensures Counted(Cancel(s, rid))
  {
    var inst := s.apps[rid.app];
    CancelFits(inst.tasks, SearchedBy(inst, rid.k), s.remaining[rid.app], s.remote, rid.app);
    OneIsEnough(s, Cancel(s, rid), rid.app);
  }

  /** An application of which nothing is left runs nowhere, so it can be forgotten. */
  lemma FinishIsCounted(s: State, app: AppId)
    requires Counted(s) && app in s.apps && s.remaining[app] == 0
    ensures Counted(FinishApp(s, app))
  {
    var s' := FinishApp(s, app);
    assert Fits(s.apps[app].tasks, 0, s.remote, app);
    forall n ensures At(s.remote, n, app) == 0 { AtIsExecuting(s.apps[app].tasks, n); }
    forall a | a in s'.apps ensures a in s'.remaining && Fits(s'.apps[a].tasks, s'.remaining[a], s'.remote, a) {
      assert Fits(s.apps[a].tasks, s.remaining[a], s.remote, a);
    }
  }

  lemma TimeoutIsCounted(s: State, rid: Rid, maxRetries: nat)
    requires Counted(s) && rid in s.retries
    ensures Counted(OnTimeout(s, rid, maxRetries))
  {
    var s0 := s.(pending := s.pending - {rid});
    if rid.app in s.apps {
      var s1 := Cancel(s0, rid);
      CancelIsCounted(s0, rid);
      SendIsCounted(s1, rid.app, s.retries[rid]);
      if s1.remaining[rid.app] == 0 { FinishIsCounted(s1, rid.app); }
    }
  }

  // ---------------------------------------------------------------------------------------------
  // Reports
  // ---------------------------------------------------------------------------------------------

  function TaskTold(t: Task, src: Addr, outcome: Outcome): Task {
    match outcome
    case Ongoing => if t.Searching? then Executing(src) else t
    case Done => Finished
    case Failed => Ready
  }

  lemma ToldTasks(inst: Instance, src: Addr, e: Report)
    requires SlotsOk(inst)
    ensures
      match TaskOf(inst, e.rid.k, e.tid)
      case None => Told(inst, src, e).tasks == inst.tasks
      case Some(j) =>
        j < |inst.tasks| && Told(inst, src, e).tasks == inst.tasks[j := TaskTold(inst.tasks[j], src, e.outcome)]
  {
    var taken := Accepting(inst, e.rid.k, e.tid, e.tid);
    match TaskOf(inst, e.rid.k, e.tid)
    case None => assert taken == {};
    case Some(j) =>
      TaskOfIsOnly(inst, e.rid.k, e.tid);
      assert taken == if inst.tasks[j] == Searching then {j} else {};
  }

  /** A report about a task that runs where it comes from, or about one that nobody counts. */
  predicate GoesWith(t: Task, src: Addr, outcome: Outcome, here: nat) {
    match outcome
    case Ongoing => !t.Searching?
    case Done => t == Executing(src) || (t.Finished? && here == 0)
    case Failed => t == Executing(src) || (t.Searching? && here == 0)
  }

  predicate OnTime(s: State, src: Addr, e: Report) {
    match Reported(s, e)
    case None => true
    case Some(j) =>
      j < |s.apps[e.rid.app].tasks|
      && GoesWith(s.apps[e.rid.app].tasks[j], src, e.outcome, At(s.remote, src, e.rid.app))
  }

  lemma RunsWhereCounted(tasks: seq<Task>, j: nat, left: int, remote: Remote, app: AppId)
    requires Fits(tasks, left, remote, app) && j < |tasks|
    ensures forall n | tasks[j] == Executing(n) :: At(remote, n, app) > 0
  {
    forall n | tasks[j] == Executing(n) ensures At(remote, n, app) > 0 { NumPositive(tasks, j, AreAt(n)); }
  }

  /** A report concerns one application and one node. */
  lemma CountIsLocal(s: State, src: Addr, e: Report)
    requires e.rid.app in s.apps && e.rid.app in s.remaining
    ensures
      var s', app := Count(s, src, e), e.rid.app;
      Alters(s, s', app) && Differ(s.remote, s'.remote, src, app) && s'.apps[app] == Told(s.apps[app], src, e)
  {
  }

  /** The counts of the application after the report. */
  lemma FitsIffOnTime(tasks: seq<Task>, j: nat, src: Addr, outcome: Outcome, left: int, left': int, remote: Remote,
                      remote': Remote, app: AppId)
    requires Fits(tasks, left, remote, app) && j < |tasks| && !tasks[j].Ready? && Differ(remote, remote', src, app)
    requires left' == left - (if outcome == Failed || (outcome == Done && At(remote, src, app) > 0) then 1 else 0)
    requires At(remote', src, app) ==
        At(remote, src, app) - (if outcome != Ongoing && At(remote, src, app) > 0 then 1 else 0)
    ensures Fits(tasks[j := TaskTold(tasks[j], src, outcome)], left', remote', app)
            <==> GoesWith(tasks[j], src, outcome, At(remote, src, app))
  {
    FitsAfter(tasks, j, TaskTold(tasks[j], src, outcome), left, left', remote, remote', src, app);
    RunsWhereCounted(tasks, j, left, remote, app);
    OnTimeIs(tasks[j], src, outcome, left, left', At(remote, src, app), At(remote', src, app));
  }

  /** A report keeps the counts if and only if it is on time. */
  lemma ReportIff(s: State, src: Addr, e: Report)
    requires Sound(s) && Counted(s)
    ensures Counted(Count(s, src, e)) <==> OnTime(s, src, e)
  {
    var app := e.rid.app;
    if app in s.apps {
      var inst, left, s' := s.apps[app], s.remaining[app], Count(s, src, e);
      CountIsLocal(s, src, e);
      OneIsEnough(s, s', app);
      ToldTasks(inst, src, e);
      match Reported(s, e) {
        case None => SameFits(inst.tasks, left, s.remote, s'.remote, app);
        case Some(j) =>
          TaskOfIsOnly(inst, e.rid.k, e.tid);
          FitsIffOnTime(inst.tasks, j, src, e.outcome, left, s'.remaining[app], s.remote, s'.remote, app);
      }
    }
  }

  lemma OnTimeIs(t: Task, src: Addr, outcome: Outcome, left: int, left': int, here: nat, here': nat)
    requires !t.Ready? && (t == Executing(src) ==> here > 0)
    requires left' == left - (if outcome == Failed || (outcome == Done && here > 0) then 1 else 0)
    requires here' == here - (if outcome != Ongoing && here > 0 then 1 else 0)
    ensures
      (&& left' == left + One(Active(TaskTold(t, src, outcome))) - One(Active(t))
       && here' == here + One(TaskTold(t, src, outcome) == Executing(src)) - One(t == Executing(src))
       && forall n | n != src :: One(TaskTold(t, src, outcome) == Executing(n)) == One(t == Executing(n)))
      <==> GoesWith(t, src, outcome, here)
  {
    if t.Executing? && t.host != src {
      assert One(t == Executing(t.host)) == 1;
    }
  }

  lemma ReportIsCounted(s: State, src: Addr, e: Report)
    requires Sound(s) && Counted(s) && OnTime(s, src, e)
    ensures Counted(OnReport(s, src, e))
  {
    var app, s' := e.rid.app, Count(s, src, e);
    ReportIff(s, src, e);
    SendIsCounted(s', app, 0);
    if app in s'.remaining && s'.remaining[app] == 0 { FinishIsCounted(s', app); }
  }


  // ---------------------------------------------------------------------------------------------
  // Dead nodes
  // ---------------------------------------------------------------------------------------------

  ghost function LeftWithout(remaining: map<AppId, int>, remote: Remote, node: Addr): (r: map<AppId, int>)
    ensures forall a :: a in r <==> a in remaining
    ensures forall a | a in remaining :: r[a] == remaining[a] - At(remote, node, a)
  {
    map a | a in remaining :: remaining[a] - At(remote, node, a)
  }

  ghost function RemoteWithout(remote: Remote, node: Addr): (r: Remote)
    ensures forall n, a :: At(r, n, a) == if n == node then 0 else At(remote, n, a)
  {
    map k | k in remote && k.0 != node :: remote[k]
  }

  /** The counts as if a node had never been given a task. */
  ghost function Without(s: State, node: Addr): State {
    s.(remaining := LeftWithout(s.remaining, s.remote, node), remote := RemoteWithout(s.remote, node))
  }

  lemma SameCounts(s: State, s': State)
    requires Counted(s) && s'.apps == s.apps && s'.remaining == s.remaining
    requires forall n, a :: At(s'.remote, n, a) == At(s.remote, n, a)
    ensures Counted(s')
  {
    forall a | a in s'.apps ensures a in s'.remaining && Fits(s'.apps[a].tasks, s'.remaining[a], s'.remote, a) {
      SameFits(s.apps[a].tasks, s.remaining[a], s.remote, s'.remote, a);
    }
  }

  lemma FreeAllIsCounted(s: State, node: Addr)
    requires Counted(s)
    ensures Counted(Without(FreeAll(s, node), node))
  {
    var remote, remaining := RemoteWithout(s.remote, node), LeftWithout(s.remaining, s.remote, node);
    forall a | a in s.apps ensures a in s.remaining && Fits(DeadNode(s.apps[a], node).tasks, remaining[a], remote, a) {
      FreeOneIsCounted(s.apps[a], node, s.remaining[a], s.remote, a);
    }
  }

  lemma FreeOneIsCounted(inst: Instance, node: Addr, left: int, remote: Remote, app: AppId)
    requires Fits(inst.tasks, left, remote, app)
    ensures Fits(DeadNode(inst, node).tasks, left - At(remote, node, app), RemoteWithout(remote, node), app)
  {
    DeadFits(inst, node, left, remote, app);
    SameFits(DeadNode(inst, node).tasks, left - At(remote, node, app), SetAt(remote, node, app, 0),
      RemoteWithout(remote, node), app);
  }

  lemma TakeBackWithout(s: State, node: Addr, app: AppId)
    requires app in s.remaining
    ensures
      var s', w := Without(TakeBack(s, node, app), node), Without(s, node);
      s'.apps == w.apps && s'.remaining == w.remaining && forall n, a :: At(s'.remote, n, a) == At(w.remote, n, a)
  {
    assert LeftWithout(TakeBack(s, node, app).remaining, TakeBack(s, node, app).remote, node) ==
      LeftWithout(s.remaining, s.remote, node);
  }

  /** What `SendRequest` leaves to be done. */
  function LeftAfter(remaining: map<AppId, int>, app: AppId, n: nat): map<AppId, int> {
    if n == 0 then remaining else remaining[app := (if app in remaining then remaining[app] else 0) + n]
  }

  lemma SendLeaves(s: State, app: AppId, prev: nat)
    ensures
      var s', sends := SendRequest(s, app, prev), !s.inChange && app in s.apps;
      && s'.remote == s.remote
      && s'.apps == (if sends then s.apps[app := OpenRequest(s.apps[app])] else s.apps)
      && s'.remaining == if sends then LeftAfter(s.remaining, app, |ReadyFrom(s.apps[app].tasks, 0)|) else s.remaining
  {
  }

  lemma LeftAfterWithout(remaining: map<AppId, int>, remote: Remote, node: Addr, app: AppId, n: nat)
    requires app in remaining
    ensures LeftWithout(LeftAfter(remaining, app, n), remote, node) ==
        LeftAfter(LeftWithout(remaining, remote, node), app, n)
  {
  }

  lemma SendWithout(s: State, node: Addr, app: AppId)
    requires app in s.apps ==> app in s.remaining
    ensures
      var s', w := Without(SendRequest(s, app, 0), node), SendRequest(Without(s, node), app, 0);
      s'.apps == w.apps && s'.remaining == w.remaining && s'.remote == w.remote
  {
    SendLeaves(s, app, 0);
    SendLeaves(Without(s, node), app, 0);
    if app in s.apps { LeftAfterWithout(s.remaining, s.remote, node, app, |ReadyFrom(s.apps[app].tasks, 0)|); }
  }

  lemma {:induction false} RelaunchIsCounted(s: State, node: Addr, apps: seq<AppId>)
    requires Counted(Without(s, node)) && Lists(s.remote, node, apps)
    requires forall a | a in apps :: a in s.apps && a in s.remaining
    ensures Counted(Relaunch(s, node, apps))
    decreases |apps|
  {
    if apps == [] {
      assert LeftWithout(s.remaining, s.remote, node) == s.remaining;
      SameCounts(Without(s, node), s);
    } else {
      var s1 := TakeBack(s, node, apps[0]);
      var s2 := SendRequest(s1, apps[0], 0);
      TakeBackWithout(s, node, apps[0]);
      SameCounts(Without(s, node), Without(s1, node));
      SendIsCounted(Without(s1, node), apps[0], 0);
      SendWithout(s1, node, apps[0]);
      SameCounts(SendRequest(Without(s1, node), apps[0], 0), Without(s2, node));
      ListsRest(s.remote, node, apps);
      RelaunchIsCounted(s2, node, apps[1..]);
    }
  }

  lemma ListsRest(remote: Remote, node: Addr, apps: seq<AppId>)
    requires Lists(remote, node, apps) && apps != []
    ensures Lists(SetAt(remote, node, apps[0], 0), node, apps[1..])
  {
    forall a ensures a in apps[1..] <==> At(SetAt(remote, node, apps[0], 0), node, a) > 0 {
      if a in apps && a != apps[0] {
        var i :| 0 <= i < |apps| && apps[i] == a;
        assert apps[1..][i - 1] == a;
      }
    }
  }

  lemma HeartbeatIsCounted(s: State, node: Addr, apps: seq<AppId>)
    requires Counted(s) && Lists(s.remote, node, apps)
    ensures Counted(OnHeartbeatTimeout(s, node, apps))
  {
    FreeAllIsCounted(s, node);
    forall a | a in apps ensures a in s.apps && a in s.remaining {
      assert At(s.remote, node, a) > 0;
    }
    RelaunchIsCounted(FreeAll(s, node), node, apps);
  }

  // ---------------------------------------------------------------------------------------------
  // Runs
  // ---------------------------------------------------------------------------------------------

  lemma StepIsCounted(s: State, a: Step)
    requires Sound(s) && Counted(s) && Enabled(s, a) && (a.Monitor? ==> OnTime(s, a.src, a.report))
    ensures Counted(Does(s, a))
  {
    match a
    case Dispatch(n) =>
      NewIsCounted(s, n);
      SendIsCounted(NewApp(s, n), s.lastApp + 1, 0);
    case Accept(src, rid, first, last) => AcceptIsCounted(s, src, rid, first, last);
    case Timeout(rid, maxRetries) => TimeoutIsCounted(s, rid, maxRetries);
    case Monitor(src, e) => ReportIsCounted(s, src, e);
    case Heartbeat(node, apps) => HeartbeatIsCounted(s, node, apps);
    case FatherChanging =>
    case FatherChanged => SendAllIsCounted(s.(inChange := false, delayed := []), s.delayed);
  }

  /** The steps lead from `s` to `t`. */
  ghost predicate Leads(s: State, steps: seq<Step>, t: State)
    requires Sound(s)
    decreases |steps|
  {
    if steps == [] then s == t
    else Enabled(s, steps[0]) && (StepIsSound(s, steps[0]); Leads(Does(s, steps[0]), steps[1..], t))
  }

  /** All reports on the way are on time. */
  ghost predicate AllOnTime(s: State, steps: seq<Step>)
    requires Sound(s)
    decreases |steps|
  {
    steps != [] && Enabled(s, steps[0]) ==>
      && (steps[0].Monitor? ==> OnTime(s, steps[0].src, steps[0].report))
      && (StepIsSound(s, steps[0]); AllOnTime(Does(s, steps[0]), steps[1..]))
  }

  /** In every run, whatever arrives, the slots are in order and every pending timeout finds its request. */
  lemma {:induction false} RunIsSound(s: State, steps: seq<Step>, t: State)
    requires Sound(s) && Leads(s, steps, t)
    ensures Sound(t)
    decreases |steps|
  {
    if steps != [] {
      StepIsSound(s, steps[0]);
      RunIsSound(Does(s, steps[0]), steps[1..], t);
    }
  }

  /** In every run whose reports are on time, the counts are exact. */
  lemma {:induction false} RunIsCounted(s: State, steps: seq<Step>, t: State)
    requires Sound(s) && Counted(s) && Leads(s, steps, t) && AllOnTime(s, steps)
    ensures Counted(t)
    decreases |steps|
  {
    if steps != [] {
      StepIsSound(s, steps[0]);
      StepIsCounted(s, steps[0]);
      RunIsCounted(Does(s, steps[0]), steps[1..], t);
    }
  }

  /** What the node promises from its start: exact counts, and it is idle only when nothing is searched for or runs. */
  lemma FromTheStart(steps: seq<Step>, t: State)
    requires Leads(START, steps, t) && AllOnTime(START, steps)
    ensures forall a | a in t.apps :: a in t.remaining && t.remaining[a] == InProcess(t.apps[a].tasks)
    ensures forall a, n | a in t.apps :: At(t.remote, n, a) == Num(t.apps[a].tasks, AreAt(n))
    ensures t.remaining == map[] ==> forall n, a :: At(t.remote, n, a) == 0
  {
    RunIsCounted(START, steps, t);
    forall a | a in t.apps ensures Fits(t.apps[a].tasks, t.remaining[a], t.remote, a) {}
  }

  /** A second report of the same end forgets an application whose last task still runs. */
  lemma RepeatedReportEndsEarly(s: State, src: Addr, e: Report, j: nat)
    requires Sound(s) && Counted(s) && e.outcome == Done && Reported(s, e) == Some(j) && j < |s.apps[e.rid.app].tasks|
    requires s.apps[e.rid.app].tasks[j] == Finished && At(s.remote, src, e.rid.app) == 1 && s.remaining[e.rid.app] == 1
    ensures Num(Count(s, src, e).apps[e.rid.app].tasks, AreExecuting) == 1 && e.rid.app !in OnReport(s, src, e).apps
  {
    var inst := s.apps[e.rid.app];
    ToldTasks(inst, src, e);
    assert inst.tasks[j := Finished] == inst.tasks;
    assert Fits(inst.tasks, 1, s.remote, e.rid.app);
    AtIsExecuting(inst.tasks, src);
  }

  // What a run looks like in which that happens: two tasks, accepted by node 7, of which the first is reported twice.

  const RID := Rid(1, 0)
  const TWICE := Monitor(7, Report(RID, 1, Done))
  const BOTH_RUN := Instance([Executing(7), Executing(7)], [[Some(0), Some(1)]])
  const ONE_RUNS := Instance([Finished, Executing(7)], [[Some(0), Some(1)]])

  lemma TwoAreDispatched()
    ensures Does(START, Dispatch(2))
            == START.(lastApp := 1, apps := map[1 := Instance([Searching, Searching], [[Some(0), Some(1)]])],
                      remaining := map[1 := 2], retries := map[RID := 1], pending := {RID})
  {
    var tasks: seq<Task> := seq(2, _ => Ready);
    assert tasks == [Ready, Ready];
    assert ReadyFrom(tasks, 2) == [] && ReadyFrom(tasks, 1) == [Some(1)] && ReadyFrom(tasks, 0) == [Some(0), Some(1)];
    assert ReadyTasks(tasks) == {0, 1} && Changed(tasks, {0, 1}, Searching) == [Searching, Searching];
    assert OpenRequest(Instance(tasks, [])).requests == [[Some(0), Some(1)]];
  }

  lemma BothAreAccepted(s: State)
    requires s.apps == map[1 := Instance([Searching, Searching], [[Some(0), Some(1)]])] && s.remote == map[]
    ensures Does(s, Accept(7, RID, 1, 2))
            == s.(apps := s.apps[1 := BOTH_RUN], retries := s.retries[RID := 0], remote := map[(7, 1) := 2])
  {
    var inst := s.apps[1];
    assert TaskOf(inst, 0, 1) == Some(0) && TaskOf(inst, 0, 2) == Some(1);
    assert Accepting(inst, 0, 1, 2) == {0, 1};
    assert Changed(inst.tasks, {0, 1}, Executing(7)) == [Executing(7), Executing(7)];
    assert Among({0, 1}, 2) == 2;
  }

  lemma OneIsReported(s: State)
    requires s.apps == map[1 := BOTH_RUN] && s.remote == map[(7, 1) := 2] && s.remaining == map[1 := 2]
    ensures Does(s, TWICE) == s.(apps := map[1 := ONE_RUNS], remote := map[(7, 1) := 1], remaining := map[1 := 1])
    ensures OnTime(s, 7, TWICE.report)
  {
    assert TaskOf(BOTH_RUN, 0, 1) == Some(0);
    assert Accepting(BOTH_RUN, 0, 1, 1) == {};
    assert Changed(BOTH_RUN.tasks, {}, Executing(7)) == BOTH_RUN.tasks;
    assert Told(BOTH_RUN, 7, TWICE.report) == ONE_RUNS;
  }

  lemma GoodStep(s: State, a: Step, s': State)
    requires Sound(s) && Counted(s) && Enabled(s, a) && (a.Monitor? ==> OnTime(s, a.src, a.report)) && Does(s, a) == s'
    ensures Sound(s') && Counted(s')
  {
    StepIsSound(s, a);
    StepIsCounted(s, a);
  }

  ghost predicate Yields(s: State, a: Step, s': State)
    requires Sound(s)
  {
    Enabled(s, a) && Does(s, a) == s'
  }

  lemma LeadsStep(s: State, a: Step, s': State, steps: seq<Step>, t: State)
    requires Sound(s) && Sound(s') && Yields(s, a, s') && Leads(s', steps, t)
    ensures Leads(s, [a] + steps, t)
  {
    assert ([a] + steps)[1..] == steps;
  }

  lemma TwoMore(s0: State, a: Step, s1: State, b: Step, s2: State, rest: seq<Step>, t: State) returns (steps: seq<Step>)
    requires Sound(s0) && Sound(s1) && Sound(s2) && Yields(s0, a, s1) && Yields(s1, b, s2) && Leads(s2, rest, t)
    ensures steps == [a] + ([b] + rest) && Leads(s0, steps, t)
  {
    LeadsStep(s1, b, s2, rest, t);
    LeadsStep(s0, a, s1, [b] + rest, t);
    steps := [a] + ([b] + rest);
  }

  lemma StartIsGood()
    ensures Sound(START) && Counted(START)
  {
  }

  lemma EndsEarly(s: State, a: Step)
    requires Sound(s) && Counted(s)
    requires a.Monitor? && a.src == 7 && a.report.rid == RID && a.report.tid == 1 && a.report.outcome == Done
    requires s.apps == map[1 := ONE_RUNS] && s.remote == map[(7, 1) := 1] && s.remaining == map[1 := 1]
    ensures RID.app !in Does(s, a).apps
  {
    assert TaskOf(ONE_RUNS, 0, 1) == Some(0);
    RepeatedReportEndsEarly(s, 7, a.report, 0);
  }

  /** Such a run: after three steps the second task runs and is counted; the repeated report ends its application. */
  lemma RepeatedReportRun() returns (steps: seq<Step>, s: State)
    ensures |steps| == 3 && steps[0] == Dispatch(2) && steps[1] == Accept(7, RID, 1, 2) && steps[2] == TWICE
    ensures Sound(START) && Leads(START, steps, s) && Sound(s) && Counted(s)
    ensures s.apps == map[RID.app := ONE_RUNS] && RID.app !in Does(s, TWICE).apps
  {
    var s1 := Does(START, Dispatch(2));
    TwoAreDispatched();
    var s2 := Does(s1, Accept(7, RID, 1, 2));
    BothAreAccepted(s1);
    s := Does(s2, TWICE);
    OneIsReported(s2);
    StartIsGood();
    GoodStep(START, Dispatch(2), s1);
    GoodStep(s1, Accept(7, RID, 1, 2), s2);
    GoodStep(s2, TWICE, s);
    LeadsStep(s2, TWICE, s, [], s);
    steps := TwoMore(START, Dispatch(2), s1, Accept(7, RID, 1, 2), s2, [TWICE] + [], s);
    EndsEarly(s, TWICE);
  }

  // ---------------------------------------------------------------------------------------------
  // Retries
  // ---------------------------------------------------------------------------------------------

  /** No request is a later retry than the limit allows, nor will a delayed one be. */
  ghost predicate WithinLimit(s: State, limit: nat) {
    && (forall r | r in s.retries :: s.retries[r] <= limit)
    && (forall d | d in s.delayed :: d.1 < limit)
  }

  lemma SendWithinLimit(s: State, app: AppId, prev: nat, limit: nat)
    requires WithinLimit(s, limit) && prev < limit
    ensures WithinLimit(SendRequest(s, app, prev), limit)
  {
  }

  lemma {:induction false} SendAllWithinLimit(s: State, delayed: seq<(AppId, nat)>, limit: nat)
    requires WithinLimit(s, limit) && forall d | d in delayed :: d.1 < limit
    ensures WithinLimit(SendAll(s, delayed), limit)
    decreases |delayed|
  {
    if delayed != [] {
      SendWithinLimit(s, delayed[0].0, delayed[0].1, limit);
      SendAllWithinLimit(SendRequest(s, delayed[0].0, delayed[0].1), delayed[1..], limit);
    }
  }

  lemma {:induction false} RelaunchWithinLimit(s: State, node: Addr, apps: seq<AppId>, limit: nat)
    requires WithinLimit(s, limit) && 0 < limit
    ensures WithinLimit(Relaunch(s, node, apps), limit)
    decreases |apps|
  {
    if apps != [] {
      SendWithinLimit(TakeBack(s, node, apps[0]), apps[0], 0, limit);
      RelaunchWithinLimit(SendRequest(TakeBack(s, node, apps[0]), apps[0], 0), node, apps[1..], limit);
    }
  }

  lemma TimeoutWithinLimit(s: State, rid: Rid, maxRetries: nat, limit: nat)
    requires WithinLimit(s, limit) && rid in s.retries && maxRetries <= limit
    ensures WithinLimit(OnTimeout(s, rid, maxRetries), limit)
  {
    var s0 := s.(pending := s.pending - {rid});
    if rid.app in s.apps && s.retries[rid] < maxRetries {
      SendWithinLimit(Cancel(s0, rid), rid.app, s.retries[rid], limit);
    }
  }

  lemma ReportWithinLimit(s: State, src: Addr, e: Report, limit: nat)
    requires WithinLimit(s, limit) && 0 < limit
    ensures WithinLimit(OnReport(s, src, e), limit)
  {
    CountKeepsRequests(s, src, e);
    ReportEnds(s, src, e);
    SendWithinLimit(Count(s, src, e), e.rid.app, 0, limit);
  }

  lemma StepWithinLimit(s: State, a: Step, limit: nat)
    requires WithinLimit(s, limit) && 0 < limit && Sound(s) && Enabled(s, a) && (a.Timeout? ==> a.maxRetries <= limit)
    ensures WithinLimit(Does(s, a), limit)
  {
    match a
    case Dispatch(n) => SendWithinLimit(NewApp(s, n), s.lastApp + 1, 0, limit);
    case Accept(src, rid, first, last) =>
    case Timeout(rid, maxRetries) => TimeoutWithinLimit(s, rid, maxRetries, limit);
    case Monitor(src, e) => ReportWithinLimit(s, src, e, limit);
    case Heartbeat(node, apps) => RelaunchWithinLimit(FreeAll(s, node), node, apps, limit);
    case FatherChanging =>
    case FatherChanged => SendAllWithinLimit(s.(inChange := false, delayed := []), s.delayed, limit);
  }

  /** In every run no chain of retries is longer than the configured number of them. */
  lemma {:induction false} RetriesAreBounded(s: State, steps: seq<Step>, t: State, limit: nat)
    requires Sound(s) && WithinLimit(s, limit) && 0 < limit && Leads(s, steps, t)
    requires forall a | a in steps && a.Timeout? :: a.maxRetries <= limit
    ensures WithinLimit(t, limit)
    decreases |steps|
  {
    if steps != [] {
      StepIsSound(s, steps[0]);
      StepWithinLimit(s, steps[0], limit);
      RetriesAreBounded(Does(s, steps[0]), steps[1..], t, limit);
    }
  }

  /**
   A request that times out with ready tasks left is followed by one that is one retry later, as long as the limit
   allows it; with the bound above, the node gives up after as many timeouts without an acceptance.
   */
  lemma TimeoutCountsUp(s: State, rid: Rid, maxRetries: nat)
    requires Sound(s) && rid in s.pending && rid.app in s.apps && !s.inChange
    requires s.retries[rid] < maxRetries && Num(CancelSearch(s.apps[rid.app], rid.k).tasks, AreReady) > 0
    ensures
      var s', next := OnTimeout(s, rid, maxRetries), Rid(rid.app, |s.apps[rid.app].requests|);
      next in s'.pending && next in s'.retries && s'.retries[next] == s.retries[rid] + 1 && rid !in s'.pending
        && rid !in s'.retries
  {
    var inst := CancelSearch(s.apps[rid.app], rid.k);
    ReadyMeansMany(inst.tasks);
  }

  lemma ReadyMeansMany(tasks: seq<Task>)
    requires Num(tasks, AreReady) > 0
    ensures |ReadyFrom(tasks, 0)| > 0
  {
    if forall j | 0 <= j < |tasks| :: !Is(tasks[j], AreReady) { NumZero(tasks, AreReady); }
    var j :| 0 <= j < |tasks| && Is(tasks[j], AreReady);
    ReadyHeld(tasks, 0, j);
  }
}
