/**
 When reports come on time: a submitting node needs only that a node has accepted a task before it reports
 about it, that nobody else has accepted it, and that its end is reported once.
 */
module SubmissionReports {
  import opened Common
  import opened AppDatabase
  import opened Submission

  // ---------------------------------------------------------------------------------------------
  // Messages
  // ---------------------------------------------------------------------------------------------

  /** Node `n` accepts number `tid` of a request. */
  predicate Covers(a: Step, n: Addr, rid: Rid, tid: nat) {
    a.Accept? && a.src == n && a.rid == rid && 1 <= a.first <= tid <= a.last
  }

  ghost predicate CoveredBy(past: seq<Step>, n: Addr, rid: Rid, tid: nat) {
    exists a :: a in past && Covers(a, n, rid, tid)
  }

  ghost predicate Covered(past: seq<Step>, rid: Rid, tid: nat) {
    exists n :: CoveredBy(past, n, rid, tid)
  }

  predicate TellsEnd(a: Step, rid: Rid, tid: nat) {
    a.Monitor? && a.report.rid == rid && a.report.tid == tid && a.report.outcome == Done
  }

  ghost predicate EndTold(past: seq<Step>, rid: Rid, tid: nat) {
    exists a :: a in past && TellsEnd(a, rid, tid)
  }

  /**
   The reporting node has accepted the task; for a report of an end, nobody else has, and its end was not reported
   before.
   */
  ghost predicate Timely(past: seq<Step>, src: Addr, e: Report) {
    && CoveredBy(past, src, e.rid, e.tid)
    && (e.outcome != Ongoing ==>
          (forall n | CoveredBy(past, n, e.rid, e.tid) :: n == src) && !EndTold(past, e.rid, e.tid))
  }

  /** The request has been sent, even if its application is forgotten by now. */
  predicate IsSent(s: State, rid: Rid) {
    rid.app <= s.lastApp && (rid.app in s.apps ==> rid.k < |s.apps[rid.app].requests|)
  }

  /** What nodes promise about the messages of a run: they accept what was sent, and their reports are timely. */
  ghost predicate AllTimely(past: seq<Step>, s: State, steps: seq<Step>)
    requires Sound(s)
    decreases |steps|
  {
    steps != [] && Enabled(s, steps[0]) ==>
      && (steps[0].Accept? ==> IsSent(s, steps[0].rid))
      && (steps[0].Monitor? ==> Timely(past, steps[0].src, steps[0].report))
      && (StepIsSound(s, steps[0]); AllTimely(past + [steps[0]], Does(s, steps[0]), steps[1..]))
  }

  // ---------------------------------------------------------------------------------------------
  // What the tasks remember of the messages
  // ---------------------------------------------------------------------------------------------

  ghost predicate TaskMem(past: seq<Step>, rid: Rid, tid: nat, t: Task) {
    match t
    case Ready => true
    case Searching => !Covered(past, rid, tid)
    case Executing(n) => CoveredBy(past, n, rid, tid)
    case Finished => EndTold(past, rid, tid)
  }

  ghost predicate SlotMem(past: seq<Step>, app: AppId, inst: Instance, k: nat, tid: nat) {
    var o := TaskOf(inst, k, tid);
    && (o.Some? && o.value < |inst.tasks| ==> TaskMem(past, Rid(app, k), tid, inst.tasks[o.value]))
    && (Covered(past, Rid(app, k), tid) ==> k < |inst.requests|)
  }

  ghost predicate InstMem(past: seq<Step>, app: AppId, inst: Instance) {
    forall k, tid :: SlotMem(past, app, inst, k, tid)
  }

  ghost predicate AppsMem(past: seq<Step>, apps: map<AppId, Instance>, lastApp: AppId) {
    && (forall a | a in apps :: InstMem(past, a, apps[a]))
    && (forall rid, tid | Covered(past, rid, tid) :: rid.app <= lastApp)
  }

  lemma Remembers(past: seq<Step>, a: Step, rid: Rid, tid: nat)
    ensures forall n :: CoveredBy(past + [a], n, rid, tid) <==> CoveredBy(past, n, rid, tid) || Covers(a, n, rid, tid)
    ensures Covered(past + [a], rid, tid) <==>
        Covered(past, rid, tid) || Covers(a, if a.Accept? then a.src else 0, rid, tid)
    ensures EndTold(past + [a], rid, tid) <==> EndTold(past, rid, tid) || TellsEnd(a, rid, tid)
  {
    assert a in past + [a];
    forall n ensures CoveredBy(past + [a], n, rid, tid) <==> CoveredBy(past, n, rid, tid) || Covers(a, n, rid, tid) {}
  }

  /** Other messages than acceptances and ends are not remembered. */
  lemma MemStays(past: seq<Step>, a: Step, apps: map<AppId, Instance>, lastApp: AppId)
    requires AppsMem(past, apps, lastApp) && !a.Accept?
    ensures AppsMem(past + [a], apps, lastApp)
  {
    forall b | b in apps ensures InstMem(past + [a], b, apps[b]) {
      forall k, tid ensures SlotMem(past + [a], b, apps[b], k, tid) {
        assert SlotMem(past, b, apps[b], k, tid);
        Remembers(past, a, Rid(b, k), tid);
      }
    }
    forall rid, tid | Covered(past + [a], rid, tid) ensures rid.app <= lastApp { Remembers(past, a, rid, tid); }
  }

  // ---------------------------------------------------------------------------------------------
  // Operations
  // ---------------------------------------------------------------------------------------------

  lemma FreedMem(past: seq<Step>, app: AppId, inst: Instance, free: set<nat>)
    requires InstMem(past, app, inst)
    ensures InstMem(past, app, Freed(inst, free))
  {
    forall k, tid ensures SlotMem(past, app, Freed(inst, free), k, tid) { assert SlotMem(past, app, inst, k, tid); }
  }

  lemma {:induction false} ReadyFromIsReady(tasks: seq<Task>, from: nat, i: nat)
    requires from <= |tasks| && i < |ReadyFrom(tasks, from)|
    ensures var o := ReadyFrom(tasks, from)[i]; o.Some? && o.value < |tasks| && tasks[o.value].Ready?
    decreases |tasks| - from
  {
    if from < |tasks| {
      if !tasks[from].Ready? { ReadyFromIsReady(tasks, from + 1, i); }
      else if i > 0 { ReadyFromIsReady(tasks, from + 1, i - 1); }
    }
  }

  /** A new request is not accepted by anybody yet. */
  lemma OpenMem(past: seq<Step>, app: AppId, inst: Instance)
    requires InstMem(past, app, inst) && SlotsOk(inst)
    ensures InstMem(past, app, OpenRequest(inst))
  {
    forall k: nat, tid: nat ensures SlotMem(past, app, OpenRequest(inst), k, tid) {
      assert SlotMem(past, app, inst, k, tid);
      if k < |inst.requests| {
        if TaskOf(inst, k, tid).Some? { TaskOfIsOnly(inst, k, tid); }
      } else if TaskOf(OpenRequest(inst), k, tid).Some? {
        ReadyFromIsReady(inst.tasks, 0, tid - 1);
      }
    }
  }

  lemma OnlySlot(inst: Instance, k: nat, tid: nat, l: nat, tid': nat)
    requires SlotsOk(inst) && TaskOf(inst, k, tid).Some? && TaskOf(inst, l, tid') == TaskOf(inst, k, tid)
    ensures l == k && tid' == tid
  {
    SlotIsOnly(inst, k, tid - 1);
    assert inst.requests[l][tid' - 1] == Some(TaskOf(inst, k, tid).value);
  }

  lemma AcceptMem(past: seq<Step>, app: AppId, inst: Instance, src: Addr, k: nat, first: nat, last: nat)
    requires InstMem(past, app, inst) && SlotsOk(inst) && k < |inst.requests|
    ensures InstMem(past + [Accept(src, Rid(app, k), first, last)], app, AcceptTasks(inst, src, k, first, last))
  {
    var a := Accept(src, Rid(app, k), first, last);
    forall l: nat, tid: nat ensures SlotMem(past + [a], app, AcceptTasks(inst, src, k, first, last), l, tid) {
      assert SlotMem(past, app, inst, l, tid);
      Remembers(past, a, Rid(app, l), tid);
      if TaskOf(inst, l, tid).Some? {
        TaskOfIsOnly(inst, l, tid);
        AcceptedSlot(inst, k, first, last, l, tid);
      }
    }
  }

  /** Which slots an acceptance is about. */
  lemma AcceptedSlot(inst: Instance, k: nat, first: nat, last: nat, l: nat, tid: nat)
    requires SlotsOk(inst) && TaskOf(inst, l, tid).Some? && TaskOf(inst, l, tid).value < |inst.tasks|
    ensures var j := TaskOf(inst, l, tid).value;
            j in Accepting(inst, k, first, last) <==> inst.tasks[j] == Searching && l == k && 1 <= first <= tid <= last
  {
    var j := TaskOf(inst, l, tid).value;
    if j in Accepting(inst, k, first, last) {
      var tid' :| first <= tid' <= last && TaskOf(inst, k, tid') == Some(j);
      OnlySlot(inst, l, tid, k, tid');
    }
  }

  /** An acceptance of something else. */
  lemma OtherAcceptMem(past: seq<Step>, a: Step, app: AppId, inst: Instance)
    requires InstMem(past, app, inst) && a.Accept? && a.rid.app != app
    ensures InstMem(past + [a], app, inst)
  {
    forall k, tid ensures SlotMem(past + [a], app, inst, k, tid) {
      assert SlotMem(past, app, inst, k, tid);
      Remembers(past, a, Rid(app, k), tid);
    }
  }

  lemma FinishMem(past: seq<Step>, app: AppId, inst: Instance, k: nat, tid: nat)
    requires InstMem(past, app, inst) && SlotsOk(inst) && EndTold(past, Rid(app, k), tid)
    ensures InstMem(past, app, FinishTask(inst, k, tid))
  {
    forall l: nat, u: nat ensures SlotMem(past, app, FinishTask(inst, k, tid), l, u) {
      assert SlotMem(past, app, inst, l, u);
      if TaskOf(inst, l, u).Some? && TaskOf(inst, k, tid) == TaskOf(inst, l, u) { OnlySlot(inst, l, u, k, tid); }
    }
  }

  /** Who reports has accepted before, so its report accepts nothing more. */
  lemma NothingToAccept(past: seq<Step>, app: AppId, inst: Instance, src: Addr, k: nat, tid: nat)
    requires InstMem(past, app, inst) && Covered(past, Rid(app, k), tid)
    ensures AcceptTasks(inst, src, k, tid, tid) == inst
  {
    assert SlotMem(past, app, inst, k, tid);
    assert Accepting(inst, k, tid, tid) == {};
    assert Changed(inst.tasks, {}, Executing(src)) == inst.tasks;
  }

  lemma ToldMem(past: seq<Step>, app: AppId, inst: Instance, src: Addr, e: Report)
    requires InstMem(past, app, inst) && SlotsOk(inst) && e.rid.app == app && Covered(past, e.rid, e.tid)
    requires e.outcome == Done ==> EndTold(past, e.rid, e.tid)
    ensures InstMem(past, app, Told(inst, src, e))
  {
    NothingToAccept(past, app, inst, src, e.rid.k, e.tid);
    match e.outcome
    case Ongoing =>
    case Done => FinishMem(past, app, inst, e.rid.k, e.tid);
    case Failed =>
      if TaskOf(inst, e.rid.k, e.tid).Some? { FreedMem(past, app, inst, {TaskOf(inst, e.rid.k, e.tid).value}); }
  }

  // ---------------------------------------------------------------------------------------------
  // Handlers
  // ---------------------------------------------------------------------------------------------

  ghost predicate Mem(past: seq<Step>, s: State) {
    AppsMem(past, s.apps, s.lastApp)
  }

  lemma SendMem(past: seq<Step>, s: State, app: AppId, prev: nat)
    requires Mem(past, s) && Sound(s)
    ensures Mem(past, SendRequest(s, app, prev))
  {
    if app in s.apps { OpenMem(past, app, s.apps[app]); }
  }

  lemma {:induction false} SendAllMem(past: seq<Step>, s: State, delayed: seq<(AppId, nat)>)
    requires Mem(past, s) && Sound(s)
    ensures Mem(past, SendAll(s, delayed))
    decreases |delayed|
  {
    if delayed != [] {
      SendMem(past, s, delayed[0].0, delayed[0].1);
      SendIsSound(s, delayed[0].0, delayed[0].1);
      SendAllMem(past, SendRequest(s, delayed[0].0, delayed[0].1), delayed[1..]);
    }
  }

  lemma {:induction false} RelaunchMem(past: seq<Step>, s: State, node: Addr, apps: seq<AppId>)
    requires Mem(past, s) && Sound(s)
    ensures Mem(past, Relaunch(s, node, apps))
    decreases |apps|
  {
    if apps != [] {
      var s1 := TakeBack(s, node, apps[0]);
      SendMem(past, s1, apps[0], 0);
      SendIsSound(s1, apps[0], 0);
      RelaunchMem(past, SendRequest(s1, apps[0], 0), node, apps[1..]);
    }
  }

  lemma NewMem(past: seq<Step>, s: State, numTasks: nat)
    requires Mem(past, s)
    ensures Mem(past, NewApp(s, numTasks))
  {
    var app := s.lastApp + 1;
    forall k: nat, tid: nat ensures SlotMem(past, app, NewApp(s, numTasks).apps[app], k, tid) {
      if Covered(past, Rid(app, k), tid) { assert false; }
    }
  }

  lemma TimeoutMem(past: seq<Step>, s: State, rid: Rid, maxRetries: nat)
    requires Mem(past, s) && Sound(s) && rid in s.pending
    ensures Mem(past, OnTimeout(s, rid, maxRetries))
  {
    var s0 := s.(pending := s.pending - {rid});
    if rid.app in s.apps {
      FreedMem(past, rid.app, s.apps[rid.app], SearchedBy(s.apps[rid.app], rid.k));
      CancelIsSound(s0, rid);
      SendMem(past, Cancel(s0, rid), rid.app, s.retries[rid]);
    }
  }

  lemma ReportMem(past: seq<Step>, s: State, src: Addr, e: Report)
    requires Mem(past, s) && Sound(s) && Covered(past, e.rid, e.tid)
    requires e.outcome == Done ==> EndTold(past, e.rid, e.tid)
    ensures Mem(past, OnReport(s, src, e))
  {
    if e.rid.app in s.apps { ToldMem(past, e.rid.app, s.apps[e.rid.app], src, e); }
    CountIsSound(s, src, e);
    CountKeepsRequests(s, src, e);
    ReportEnds(s, src, e);
    assert Mem(past, Count(s, src, e));
    SendMem(past, Count(s, src, e), e.rid.app, 0);
  }

  lemma HeartbeatMem(past: seq<Step>, s: State, node: Addr, apps: seq<AppId>)
    requires Mem(past, s) && Sound(s)
    ensures Mem(past, OnHeartbeatTimeout(s, node, apps))
  {
    forall a | a in s.apps ensures InstMem(past, a, DeadNode(s.apps[a], node)) {
      FreedMem(past, a, s.apps[a], RunningAt(s.apps[a], node));
    }
    FreeAllIsSound(s, node);
    RelaunchMem(past, FreeAll(s, node), node, apps);
  }

  lemma AcceptStepMem(past: seq<Step>, s: State, src: Addr, rid: Rid, first: nat, last: nat)
    requires Mem(past, s) && Sound(s) && IsSent(s, rid)
    ensures Mem(past + [Accept(src, rid, first, last)], OnAccept(s, src, rid, first, last))
  {
    var a := Accept(src, rid, first, last);
    var s' := OnAccept(s, src, rid, first, last);
    forall b | b in s.apps ensures InstMem(past + [a], b, s'.apps[b]) {
      if b == rid.app { AcceptMem(past, b, s.apps[b], src, rid.k, first, last); } else {
        OtherAcceptMem(past, a, b, s.apps[b]);
      }
    }
    forall r, tid | Covered(past + [a], r, tid) ensures r.app <= s.lastApp { Remembers(past, a, r, tid); }
  }

  lemma StepMem(past: seq<Step>, s: State, a: Step)
    requires Mem(past, s) && Sound(s) && Enabled(s, a)
    requires (a.Accept? ==> IsSent(s, a.rid)) && (a.Monitor? ==> Timely(past, a.src, a.report))
    ensures Mem(past + [a], Does(s, a))
  {
    if !a.Accept? { MemStays(past, a, s.apps, s.lastApp); }
    match a
    case Dispatch(n) =>
      NewMem(past + [a], s, n);
      NewIsSound(s, n);
      SendMem(past + [a], NewApp(s, n), s.lastApp + 1, 0);
    case Accept(src, rid, first, last) => AcceptStepMem(past, s, src, rid, first, last);
    case Timeout(rid, maxRetries) => TimeoutMem(past + [a], s, rid, maxRetries);
    case Monitor(src, e) =>
      Remembers(past, a, e.rid, e.tid);
      ReportMem(past + [a], s, src, e);
    case Heartbeat(node, apps) => HeartbeatMem(past + [a], s, node, apps);
    case FatherChanging =>
    case FatherChanged => SendAllMem(past + [a], s.(inChange := false, delayed := []), s.delayed);
  }

  // ---------------------------------------------------------------------------------------------
  // Runs
  // ---------------------------------------------------------------------------------------------

  /** A timely report is on time. */
  lemma TimelyIsOnTime(past: seq<Step>, s: State, src: Addr, e: Report)
    requires Mem(past, s) && Sound(s) && Timely(past, src, e)
    ensures OnTime(s, src, e)
  {
    if Reported(s, e).Some? {
      var inst := s.apps[e.rid.app];
      TaskOfIsOnly(inst, e.rid.k, e.tid);
      assert SlotMem(past, e.rid.app, inst, e.rid.k, e.tid);
      assert Covered(past, e.rid, e.tid);
    }
  }

  lemma {:induction false} RunIsOnTime(past: seq<Step>, s: State, steps: seq<Step>)
    requires Mem(past, s) && Sound(s) && AllTimely(past, s, steps)
    ensures AllOnTime(s, steps)
    decreases |steps|
  {
    if steps != [] && Enabled(s, steps[0]) {
      if steps[0].Monitor? { TimelyIsOnTime(past, s, steps[0].src, steps[0].report); }
      StepIsSound(s, steps[0]);
      StepMem(past, s, steps[0]);
      RunIsOnTime(past + [steps[0]], Does(s, steps[0]), steps[1..]);
    }
  }

  /**
   If nodes accept only what was sent, report only what they alone have accepted, and report each end once, then the
   counters are exact in every state of every run from the start.
   */
  lemma TimelyRunIsCounted(steps: seq<Step>, t: State)
    requires Leads(START, steps, t) && AllTimely([], START, steps)
    ensures Sound(t) && Counted(t)
  {
    RunIsOnTime([], START, steps);
    RunIsSound(START, steps, t);
    RunIsCounted(START, steps, t);
  }
}
