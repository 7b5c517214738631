/**
 When a submitting node forgets an application that still has tasks to run. Ready tasks are asked for, or their request
 waits for a father; otherwise nobody asks for them any more.
 */
module SubmissionForgets {
  import opened Common
  import opened AppDatabase
  import opened Submission

  ghost predicate HasReady(tasks: seq<Task>) {
    exists j :: 0 <= j < |tasks| && tasks[j].Ready?
  }

  /** A request of the application waits until there is a father again. */
  ghost predicate Queued(s: State, app: AppId) {
    exists d :: d in s.delayed && d.0 == app
  }

  /** The applications that a step leaves with ready tasks without asking for them. */
  ghost function GivesUp(s: State, a: Step): set<AppId>
    requires a.Timeout? ==> a.rid in s.retries
  {
    match a
    case Timeout(rid, maxRetries) =>
      if rid.app in s.apps && s.retries[rid] >= maxRetries && HasReady(CancelSearch(s.apps[rid.app], rid.k).tasks)
      then {rid.app} else {}
    case Monitor(src, e) =>
      if e.outcome == Failed && Reported(s, e).Some? && At(s.remote, src, e.rid.app) == 0 then {e.rid.app} else {}
    case _ => {}
  }

  ghost predicate Requested(s: State, s': State, app: AppId) {
    app in s.apps && app in s'.apps && |s'.apps[app].requests| > |s.apps[app].requests|
  }

  /** The applications that have ready tasks for which nothing is sent or waits: given up, and not asked for since. */
  ghost function UnaskedAfter(s: State, a: Step, u: set<AppId>): set<AppId>
    requires a.Timeout? ==> a.rid in s.retries
  {
    set x | x in u + GivesUp(s, a) && x in Does(s, a).apps && !Requested(s, Does(s, a), x)
  }

  ghost function Unasked(s: State, steps: seq<Step>, u: set<AppId>): set<AppId>
    requires Sound(s)
    decreases |steps|
  {
    if steps == [] || !Enabled(s, steps[0]) then u
    else StepIsSound(s, steps[0]); Unasked(Does(s, steps[0]), steps[1..], UnaskedAfter(s, steps[0], u))
  }

  /** The ready tasks of an application, exactly, are waited for or given up. */
  ghost predicate OneAsked(s: State, u: set<AppId>, app: AppId) {
    app in s.apps ==> (HasReady(s.apps[app].tasks) <==> (Queued(s, app) && s.apps[app].tasks != []) || app in u)
  }

  ghost predicate QueueOk(s: State) {
    (s.delayed != [] ==> s.inChange) && forall d | d in s.delayed :: d.0 <= s.lastApp
  }

  ghost predicate AskedFor(s: State, u: set<AppId>) {
    QueueOk(s) && (forall x | x in u :: x in s.apps) && forall x :: OneAsked(s, u, x)
  }

  // ---------------------------------------------------------------------------------------------
  // Ready tasks
  // ---------------------------------------------------------------------------------------------

  lemma ReadyIsCounted(tasks: seq<Task>)
    ensures HasReady(tasks) <==> Num(tasks, AreReady) > 0
  {
    if HasReady(tasks) {
      var j :| 0 <= j < |tasks| && tasks[j].Ready?;
      NumPositive(tasks, j, AreReady);
    } else {
      NumZero(tasks, AreReady);
    }
  }

  lemma OpenTakesAll(inst: Instance)
    ensures !HasReady(OpenRequest(inst).tasks) && |OpenRequest(inst).requests| == |inst.requests| + 1
  {
  }

  lemma FreedReady(inst: Instance, free: set<nat>)
    ensures HasReady(Freed(inst, free).tasks) <==> HasReady(inst.tasks) || exists j :: j in free && j < |inst.tasks|
    ensures |Freed(inst, free).tasks| == |inst.tasks| && |Freed(inst, free).requests| == |inst.requests|
  {
    var tasks := Freed(inst, free).tasks;
    if HasReady(inst.tasks) {
      var j :| 0 <= j < |inst.tasks| && inst.tasks[j].Ready?;
      assert tasks[j].Ready?;
    }
    if j :| j in free && j < |inst.tasks| { assert tasks[j].Ready?; }
  }

  lemma AcceptReady(inst: Instance, host: Addr, k: nat, first: nat, last: nat)
    ensures var inst' := AcceptTasks(inst, host, k, first, last);
            (HasReady(inst'.tasks) <==> HasReady(inst.tasks)) && |inst'.tasks| == |inst.tasks|
  {
    var tasks := AcceptTasks(inst, host, k, first, last).tasks;
    assert forall j | 0 <= j < |tasks| :: tasks[j].Ready? <==> inst.tasks[j].Ready?;
  }

  /** A report makes a task ready if and only if it tells of a failure. */
  lemma ToldReady(inst: Instance, src: Addr, e: Report)
    requires SlotsOk(inst)
    ensures
      var tasks := Told(inst, src, e).tasks;
      && |tasks| == |inst.tasks|
      && (HasReady(tasks) <==>
            HasReady(inst.tasks) || (e.outcome == Failed && TaskOf(inst, e.rid.k, e.tid).Some?))
  {
    ToldTasks(inst, src, e);
    match TaskOf(inst, e.rid.k, e.tid)
    case None =>
    case Some(j) =>
      TaskOfIsOnly(inst, e.rid.k, e.tid);
      var tasks := Told(inst, src, e).tasks;
      assert forall i | 0 <= i < |tasks| && i != j :: tasks[i] == inst.tasks[i];
      assert !inst.tasks[j].Ready? && (tasks[j].Ready? <==> e.outcome == Failed);
  }

  // ---------------------------------------------------------------------------------------------
  // Requests
  // ---------------------------------------------------------------------------------------------

  /** What becomes of application `x` when a request for `app` is sent or put off. */
  lemma SendAsks(s: State, app: AppId, prev: nat, x: AppId)
    ensures
      var s' := SendRequest(s, app, prev);
      && s'.inChange == s.inChange && s'.lastApp == s.lastApp && s'.apps.Keys == s.apps.Keys
      && s'.delayed == (if s.inChange then s.delayed + [(app, prev)] else s.delayed)
      && (x in s.apps ==>
            if x == app && !s.inChange
            then !HasReady(s'.apps[x].tasks) && |s'.apps[x].requests| > |s.apps[x].requests|
            else s'.apps[x] == s.apps[x])
  {
    if x in s.apps { OpenTakesAll(s.apps[x]); }
  }

  ghost predicate Named(delayed: seq<(AppId, nat)>, x: AppId) {
    exists d :: d in delayed && d.0 == x
  }

  lemma {:induction false} SendAllAsks(s: State, delayed: seq<(AppId, nat)>, x: AppId)
    requires !s.inChange
    ensures
      var s' := SendAll(s, delayed);
      && !s'.inChange && s'.lastApp == s.lastApp && s'.apps.Keys == s.apps.Keys && s'.delayed == s.delayed
      && (x in s.apps ==>
            if Named(delayed, x)
            then !HasReady(s'.apps[x].tasks) && |s'.apps[x].requests| > |s.apps[x].requests|
            else s'.apps[x] == s.apps[x])
    decreases |delayed|
  {
    if delayed != [] {
      var s1 := SendRequest(s, delayed[0].0, delayed[0].1);
      SendAsks(s, delayed[0].0, delayed[0].1, x);
      SendAllAsks(s1, delayed[1..], x);
      NamedRest(delayed, x);
    }
  }

  lemma NamedRest(delayed: seq<(AppId, nat)>, x: AppId)
    requires delayed != []
    ensures Named(delayed, x) <==> delayed[0].0 == x || Named(delayed[1..], x)
  {
    if Named(delayed, x) && delayed[0].0 != x {
      var d :| d in delayed && d.0 == x;
      assert d in delayed[1..];
    }
    if delayed[0].0 == x { assert delayed[0] in delayed; }
  }

  lemma {:induction false} RelaunchAsks(s: State, node: Addr, apps: seq<AppId>, x: AppId)
    ensures
      var s' := Relaunch(s, node, apps);
      && s'.inChange == s.inChange && s'.lastApp == s.lastApp && s'.apps.Keys == s.apps.Keys
      && (forall d | d in s'.delayed :: d in s.delayed || d.0 in apps)
      && (if s.inChange then Named(s'.delayed, x) <==> Named(s.delayed, x) || x in apps else s'.delayed == s.delayed)
      && (x in s.apps ==>
            if x in apps && !s.inChange
            then !HasReady(s'.apps[x].tasks) && |s'.apps[x].requests| > |s.apps[x].requests|
            else s'.apps[x] == s.apps[x])
    decreases |apps|
  {
    if apps != [] {
      var s0 := TakeBack(s, node, apps[0]);
      var s1 := SendRequest(s0, apps[0], 0);
      SendAsks(s0, apps[0], 0, x);
      RelaunchAsks(s1, node, apps[1..], x);
      if s.inChange { NamedOneMore(s.delayed, (apps[0], 0), x); }
    }
  }

  lemma NamedOneMore(delayed: seq<(AppId, nat)>, d: (AppId, nat), x: AppId)
    ensures Named(delayed + [d], x) <==> Named(delayed, x) || d.0 == x
  {
    if Named(delayed, x) {
      var c :| c in delayed && c.0 == x;
      assert c in delayed + [d];
    }
    assert d in delayed + [d];
  }

  // ---------------------------------------------------------------------------------------------
  // Steps
  // ---------------------------------------------------------------------------------------------

  /** All but one application are asked for; the request for that one is sent or put off. */
  lemma SendIsAsked(s: State, app: AppId, prev: nat, u: set<AppId>)
    requires QueueOk(s) && (forall x | x in u :: x in s.apps) && forall x | x != app :: OneAsked(s, u, x)
    requires app in s.apps && app <= s.lastApp
    requires s.inChange ==>
               (s.apps[app].tasks != [] ==> HasReady(s.apps[app].tasks)) && (app in u ==> s.apps[app].tasks != [])
    ensures AskedFor(SendRequest(s, app, prev), if s.inChange then u else u - {app})
  {
    var s', u' := SendRequest(s, app, prev), if s.inChange then u else u - {app};
    SendAsks(s, app, prev, app);
    forall x ensures OneAsked(s', u', x) {
      SendAsks(s, app, prev, x);
      NamedOneMore(s.delayed, (app, prev), x);
      assert Queued(s, x) == Named(s.delayed, x) && Queued(s', x) == Named(s'.delayed, x);
      if x != app { assert OneAsked(s, u, x); }
    }
  }

  lemma DispatchAsked(s: State, n: nat, u: set<AppId>)
    requires Sound(s) && AskedFor(s, u)
    ensures AskedFor(Does(s, Dispatch(n)), UnaskedAfter(s, Dispatch(n), u))
  {
    var app, s1 := s.lastApp + 1, NewApp(s, n);
    forall x | x != app ensures OneAsked(s1, u, x) { assert OneAsked(s, u, x); }
    if n > 0 { assert s1.apps[app].tasks[0].Ready?; }
    SendIsAsked(s1, app, 0, u);
    forall x | x in u ensures !Requested(s, Does(s, Dispatch(n)), x) && x in Does(s, Dispatch(n)).apps {
      SendAsks(s1, app, 0, x);
    }
    assert UnaskedAfter(s, Dispatch(n), u) == if s.inChange then u else u - {app};
  }

  lemma AcceptAsked(s: State, src: Addr, rid: Rid, first: nat, last: nat, u: set<AppId>)
    requires Sound(s) && AskedFor(s, u)
    ensures var a := Accept(src, rid, first, last); AskedFor(Does(s, a), UnaskedAfter(s, a, u))
  {
    var a := Accept(src, rid, first, last);
    var s' := Does(s, a);
    if rid.app in s.apps { AcceptReady(s.apps[rid.app], src, rid.k, first, last); }
    assert UnaskedAfter(s, a, u) == u;
    forall x ensures OneAsked(s', u, x) {
      assert OneAsked(s, u, x) && Queued(s', x) == Queued(s, x);
      if x in s.apps && x == rid.app && s.apps[x].tasks == [] { assert s'.apps[x].tasks == []; }
    }
  }

  lemma CancelAsks(s: State, rid: Rid, u: set<AppId>)
    requires AskedFor(s, u) && rid.app in s.apps
    ensures
      var s' := Cancel(s, rid);
      && QueueOk(s') && (forall x | x in u :: x in s'.apps) && (forall x | x != rid.app :: OneAsked(s', u, x))
      && |s'.apps[rid.app].tasks| == |s.apps[rid.app].tasks|
      && |s'.apps[rid.app].requests| == |s.apps[rid.app].requests|
      && (HasReady(s.apps[rid.app].tasks) ==> HasReady(s'.apps[rid.app].tasks))
  {
    var s' := Cancel(s, rid);
    FreedReady(s.apps[rid.app], SearchedBy(s.apps[rid.app], rid.k));
    forall x | x != rid.app ensures OneAsked(s', u, x) {
      assert OneAsked(s, u, x) && Queued(s', x) == Queued(s, x);
    }
  }

  /** A timeout asks again, or gives up, or forgets an application of which nothing is left. */
  lemma TimeoutAsked(s: State, rid: Rid, maxRetries: nat, u: set<AppId>)
    requires Sound(s) && AskedFor(s, u) && rid in s.pending
    ensures var a := Timeout(rid, maxRetries); AskedFor(Does(s, a), UnaskedAfter(s, a, u))
  {
    var a, app := Timeout(rid, maxRetries), rid.app;
    var s0, s' := s.(pending := s.pending - {rid}), Does(s, a);
    forall x ensures OneAsked(s0, u, x) { assert OneAsked(s, u, x) && Queued(s0, x) == Queued(s, x); }
    if app in s.apps {
      var s1 := Cancel(s0, rid);
      CancelAsks(s0, rid, u);
      ReadyIsCounted(s1.apps[app].tasks);
      assert OneAsked(s, u, app);
      if HasReady(s1.apps[app].tasks) && s.retries[rid] < maxRetries {
        SendIsAsked(s1, app, s.retries[rid], u);
        TimeoutSends(s, rid, maxRetries, u);
        SameAsked(SendRequest(s1, app, s.retries[rid]), s', if s.inChange then u else u - {app});
      } else {
        TimeoutStops(s, rid, maxRetries, u);
      }
    } else {
      assert UnaskedAfter(s, a, u) == u;
    }
  }

  lemma SameAsked(s: State, s': State, u: set<AppId>)
    requires AskedFor(s, u) && s'.apps == s.apps && s'.delayed == s.delayed && s'.inChange == s.inChange
    requires s'.lastApp == s.lastApp
    ensures AskedFor(s', u)
  {
    forall x ensures OneAsked(s', u, x) { assert OneAsked(s, u, x) && Queued(s', x) == Queued(s, x); }
  }

  lemma TimeoutSends(s: State, rid: Rid, maxRetries: nat, u: set<AppId>)
    requires AskedFor(s, u) && rid in s.retries && rid.app in s.apps && s.retries[rid] < maxRetries
    requires HasReady(CancelSearch(s.apps[rid.app], rid.k).tasks)
    ensures UnaskedAfter(s, Timeout(rid, maxRetries), u) == if s.inChange then u else u - {rid.app}
    ensures
      var s1 := SendRequest(Cancel(s.(pending := s.pending - {rid}), rid), rid.app, s.retries[rid]);
      Does(s, Timeout(rid, maxRetries)) == s1.(retries := s1.retries - {rid})
  {
    var s1 := Cancel(s.(pending := s.pending - {rid}), rid);
    ReadyIsCounted(s1.apps[rid.app].tasks);
    FreedReady(s.apps[rid.app], SearchedBy(s.apps[rid.app], rid.k));
    forall x ensures x in u ==> x in Does(s, Timeout(rid, maxRetries)).apps {
      SendAsks(s1, rid.app, s.retries[rid], x);
    }
    forall x | x in s.apps
      ensures Requested(s, Does(s, Timeout(rid, maxRetries)), x) <==> x == rid.app && !s.inChange
    {
      SendAsks(s1, rid.app, s.retries[rid], x);
    }
  }

  lemma TimeoutStops(s: State, rid: Rid, maxRetries: nat, u: set<AppId>)
    requires AskedFor(s, u) && rid in s.retries && rid.app in s.apps
    requires !(HasReady(CancelSearch(s.apps[rid.app], rid.k).tasks) && s.retries[rid] < maxRetries)
    ensures var a := Timeout(rid, maxRetries); AskedFor(Does(s, a), UnaskedAfter(s, a, u))
  {
    var a, app := Timeout(rid, maxRetries), rid.app;
    var s0, s' := s.(pending := s.pending - {rid}), Does(s, a);
    forall x ensures OneAsked(s0, u, x) { assert OneAsked(s, u, x) && Queued(s0, x) == Queued(s, x); }
    var s1 := Cancel(s0, rid);
    CancelAsks(s0, rid, u);
    ReadyIsCounted(s1.apps[app].tasks);
    assert OneAsked(s, u, app);
    var u' := UnaskedAfter(s, a, u);
    assert s'.apps == s1.apps || s'.apps == s1.apps - {app};
    forall x | x in s'.apps ensures !Requested(s, s', x) {}
    assert u' == set x | x in u + GivesUp(s, a) && x in s'.apps;
    forall x ensures OneAsked(s', u', x) {
      assert OneAsked(s, u, x) && Queued(s', x) == Queued(s, x);
    }
  }

  /** What a report changes of application `x`, before it asks or forgets. */
  lemma CountKeeps(s: State, src: Addr, e: Report, x: AppId)
    requires e.rid.app in s.apps && SlotsOk(s.apps[e.rid.app])
    ensures
      var s1 := Count(s, src, e);
      && s1.inChange == s.inChange && s1.delayed == s.delayed && s1.lastApp == s.lastApp && s1.apps.Keys == s.apps.Keys
      && (x in s.apps && x != e.rid.app ==> s1.apps[x] == s.apps[x])
      && (x == e.rid.app ==>
            && |s1.apps[x].tasks| == |s.apps[x].tasks| && |s1.apps[x].requests| == |s.apps[x].requests|
            && (HasReady(s1.apps[x].tasks) <==>
                  HasReady(s.apps[x].tasks) || (e.outcome == Failed && Reported(s, e).Some?)))
  {
    ToldReady(s.apps[e.rid.app], src, e);
    ToldKeepsSlots(s.apps[e.rid.app], src, e);
  }

  /** A report asks again for a task that failed, if its node was counted, and may end an application. */
  lemma ReportAsked(s: State, src: Addr, e: Report, u: set<AppId>)
    requires Sound(s) && AskedFor(s, u)
    ensures var a := Monitor(src, e); AskedFor(Does(s, a), UnaskedAfter(s, a, u))
  {
    var a := Monitor(src, e);
    if e.rid.app !in s.apps {
      assert UnaskedAfter(s, a, u) == u;
    } else if AsksAgain(s, src, e) {
      ReportAsks(s, src, e, u);
    } else {
      ReportStops(s, src, e, u);
    }
  }

  lemma ReportAsks(s: State, src: Addr, e: Report, u: set<AppId>)
    requires e.rid.app in s.apps && SlotsOk(s.apps[e.rid.app]) && e.rid.app <= s.lastApp
    requires AskedFor(s, u) && AsksAgain(s, src, e)
    ensures var a := Monitor(src, e); AskedFor(Does(s, a), UnaskedAfter(s, a, u))
  {
    var a, app := Monitor(src, e), e.rid.app;
    var s1, s' := Count(s, src, e), Does(s, a);
    ReportEnds(s, src, e);
    CountKeeps(s, src, e, app);
    forall x | x != app ensures OneAsked(s1, u, x) {
      CountKeeps(s, src, e, x);
      assert OneAsked(s, u, x) && Queued(s1, x) == Queued(s, x);
    }
    SendIsAsked(s1, app, 0, u);
    forall x | x in s.apps ensures x in s'.apps && (Requested(s, s', x) <==> x == app && !s.inChange) {
      CountKeeps(s, src, e, x);
      SendAsks(s1, app, 0, x);
    }
    assert GivesUp(s, a) == {};
    assert UnaskedAfter(s, a, u) == if s.inChange then u else u - {app};
  }

  lemma ReportStops(s: State, src: Addr, e: Report, u: set<AppId>)
    requires e.rid.app in s.apps && SlotsOk(s.apps[e.rid.app]) && AskedFor(s, u) && !AsksAgain(s, src, e)
    ensures var a := Monitor(src, e); AskedFor(Does(s, a), UnaskedAfter(s, a, u))
  {
    var a, app := Monitor(src, e), e.rid.app;
    var s1, s' := Count(s, src, e), Does(s, a);
    ReportEnds(s, src, e);
    forall x | x in s'.apps ensures x in s.apps && !Requested(s, s', x) { CountKeeps(s, src, e, x); }
    var u' := UnaskedAfter(s, a, u);
    CountKeeps(s, src, e, app);
    assert u' == set x | x in u + GivesUp(s, a) && x in s'.apps;
    forall x ensures OneAsked(s', u', x) {
      CountKeeps(s, src, e, x);
      assert OneAsked(s, u, x) && Queued(s', x) == Queued(s, x);
    }
  }

  /** What the death of a node changes of an application. */
  lemma HeartbeatFrees(s: State, node: Addr, apps: seq<AppId>, x: AppId)
    requires Counted(s) && Lists(s.remote, node, apps) && x in s.apps
    ensures
      var s1 := FreeAll(s, node);
      && x in s1.apps && |s1.apps[x].tasks| == |s.apps[x].tasks| && |s1.apps[x].requests| == |s.apps[x].requests|
      && (HasReady(s1.apps[x].tasks) <==> HasReady(s.apps[x].tasks) || x in apps)
      && (x in apps ==> s.apps[x].tasks != [])
  {
    FreedReady(s.apps[x], RunningAt(s.apps[x], node));
    RunsIffCounted(s, node, x);
  }

  lemma HeartbeatAsks(s: State, node: Addr, apps: seq<AppId>, x: AppId)
    requires Counted(s) && Lists(s.remote, node, apps) && x in s.apps
    ensures
      var s' := Does(s, Heartbeat(node, apps));
      && x in s'.apps && (Requested(s, s', x) <==> x in apps && !s.inChange)
      && (s'.apps[x].tasks == [] <==> s.apps[x].tasks == [])
      && (HasReady(s'.apps[x].tasks) <==>
            if s.inChange then HasReady(s.apps[x].tasks) || x in apps else HasReady(s.apps[x].tasks) && x !in apps)
      && (Named(s'.delayed, x) <==> Named(s.delayed, x) || (s.inChange && x in apps))
      && (x in apps ==> s.apps[x].tasks != [])
  {
    HeartbeatFrees(s, node, apps, x);
    RelaunchAsks(FreeAll(s, node), node, apps, x);
    RelaunchKeepsNumber(FreeAll(s, node), node, apps, x);
  }

  lemma {:induction false} RelaunchKeepsNumber(s: State, node: Addr, apps: seq<AppId>, x: AppId)
    requires x in s.apps
    ensures x in Relaunch(s, node, apps).apps && |Relaunch(s, node, apps).apps[x].tasks| == |s.apps[x].tasks|
    decreases |apps|
  {
    if apps != [] { RelaunchKeepsNumber(SendRequest(TakeBack(s, node, apps[0]), apps[0], 0), node, apps[1..], x); }
  }

  lemma HeartbeatUnasked(s: State, node: Addr, apps: seq<AppId>, u: set<AppId>)
    requires Counted(s) && Lists(s.remote, node, apps) && forall x | x in u :: x in s.apps
    ensures UnaskedAfter(s, Heartbeat(node, apps), u) == set x | x in u && (s.inChange || x !in apps)
  {
    var a, s' := Heartbeat(node, apps), Does(s, Heartbeat(node, apps));
    forall x | x in u ensures x in s'.apps && (Requested(s, s', x) <==> x in apps && !s.inChange) {
      HeartbeatAsks(s, node, apps, x);
    }
  }

  lemma ListedAreKnown(s: State, node: Addr, apps: seq<AppId>)
    requires AppsOk(s.apps, s.remaining, s.lastApp) && Counted(s) && Lists(s.remote, node, apps)
    ensures forall x | x in apps :: x <= s.lastApp
  {
    forall x | x in apps ensures x <= s.lastApp { assert At(s.remote, node, x) > 0; }
  }

  lemma RelaunchQueue(s: State, node: Addr, apps: seq<AppId>)
    requires QueueOk(s) && forall x | x in apps :: x <= s.lastApp
    ensures QueueOk(Relaunch(s, node, apps)) && Relaunch(s, node, apps).apps.Keys == s.apps.Keys
  {
    RelaunchAsks(s, node, apps, 0);
  }

  lemma HeartbeatQueue(s: State, node: Addr, apps: seq<AppId>)
    requires QueueOk(s) && forall x | x in apps :: x <= s.lastApp
    ensures QueueOk(Does(s, Heartbeat(node, apps)))
    ensures Does(s, Heartbeat(node, apps)).apps.Keys == s.apps.Keys
  {
    RelaunchQueue(FreeAll(s, node), node, apps);
  }

  /** What ran on a dead node is asked for again. */
  lemma HeartbeatAsked(s: State, node: Addr, apps: seq<AppId>, u: set<AppId>)
    requires AppsOk(s.apps, s.remaining, s.lastApp) && Counted(s) && AskedFor(s, u) && Lists(s.remote, node, apps)
    ensures var a := Heartbeat(node, apps); AskedFor(Does(s, a), UnaskedAfter(s, a, u))
  {
    var s', u' := Does(s, Heartbeat(node, apps)), UnaskedAfter(s, Heartbeat(node, apps), u);
    ListedAreKnown(s, node, apps);
    HeartbeatQueue(s, node, apps);
    HeartbeatUnasked(s, node, apps, u);
    forall x ensures OneAsked(s', u', x) {
      assert OneAsked(s, u, x);
      if x in s.apps { HeartbeatOneAsked(s, node, apps, u, x, u'); }
    }
  }

  lemma HeartbeatOneAsked(s: State, node: Addr, apps: seq<AppId>, u: set<AppId>, x: AppId, u': set<AppId>)
    requires Counted(s) && Lists(s.remote, node, apps) && x in s.apps && OneAsked(s, u, x)
    requires s.delayed != [] ==> s.inChange
    requires x in u' <==> x in u && (s.inChange || x !in apps)
    ensures OneAsked(Does(s, Heartbeat(node, apps)), u', x)
  {
    var s' := Does(s, Heartbeat(node, apps));
    HeartbeatAsks(s, node, apps, x);
    assert Queued(s, x) == Named(s.delayed, x) && Queued(s', x) == Named(s'.delayed, x);
  }

  lemma RunsIffCounted(s: State, node: Addr, x: AppId)
    requires Counted(s) && x in s.apps
    ensures At(s.remote, node, x) > 0 <==> exists j :: j in RunningAt(s.apps[x], node)
  {
    var tasks := s.apps[x].tasks;
    assert Fits(tasks, s.remaining[x], s.remote, x);
    if j :| j in RunningAt(s.apps[x], node) { NumPositive(tasks, j, AreAt(node)); }
    if forall j | 0 <= j < |tasks| :: !Is(tasks[j], AreAt(node)) {
      NumZero(tasks, AreAt(node));
    } else {
      var j :| 0 <= j < |tasks| && Is(tasks[j], AreAt(node));
      assert j in RunningAt(s.apps[x], node);
    }
  }

  lemma FatherAsked(s: State, u: set<AppId>)
    requires Sound(s) && AskedFor(s, u)
    ensures AskedFor(Does(s, FatherChanged), UnaskedAfter(s, FatherChanged, u))
  {
    var s0, s' := s.(inChange := false, delayed := []), Does(s, FatherChanged);
    forall x | x in s.apps ensures x in s'.apps && (Requested(s, s', x) <==> Named(s.delayed, x)) {
      SendAllAsks(s0, s.delayed, x);
    }
    var u' := UnaskedAfter(s, FatherChanged, u);
    forall x ensures OneAsked(s', u', x) {
      SendAllAsks(s0, s.delayed, x);
      assert OneAsked(s, u, x) && Queued(s, x) == Named(s.delayed, x) && !Queued(s', x);
    }
    SendAllAsks(s0, s.delayed, 0);
  }

  lemma StepIsAsked(s: State, a: Step, u: set<AppId>)
    requires Sound(s) && Counted(s) && Enabled(s, a) && AskedFor(s, u)
    ensures AskedFor(Does(s, a), UnaskedAfter(s, a, u))
  {
    match a
    case Dispatch(n) => DispatchAsked(s, n, u);
    case Accept(src, rid, first, last) => AcceptAsked(s, src, rid, first, last, u);
    case Timeout(rid, maxRetries) => TimeoutAsked(s, rid, maxRetries, u);
    case Monitor(src, e) => ReportAsked(s, src, e, u);
    case Heartbeat(node, apps) => HeartbeatAsked(s, node, apps, u);
    case FatherChanging =>
      assert UnaskedAfter(s, a, u) == u;
      forall x ensures OneAsked(Does(s, a), u, x) {
        assert OneAsked(s, u, x) && Queued(Does(s, a), x) == Queued(s, x);
      }
    case FatherChanged => FatherAsked(s, u);
  }

  lemma {:induction false} RunIsAsked(s: State, steps: seq<Step>, t: State, u: set<AppId>)
    requires Sound(s) && Counted(s) && Leads(s, steps, t) && AllOnTime(s, steps) && AskedFor(s, u)
    ensures AskedFor(t, Unasked(s, steps, u))
    decreases |steps|
  {
    if steps != [] {
      StepIsSound(s, steps[0]);
      StepIsCounted(s, steps[0]);
      StepIsAsked(s, steps[0], u);
      RunIsAsked(Does(s, steps[0]), steps[1..], t, UnaskedAfter(s, steps[0], u));
    }
  }

  // ---------------------------------------------------------------------------------------------
  // Forgetting
  // ---------------------------------------------------------------------------------------------

  ghost predicate AllFinished(tasks: seq<Task>) {
    forall j | 0 <= j < |tasks| :: tasks[j].Finished?
  }

  /** Of an application of which nothing is left, what is not finished is ready. */
  lemma NothingElse(tasks: seq<Task>, remote: Remote, app: AppId)
    requires Fits(tasks, 0, remote, app)
    ensures AllFinished(tasks) <==> !HasReady(tasks)
  {
    forall j | 0 <= j < |tasks| && !tasks[j].Ready? ensures tasks[j].Finished? {
      if tasks[j].Searching? { NumPositive(tasks, j, AreSearching); }
      if tasks[j].Executing? { NumPositive(tasks, j, AreExecuting); }
    }
  }

  /** What a report forgets. */
  lemma ForgetsReady(t: State, src: Addr, e: Report)
    requires Sound(t) && Counted(t) && OnTime(t, src, e)
    requires e.rid.app in t.apps && e.rid.app !in Does(t, Monitor(src, e)).apps
    ensures AllFinished(Count(t, src, e).apps[e.rid.app].tasks) <==> !HasReady(t.apps[e.rid.app].tasks)
    ensures t.apps[e.rid.app].tasks != []
  {
    var app, s1 := e.rid.app, Count(t, src, e);
    ReportIff(t, src, e);
    CountKeeps(t, src, e, app);
    ReportForgets(t, src, e);
    assert Fits(s1.apps[app].tasks, 0, s1.remote, app);
    NothingElse(s1.apps[app].tasks, s1.remote, app);
    TaskOfIsOnly(t.apps[app], e.rid.k, e.tid);
  }

  lemma ReportForgets(t: State, src: Addr, e: Report)
    requires e.rid.app in t.apps && e.rid.app !in OnReport(t, src, e).apps
    ensures e.outcome == Done && Reported(t, e).Some? && e.rid.app in Count(t, src, e).remaining
    ensures Count(t, src, e).remaining[e.rid.app] == 0
  {
    SendAsks(Count(t, src, e), e.rid.app, 0, e.rid.app);
  }

  /** What is known after a run. */
  lemma RunIsGood(steps: seq<Step>, t: State)
    requires Leads(START, steps, t) && AllOnTime(START, steps)
    ensures Sound(t) && Counted(t) && AskedFor(t, Unasked(START, steps, {}))
  {
    StartIsGood();
    RunIsSound(START, steps, t);
    RunIsCounted(START, steps, t);
    RunIsAsked(START, steps, t, {});
  }

  /**
   In any run with reports on time: when a report makes the node forget an application, all tasks of it are finished if
   and only if no request for it waits for a father and none was given up.
   */
  lemma ForgetsFinishedIff(steps: seq<Step>, t: State, src: Addr, e: Report)
    requires Leads(START, steps, t) && AllOnTime(START, steps) && OnTime(t, src, e)
    requires e.rid.app in t.apps && e.rid.app !in Does(t, Monitor(src, e)).apps
    ensures AllFinished(Count(t, src, e).apps[e.rid.app].tasks)
            <==> !Queued(t, e.rid.app) && e.rid.app !in Unasked(START, steps, {})
  {
    RunIsGood(steps, t);
    ForgetsReady(t, src, e);
    assert OneAsked(t, Unasked(START, steps, {}), e.rid.app);
  }

  /**
   When a timeout makes the node forget an application, all tasks of it are finished if and only if the request searched
   for none any more, no request for it waits for a father, and none was given up before.
   */
  lemma TimesOutFinishedIff(steps: seq<Step>, t: State, rid: Rid, maxRetries: nat)
    requires Leads(START, steps, t) && AllOnTime(START, steps) && rid in t.pending && rid in t.retries
    requires rid.app in t.apps && rid.app !in Does(t, Timeout(rid, maxRetries)).apps
    ensures AllFinished(CancelSearch(t.apps[rid.app], rid.k).tasks)
            <==> || t.apps[rid.app].tasks == []
                 || (&& SearchedBy(t.apps[rid.app], rid.k) == {} && !Queued(t, rid.app)
                     && rid.app !in Unasked(START, steps, {}))
    ensures !AllFinished(CancelSearch(t.apps[rid.app], rid.k).tasks) ==> t.retries[rid] >= maxRetries
  {
    RunIsGood(steps, t);
    CancelForgets(t, rid, maxRetries);
    FreedReady(t.apps[rid.app], SearchedBy(t.apps[rid.app], rid.k));
    assert OneAsked(t, Unasked(START, steps, {}), rid.app);
  }

  lemma CancelForgets(t: State, rid: Rid, maxRetries: nat)
    requires Sound(t) && Counted(t) && rid in t.pending && rid in t.retries
    requires rid.app in t.apps && rid.app !in Does(t, Timeout(rid, maxRetries)).apps
    ensures
      var tasks := CancelSearch(t.apps[rid.app], rid.k).tasks;
      (AllFinished(tasks) <==> !HasReady(tasks)) && (HasReady(tasks) ==> t.retries[rid] >= maxRetries)
  {
    var s0 := t.(pending := t.pending - {rid});
    var s1 := Cancel(s0, rid);
    CancelIsCounted(s0, rid);
    SendAsks(s1, rid.app, t.retries[rid], rid.app);
    ReadyIsCounted(s1.apps[rid.app].tasks);
    NothingElse(s1.apps[rid.app].tasks, s1.remote, rid.app);
  }

  // ---------------------------------------------------------------------------------------------
  // A run in which that happens
  // ---------------------------------------------------------------------------------------------

  // Two tasks, of which node 7 accepts the first. The father changes, and the request times out: a new one for the
  // second task is put off. Then node 7 reports the end of the first task.

  const TAKES := Accept(7, RID, 1, 1)
  const LATE := Timeout(RID, 3)
  const ENDS := Monitor(7, Report(RID, 1, Done))
  const SEARCHED := Instance([Searching, Searching], [[Some(0), Some(1)]])
  const ONE_TAKEN := Instance([Executing(7), Searching], [[Some(0), Some(1)]])
  const ONE_WAITS := Instance([Executing(7), Ready], [[Some(0), None]])
  const DISPATCHED := START.(lastApp := 1, apps := map[1 := SEARCHED], remaining := map[1 := 2],
                            retries := map[RID := 1], pending := {RID})
  const TAKEN := DISPATCHED.(apps := map[1 := ONE_TAKEN], retries := map[RID := 0], remote := map[(7, 1) := 1])
  const CHANGING := TAKEN.(inChange := true)
  const WAITING := CHANGING.(apps := map[1 := ONE_WAITS], remaining := map[1 := 1], retries := map[], pending := {},
                             delayed := [(1, 0)])
  const FORGOTTEN := WAITING.(apps := map[], remaining := map[], remote := map[])

  lemma OneIsTaken()
    ensures Does(DISPATCHED, TAKES) == TAKEN
  {
    assert TaskOf(SEARCHED, 0, 1) == Some(0);
    assert Accepting(SEARCHED, 0, 1, 1) == {0};
    assert Changed(SEARCHED.tasks, {0}, Executing(7)) == ONE_TAKEN.tasks;
    assert Among({0}, 2) == 1;
  }

  lemma OtherIsReady()
    ensures CancelSearch(ONE_TAKEN, 0) == ONE_WAITS && Among(SearchedBy(ONE_TAKEN, 0), 2) == 1
    ensures Num(ONE_WAITS.tasks, AreReady) > 0
  {
    assert SearchedBy(ONE_TAKEN, 0) == {1};
    assert Changed(ONE_TAKEN.tasks, {1}, Ready) == ONE_WAITS.tasks;
    assert FreedSlots(ONE_TAKEN.requests, {1}) == ONE_WAITS.requests by {
      assert FreedOf([Some(0), Some(1)], {1}) == [Some(0), None];
    }
    assert Among({1}, 2) == 1;
    assert ONE_WAITS.tasks[1].Ready?;
    ReadyIsCounted(ONE_WAITS.tasks);
  }

  lemma OtherWaits()
    ensures Does(CHANGING, LATE) == WAITING
  {
    OtherIsReady();
  }

  lemma BothAreForgotten()
    ensures Does(WAITING, ENDS) == FORGOTTEN && OnTime(WAITING, 7, ENDS.report)
    ensures Count(WAITING, 7, ENDS.report).apps == map[1 := ONE_WAITS.(tasks := [Finished, Ready])]
  {
    assert TaskOf(ONE_WAITS, 0, 1) == Some(0);
    assert Accepting(ONE_WAITS, 0, 1, 1) == {};
    assert Changed(ONE_WAITS.tasks, {}, Executing(7)) == ONE_WAITS.tasks;
    assert Told(ONE_WAITS, 7, ENDS.report) == ONE_WAITS.(tasks := [Finished, Ready]);
  }

  lemma Longer(s: State, a: Step, s': State, steps: seq<Step>, t: State)
    requires Sound(s) && Sound(s') && Yields(s, a, s') && (a.Monitor? ==> OnTime(s, a.src, a.report))
    requires Leads(s', steps, t) && AllOnTime(s', steps)
    ensures Leads(s, [a] + steps, t) && AllOnTime(s, [a] + steps)
  {
    assert ([a] + steps)[1..] == steps;
  }

  lemma StatesAreGood()
    ensures Sound(START) && Yields(START, Dispatch(2), DISPATCHED)
    ensures Sound(DISPATCHED) && Yields(DISPATCHED, TAKES, TAKEN)
    ensures Sound(TAKEN) && Yields(TAKEN, FatherChanging, CHANGING)
    ensures Sound(CHANGING) && Yields(CHANGING, LATE, WAITING)
    ensures Sound(WAITING)
  {
    StartIsGood();
    TwoAreDispatched();
    StepIsSound(START, Dispatch(2));
    OneIsTaken();
    StepIsSound(DISPATCHED, TAKES);
    StepIsSound(TAKEN, FatherChanging);
    OtherWaits();
    StepIsSound(CHANGING, LATE);
  }

  lemma NothingIsSent()
    ensures Does(FORGOTTEN, FatherChanged) == FORGOTTEN.(inChange := false, delayed := [])
  {
    assert FORGOTTEN.delayed[1..] == [];
  }

  lemma FirstSteps(rest: seq<Step>, t: State)
    requires Sound(TAKEN) && Leads(TAKEN, rest, t) && AllOnTime(TAKEN, rest)
    ensures Sound(START) && Leads(START, [Dispatch(2)] + ([TAKES] + rest), t)
    ensures AllOnTime(START, [Dispatch(2)] + ([TAKES] + rest))
  {
    StatesAreGood();
    Longer(DISPATCHED, TAKES, TAKEN, rest, t);
    Longer(START, Dispatch(2), DISPATCHED, [TAKES] + rest, t);
  }

  lemma LastSteps() returns (rest: seq<Step>)
    ensures |rest| == 2 && rest[0] == FatherChanging && rest[1] == LATE
    ensures Sound(TAKEN) && Leads(TAKEN, rest, WAITING) && AllOnTime(TAKEN, rest)
  {
    StatesAreGood();
    Longer(CHANGING, LATE, WAITING, [], WAITING);
    Longer(TAKEN, FatherChanging, CHANGING, [LATE] + [], WAITING);
    rest := [FatherChanging] + ([LATE] + []);
  }

  /**
   In this run every report is on time, and the end of the first task makes the node forget the application while the
   second one is ready; when there is a father again, nothing is sent for it.
   */
  lemma ForgottenRun() returns (steps: seq<Step>, s: State)
    ensures |steps| == 4 && steps[0] == Dispatch(2) && steps[1] == TAKES && steps[2] == FatherChanging
    ensures steps[3] == LATE
    ensures Sound(START) && Leads(START, steps, s) && AllOnTime(START, steps)
    ensures OnTime(s, 7, ENDS.report) && 1 in s.apps && Queued(s, 1)
    ensures Count(s, 7, ENDS.report).apps == map[1 := ONE_WAITS.(tasks := [Finished, Ready])]
    ensures 1 !in Does(s, ENDS).apps
    ensures Does(Does(s, ENDS), FatherChanged).pending == {} && Does(Does(s, ENDS), FatherChanged).delayed == []
  {
    s := WAITING;
    var rest := LastSteps();
    FirstSteps(rest, WAITING);
    steps := [Dispatch(2)] + ([TAKES] + rest);
    BothAreForgotten();
    NothingIsSent();
    assert (1, 0) in WAITING.delayed;
  }
}
