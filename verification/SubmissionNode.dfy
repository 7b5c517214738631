/**
 The handlers of a submitting node as they change its fields and its database, against the functions of Submission.
 */
module SubmissionNodes {
  import opened AppDatabase
  import opened Submission

  class SubmissionNode {
    const db: SimAppDatabase
    var remainingTasks: map<AppId, int>
    var remoteTasks: Remote
    var retries: map<Rid, nat>
    var timeouts: set<Rid>
    var inChange: bool
    var delayedInstances: seq<(AppId, nat)>

    function Abs(): State
      reads this, db
    {
      State(db.instances, remainingTasks, remoteTasks, retries, timeouts, inChange, delayedInstances, db.lastInstance)
    }

    /** That `Sound(Abs())` holds too, in every run, is what RunIsSound says; only timeouts need it. */
    ghost predicate Valid()
      reads this, db
    {
      db.Valid()
    }

    constructor (db: SimAppDatabase)
      requires db.Valid() && db.instances == map[] && db.lastInstance == 0
      ensures Valid() && this.db == db && Abs() == START
    {
      this.db := db;
      remainingTasks, remoteTasks, retries, timeouts, inChange, delayedInstances := map[], map[], map[], {}, false, [];
    }

    method Send(app: AppId, prevRetries: nat)
      requires Valid()
      modifies this, db
      ensures Valid() && Abs() == SendRequest(old(Abs()), app, prevRetries)
    {
      if inChange {
        delayedInstances := delayedInstances + [(app, prevRetries)];
      } else {
        var k := if app in db.instances then |db.instances[app].requests| else 0;
        var n := db.OpenNewRequest(app);
        if n == 0 { return; }
        var rid := Rid(app, k);
        retries := retries[rid := prevRetries + 1];
        remainingTasks := remainingTasks[app := (if app in remainingTasks then remainingTasks[app] else 0) + n];
        timeouts := timeouts + {rid};
      }
    }

    method DispatchCommand(numTasks: nat)
      requires Valid()
      modifies this, db
      ensures Valid() && Abs() == OnDispatch(old(Abs()), numTasks)
    {
      var app := db.CreateAppInstance(numTasks);
      remainingTasks := remainingTasks[app := 0];
      assert Abs() == NewApp(old(Abs()), numTasks);
      Send(app, 0);
    }

    method AcceptTask(src: Addr, rid: Rid, first: nat, last: nat)
      requires Valid()
      modifies this, db
      ensures Valid() && Abs() == OnAccept(old(Abs()), src, rid, first, last)
    {
      if rid.app in db.instances {
        var n := db.AcceptedTasks(src, rid, first, last);
        if n > 0 {
          retries := retries[rid := 0];
          remoteTasks := SetAt(remoteTasks, src, rid.app, At(remoteTasks, src, rid.app) + n);
        }
      }
    }

    method StopSearch(rid: Rid)
      requires Valid() && rid.app in db.instances && rid.app in remainingTasks
      modifies this, db
      ensures Valid() && Abs() == Cancel(old(Abs()).(pending := old(timeouts) - {rid}), rid)
    {
      timeouts := timeouts - {rid};
      var n := db.CancelRequest(rid);
      remainingTasks := remainingTasks[rid.app := remainingTasks[rid.app] - n];
    }

    method RequestTimeout(rid: Rid, maxRetries: nat)
      requires Valid() && rid in retries && (rid.app in db.instances ==> rid.app in remainingTasks)
      modifies this, db
      ensures Valid() && Abs() == OnTimeout(old(Abs()), rid, maxRetries)
    {
      var app, prev := rid.app, retries[rid];
      if app !in db.instances {
        timeouts := timeouts - {rid};
        return;
      }
      StopSearch(rid);
      var ready := db.GetNumReady(app);
      if ready > 0 && prev < maxRetries {
        Send(app, prev);
      } else if remainingTasks[app] == 0 {
        Finish(app);
      }
      retries := retries - {rid};
    }

    method Finish(app: AppId)
      requires Valid()
      modifies this, db
      ensures Valid() && Abs() == FinishApp(old(Abs()), app)
    {
      db.AppInstanceFinished(app);
      remainingTasks := remainingTasks - {app};
    }

    /** The database is told; `known` says whether it knew the task. */
    method Tell(src: Addr, e: Report) returns (known: bool)
      requires Valid()
      modifies db
      ensures Valid() && db.lastInstance == old(db.lastInstance) && (known <==> Reported(old(Abs()), e).Some?)
      ensures db.instances == if e.rid.app in old(db.instances)
                              then old(db.instances)[e.rid.app := Told(old(db.instances)[e.rid.app], src, e)]
                              else old(db.instances)
    {
      known := e.rid.app in db.instances && TaskOf(db.instances[e.rid.app], e.rid.k, e.tid).Some?;
      var _ := db.AcceptedTasks(src, e.rid, e.tid, e.tid);
      if e.outcome == Done {
        known := db.FinishedTask(e.rid, e.tid);
      } else if e.outcome == Failed {
        known := db.AbortedTask(e.rid, e.tid);
      }
    }

    /** What is counted when a task has ended. */
    method TaskEnded(src: Addr, e: Report) returns (known: bool)
      requires Valid() && e.outcome != Ongoing
      modifies this, db
      ensures Valid() && Abs() == Count(old(Abs()), src, e) && (known <==> Reported(old(Abs()), e).Some?)
    {
      var app := e.rid.app;
      var here := At(remoteTasks, src, app);
      known := Tell(src, e);
      if known {
        if e.outcome == Failed {
          remainingTasks := remainingTasks[app := (if app in remainingTasks then remainingTasks[app] else 0) - 1];
          remoteTasks := SetAt(remoteTasks, src, app, if here > 0 then here - 1 else 0);
        } else if here > 0 {
          remoteTasks := SetAt(remoteTasks, src, app, here - 1);
          if app in remainingTasks { remainingTasks := remainingTasks[app := remainingTasks[app] - 1]; }
        }
      }
    }

    method TaskMonitor(src: Addr, e: Report)
      requires Valid()
      modifies this, db
      ensures Valid() && Abs() == OnReport(old(Abs()), src, e)
    {
      var app := e.rid.app;
      var here := At(remoteTasks, src, app);
      if e.outcome == Ongoing {
        var _ := Tell(src, e);
        return;
      }
      var known := TaskEnded(src, e);
      if known && here > 0 {
        if e.outcome == Failed {
          Send(app, 0);
        } else if app in remainingTasks && remainingTasks[app] == 0 {
          Finish(app);
        }
      }
    }

    method FatherChanging()
      requires Valid()
      modifies this
      ensures Valid() && Abs() == OnFatherChanging(old(Abs()))
    {
      inChange := true;
    }

    method FatherChanged()
      requires Valid()
      modifies this, db
      ensures Valid() && Abs() == OnFatherChanged(old(Abs()))
    {
      inChange := false;
      var delayed := delayedInstances;
      delayedInstances := [];
      ghost var s := Abs();
      var i := 0;
      while i < |delayed|
        invariant i <= |delayed| && Valid() && SendAll(Abs(), delayed[i..]) == SendAll(s, delayed)
      {
        assert delayed[i..][1..] == delayed[i + 1..];
        Send(delayed[i].0, delayed[i].1);
        i := i + 1;
      }
    }

    method Again(node: Addr, app: AppId)
      requires Valid()
      modifies this, db
      ensures Valid() && Abs() == SendRequest(TakeBack(old(Abs()), node, app), app, 0)
    {
      var here := At(remoteTasks, node, app);
      remainingTasks := remainingTasks[app := (if app in remainingTasks then remainingTasks[app] else 0) - here];
      remoteTasks := SetAt(remoteTasks, node, app, 0);
      Send(app, 0);
    }

    /** The applications with tasks on the dead node are relaunched in some order. */
    method HeartbeatTimeout(node: Addr) returns (ghost apps: seq<AppId>)
      requires Valid()
      modifies this, db
      ensures Valid() && Lists(old(remoteTasks), node, apps) && Abs() == OnHeartbeatTimeout(old(Abs()), node, apps)
    {
      db.FreeDeadNode(node);
      var list := AppsAt(remoteTasks, node);
      apps := list;
      RelaunchAll(node, list);
    }

    method RelaunchAll(node: Addr, list: seq<AppId>)
      requires Valid()
      modifies this, db
      ensures Valid() && Abs() == Relaunch(old(Abs()), node, list)
    {
      var i := 0;
      while i < |list|
        invariant i <= |list| && Valid() && Relaunch(Abs(), node, list[i..]) == Relaunch(old(Abs()), node, list)
      {
        assert list[i..][1..] == list[i + 1..];
        Again(node, list[i]);
        i := i + 1;
      }
    }
  }

  method AppsAt(remote: Remote, node: Addr) returns (apps: seq<AppId>)
    ensures Lists(remote, node, apps)
  {
    apps := [];
    var todo := set k | k in remote && k.0 == node && remote[k] > 0 :: k.1;
    while todo != {}
      invariant forall a :: a in apps || a in todo <==> At(remote, node, a) > 0
      invariant forall a :: a in apps ==> a !in todo
      invariant forall i, j | 0 <= i < j < |apps| :: apps[i] != apps[j]
      decreases todo
    {
      var a :| a in todo;
      apps := apps + [a];
      todo := todo - {a};
    }
  }
}
