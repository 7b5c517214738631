/**
 The timers of a simulated node (src/oldsim/StarsNode.cpp, include/CommLayer.hpp) on the event queue of
 the simulator (src/oldsim/Simulator.cpp). One wake-up event serves many timers; the lowest bit of a
 timer's id says whether a wake-up was programmed for it.
 */
module Timers {
  import opened Common

  datatype Timer = Timer(timeout: int, msg: int, id: nat)

  /** An event is due at `t`: a wake-up of this node's timers, or anything else. */
  datatype Event = Wake(t: int) | Other(t: int)

  datatype Sent = Sent(id: nat, msg: int, at: int)

  /** The simulator's clock and events, the node's timers, and what happened to every timer. */
  datatype Sys = Sys(
    now: int, events: seq<Event>, timers: seq<Timer>, nextId: nat,
    sent: seq<Sent>, cancelled: set<nat>, timeouts: map<nat, int>)

  const START := Sys(0, [], [], 0, [], {}, map[])

  /** A timer's id without its flag. */
  function Number(t: Timer): nat {
    t.id / 2
  }

  function Flagged(t: Timer): bool {
    t.id % 2 == 1
  }

  // ---------------------------------------------------------------------------------------------
  // What the operations do
  // ---------------------------------------------------------------------------------------------

  /** A new timer goes before those that are not due sooner. */
  function Insert(ts: seq<Timer>, t: Timer): seq<Timer> {
    if ts == [] then [t] else if ts[0].timeout < t.timeout then [ts[0]] + Insert(ts[1..], t) else [t] + ts
  }

  /** A new timer is flagged when it has to bring its own wake-up: it is due before all others. */
  function NewTimer(s: Sys, time: int, msg: int): (t: Timer)
    ensures Number(t) == s.nextId + 1 && t.timeout == time
    ensures Flagged(t) <==> s.timers == [] || time < s.timers[0].timeout
  {
    Timer(time, msg, 2 * (s.nextId + 1) + if s.timers == [] || time < s.timers[0].timeout then 1 else 0)
  }

  function AfterSet(s: Sys, time: int, msg: int): Sys {
    var t := NewTimer(s, time, msg);
    s.(nextId := s.nextId + 1,
       events := if Flagged(t) then s.events + [Wake(time)] else s.events,
       timers := Insert(s.timers, t),
       timeouts := s.timeouts[s.nextId + 1 := time])
  }

  function Remove(ts: seq<Timer>, number: nat): seq<Timer> {
    if ts == [] then [] else if Number(ts[0]) == number then ts[1..] else [ts[0]] + Remove(ts[1..], number)
  }

  function AfterCancel(s: Sys, number: nat): Sys {
    s.(timers := Remove(s.timers, number),
       cancelled := if exists t :: t in s.timers && Number(t) == number then s.cancelled + {number} else s.cancelled)
  }

  function SendFirst(s: Sys): Sys
    requires s.timers != []
  {
    var t := s.timers[0];
    s.(timers := s.timers[1..], sent := s.sent + [Sent(Number(t), t.msg, s.now)], events := s.events + [Other(s.now)])
  }

  function FlagFirst(s: Sys): Sys
    requires s.timers != []
  {
    var t := s.timers[0];
    s.(timers := [t.(id := t.id + 1)] + s.timers[1..], events := s.events + [Wake(t.timeout)])
  }

  /** Sends what is due, and programs the next wake-up unless it has been already. */
  function WakeUp(s: Sys): Sys
    decreases |s.timers|
  {
    if s.timers == [] then s
    else if s.timers[0].timeout <= s.now then WakeUp(SendFirst(s))
    else if Flagged(s.timers[0]) then s
    else FlagFirst(s)
  }

  // ---------------------------------------------------------------------------------------------
  // Steps and runs
  // ---------------------------------------------------------------------------------------------

  datatype Action =
    | Set(time: int, msg: int)      // somebody sets a timer that is not in the past
    | Cancel(number: nat)
    | Post(t: int)                  // anything else is scheduled
    | Next(i: nat)                  // the simulator takes an event that is due first

  predicate Enabled(s: Sys, a: Action) {
    match a
    case Set(time, _) => time >= s.now
    case Cancel(_) => true
    case Post(t) => t >= s.now
    case Next(i) => i < |s.events| && forall j | 0 <= j < |s.events| :: s.events[i].t <= s.events[j].t
  }

  function Does(s: Sys, a: Action): Sys
    requires Enabled(s, a)
  {
    match a
    case Set(time, msg) => AfterSet(s, time, msg)
    case Cancel(number) => AfterCancel(s, number)
    case Post(t) => s.(events := s.events + [Other(t)])
    case Next(i) =>
      var s' := s.(now := s.events[i].t, events := Without(s.events, i));
      if s.events[i].Wake? then WakeUp(s') else s'
  }

  ghost predicate Run(ss: seq<Sys>) {
    && |ss| > 0 && ss[0] == START
    && forall k | 0 <= k < |ss| - 1 :: exists a :: Enabled(ss[k], a) && ss[k + 1] == Does(ss[k], a)
  }

  // ---------------------------------------------------------------------------------------------
  // What holds in every reachable state
  // ---------------------------------------------------------------------------------------------

  predicate Sorted(ts: seq<Timer>) {
    forall i, j | 0 <= i < j < |ts| :: ts[i].timeout <= ts[j].timeout
  }

  function Listed(ts: seq<Timer>, n: nat): nat {
    if ts == [] then 0 else One(Number(ts[0]) == n) + Listed(ts[1..], n)
  }

  function TimesSent(ms: seq<Sent>, n: nat): nat {
    if ms == [] then 0 else One(ms[0].id == n) + TimesSent(ms[1..], n)
  }

  /** A wake-up will come by `t`. */
  predicate WakeBy(events: seq<Event>, t: int) {
    exists e :: e in events && e.Wake? && e.t <= t
  }

  predicate TimersOk(s: Sys) {
    && Sorted(s.timers)
    && (forall t | t in s.timers :: s.now <= t.timeout && Number(t) in s.timeouts && s.timeouts[Number(t)] == t.timeout)
    && (forall t | t in s.timers && Flagged(t) && t.timeout > s.now :: Wake(t.timeout) in s.events)
  }

  /** Every timer ever set is listed, or was sent, or was cancelled, and only one of these, once. */
  predicate Accounted(s: Sys) {
    && (forall n | n in s.timeouts :: 1 <= n <= s.nextId)
    && (forall n | n in s.cancelled :: n in s.timeouts)
    && (forall n | n in s.timeouts :: Listed(s.timers, n) + TimesSent(s.sent, n) + One(n in s.cancelled) == 1)
    && (forall m | m in s.sent :: m.id in s.timeouts && m.at == s.timeouts[m.id])
  }

  predicate EventsOk(s: Sys) {
    forall e | e in s.events :: e.t >= s.now
  }

  predicate Good(s: Sys) {
    TimersOk(s) && Accounted(s) && EventsOk(s) && (s.timers != [] ==> WakeBy(s.events, s.timers[0].timeout))
  }

  // ---------------------------------------------------------------------------------------------
  // Setting and cancelling
  // ---------------------------------------------------------------------------------------------

  lemma {:induction false} InsertMember(ts: seq<Timer>, t: Timer, u: Timer)
    ensures u in Insert(ts, t) <==> u == t || u in ts
  {
    if ts != [] && ts[0].timeout < t.timeout { InsertMember(ts[1..], t, u); }
  }

  lemma {:induction false} InsertSorted(ts: seq<Timer>, t: Timer)
    requires Sorted(ts)
    ensures Sorted(Insert(ts, t))
    ensures Insert(ts, t)[0] == if ts == [] || t.timeout <= ts[0].timeout then t else ts[0]
  {
    if ts != [] && ts[0].timeout < t.timeout {
      InsertSorted(ts[1..], t);
      var rest := Insert(ts[1..], t);
      forall j | 0 <= j < |rest| ensures ts[0].timeout <= rest[j].timeout { InsertMember(ts[1..], t, rest[j]); }
    }
  }

  lemma {:induction false} InsertListed(ts: seq<Timer>, t: Timer, n: nat)
    ensures Listed(Insert(ts, t), n) == Listed(ts, n) + One(Number(t) == n)
  {
    if ts != [] {
      if ts[0].timeout < t.timeout { InsertListed(ts[1..], t, n); } else { assert ([t] + ts)[1..] == ts; }
    }
  }

  lemma {:induction false} ListedIn(ts: seq<Timer>, n: nat)
    ensures Listed(ts, n) > 0 <==> exists t :: t in ts && Number(t) == n
  {
    if ts != [] {
      ListedIn(ts[1..], n);
      if t :| t in ts && Number(t) == n { assert t == ts[0] || t in ts[1..]; }
    }
  }

  lemma {:induction false} SentIn(ms: seq<Sent>, n: nat)
    ensures TimesSent(ms, n) > 0 <==> exists m :: m in ms && m.id == n
  {
    if ms != [] {
      SentIn(ms[1..], n);
      if m :| m in ms && m.id == n { assert m == ms[0] || m in ms[1..]; }
    }
  }

  lemma SetKeepsTimers(s: Sys, time: int, msg: int)
    requires TimersOk(s) && Accounted(s) && time >= s.now
    ensures TimersOk(AfterSet(s, time, msg))
  {
    var s', t := AfterSet(s, time, msg), NewTimer(s, time, msg);
    InsertSorted(s.timers, t);
    forall u | u in s'.timers
      ensures s'.now <= u.timeout && Number(u) in s'.timeouts && s'.timeouts[Number(u)] == u.timeout
      ensures Flagged(u) && u.timeout > s'.now ==> Wake(u.timeout) in s'.events
    {
      InsertMember(s.timers, t, u);
    }
  }

  lemma SetKeepsAccount(s: Sys, time: int, msg: int)
    requires TimersOk(s) && Accounted(s)
    ensures Accounted(AfterSet(s, time, msg))
  {
    var s', t := AfterSet(s, time, msg), NewTimer(s, time, msg);
    forall n | n in s'.timeouts ensures Listed(s'.timers, n) + TimesSent(s'.sent, n) + One(n in s'.cancelled) == 1 {
      InsertListed(s.timers, t, n);
      if n == s.nextId + 1 { NewNumber(s, n); }
    }
  }

  lemma SetKeepsGood(s: Sys, time: int, msg: int)
    requires Good(s) && time >= s.now
    ensures Good(AfterSet(s, time, msg))
  {
    var s', t := AfterSet(s, time, msg), NewTimer(s, time, msg);
    SetKeepsTimers(s, time, msg);
    SetKeepsAccount(s, time, msg);
    InsertSorted(s.timers, t);
    if Flagged(t) {
      assert Wake(time) in s'.events;
    } else {
      var e :| e in s.events && e.Wake? && e.t <= s.timers[0].timeout;
      assert e in s'.events && e.t <= s'.timers[0].timeout;
    }
  }

  /** Nothing is known of a number that was not given out. */
  lemma NewNumber(s: Sys, n: nat)
    requires TimersOk(s) && Accounted(s) && n !in s.timeouts
    ensures Listed(s.timers, n) == 0 && TimesSent(s.sent, n) == 0
  {
    ListedIn(s.timers, n);
    SentIn(s.sent, n);
  }

  lemma {:induction false} RemoveListed(ts: seq<Timer>, number: nat, n: nat)
    ensures Listed(Remove(ts, number), n) + One(n == number && Listed(ts, number) > 0) == Listed(ts, n)
    ensures forall u | u in Remove(ts, number) :: u in ts
    ensures Sorted(ts) ==> Sorted(Remove(ts, number))
    ensures Sorted(ts) && Remove(ts, number) != [] ==> ts[0].timeout <= Remove(ts, number)[0].timeout
  {
    if ts != [] && Number(ts[0]) != number {
      RemoveListed(ts[1..], number, n);
      var rest := Remove(ts[1..], number);
      assert ([ts[0]] + rest)[1..] == rest;
    }
  }

  lemma CancelKeepsGood(s: Sys, number: nat)
    requires Good(s)
    ensures Good(AfterCancel(s, number))
  {
    var s' := AfterCancel(s, number);
    ListedIn(s.timers, number);
    forall n | n in s'.timeouts ensures Listed(s'.timers, n) + TimesSent(s'.sent, n) + One(n in s'.cancelled) == 1 {
      RemoveListed(s.timers, number, n);
    }
    RemoveListed(s.timers, number, number);
  }

  // ---------------------------------------------------------------------------------------------
  // Events
  // ---------------------------------------------------------------------------------------------

  /** While a wake-up is handled there may be none left for the first timer; nothing is overdue. */
  predicate Waking(s: Sys) {
    TimersOk(s) && Accounted(s) && EventsOk(s)
  }

  /** The first timer is due, now and not before: it is sent. */
  lemma SendKeeps(s: Sys)
    requires Waking(s) && s.timers != [] && s.timers[0].timeout <= s.now
    ensures s.timers[0].timeout == s.now && Waking(SendFirst(s))
  {
    var t, s' := s.timers[0], SendFirst(s);
    assert t in s.timers;
    forall n | n in s'.timeouts ensures Listed(s'.timers, n) + TimesSent(s'.sent, n) + One(n in s'.cancelled) == 1 {
      SentSnoc(s.sent, Sent(Number(t), t.msg, s.now), n);
    }
  }

  lemma {:induction false} SentSnoc(ms: seq<Sent>, m: Sent, n: nat)
    ensures TimesSent(ms + [m], n) == TimesSent(ms, n) + One(m.id == n)
  {
    if ms == [] {
      assert ms + [m] == [m];
    } else {
      SentSnoc(ms[1..], m, n);
      assert (ms + [m])[1..] == ms[1..] + [m];
    }
  }

  /** Flagging a timer changes neither its number nor its place. */
  lemma FlagKeeps(s: Sys)
    requires Waking(s) && s.timers != [] && !Flagged(s.timers[0])
    ensures Waking(FlagFirst(s)) && Wake(s.timers[0].timeout) in FlagFirst(s).events
  {
    FlagKeepsTimers(s);
    var s' := FlagFirst(s);
    assert s'.timers[1..] == s.timers[1..] && Number(s'.timers[0]) == Number(s.timers[0]);
    forall n | n in s'.timeouts ensures Listed(s'.timers, n) == Listed(s.timers, n) {}
  }

  lemma FlagKeepsTimers(s: Sys)
    requires TimersOk(s) && s.timers != [] && !Flagged(s.timers[0])
    ensures TimersOk(FlagFirst(s))
  {
    var t, s' := s.timers[0], FlagFirst(s);
    assert t in s.timers && Number(s'.timers[0]) == Number(t);
    forall i | 0 <= i < |s'.timers|
      ensures s'.now <= s'.timers[i].timeout && Number(s'.timers[i]) in s'.timeouts
      ensures s'.timeouts[Number(s'.timers[i])] == s'.timers[i].timeout
      ensures Flagged(s'.timers[i]) && s'.timers[i].timeout > s'.now ==> Wake(s'.timers[i].timeout) in s'.events
    {
      if i > 0 { assert s'.timers[i] == s.timers[i] && s.timers[i] in s.timers; }
    }
  }

  /** After a wake-up everything due has been sent, and the next wake-up is programmed. */
  lemma {:induction false} WakeUpIsGood(s: Sys)
    requires Waking(s)
    ensures Good(WakeUp(s)) && WakeUp(s).now == s.now && (forall t | t in WakeUp(s).timers :: t.timeout > s.now)
    decreases |s.timers|
  {
    if s.timers != [] {
      var t := s.timers[0];
      if t.timeout <= s.now {
        SendKeeps(s);
        WakeUpIsGood(SendFirst(s));
      } else if Flagged(t) {
        assert t in s.timers && Wake(t.timeout) in s.events;
      } else {
        FlagKeeps(s);
      }
    }
  }

  /** When the clock moves on to the next event, no timer is overdue: a wake-up comes first. */
  lemma NextIsWaking(s: Sys, i: nat)
    requires Good(s) && Enabled(s, Next(i))
    ensures var s' := s.(now := s.events[i].t, events := Without(s.events, i));
            if s.events[i].Wake? then Waking(s') else Good(s')
  {
    var e, s' := s.events[i], s.(now := s.events[i].t, events := Without(s.events, i));
    assert e in s.events;
    forall f | f in s'.events ensures f in s.events && f.t >= s'.now {
      var j :| 0 <= j < |s.events| && s.events[j] == f;
    }
    if s.timers != [] {
      var w :| w in s.events && w.Wake? && w.t <= s.timers[0].timeout;
      var j :| 0 <= j < |s.events| && s.events[j] == w;
      if !e.Wake? { StillThere(s.events, i, w); }
    }
    forall t | t in s.timers && Flagged(t) && t.timeout > s'.now ensures Wake(t.timeout) in s'.events {
      StillThere(s.events, i, Wake(t.timeout));
    }
  }

  lemma StillThere(events: seq<Event>, i: nat, e: Event)
    requires i < |events| && e in events && e != events[i]
    ensures e in Without(events, i)
  {
    var j :| 0 <= j < |events| && events[j] == e;
    assert Without(events, i)[if j < i then j else j - 1] == e;
  }

  lemma StepKeepsGood(s: Sys, a: Action)
    requires Good(s) && Enabled(s, a)
    ensures Good(Does(s, a))
  {
    match a
    case Set(time, msg) => SetKeepsGood(s, time, msg);
    case Cancel(number) => CancelKeepsGood(s, number);
    case Post(t) =>
      if s.timers != [] {
        var w :| w in s.events && w.Wake? && w.t <= s.timers[0].timeout;
        assert w in Does(s, a).events;
      }
    case Next(i) =>
      NextIsWaking(s, i);
      if s.events[i].Wake? { WakeUpIsGood(s.(now := s.events[i].t, events := Without(s.events, i))); }
  }

  lemma {:induction false} RunIsGood(ss: seq<Sys>, k: nat)
    requires Run(ss) && k < |ss|
    ensures Good(ss[k])
  {
    if k > 0 {
      RunIsGood(ss, k - 1);
      var a :| Enabled(ss[k - 1], a) && ss[k - 1 + 1] == Does(ss[k - 1], a);
      StepKeepsGood(ss[k - 1], a);
    }
  }

  // ---------------------------------------------------------------------------------------------
  // What is promised
  // ---------------------------------------------------------------------------------------------

  /** No timer is late: in every reachable state a wake-up is pending, no later than the first timer is due. */
  lemma NoTimerIsLate(ss: seq<Sys>, k: nat)
    requires Run(ss) && k < |ss| && ss[k].timers != []
    ensures exists e :: e in ss[k].events && e.Wake? && ss[k].now <= e.t <= ss[k].timers[0].timeout
  {
    RunIsGood(ss, k);
    var e :| e in ss[k].events && e.Wake? && e.t <= ss[k].timers[0].timeout;
  }

  /**
   Every timer that was not cancelled is sent exactly once, exactly when it is due: once the clock is past that moment
   it has been sent, and before that moment it has not.
   */
  lemma SentWhenDue(ss: seq<Sys>, k: nat, n: nat)
    requires Run(ss) && k < |ss| && n in ss[k].timeouts
    ensures
      var s := ss[k];
      && (forall m | m in s.sent && m.id == n :: m.at == s.timeouts[n])
      && TimesSent(s.sent, n) <= 1
      && (n !in s.cancelled && s.timeouts[n] < s.now ==> TimesSent(s.sent, n) == 1)
      && (n in s.cancelled || s.timeouts[n] > s.now ==> TimesSent(s.sent, n) == 0)
  {
    RunIsGood(ss, k);
    SentNotAhead(ss, k);
    var s := ss[k];
    ListedIn(s.timers, n);
    SentIn(s.sent, n);
  }

  /** Nothing was sent in the future. */
  lemma {:induction false} SentNotAhead(ss: seq<Sys>, k: nat)
    requires Run(ss) && k < |ss|
    ensures forall m | m in ss[k].sent :: m.at <= ss[k].now
  {
    if k > 0 {
      SentNotAhead(ss, k - 1);
      RunIsGood(ss, k - 1);
      var a :| Enabled(ss[k - 1], a) && ss[k - 1 + 1] == Does(ss[k - 1], a);
      if a.Next? {
        var s := ss[k - 1];
        assert s.events[a.i] in s.events;
        if s.events[a.i].Wake? { WakeUpSends(s.(now := s.events[a.i].t, events := Without(s.events, a.i))); }
      }
    }
  }

  lemma {:induction false} WakeUpSends(s: Sys)
    ensures forall m | m in WakeUp(s).sent :: m in s.sent || m.at == s.now
    ensures WakeUp(s).now == s.now
    decreases |s.timers|
  {
    if s.timers != [] && s.timers[0].timeout <= s.now {
      WakeUpSends(SendFirst(s));
    }
  }

  // ---------------------------------------------------------------------------------------------
  // The node and the simulator
  // ---------------------------------------------------------------------------------------------

  class Simulator {
    var time: int
    var events: seq<Event>

    constructor ()
      ensures time == 0 && events == []
    {
      time, events := 0, [];
    }

    method InjectMessage(e: Event, delay: int)
      requires e.t == time + delay
      modifies this`events
      ensures events == old(events) + [e]
    {
      events := events + [e];
    }

    /** Takes an event that is due first; the clock moves to it. */
    method PopNextEvent() returns (e: Event, ghost i: nat)
      requires events != []
      modifies this
      ensures i < |old(events)| && e == old(events)[i] && forall j | 0 <= j < |old(events)| :: e.t <= old(events)[j].t
      ensures events == Without(old(events), i) && time == e.t
    {
      var first := 0;
      for k := 1 to |events|
        invariant 0 <= first < k && forall j | 0 <= j < k :: events[first].t <= events[j].t
      {
        if events[k].t < events[first].t { first := k; }
      }
      e, i := events[first], first;
      events := Without(events, first);
      time := e.t;
    }
  }

  class CommLayer {
    const sim: Simulator
    var timerList: seq<Timer>
    var lastId: nat
    ghost var sent: seq<Sent>
    ghost var cancelled: set<nat>
    ghost var timeouts: map<nat, int>

    constructor (sim: Simulator)
      ensures this.sim == sim && timerList == [] && lastId == 0 && sent == [] && cancelled == {} && timeouts == map[]
    {
      this.sim := sim;
      timerList, lastId := [], 0;
      sent, cancelled, timeouts := [], {}, map[];
    }

    ghost function State(): Sys
      reads this, sim
    {
      Sys(sim.time, sim.events, timerList, lastId, sent, cancelled, timeouts)
    }

    /** A timer in the past is refused. */
    method SetTimer(time: int, msg: int) returns (number: nat)
      modifies this, sim
      ensures if time >= old(sim.time) then State() == AfterSet(old(State()), time, msg) && number == old(lastId) + 1
              else State() == old(State()) && number == 0
    {
      if time >= sim.time {
        number := SetTimerImpl(time, msg);
      } else {
        number := 0;
      }
    }

    method SetTimerImpl(time: int, msg: int) returns (number: nat)
      modifies this, sim
      ensures State() == AfterSet(old(State()), time, msg) && number == old(lastId) + 1
    {
      lastId := lastId + 1;
      var t := Timer(time, msg, 2 * lastId);
      if timerList == [] || time < timerList[0].timeout {
        sim.InjectMessage(Wake(time), time - sim.time);
        t := t.(id := t.id + 1);
      }
      timerList := Insert(timerList, t);
      timeouts := timeouts[lastId := time];
      number := t.id / 2;
    }

    method CancelTimer(number: nat)
      modifies this
      ensures State() == AfterCancel(old(State()), number)
    {
      var i := 0;
      while i < |timerList| && Number(timerList[i]) != number
        invariant i <= |timerList| && forall j | 0 <= j < i :: Number(timerList[j]) != number
      {
        i := i + 1;
      }
      RemoveAt(timerList, number, i);
      if i < |timerList| {
        assert timerList[i] in timerList;
        timerList := timerList[..i] + timerList[i + 1..];
        cancelled := cancelled + {number};
      }
    }

    /** A wake-up arrives. */
    method ReceiveWakeUp()
      modifies this, sim
      ensures State() == WakeUp(old(State()))
    {
      var ct := sim.time;
      ghost var was := State();
      while timerList != []
        invariant WakeUp(State()) == WakeUp(was) && sim.time == ct
        decreases |timerList|
      {
        var t := timerList[0];
        if t.timeout <= ct {
          sim.InjectMessage(Other(ct), 0);
          sent := sent + [Sent(Number(t), t.msg, ct)];
          timerList := timerList[1..];
        } else {
          if t.id % 2 == 0 {
            sim.InjectMessage(Wake(t.timeout), t.timeout - ct);
            timerList := [t.(id := t.id + 1)] + timerList[1..];
          }
          break;
        }
      }
    }
  }

  lemma {:induction false} RemoveAt(ts: seq<Timer>, number: nat, i: nat)
    requires i <= |ts| && (forall j | 0 <= j < i :: Number(ts[j]) != number) && (i < |ts| ==> Number(ts[i]) == number)
    ensures Remove(ts, number) == if i < |ts| then ts[..i] + ts[i + 1..] else ts
  {
    if i > 0 {
      RemoveAt(ts[1..], number, i - 1);
      assert i < |ts| ==> [ts[0]] + (ts[1..][..i - 1] + ts[1..][i..]) == ts[..i] + ts[i + 1..];
    }
  }
}
