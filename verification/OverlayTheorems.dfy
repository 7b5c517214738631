/** What the overlay promises in every reachable state, and what a split does to the child links. */
module OverlayTheorems {
  import opened Common
  import opened Overlay
  import opened OverlayProtocol
  import opened OverlayPairs
  import opened OverlayInvariant
  import opened OverlaySafety
  import opened OverlayRoles
  import opened OverlayHandlers
  import opened OverlayRuns

  // ---------------------------------------------------------------------------------------------
  // All or nothing
  // ---------------------------------------------------------------------------------------------

  /** The transaction a peer's node is in. */
  ghost function TxOf(w: World, p: Proc): TxId {
    if p.SN? then w.sn(p.a).tx else w.rn(p.a).tx
  }

  /** `p` has acknowledged `t` and waits for the decision. */
  ghost predicate Waits(w: World, t: TxId, p: Proc) {
    && TxOf(w, p) == t
    && (p.SN? ==> w.sn(p.a).phase == Init || w.sn(p.a).phase == AddChild || w.sn(p.a).phase == ChangeFather)
  }

  lemma {:induction false} Carried(ch: seq<Msg>, k: Kind, t: TxId)
    requires Num(ch, k, t) > 0
    ensures k == Told(true) ==> Commit(t) in ch
    ensures k == Told(false) ==> Rollback(t) in ch
    ensures k == Acked ==> Ack(t) in ch
  {
    if !Is(ch[0], k, t) { Carried(ch[1..], k, t); }
  }

  /**
   A split is all or nothing. While it is open, who has been counted still waits for the decision; once it has won,
   every member waits with the commit on its way, or has committed; once it has lost, a member that still waits has the
   rollback on its way, or its own acknowledgement, which will be answered by one.
   */
  lemma AllOrNothing(ws: seq<World>, k: nat, t: TxId, p: Proc)
    requires Run(ws) && k < |ws| && t in ws[k].split
    requires p in Enlisted(ws[k], t)
    ensures
      var w := ws[k];
      && t in w.owner && p != w.owner[t]
      && (Open(w, t) && p in w.sn(w.owner[t].a).acked ==> Waits(w, t, p))
      && (Won(w, t) ==> (Waits(w, t, p) && Commit(t) in w.net(w.owner[t], p)) || ((t, p) in w.log && w.log[(t, p)]))
      && (Lost(w, t) && Waits(w, t, p) ==> Rollback(t) in w.net(w.owner[t], p) || Ack(t) in w.net(p, w.owner[t]))
      && ((t, p) in w.log ==> t in w.decided && w.log[(t, p)] == w.decided[t])
  {
    MemberCoherent(ws, k, t, p);
    var w := ws[k];
    var dm, md := w.net(w.owner[t], p), w.net(p, w.owner[t]);
    if Num(dm, Told(true), t) > 0 { Carried(dm, Told(true), t); }
    if Num(dm, Told(false), t) > 0 { Carried(dm, Told(false), t); }
    if Num(md, Acked, t) > 0 { Carried(md, Acked, t); }
  }

  lemma MemberCoherent(ws: seq<World>, k: nat, t: TxId, p: Proc)
    requires Run(ws) && k < |ws| && t in ws[k].split && p in Enlisted(ws[k], t)
    ensures t in ws[k].owner && p != ws[k].owner[t] && p.a != NOBODY && Coherent(t, View(ws[k], t, p))
  {
    RunKeeps(ws, k);
  }

  /** Commits are sent exactly to the members of splits that have won; rollbacks never to a member of one. */
  lemma WhoIsTold(ws: seq<World>, k: nat, t: TxId, p: Proc)
    requires Run(ws) && k < |ws| && t in ws[k].split && t in ws[k].owner && p != ws[k].owner[t] && p.a != NOBODY
    ensures (t, p, true) in ws[k].told <==> Won(ws[k], t) && p in Enlisted(ws[k], t)
    ensures (t, p, false) in ws[k].told ==> Lost(ws[k], t) || p !in Enlisted(ws[k], t)
    ensures !((t, p, true) in ws[k].told && (t, p, false) in ws[k].told)
  {
    RunKeeps(ws, k);
    assert Coherent(t, View(ws[k], t, p));
  }

  /** The step in which a split wins is a step of its driver alone, and every member is waiting in it. */
  lemma WinsOnlyWithAll(ws: seq<World>, k: nat, t: TxId, p: Proc)
    requires Run(ws) && k + 1 < |ws| && t in ws[k].split && Open(ws[k], t) && Won(ws[k + 1], t)
    requires p in Enlisted(ws[k], t)
    ensures Waits(ws[k], t, p)
  {
    MemberCoherent(ws, k, t, p);
    RunKeeps(ws, k);
    assert Next(ws[k], ws[k + 1]);
    var act :| Does(ws[k], ws[k + 1], act);
    OnlyDriverDecides(ws[k], ws[k + 1], act, t, p);
    MemberCoherent(ws, k + 1, t, p);
    WonMeansAll(ws[k], ws[k + 1], t, p);
  }

  lemma WonMeansAll(w: World, w': World, t: TxId, p: Proc)
    requires t in w.owner && t in w'.owner && Coherent(t, View(w, t, p)) && Coherent(t, View(w', t, p))
    requires Open(w, t) && Won(w', t) && p in Enlisted(w, t) && p in Enlisted(w', t) && SameNode(w, w', t, p)
    ensures Waits(w, t, p)
  {
  }

  /** The step is not one of `p`. */
  ghost predicate SameNode(w: World, w': World, t: TxId, p: Proc) {
    && TxOf(w', p) == TxOf(w, p) && (p.SN? ==> w'.sn(p.a).phase == w.sn(p.a).phase)
    && ((t, p) in w'.log <==> (t, p) in w.log) && ((t, p) in w.log ==> w'.log[(t, p)] == w.log[(t, p)])
  }

  lemma TookDecides(w: World, w': World, x: Addr, taken: bool, src: Proc, msg: Msg, n: Node, r: Reply, t: TxId, p: Proc)
    requires Took(w, w', x, taken, src, msg, n, r) && DriverOk(w, x, n)
    requires t !in w.decided && t in w'.decided && t in w.owner && p != w.owner[t] && p in Enlisted(w, t)
    ensures SameNode(w, w', t, p) && w'.split == w.split && p in Enlisted(w', t)
  {
  }

  lemma OnlyDriverDecides(w: World, w': World, act: Action, t: TxId, p: Proc)
    requires Base(w) && Does(w, w', act) && Open(w, t) && Won(w', t) && t in w.owner && p != w.owner[t]
    requires p in Enlisted(w, t)
    ensures SameNode(w, w', t, p) && t in w'.split && p in Enlisted(w', t)
  {
    match act
    case ADeliver(x, src, c) =>
      var n, msg := w.sn(x), w.net(src, SN(x))[0];
      DeliverTakes(w, w', x, src, c, n, msg);
      TookByDriver(w, w', x, true, src, msg, n, Handle(x, w.m, n, src, msg, c), t, p);
    case AReplay(x, c) =>
      ReplayDecidesNothing(w, w', x, c);
    case _ =>
  }

  lemma TookByDriver(w: World, w': World, x: Addr, taken: bool, src: Proc, msg: Msg, n: Node, r: Reply, t: TxId,
                     p: Proc)
    requires Base(w) && Took(w, w', x, taken, src, msg, n, r)
    requires t !in w.decided && t in w'.decided && t in w.owner && p != w.owner[t] && p in Enlisted(w, t)
    ensures SameNode(w, w', t, p) && w'.split == w.split && p in Enlisted(w', t)
  {
    ArrivalOk(w, x, taken, src, msg, n);
    TookDecides(w, w', x, taken, src, msg, n, r, t, p);
  }

  lemma ReplayDecidesNothing(w: World, w': World, x: Addr, c: Choice)
    requires Base(w) && Replay(w, w', x, c)
    ensures w'.decided == w.decided
  {
    assert NodeOk(w, x, w.sn(x));
  }

  // ---------------------------------------------------------------------------------------------
  // An id can see both outcomes, but never among its members
  // ---------------------------------------------------------------------------------------------

  /**
   The world after structure node `x` has become `n` and has sent `outs`, having taken a message from `src` or not.
   */
  ghost function After(w: World, x: Addr, n: Node, taken: bool, src: Proc, outs: seq<Out>): World {
    w.(sn := (a: Addr) => if a == x then n else w.sn(a),
       net := (p: Proc, q: Proc) =>
         var left := if taken && p == src && q == SN(x) && w.net(p, q) != [] then w.net(p, q)[1..] else w.net(p, q);
         if p == SN(x) then left + For(outs, q) else left)
  }

  lemma SomeChoice(n: Node) returns (c: Choice)
    ensures ValidChoice(n, c)
  {
    c := Choice(seq(|n.zones| - |n.zones| / 2, i => i), false);
  }

  /** An unused peer of the network offers itself. */
  lemma OfferWorld(w: World, y: Addr, x: Addr, t: TxId) returns (w': World)
    requires y != NOBODY && x != y && (x, t) in w.needed && w.sn(y).phase == Offline && w.rn(y).father != NOBODY
    requires w.net(SN(y), SN(x)) == []
    ensures Offer(w, w', y, x, t) && w'.sn(x) == w.sn(x) && w'.net(SN(y), SN(x)) == [NewStrNode(t)]
  {
    var o := Out(SN(x), NewStrNode(t));
    w' := After(w, y, w.sn(y).(phase := StartIn, tx := t, driver := x), false, SN(y),
      [o]).(needed := w.needed - multiset{(x, t)});
    assert For([o], SN(x)) == [NewStrNode(t)];
  }

  /** The driver answers an offer that comes too late. */
  lemma LateReplyWorld(w: World, x: Addr, y: Addr, t: TxId, c: Choice) returns (w': World)
    requires x != NOBODY && w.sn(x).tx != t && ValidChoice(w.sn(x), c) && w.net(SN(y), SN(x)) == [NewStrNode(t)]
    ensures Deliver(w, w', x, SN(y), c) && (t, SN(y), false) in w'.told && w.told <= w'.told && w'.decided == w.decided
  {
    var n, o := w.sn(x), Out(SN(y), Rollback(t));
    w' := After(w, x, n, true, SN(y), [o]).(
      told := w.told + ToldIn([o]),
      enlisted := if Driving(n) then w.enlisted[n.tx := Enlisted(w, n.tx) + set p | p in n.noAck] else w.enlisted);
    assert o in [o] && o.msg.Rollback?;
    assert (o.msg.t, o.to, false) in ToldIn([o]);
    assert Handle(x, w.m, n, SN(y), NewStrNode(t), c) == Reply(n, [o]);
  }

  lemma IdleDriver(ws: seq<World>, x: Addr, y: Addr, t: TxId)
    requires Run(ws)
    requires var w := ws[|ws| - 1]; Won(w, t) && (x, t) in w.needed && w.sn(y).phase == Offline
    ensures var w := ws[|ws| - 1];
            x != y && x != NOBODY && w.sn(x).tx != t && t in w.owner && w.owner[t] == SN(x) && t in w.split
  {
    var w := ws[|ws| - 1];
    RunKeeps(ws, |ws| - 1);
    assert NodeOk(w, x, w.sn(x)) && Settled(w, w.owner[t].a);
  }

  lemma Extend(ws: seq<World>, w1: World, w2: World)
    requires Run(ws) && Next(ws[|ws| - 1], w1) && Next(w1, w2)
    ensures Run(ws + [w1, w2])
  {
    var longer := ws + [w1, w2];
    forall k | 0 <= k < |longer| - 1 ensures Next(longer[k], longer[k + 1]) {
      if k < |ws| - 1 {
        assert longer[k] == ws[k] && longer[k + 1] == ws[k + 1];
        assert Next(ws[k], ws[k + 1]);
      } else if k == |ws| - 1 {
        assert longer[k] == ws[k] && longer[k + 1] == w1;
      } else {
        assert longer[k] == w1 && longer[k + 1] == w2;
      }
    }
  }

  /**
   The driver of a split that has won tells a node to roll back when that node, which was never asked to take part,
   offers itself too late: so one id can see both outcomes, whenever some peer of the network is still unused.
   */
  lemma LateOfferIsRolledBack(ws: seq<World>, x: Addr, y: Addr, t: TxId) returns (longer: seq<World>)
    requires Run(ws)
    requires var w := ws[|ws| - 1];
             && Won(w, t) && (x, t) in w.needed && y != NOBODY && w.sn(y).phase == Offline && w.rn(y).father != NOBODY
             && w.net(SN(y), SN(x)) == []
    ensures Run(longer) && ws <= longer
    ensures var w := longer[|longer| - 1];
            Won(w, t) && (t, SN(y), false) in w.told && forall p | p in Enlisted(ws[|ws| - 1], t) ::
              (t, p, true) in w.told
  {
    var w := ws[|ws| - 1];
    IdleDriver(ws, x, y, t);
    var w1 := OfferWorld(w, y, x, t);
    assert Next(w, w1) by { assert Does(w, w1, AOffer(y, x, t)); }
    var c := SomeChoice(w1.sn(x));
    var w2 := LateReplyWorld(w1, x, y, t, c);
    assert Next(w1, w2) by { assert Does(w1, w2, ADeliver(x, SN(y), c)); }
    longer := ws + [w1, w2];
    Extend(ws, w1, w2);
    forall p | p in Enlisted(w, t) ensures (t, p, true) in w2.told {
      MemberCoherent(ws, |ws| - 1, t, p);
      WhoIsTold(ws, |ws| - 1, t, p);
    }
  }

  /** The driver of `t` takes an offer of `p` that it does not wait for. */
  ghost predicate RejectsOffer(w: World, w': World, t: TxId, p: Proc) {
    exists x, c ::
      && Deliver(w, w', x, p, c) && w.net(p, SN(x))[0] == NewStrNode(t)
      && t in w.owner && w.owner[t] == SN(x) && !(w.sn(x).tx == t && w.sn(x).phase == WaitStr)
  }

  lemma RejectedIsTold(w: World, w': World, t: TxId, p: Proc)
    requires RejectsOffer(w, w', t, p)
    ensures (t, p, false) in w'.told
  {
    var x, c :|
      && Deliver(w, w', x, p, c) && w.net(p, SN(x))[0] == NewStrNode(t)
      && t in w.owner && w.owner[t] == SN(x) && !(w.sn(x).tx == t && w.sn(x).phase == WaitStr);
    var o := Out(p, Rollback(t));
    assert Handle(x, w.m, w.sn(x), p, NewStrNode(t), c).outs == [o];
    assert o in [o] && o.msg.Rollback?;
  }

  /** A rollback of `t` is said to `p` in the step of `x`: an answer, or the outcome of what `x` drives. */
  lemma SaysRollback(self: Addr, m: nat, n: Node, src: Proc, msg: Msg, c: Choice, t: TxId, p: Proc)
    requires ValidChoice(n, c) && (!Driving(n) ==> n.noAck == [] && n.acked == [])
    requires Out(p, Rollback(t)) in Handle(self, m, n, src, msg, c).outs
    ensures
      var r := Handle(self, m, n, src, msg, c);
      || (Driving(n) && t == n.tx && !Driving(r.n) && !msg.Ack?)
      || (p == src && msg == NewStrNode(t) && !(n.tx == t && n.phase == WaitStr))
      || (p == src && msg == Ack(t) && !(n.tx == t && n.driver == self))
  {
    if msg.NewStrNode? {
      SaysRollbackOffer(self, n, src, msg.t, c, t, p);
    } else if msg.Ack? {
      SaysRollbackAck(self, n, src, msg.t, t, p);
    } else {
      SaysRollbackOutcome(self, m, n, src, msg, c, t, p);
    }
  }

  lemma SaysRollbackOutcome(self: Addr, m: nat, n: Node, src: Proc, msg: Msg, c: Choice, t: TxId, p: Proc)
    requires ValidChoice(n, c) && (!Driving(n) ==> n.noAck == [] && n.acked == []) && !msg.NewStrNode? && !msg.Ack?
    requires Out(p, Rollback(t)) in Handle(self, m, n, src, msg, c).outs
    ensures Driving(n) && t == n.tx && !Driving(Handle(self, m, n, src, msg, c).n)
  {
    OutcomeTells(self, n);
  }

  lemma SaysRollbackOffer(self: Addr, n: Node, src: Proc, s: TxId, c: Choice, t: TxId, p: Proc)
    requires ValidChoice(n, c) && Out(p, Rollback(t)) in OnNewStrNode(self, n, src, s, c).outs
    ensures p == src && s == t && !(n.tx == t && n.phase == WaitStr)
  {
    SplitAsks(self, n, src.a, c.moved);
  }

  lemma SaysRollbackAck(self: Addr, n: Node, src: Proc, s: TxId, t: TxId, p: Proc)
    requires Out(p, Rollback(t)) in OnAck(self, n, src, s).outs
    ensures p == src && s == t && !(n.tx == t && n.driver == self)
  {
    if n.tx == s && n.driver == self {
      OutcomeTells(self, if src in n.noAck
                         then n.(noAck := RemoveFirst(n.noAck, src),
                              acked := if src in n.acked then n.acked else n.acked + [src])
                         else n);
    }
  }

  lemma NewlyTold(w: World, w': World, x: Addr, n: Node, r: Reply, msg: Msg, t: TxId, p: Proc)
    requires Records(w, w', x, n, r, msg) && (t, p, false) in w'.told && (t, p, false) !in w.told
    ensures Out(p, Rollback(t)) in r.outs
  {
    assert (t, p, false) in ToldIn(r.outs);
  }

  lemma DrivesWhileOpen(w: World, x: Addr, t: TxId)
    requires Inv(w) && t in w.split && t in w.owner && w.owner[t] == SN(x)
    ensures t !in w.decided ==> w.sn(x).tx == t && w.sn(x).driver == x
  {
    if t !in w.decided {
      assert Open(w, t) && NodeOk(w, x, w.sn(x));
    }
  }

  /** An acknowledgement of a split that has won is never too late. */
  lemma NoLateAck(w: World, x: Addr, src: Proc, t: TxId)
    requires Inv(w) && t in w.split && w.net(src, SN(x)) != [] && w.net(src, SN(x))[0] == Ack(t)
    requires t in w.owner && w.owner[t] == SN(x) && !(w.sn(x).tx == t && w.sn(x).driver == x)
    ensures Lost(w, t)
  {
    NumPositive(w.net(src, SN(x)), Acked, t, Ack(t));
    assert MsgOk(w, src, SN(x), Ack(t));
    assert Coherent(t, View(w, t, src));
    DrivesWhileOpen(w, x, t);
  }

  lemma TookRollback(w: World, w': World, x: Addr, taken: bool, src: Proc, msg: Msg, n: Node, c: Choice, r: Reply,
                     t: TxId, p: Proc)
    requires Inv(w) && Took(w, w', x, taken, src, msg, n, r) && ValidChoice(n, c) && r == Handle(x, w.m, n, src, msg, c)
    requires (t, p, false) in w'.told && (t, p, false) !in w.told && !Lost(w', t)
    ensures taken && p == src && msg == NewStrNode(t) && t in w.owner && w.owner[t] == SN(x)
    ensures !(n.tx == t && n.phase == WaitStr)
  {
    ArrivalOk(w, x, taken, src, msg, n);
    NewlyTold(w, w', x, n, r, msg, t, p);
    SaysRollback(x, w.m, n, src, msg, c, t, p);
    if p == src && msg == Ack(t) {
      if t in w.split { NoLateAck(w, x, src, t); }
      RecordsGrow(w, w', x, n, r, msg);
    }
  }

  /** What is told and what is decided stays. */
  ghost predicate HistoryGrows(w: World, w': World) {
    w.told <= w'.told && forall t | t in w.decided :: t in w'.decided && w'.decided[t] == w.decided[t]
  }

  lemma TookHistory(w: World, w': World, x: Addr, n: Node, r: Reply, msg: Msg)
    requires Records(w, w', x, n, r, msg) && DriverOk(w, x, n)
    ensures HistoryGrows(w, w')
  {
    RecordsGrow(w, w', x, n, r, msg);
  }

  lemma StepHistory(w: World, w': World, act: Action)
    requires Base(w) && Does(w, w', act)
    ensures HistoryGrows(w, w')
  {
    match act
    case ADeliver(x, src, c) =>
      var n, msg := w.sn(x), w.net(src, SN(x))[0];
      assert NodeOk(w, x, n);
      DeliverTakes(w, w', x, src, c, n, msg);
      TookHistory(w, w', x, n, Handle(x, w.m, n, src, msg, c), msg);
    case AReplay(x, c) =>
      var n := w.sn(x).(delayed := w.sn(x).delayed[1..]);
      var (src, msg) := w.sn(x).delayed[0];
      assert NodeOk(w, x, w.sn(x));
      ReplayTakes(w, w', x, c, n, src, msg);
      TookHistory(w, w', x, n, Handle(x, w.m, n, src, msg, c), msg);
    case _ =>
  }

  lemma ResSendTellsNoRollback(w: World, w': World, a: Addr, t: TxId, p: Proc)
    requires NodesOk(w) && ResSend(w, w', a)
    ensures (t, p, false) in w'.told ==> (t, p, false) in w.told
  {
    var o := w.rn(a).owed[0];
    assert ResOk(w, a, w.rn(a)) && o in w.rn(a).owed;
  }

  lemma StepRollback(w: World, w': World, act: Action, t: TxId, p: Proc)
    requires Inv(w) && Does(w, w', act) && (t, p, false) in w'.told && (t, p, false) !in w.told && !Lost(w', t)
    ensures RejectsOffer(w, w', t, p)
  {
    if act.ADeliver? {
      DeliveredRollback(w, w', act.x, act.src, act.c, t, p);
    } else if act.AReplay? {
      ReplayTellsNoRollback(w, w', act.x, act.c, t, p);
    } else if act.AResSend? {
      ResSendTellsNoRollback(w, w', act.a, t, p);
    } else {
      OthersTellNothing(w, w', act);
    }
  }

  lemma DeliveredRollback(w: World, w': World, x: Addr, src: Proc, c: Choice, t: TxId, p: Proc)
    requires Inv(w) && Deliver(w, w', x, src, c) && (t, p, false) in w'.told && (t, p, false) !in w.told && !Lost(w', t)
    ensures RejectsOffer(w, w', t, p)
  {
    var n, msg := w.sn(x), w.net(src, SN(x))[0];
    DeliverTakes(w, w', x, src, c, n, msg);
    TookRollback(w, w', x, true, src, msg, n, c, Handle(x, w.m, n, src, msg, c), t, p);
  }

  lemma ReplayTellsNoRollback(w: World, w': World, x: Addr, c: Choice, t: TxId, p: Proc)
    requires Inv(w) && Replay(w, w', x, c) && !Lost(w', t)
    ensures (t, p, false) in w'.told ==> (t, p, false) in w.told
  {
    var n := w.sn(x).(delayed := w.sn(x).delayed[1..]);
    var (src, msg) := w.sn(x).delayed[0];
    ReplayTakes(w, w', x, c, n, src, msg);
    if (t, p, false) in w'.told && (t, p, false) !in w.told {
      TookRollback(w, w', x, false, src, msg, n, c, Handle(x, w.m, n, src, msg, c), t, p);
    }
  }

  lemma OthersTellNothing(w: World, w': World, act: Action)
    requires Does(w, w', act) && !act.ADeliver? && !act.AReplay? && !act.AResSend?
    ensures w'.told == w.told
  {
  }

  lemma RollbackStep(w: World, w': World, t: TxId, p: Proc)
    requires Inv(w) && Next(w, w') && !Lost(w', t)
    ensures !Lost(w, t) && ((t, p, false) in w'.told <==> (t, p, false) in w.told || RejectsOffer(w, w', t, p))
  {
    var act :| Does(w, w', act);
    StepHistory(w, w', act);
    if RejectsOffer(w, w', t, p) {
      RejectedIsTold(w, w', t, p);
    } else if (t, p, false) in w'.told && (t, p, false) !in w.told {
      StepRollback(w, w', act, t, p);
    }
  }

  /** An offer of `p` was rejected in one of the first `k` steps. */
  ghost predicate OfferRejected(ws: seq<World>, k: nat, t: TxId, p: Proc)
    requires k < |ws|
  {
    k > 0 && (RejectsOffer(ws[k - 1], ws[k], t, p) || OfferRejected(ws, k - 1, t, p))
  }

  /** In the step from world `k` a rollback is told exactly by rejecting an offer, and what is lost stays so. */
  ghost predicate TellsByRejecting(ws: seq<World>, k: nat, t: TxId, p: Proc) {
    && k + 1 < |ws|
    && (!Lost(ws[k + 1], t) ==>
          && !Lost(ws[k], t)
          && ((t, p, false) in ws[k + 1].told <==> (t, p, false) in ws[k].told || RejectsOffer(ws[k], ws[k + 1], t, p)))
  }

  lemma RunTellsByRejecting(ws: seq<World>, k: nat, w: World, w': World, t: TxId, p: Proc)
    requires Run(ws) && k + 1 < |ws| && w == ws[k] && w' == ws[k + 1]
    ensures TellsByRejecting(ws, k, t, p)
  {
    RunStep(ws, k, w, w');
    if !Lost(w', t) { RollbackStep(w, w', t, p); }
  }

  lemma {:induction false} ToldIffRejected(ws: seq<World>, k: nat, t: TxId, p: Proc)
    requires k < |ws| && (t, p, false) !in ws[0].told && !Lost(ws[k], t)
    requires forall i: nat | i < k :: TellsByRejecting(ws, i, t, p)
    ensures (t, p, false) in ws[k].told <==> OfferRejected(ws, k, t, p)
  {
    if k > 0 {
      assert TellsByRejecting(ws, k - 1, t, p);
      ToldIffRejected(ws, k - 1, t, p);
    }
  }

  /**
   As long as a split is not lost, and so for ever under an id that has won, a rollback is told to a peer if and only if
   an offer of that peer was rejected: it is the only way to see both outcomes.
   */
  lemma RollbackIffRejected(ws: seq<World>, k: nat, t: TxId, p: Proc)
    requires Run(ws) && k < |ws| && !Lost(ws[k], t)
    ensures (t, p, false) in ws[k].told <==> OfferRejected(ws, k, t, p)
  {
    forall i: nat | i < k ensures TellsByRejecting(ws, i, t, p) { RunTellsByRejecting(ws, i, ws[i], ws[i + 1], t, p); }
    ToldIffRejected(ws, k, t, p);
  }

  // ---------------------------------------------------------------------------------------------
  // Fanout
  // ---------------------------------------------------------------------------------------------

  /** No reachable node has more than `2 * m` child links, and a node splits when it has exactly that many. */
  lemma FanoutBounded(ws: seq<World>, k: nat, x: Addr)
    requires Run(ws) && k < |ws|
    ensures |ws[k].sn(x).zones| <= 2 * ws[k].m
    ensures ws[k].sn(x).phase == WaitStr ==> |ws[k].sn(x).zones| == 2 * ws[k].m
  {
    RunKeeps(ws, k);
    assert NodeOk(ws[k], x, ws[k].sn(x));
  }

  /** How many zones lead to `a`. */
  function Count(zs: seq<Zone>, a: Addr): nat {
    if zs == [] then 0 else One(zs[0].actual == a) + Count(zs[1..], a)
  }

  /** How many deleted zones lead to `a`, and how many there are. */
  function CountDeleted(ds: seq<Zone>, a: Addr): nat {
    if ds == [] then 0 else One(ds[0].IsDeletion() && ds[0].actual == a) + CountDeleted(ds[1..], a)
  }

  function NumDeleted(ds: seq<Zone>): nat {
    if ds == [] then 0 else One(ds[0].IsDeletion()) + NumDeleted(ds[1..])
  }

  /** Zones as they are between transactions: real, except that they may be marked as changing into themselves. */
  predicate AtRest(zs: seq<Zone>) {
    forall z | z in zs :: ZoneOk(z) && z.actual != NOBODY && !z.IsDeletion()
  }

  /** Zones, some of which are marked as deleted. */
  predicate Marked(zs: seq<Zone>, ds: seq<Zone>) {
    |ds| == |zs| && forall i | 0 <= i < |zs| :: ds[i] == zs[i] || ds[i] == zs[i].ResetLink()
  }

  lemma OneRestored(z: Zone, d: Zone)
    requires ZoneOk(z) && z.actual != NOBODY && !z.IsDeletion() && (d == z || d == z.ResetLink())
    ensures !d.IsAddition() && (if d.IsDeletion() then d.Rollback() else d).actual == z.actual
    ensures z == Zone(z.actual, z.actual, false) ==> (if d.IsDeletion() then d.Rollback() else d) == z
  {
  }

  lemma {:induction false} MarkedRestored(zs: seq<Zone>, ds: seq<Zone>)
    requires AtRest(zs) && Marked(zs, ds)
    ensures |RollbackZones(ds)| == |zs| && forall i | 0 <= i < |zs| :: RollbackZones(ds)[i].actual == zs[i].actual
    ensures (forall z | z in zs :: z == Zone(z.actual, z.actual, false)) ==> RollbackZones(ds) == zs
  {
    if zs != [] {
      assert zs[0] in zs && forall z | z in zs[1..] :: z in zs;
      MarkedRestored(zs[1..], ds[1..]);
      OneRestored(zs[0], ds[0]);
      var back := RollbackZones(ds[1..]);
      assert RollbackZones(ds) == [if ds[0].IsDeletion() then ds[0].Rollback() else ds[0]] + back;
      forall i | 0 <= i < |zs| ensures RollbackZones(ds)[i].actual == zs[i].actual {
        if i > 0 { assert RollbackZones(ds)[i] == back[i - 1] && zs[i] == zs[1..][i - 1]; }
      }
      if forall z | z in zs :: z == Zone(z.actual, z.actual, false) { assert zs == [zs[0]] + zs[1..]; }
    }
  }

  /** Rolling a split back restores the child links, and the very zones when none was left half changed before. */
  lemma SplitRestored(zs: seq<Zone>, moved: seq<nat>)
    requires AtRest(zs)
    ensures var back := RollbackZones(Detach(zs, moved));
            && |back| == |zs| && (forall i | 0 <= i < |zs| :: back[i].actual == zs[i].actual)
            && ((forall z | z in zs :: z == Zone(z.actual, z.actual, false)) ==> back == zs)
  {
    MarkedRestored(zs, Detach(zs, moved));
  }

  /** A commit leaves everything that was not marked. */
  lemma {:induction false} MarkedCommitted(zs: seq<Zone>, ds: seq<Zone>, a: Addr)
    requires AtRest(zs) && Marked(zs, ds)
    ensures Count(CommitZones(ds), a) + CountDeleted(ds, a) == Count(zs, a)
    ensures |CommitZones(ds)| + NumDeleted(ds) == |zs|
  {
    if zs != [] {
      assert zs[0] in zs && forall z | z in zs[1..] :: z in zs;
      MarkedCommitted(zs[1..], ds[1..], a);
      assert ([ds[0].Commit()] + CommitZones(ds[1..]))[1..] == CommitZones(ds[1..]);
    }
  }

  lemma {:induction false} DeletedUpdate(ds: seq<Zone>, p: nat, y: Zone, a: Addr)
    requires p < |ds|
    ensures CountDeleted(ds[p := y], a) + One(ds[p].IsDeletion() && ds[p].actual == a)
            == CountDeleted(ds, a) + One(y.IsDeletion() && y.actual == a)
    ensures NumDeleted(ds[p := y]) + One(ds[p].IsDeletion()) == NumDeleted(ds) + One(y.IsDeletion())
  {
    if p == 0 {
      assert ds[p := y][1..] == ds[1..];
    } else {
      DeletedUpdate(ds[1..], p - 1, y, a);
      assert ds[p := y][1..] == ds[1..][p - 1 := y];
    }
  }

  lemma {:induction false} NoneDeleted(ds: seq<Zone>, a: Addr)
    requires forall z | z in ds :: !z.IsDeletion()
    ensures CountDeleted(ds, a) == 0 && NumDeleted(ds) == 0
  {
    if ds != [] { NoneDeleted(ds[1..], a); }
  }

  /** Zones picked from distinct places are the deleted ones. */
  lemma {:induction false} PickedDeleted(zs: seq<Zone>, places: seq<nat>, a: Addr)
    requires AtRest(zs) && forall i | 0 <= i < |places| :: places[i] < |zs|
    requires forall i, j | 0 <= i < j < |places| :: places[i] != places[j]
    ensures CountDeleted(Detach(zs, places), a) == CountPlaces(zs, places, a)
    ensures NumDeleted(Detach(zs, places)) == |places|
  {
    if places == [] {
      assert Detach(zs, places) == zs;
      NoneDeleted(zs, a);
    } else {
      var p, rest := places[0], places[1..];
      assert p !in rest && zs[p] in zs;
      PickedDeleted(zs, rest, a);
      forall i | 0 <= i < |zs| ensures Detach(zs, places)[i] == Detach(zs, rest)[p := zs[p].ResetLink()][i] {
        assert i in places <==> i == p || i in rest;
      }
      assert Detach(zs, places) == Detach(zs, rest)[p := zs[p].ResetLink()];
      DeletedUpdate(Detach(zs, rest), p, zs[p].ResetLink(), a);
    }
  }

  /** How many of the chosen places lead to `a`. */
  function CountPlaces(zs: seq<Zone>, places: seq<nat>, a: Addr): nat
    requires forall i | 0 <= i < |places| :: places[i] < |zs|
  {
    if places == [] then 0 else One(zs[places[0]].actual == a) + CountPlaces(zs, places[1..], a)
  }

  /** The brother's zones after the commit are the links it was given. */
  lemma {:induction false} AdditionsCommitted(zs: seq<Zone>, places: seq<nat>, links: seq<Addr>, a: Addr)
    requires |links| == |places|
    requires forall i | 0 <= i < |places| :: places[i] < |zs| && links[i] == zs[places[i]].actual != NOBODY
    ensures |CommitZones(Additions(links))| == |places|
    ensures Count(CommitZones(Additions(links)), a) == CountPlaces(zs, places, a)
  {
    if places != [] {
      AdditionsCommitted(zs, places[1..], links[1..], a);
      assert Additions(links)[1..] == Additions(links[1..]);
      var rest := CommitZones(Additions(links[1..]));
      assert CommitZones(Additions(links)) == [Zone(links[0], NOBODY, false)] + rest;
      assert ([Zone(links[0], NOBODY, false)] + rest)[1..] == rest;
    }
  }

  /**
   A committed split deals out the old children between the node and its brother: every address is a child of the two
   together exactly as often as it was a child before, and of `2 * m` children each gets `m`.
   */
  lemma SplitDealsOut(n: Node, c: Choice, a: Addr, m: nat)
    requires AtRest(n.zones) && ValidChoice(n, c)
    ensures
      var stay, go := CommitZones(Detach(n.zones, c.moved)), CommitZones(Additions(Links(n, c.moved)));
      && Count(stay, a) + Count(go, a) == Count(n.zones, a)
      && (|n.zones| == 2 * m ==> |stay| == m && |go| == m)
  {
    forall i | 0 <= i < |c.moved| ensures n.zones[c.moved[i]].actual != NOBODY {
      assert n.zones[c.moved[i]] in n.zones;
    }
    MarkedCommitted(n.zones, Detach(n.zones, c.moved), a);
    PickedDeleted(n.zones, c.moved, a);
    AdditionsCommitted(n.zones, c.moved, Links(n, c.moved), a);
  }

  /** A node that waits to split, in any reachable state, is at rest: the two lemmas above apply to it. */
  lemma WaitsAtRest(ws: seq<World>, k: nat, x: Addr)
    requires Run(ws) && k < |ws| && ws[k].sn(x).phase == WaitStr
    ensures AtRest(ws[k].sn(x).zones)
  {
    RunKeeps(ws, k);
    var w, n := ws[k], ws[k].sn(x);
    assert NodeOk(w, x, n);
    forall z | z in n.zones ensures ZoneOk(z) { assert LinkOk(w, x, n, z); }
  }
}
