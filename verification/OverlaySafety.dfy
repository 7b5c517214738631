/** Every step of the overlay keeps the invariant. */
module OverlaySafety {
  import opened Common
  import opened Overlay
  import opened OverlayProtocol
  import opened OverlayPairs
  import opened OverlayInvariant

  // ---------------------------------------------------------------------------------------------
  // What a reply puts on a link
  // ---------------------------------------------------------------------------------------------

  lemma {:induction false} ForAppend(a: seq<Out>, b: seq<Out>, q: Proc)
    ensures For(a + b, q) == For(a, q) + For(b, q)
  {
    if a == [] {
      assert a + b == b;
    } else {
      ForAppend(a[1..], b, q);
      assert (a + b)[1..] == a[1..] + b;
    }
  }

  lemma {:induction false} ForHas(outs: seq<Out>, q: Proc, msg: Msg)
    ensures msg in For(outs, q) <==> Out(q, msg) in outs
  {
    if outs != [] {
      ForHas(outs[1..], q, msg);
      assert outs == [outs[0]] + outs[1..];
    }
  }

  /** A broadcast puts its message on the link of `q` once for every time `q` is listed. */
  lemma {:induction false} ForToAll(ps: seq<Proc>, msg: Msg, q: Proc, t: TxId)
    ensures forall k :: Num(For(ToAll(ps, msg), q), k, t) == if Is(msg, k, t) then Times(ps, q) else 0
    ensures !msg.NewFather? || msg.t == t ==> OnlyFathers(For(ToAll(ps, msg), q), t)
    ensures msg == Commit(t) && Times(ps, q) > 0 ==> CommitAhead(For(ToAll(ps, msg), q), t)
  {
    if ps == [] {
      assert ToAll(ps, msg) == [];
    } else {
      ForToAll(ps[1..], msg, q, t);
      assert ToAll(ps, msg)[1..] == ToAll(ps[1..], msg);
      var rest := For(ToAll(ps[1..], msg), q);
      assert ([msg] + rest)[1..] == rest;
    }
  }

  /** Nothing that goes to `q` is about `t`. */
  ghost predicate QuietTo(outs: seq<Out>, q: Proc, t: TxId) {
    forall o | o in outs && o.to == q :: o.msg.t != t
  }

  lemma ForQuiet(outs: seq<Out>, q: Proc, t: TxId)
    requires QuietTo(outs, q, t)
    ensures forall k :: Num(For(outs, q), k, t) == 0
  {
    forall k ensures Num(For(outs, q), k, t) == 0 {
      forall msg | msg in For(outs, q) ensures !Is(msg, k, t) { ForHas(outs, q, msg); }
      NumZero(For(outs, q), k, t);
    }
  }

  lemma {:induction false} ForNoFathers(outs: seq<Out>, q: Proc, t: TxId)
    requires forall o | o in outs && o.to == q :: !o.msg.NewFather? || o.msg.t == t
    ensures OnlyFathers(For(outs, q), t)
  {
    if outs != [] {
      ForNoFathers(outs[1..], q, t);
      var rest := For(outs[1..], q);
      assert ([outs[0].msg] + rest)[1..] == rest;
    }
  }

  lemma {:induction false} TimesIn(ps: seq<Proc>, p: Proc)
    ensures Times(ps, p) > 0 <==> p in ps
  {
    if ps != [] {
      TimesIn(ps[1..], p);
    }
  }

  lemma {:induction false} TimesAppend(a: seq<Proc>, b: seq<Proc>, p: Proc)
    ensures Times(a + b, p) == Times(a, p) + Times(b, p)
  {
    if a == [] {
      assert a + b == b;
    } else {
      TimesAppend(a[1..], b, p);
      assert (a + b)[1..] == a[1..] + b;
    }
  }

  lemma {:induction false} TimesOnce(ps: seq<Proc>, p: Proc)
    requires forall i, j | 0 <= i < j < |ps| :: ps[i] != ps[j]
    ensures Times(ps, p) == One(p in ps)
  {
    if ps != [] {
      TimesOnce(ps[1..], p);
      if p in ps[1..] { assert ps[0] != p; }
    }
  }

  lemma {:induction false} TimesRemoved(ps: seq<Proc>, p: Proc, q: Proc)
    requires p in ps
    ensures Times(RemoveFirst(ps, p), q) + One(p == q) == Times(ps, q)
    ensures forall r | r in RemoveFirst(ps, p) :: r in ps
    ensures forall r | r in ps && r != p :: r in RemoveFirst(ps, p)
  {
    if ps[0] != p {
      TimesRemoved(ps[1..], p, q);
      assert RemoveFirst(ps, p)[1..] == RemoveFirst(ps[1..], p);
    }
  }

  // ---------------------------------------------------------------------------------------------
  // Zones
  // ---------------------------------------------------------------------------------------------

  /** After a commit every zone is real, and comes from a real one that was not deleted or from an addition. */
  lemma {:induction false} CommittedZones(zs: seq<Zone>, z: Zone)
    requires forall y | y in zs :: ZoneOk(y)
    requires z in CommitZones(zs)
    ensures ZoneOk(z) && z.actual != NOBODY && !z.IsDeletion()
    ensures exists y | y in zs :: z.actual == (if y.actual == NOBODY then y.next else y.actual)
  {
    assert ZoneOk(zs[0]);
    if z in CommitZones(zs[1..]) {
      CommittedZones(zs[1..], z);
    }
  }

  lemma {:induction false} CommitZonesBound(zs: seq<Zone>)
    ensures |CommitZones(zs)| <= |zs|
    ensures |RollbackZones(zs)| <= |zs|
  {
    if zs != [] {
      CommitZonesBound(zs[1..]);
    }
  }

  lemma {:induction false} RolledBackZones(zs: seq<Zone>, z: Zone)
    requires forall y | y in zs :: ZoneOk(y)
    requires z in RollbackZones(zs)
    ensures ZoneOk(z) && z.actual != NOBODY && !z.IsDeletion()
    ensures exists y | y in zs :: z.actual == y.actual
  {
    if z in RollbackZones(zs[1..]) {
      RolledBackZones(zs[1..], z);
    }
  }

  lemma {:induction false} AdditionsVanish(zs: seq<Zone>)
    requires forall z | z in zs :: z.IsAddition()
    ensures RollbackZones(zs) == []
  {
    if zs != [] {
      AdditionsVanish(zs[1..]);
    }
  }

  // ---------------------------------------------------------------------------------------------
  // A structure node handles a message
  // ---------------------------------------------------------------------------------------------

  /** `msg` comes from a link, or is the first one that was put off. */
  ghost predicate Arrives(w: World, x: Addr, taken: bool, src: Proc, msg: Msg, n: Node) {
    && x != NOBODY
    && if taken then w.net(src, SN(x)) != [] && w.net(src, SN(x))[0] == msg && n == w.sn(x)
       else CanReplay(w.sn(x)) && w.sn(x).delayed[0] == (src, msg) && n == w.sn(x).(delayed := w.sn(x).delayed[1..])
  }

  /** The world moves on by a reply `r`, whatever it is. */
  ghost predicate Took(w: World, w': World, x: Addr, taken: bool, src: Proc, msg: Msg, n: Node, r: Reply) {
    && Arrives(w, x, taken, src, msg, n)
    && OnlySN(w, w', x, r.n) && Sends(w, w', SN(x), taken, src, r.outs) && Records(w, w', x, n, r, msg)
  }

  lemma ArrivalOk(w: World, x: Addr, taken: bool, src: Proc, msg: Msg, n: Node)
    requires Base(w) && Arrives(w, x, taken, src, msg, n)
    ensures MsgOk(w, src, SN(x), msg) && NodeOk(w, x, n)
    ensures !taken ==> n.tx == NO_TX && (msg.NewFather? || msg.NewChild?)
  {
    assert NodeOk(w, x, w.sn(x));
    if !taken {
      assert w.sn(x).delayed[0] in w.sn(x).delayed;
      assert DelayedOk(w, SN(x), n.delayed);
    }
  }

  /** The rollback of a split that has won never reaches a node that took part in it. */
  lemma NoStrayRollback(w: World, x: Addr, taken: bool, src: Proc, msg: Msg, n: Node)
    requires Inv(w) && Arrives(w, x, taken, src, msg, n) && msg.Rollback? && n.tx == msg.t && n.phase == Init
    ensures !Won(w, n.tx)
  {
    ArrivalOk(w, x, taken, src, msg, n);
    var t := n.tx;
    NumPositive(w.net(src, SN(x)), Told(false), t, msg);
    assert Coherent(t, View(w, t, SN(x)));
  }

  /** A node goes out of use only by rolling back, and is initialised only when it has offered itself. */
  lemma PhaseMoves(self: Addr, m: nat, n: Node, src: Proc, msg: Msg, c: Choice)
    requires ValidChoice(n, c)
    ensures var n' := Handle(self, m, n, src, msg, c).n;
            && (n'.phase == StartIn ==> n.phase == StartIn)
            && (n'.phase == Offline ==> n.phase == Offline || n.phase == StartIn || n.phase == Init)
            && (n'.phase == Offline && n.phase == Init ==>
                  n.tx == msg.t && ((msg.Rollback? && n.driver == src.a) || (msg.Nack? && n.driver == self)))
            && (n'.phase == Init ==> n'.tx == n.tx && (n.phase == Init || n.phase == StartIn))
  {
  }

  /** A node that has its place keeps it. */
  lemma KeepsPlace(w: World, x: Addr, taken: bool, src: Proc, msg: Msg, n: Node, c: Choice)
    requires Inv(w) && Arrives(w, x, taken, src, msg, n) && ValidChoice(n, c) && Settled(w, x)
    ensures var n' := Handle(x, w.m, n, src, msg, c).n;
            n'.phase != Offline && n'.phase != StartIn && (n'.phase == Init ==> n.phase == Init && n'.tx == n.tx)
  {
    PhaseMoves(x, w.m, n, src, msg, c);
    if n.phase == Init && n.tx == msg.t && (msg.Rollback? || msg.Nack?) {
      ArrivalOk(w, x, taken, src, msg, n);
      if msg.Rollback? {
        NoStrayRollback(w, x, taken, src, msg, n);
      }
    }
  }

  ghost predicate StaysPlaced(w: World, x: Addr, n: Node, n': Node) {
    Settled(w, x) ==>
      n'.phase != Offline && n'.phase != StartIn && (n'.phase == Init ==> n.phase == Init && n'.tx == n.tx)
  }

  lemma StaysSettled(w: World, w': World, x: Addr, n: Node, n': Node, a: Addr)
    requires OnlySN(w, w', x, n') && n.phase == w.sn(x).phase && n.tx == w.sn(x).tx && StaysPlaced(w, x, n, n')
    requires forall t | t in w.decided :: t in w'.decided && w'.decided[t] == w.decided[t]
    requires Settled(w, a)
    ensures Settled(w', a)
  {
  }

  lemma RecordsGrow(w: World, w': World, x: Addr, n: Node, r: Reply, msg: Msg)
    requires Records(w, w', x, n, r, msg) && DriverOk(w, x, n)
    ensures forall t :: Enlisted(w, t) <= Enlisted(w', t)
    ensures forall t | t in w.decided :: t in w'.decided && w'.decided[t] == w.decided[t]
  {
  }

  lemma TookGrows(w: World, w': World, x: Addr, taken: bool, src: Proc, msg: Msg, n: Node, r: Reply)
    requires DriverOk(w, x, n) && Took(w, w', x, taken, src, msg, n, r) && StaysPlaced(w, x, n, r.n)
    ensures Grows(w, w')
  {
    RecordsGrow(w, w', x, n, r, msg);
    forall a | Settled(w, a) ensures Settled(w', a) {
      StaysSettled(w, w', x, n, r.n, a);
    }
  }

  /** What a step must provide so that the world stays well-formed. */
  ghost predicate StepOk(w: World, w': World, x: Addr, n: Node, r: Reply) {
    && NodeOk(w', x, r.n)
    && (Driving(r.n) ==> Driving(n) && r.n.tx == n.tx)
    && (forall o | o in r.outs :: MsgOk(w', SN(x), o.to, o.msg))
  }

  lemma TookNet(w: World, w': World, x: Addr, taken: bool, src: Proc, msg: Msg, n: Node, r: Reply)
    requires NetOk(w) && Grows(w, w') && Took(w, w', x, taken, src, msg, n, r)
    requires forall o | o in r.outs :: MsgOk(w', SN(x), o.to, o.msg)
    ensures NetOk(w')
  {
    forall p, q, l | l in w'.net(p, q) ensures MsgOk(w', p, q, l) {
      if p == SN(x) && l in For(r.outs, q) {
        ForHas(r.outs, q, l);
        assert Out(q, l) in r.outs;
      } else {
        assert l in w.net(p, q);
        MsgStaysOk(w, w', p, q, l);
      }
    }
  }

  /** Another driver goes on driving. */
  lemma OtherDrives(w: World, w': World, x: Addr, n: Node, r: Reply, msg: Msg, a: Addr)
    requires Records(w, w', x, n, r, msg) && DriverOk(w, x, n) && DriverOk(w, a, w.sn(a)) && a != x
    requires Driving(r.n) ==> Driving(n) && r.n.tx == n.tx
    ensures Driving(w.sn(a)) ==> Open(w', w.sn(a).tx) && Enlisted(w', w.sn(a).tx) == Enlisted(w, w.sn(a).tx)
  {
  }

  lemma TookNodes(w: World, w': World, x: Addr, taken: bool, src: Proc, msg: Msg, n: Node, r: Reply)
    requires NodesOk(w) && Grows(w, w') && OnlySN(w, w', x, r.n) && Records(w, w', x, n, r, msg) && DriverOk(w, x, n)
    requires NodeOk(w', x, r.n) && (Driving(r.n) ==> Driving(n) && r.n.tx == n.tx)
    ensures NodesOk(w')
  {
    forall a ensures NodeOk(w', a, w'.sn(a)) {
      if a != x {
        assert NodeOk(w, a, w.sn(a));
        OtherDrives(w, w', x, n, r, msg, a);
        NodeStaysOk(w, w', a, w.sn(a));
      }
    }
    ResourcesStayOk(w, w');
  }

  lemma ResourcesStayOk(w: World, w': World)
    requires NodesOk(w) && Grows(w, w') && w'.rn == w.rn
    ensures forall a :: ResOk(w', a, w'.rn(a))
  {
    forall a ensures ResOk(w', a, w'.rn(a)) {
      assert ResOk(w, a, w.rn(a));
      ResStaysOk(w, w', a, w.rn(a));
    }
  }

  lemma TookOpen(w: World, w': World, x: Addr, n: Node, r: Reply, msg: Msg, t: TxId)
    requires SplitsOk(w) && OnlySN(w, w', x, r.n) && Records(w, w', x, n, r, msg) && DriverOk(w, x, n) && Open(w', t)
    requires n.phase == w.sn(x).phase && n.tx == w.sn(x).tx
    ensures Driving(w'.sn(w'.owner[t].a)) && w'.sn(w'.owner[t].a).tx == t
  {
    assert Open(w, t);
  }

  lemma TookSplits(w: World, w': World, x: Addr, taken: bool, src: Proc, msg: Msg, n: Node, r: Reply)
    requires SplitsOk(w) && Grows(w, w') && Took(w, w', x, taken, src, msg, n, r) && TxOk(w, x, n) && DriverOk(w, x, n)
    requires Driving(r.n) ==> Driving(n) && r.n.tx == n.tx
    requires forall o | o in r.outs :: o.msg.t in w.owner
    ensures SplitsOk(w')
  {
    forall t | Open(w', t) ensures Driving(w'.sn(w'.owner[t].a)) && w'.sn(w'.owner[t].a).tx == t {
      TookOpen(w, w', x, n, r, msg, t);
    }
    forall t | t in w'.split ensures Settled(w', w'.owner[t].a) { assert Settled(w, w.owner[t].a); }
    assert forall k | k in w'.told :: k.0 in w'.owner;
  }

  lemma TookBase(w: World, w': World, x: Addr, taken: bool, src: Proc, msg: Msg, n: Node, r: Reply)
    requires Base(w) && Grows(w, w') && Took(w, w', x, taken, src, msg, n, r) && StepOk(w, w', x, n, r)
    ensures Base(w')
  {
    ArrivalOk(w, x, taken, src, msg, n);
    TookNet(w, w', x, taken, src, msg, n, r);
    TookNodes(w, w', x, taken, src, msg, n, r);
    TookSplits(w, w', x, taken, src, msg, n, r);
  }
}
