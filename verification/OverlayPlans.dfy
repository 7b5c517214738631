/**
 What becomes of the requests of a split. Once a node has got its brother, every request of the split is one
 of those it sent then, wherever it is; who leaves the split with the commit has done what it was asked.
 */
module OverlayPlans {
  import opened Overlay
  import opened OverlayProtocol
  import opened OverlayPairs
  import opened OverlayInvariant
  import opened OverlaySafety
  import opened OverlayRoles
  import opened OverlaySteps
  import opened OverlayResources
  import opened OverlayRuns
  import opened OverlayTheorems
  import opened OverlayLinks

  // ---------------------------------------------------------------------------------------------
  // Requests, wherever they are
  // ---------------------------------------------------------------------------------------------

  function Nexts(zs: seq<Zone>): (r: seq<Addr>)
    ensures |r| == |zs| && forall i | 0 <= i < |zs| :: r[i] == zs[i].next
  {
    seq(|zs|, i requires 0 <= i < |zs| => zs[i].next)
  }

  ghost predicate NetAsked(w: World, t: TxId, outs: seq<Out>) {
    forall p, q, msg | msg in w.net(p, q) && msg.t == t && IsRequest(msg) :: Out(q, msg) in outs
  }

  ghost predicate DelayedAsked(ds: seq<(Proc, Msg)>, q: Proc, t: TxId, outs: seq<Out>) {
    forall d | d in ds && d.1.t == t && IsRequest(d.1) :: Out(q, d.1) in outs
  }

  /**
   A node that waits for the outcome of `t`, driven by `x`, has done what one of the requests asks, up to the commit.
   */
  ghost predicate NodeAsked(y: Addr, n: Node, x: Addr, t: TxId, outs: seq<Out>) {
    n.tx == t ==>
      && (n.phase == ChangeFather ==> Out(SN(y), NewFather(t, n.newFather)) in outs)
      && (n.phase == Init ==>
            n.zones == Additions(Nexts(n.zones))
              && Out(SN(y), InitStrNode(t, n.newFather, Nexts(n.zones), n.level)) in outs)
      && (n.phase == AddChild ==> AddsChild(n.zones, x) && Out(SN(y), NewChild(t, n.zones[0].next)) in outs)
  }

  /** A new child in front of zones that are real and include `x`. */
  ghost predicate AddsChild(zs: seq<Zone>, x: Addr) {
    zs != [] && zs[0].IsAddition() && Whole(zs[1..]) && x in Actuals(zs[1..])
  }

  ghost predicate ResAsked(a: Addr, r: Res, t: TxId, outs: seq<Out>) {
    r.tx == t ==> Out(RN(a), NewFather(t, r.newFather)) in outs
  }

  /** All that is asked for in the name of `t` is in `outs`. */
  ghost predicate Asked(w: World, x: Addr, t: TxId, outs: seq<Out>) {
    && NetAsked(w, t, outs)
    && (forall y {:trigger NodeAsked(y, w.sn(y), x, t, outs)} ::
       NodeAsked(y, w.sn(y), x, t, outs) && DelayedAsked(w.sn(y).delayed, SN(y), t, outs))
    && (forall a {:trigger ResAsked(a, w.rn(a), t, outs)} ::
       ResAsked(a, w.rn(a), t, outs) && DelayedAsked(w.rn(a).delayed, RN(a), t, outs))
  }

  /** The messages of one step are among `outs`, as far as they are requests of `t`. */
  predicate Sent(os: seq<Out>, t: TxId, outs: seq<Out>) {
    forall o | o in os && o.msg.t == t && IsRequest(o.msg) :: o in outs
  }

  lemma SendsAsked(w: World, w': World, me: Proc, taken: bool, src: Proc, os: seq<Out>, t: TxId, outs: seq<Out>)
    requires taken ==> w.net(src, me) != []
    requires NetAsked(w, t, outs) && Sends(w, w', me, taken, src, os) && Sent(os, t, outs)
    ensures NetAsked(w', t, outs)
  {
    forall p, q, msg | msg in w'.net(p, q) && msg.t == t && IsRequest(msg) ensures Out(q, msg) in outs {
      if p == me && msg in For(os, q) {
        ForHas(os, q, msg);
        assert Out(q, msg) in os;
      } else {
        assert msg in w.net(p, q);
      }
    }
  }

  // ---------------------------------------------------------------------------------------------
  // A structure node handles a message
  // ---------------------------------------------------------------------------------------------

  /** A node in no transaction has only real zones, and one that waits to be initialised has none. */
  ghost predicate PlainZones(n: Node) {
    && (n.tx == NO_TX ==> Whole(n.zones))
    && (n.phase == StartIn ==> n.zones == [])
  }

  lemma PlainZonesHold(w: World, x: Addr, n: Node)
    requires NodeOk(w, x, n)
    ensures PlainZones(n)
  {
    if n.tx == NO_TX {
      forall k | 0 <= k < |n.zones|
        ensures n.zones[k].actual != NOBODY && (n.zones[k].changing ==> n.zones[k].next == n.zones[k].actual)
      {
        assert n.zones[k] in n.zones && LinkOk(w, x, n, n.zones[k]);
      }
    }
  }

  lemma AskedNewChild(y: Addr, m: nat, n: Node, src: Proc, msg: Msg, c: Choice)
    requires msg.NewChild? && n.tx == NO_TX && Whole(n.zones) && FindLink(n.zones, src.a) < |n.zones| < 2 * m
    requires msg.child != NOBODY
    ensures AddsChild(OnNewChild(m, n, src, msg, c).n.zones, src.a)
    ensures OnNewChild(m, n, src, msg, c).n.zones[0].next == msg.child
  {
    var i := FindLink(n.zones, src.a);
    var zs := if c.newer then n.zones[i := n.zones[i].SetLink(n.zones[i].actual)] else n.zones;
    assert Whole(zs) && zs[i].actual == src.a && Actuals(zs)[i] == src.a;
    assert ([Zone(NOBODY, msg.child, true)] + zs)[1..] == zs;
  }

  lemma AskedInit(y: Addr, n: Node, src: Proc, msg: Msg)
    requires msg.InitStrNode? && n.tx == msg.t && n.phase == StartIn && n.zones == []
    ensures var n' := OnInitStrNode(n, src, msg).n;
        n'.zones == Additions(Nexts(n'.zones)) && Nexts(n'.zones) == msg.children
  {
    assert [] + Additions(msg.children) == Additions(msg.children);
  }

  /** Whatever a node handles, it waits only for what it was asked. */
  lemma HandledAsked(y: Addr, m: nat, n: Node, src: Proc, msg: Msg, c: Choice, x: Addr, t: TxId, outs: seq<Out>)
    requires ValidChoice(n, c) && NodeAsked(y, n, x, t, outs) && PlainZones(n) && t != NO_TX && y != x
    requires n.tx == t ==> n.driver == x && !Driving(n)
    requires msg.t == t && IsRequest(msg) ==>
        src == SN(x) && Out(SN(y), msg) in outs && (msg.NewChild? ==> msg.child != NOBODY)
    ensures NodeAsked(y, Handle(y, m, n, src, msg, c).n, x, t, outs)
  {
    match msg
    case InitStrNode(_, _, _, _) =>
      if n.tx == msg.t && n.phase == StartIn { AskedInit(y, n, src, msg); }
    case NewChild(_, _) =>
      if msg.t == t && n.tx == NO_TX && |n.zones| < 2 * m && FindLink(n.zones, src.a) < |n.zones| {
        AskedNewChild(y, m, n, src, msg, c);
      }
    case _ =>
  }

  lemma AckAsksNothing(self: Addr, n: Node, src: Proc, t: TxId, o: Out)
    requires o in OnAck(self, n, src, t).outs
    ensures !IsRequest(o.msg)
  {
    if n.tx == t && n.driver == self {
      OutcomeTells(self, if src in n.noAck
                         then n.(noAck := RemoveFirst(n.noAck, src),
                              acked := if src in n.acked then n.acked else n.acked + [src])
                         else n);
    }
  }

  lemma OthersAskNothing(self: Addr, m: nat, n: Node, src: Proc, msg: Msg, c: Choice, o: Out)
    requires ValidChoice(n, c) && !msg.NewStrNode? && o in Handle(self, m, n, src, msg, c).outs
    ensures !IsRequest(o.msg)
  {
    OutcomeTells(self, n);
    if msg.Ack? { AckAsksNothing(self, n, src, msg.t, o); }
  }

  lemma OfferAsks(self: Addr, n: Node, src: Proc, t: TxId, c: Choice, o: Out)
    requires ValidChoice(n, c) && o in OnNewStrNode(self, n, src, t, c).outs && IsRequest(o.msg)
    ensures n.phase == WaitStr && o.msg.t == n.tx && t == n.tx
  {
    SplitAsks(self, n, src.a, c.moved);
  }

  /** Only a node that waits to split sends requests. */
  lemma WhoAsks(self: Addr, m: nat, n: Node, src: Proc, msg: Msg, c: Choice, o: Out)
    requires ValidChoice(n, c) && o in Handle(self, m, n, src, msg, c).outs && IsRequest(o.msg)
    ensures n.phase == WaitStr && o.msg.t == n.tx && msg == NewStrNode(n.tx)
  {
    if msg.NewStrNode? {
      OfferAsks(self, n, src, msg.t, c, o);
    } else {
      OthersAskNothing(self, m, n, src, msg, c, o);
    }
  }

  // ---------------------------------------------------------------------------------------------
  // Steps
  // ---------------------------------------------------------------------------------------------

  /** `t` is a split of `x`, before and after. */
  ghost predicate SplitOf(w: World, x: Addr, t: TxId) {
    t != NO_TX && t in w.split && t in w.owner && w.owner[t] == SN(x)
  }

  /** What arrives is what was asked. */
  lemma ArrivesAsked(w: World, y: Addr, taken: bool, src: Proc, msg: Msg, n: Node, x: Addr, t: TxId, outs: seq<Out>)
    requires Base(w) && Arrives(w, y, taken, src, msg, n) && SplitOf(w, x, t) && Asked(w, x, t, outs)
    ensures msg.t == t && IsRequest(msg) ==>
        y != x && src == SN(x) && Out(SN(y), msg) in outs && (msg.NewChild? ==> msg.child != NOBODY)
    ensures NodeAsked(y, n, x, t, outs) && DelayedAsked(n.delayed, SN(y), t, outs)
    ensures y != x && n.tx == t ==> n.driver == x && !Driving(n)
  {
    ArrivalOk(w, y, taken, src, msg, n);
    assert NodeAsked(y, w.sn(y), x, t, outs) && DelayedAsked(w.sn(y).delayed, SN(y), t, outs);
    if taken {
      assert msg in w.net(src, SN(y));
    } else {
      assert (src, msg) in w.sn(y).delayed;
    }
  }

  lemma PutOffAsked(n: Node, n': Node, q: Proc, src: Proc, msg: Msg, t: TxId, outs: seq<Out>)
    requires DelayedAsked(n.delayed, q, t, outs) && Moves(n, n', src, msg)
    requires msg.t == t && IsRequest(msg) ==> Out(q, msg) in outs
    ensures DelayedAsked(n'.delayed, q, t, outs)
  {
  }

  /** The driver is not a member. */
  lemma DriverNotAsked(w: World, x: Addr, n: Node, t: TxId, outs: seq<Out>)
    requires TxOk(w, x, n) && DriverOk(w, x, n) && SplitOf(w, x, t)
    ensures NodeAsked(x, n, x, t, outs)
  {
  }

  lemma TookNodeAsked(w: World, w': World, y: Addr, taken: bool, src: Proc, msg: Msg, n: Node, c: Choice, r: Reply,
                      x: Addr, t: TxId, outs: seq<Out>)
    requires Base(w) && NodeOk(w', y, r.n) && SplitOf(w, x, t) && SplitOf(w', x, t)
    requires Arrives(w, y, taken, src, msg, n) && ValidChoice(n, c) && r == Handle(y, w.m, n, src, msg, c)
    requires Asked(w, x, t, outs)
    ensures NodeAsked(y, r.n, x, t, outs) && DelayedAsked(r.n.delayed, SN(y), t, outs)
  {
    ArrivesAsked(w, y, taken, src, msg, n, x, t, outs);
    TxMoves(y, w.m, n, src, msg, c);
    PutOffAsked(n, r.n, SN(y), src, msg, t, outs);
    if y == x {
      DriverNotAsked(w', x, r.n, t, outs);
    } else {
      ArrivalOk(w, y, taken, src, msg, n);
      PlainZonesHold(w, y, n);
      HandledAsked(y, w.m, n, src, msg, c, x, t, outs);
    }
  }

  lemma TookAsked(w: World, w': World, y: Addr, taken: bool, src: Proc, msg: Msg, n: Node, c: Choice, r: Reply,
                  x: Addr, t: TxId, outs: seq<Out>)
    requires Base(w) && Base(w') && SplitOf(w, x, t) && SplitOf(w', x, t)
    requires Took(w, w', y, taken, src, msg, n, r) && ValidChoice(n, c) && r == Handle(y, w.m, n, src, msg, c)
    requires Asked(w, x, t, outs) && Sent(r.outs, t, outs)
    ensures Asked(w', x, t, outs)
  {
    SendsAsked(w, w', SN(y), taken, src, r.outs, t, outs);
    assert NodeOk(w', y, w'.sn(y)) && w'.sn(y) == r.n;
    TookNodeAsked(w, w', y, taken, src, msg, n, c, r, x, t, outs);
    OthersAsked(w, w', y, r.n, x, t, outs);
  }

  lemma OthersAsked(w: World, w': World, y: Addr, n': Node, x: Addr, t: TxId, outs: seq<Out>)
    requires OnlySN(w, w', y, n') && w'.rn == w.rn && Asked(w, x, t, outs)
    requires NodeAsked(y, n', x, t, outs) && DelayedAsked(n'.delayed, SN(y), t, outs) && NetAsked(w', t, outs)
    ensures Asked(w', x, t, outs)
  {
    forall z ensures NodeAsked(z, w'.sn(z), x, t, outs) && DelayedAsked(w'.sn(z).delayed, SN(z), t, outs) {
      assert NodeAsked(z, w.sn(z), x, t, outs);
    }
  }

  /** So for a resource node. */
  lemma ResHandledAsked(a: Addr, r: Res, src: Proc, msg: Msg, t: TxId, outs: seq<Out>)
    requires ResAsked(a, r, t, outs) && DelayedAsked(r.delayed, RN(a), t, outs)
    requires t != NO_TX && (msg.t == t && IsRequest(msg) ==> Out(RN(a), msg) in outs)
    requires msg.t == t ==> !msg.Ack?
    ensures var r' := HandleRes(r, src, msg);
            ResAsked(a, r'.r, t, outs) && DelayedAsked(r'.r.delayed, RN(a), t, outs) && Sent(r'.outs, t, outs)
  {
  }

  lemma ResArrivesAsked(w: World, a: Addr, taken: bool, src: Proc, msg: Msg, r: Res, x: Addr, t: TxId, outs: seq<Out>)
    requires Base(w) && ResArrives(w, a, taken, src, msg, r) && SplitOf(w, x, t) && Asked(w, x, t, outs)
    ensures msg.t == t && IsRequest(msg) ==> Out(RN(a), msg) in outs
    ensures ResAsked(a, r, t, outs) && DelayedAsked(r.delayed, RN(a), t, outs)
    ensures msg.t == t ==> !msg.Ack?
  {
    ResArrivalOk(w, a, taken, src, msg, r);
    assert ResAsked(a, w.rn(a), t, outs) && DelayedAsked(w.rn(a).delayed, RN(a), t, outs);
    if taken {
      assert msg in w.net(src, RN(a));
    } else {
      assert (src, msg) in w.rn(a).delayed;
    }
  }

  lemma ResTookAsked(w: World, w': World, a: Addr, taken: bool, src: Proc, msg: Msg, r: Res, r': ResReply,
                     x: Addr, t: TxId, outs: seq<Out>)
    requires Base(w) && SplitOf(w, x, t) && Asked(w, x, t, outs)
    requires ResTook(w, w', a, taken, src, msg, r, r') && r' == HandleRes(r, src, msg)
    ensures Asked(w', x, t, outs)
  {
    ResArrivesAsked(w, a, taken, src, msg, r, x, t, outs);
    ResHandledAsked(a, r, src, msg, t, outs);
    SendsAsked(w, w', RN(a), taken, src, r'.outs, t, outs);
    OtherResAsked(w, w', a, r'.r, x, t, outs);
  }

  lemma OtherResAsked(w: World, w': World, a: Addr, r': Res, x: Addr, t: TxId, outs: seq<Out>)
    requires OnlyRN(w, w', a, r') && w'.sn == w.sn && Asked(w, x, t, outs)
    requires ResAsked(a, r', t, outs) && DelayedAsked(r'.delayed, RN(a), t, outs) && NetAsked(w', t, outs)
    ensures Asked(w', x, t, outs)
  {
    forall b ensures ResAsked(b, w'.rn(b), t, outs) && DelayedAsked(w'.rn(b).delayed, RN(b), t, outs) {
      assert ResAsked(b, w.rn(b), t, outs);
    }
  }

  /** A node enters another transaction, or offers itself for this one. */
  lemma StartSplitAsked(w: World, w': World, y: Addr, s: TxId, x: Addr, t: TxId, outs: seq<Out>)
    requires StartSplit(w, w', y, s) && SplitOf(w, x, t) && Asked(w, x, t, outs)
    ensures Asked(w', x, t, outs)
  {
    assert NodeAsked(y, w.sn(y), x, t, outs);
    OthersAsked(w, w', y, w'.sn(y), x, t, outs);
  }

  lemma OfferAsked(w: World, w': World, y: Addr, z: Addr, s: TxId, x: Addr, t: TxId, outs: seq<Out>)
    requires Offer(w, w', y, z, s) && SplitOf(w, x, t) && Asked(w, x, t, outs)
    ensures Asked(w', x, t, outs)
  {
    assert NodeAsked(y, w.sn(y), x, t, outs);
    SendsAsked(w, w', SN(y), false, SN(y), [Out(SN(z), NewStrNode(s))], t, outs);
    OthersAsked(w, w', y, w'.sn(y), x, t, outs);
  }

  lemma AcceptInsertAsked(w: World, w': World, y: Addr, a: Addr, s: TxId, x: Addr, t: TxId, outs: seq<Out>)
    requires SplitsOk(w) && AcceptInsert(w, w', y, a, s) && SplitOf(w, x, t) && Asked(w, x, t, outs)
    ensures Asked(w', x, t, outs)
  {
    assert NodeAsked(y, w.sn(y), x, t, outs);
    SendsAsked(w, w', SN(y), false, SN(y), [Out(RN(a), Ack(s))], t, outs);
    OthersAsked(w, w', y, w'.sn(y), x, t, outs);
  }

  lemma StartInsertAsked(w: World, w': World, a: Addr, s: TxId, x: Addr, t: TxId, outs: seq<Out>)
    requires StartInsert(w, w', a, s) && SplitOf(w, x, t) && Asked(w, x, t, outs)
    ensures Asked(w', x, t, outs)
  {
    assert ResAsked(a, w.rn(a), t, outs) && DelayedAsked(w.rn(a).delayed, RN(a), t, outs);
    OtherResAsked(w, w', a, w'.rn(a), x, t, outs);
  }

  lemma ResSendAsked(w: World, w': World, a: Addr, x: Addr, t: TxId, outs: seq<Out>)
    requires NodesOk(w) && ResSend(w, w', a) && Asked(w, x, t, outs)
    ensures Asked(w', x, t, outs)
  {
    var o := w.rn(a).owed[0];
    assert ResOk(w, a, w.rn(a)) && o in w.rn(a).owed;
    assert ResAsked(a, w.rn(a), t, outs) && DelayedAsked(w.rn(a).delayed, RN(a), t, outs);
    SendsAsked(w, w', RN(a), false, RN(a), [o], t, outs);
    OtherResAsked(w, w', a, w'.rn(a), x, t, outs);
  }

  /** The step is not one in which `x` gets its brother for `t`. */
  ghost predicate AsksNothing(w: World, x: Addr, t: TxId) {
    w.sn(x).tx == t ==> w.sn(x).phase != WaitStr
  }

  lemma NothingSent(w: World, y: Addr, taken: bool, src: Proc, msg: Msg, n: Node, c: Choice, x: Addr, t: TxId,
                    outs: seq<Out>)
    requires Base(w) && Arrives(w, y, taken, src, msg, n) && ValidChoice(n, c) && SplitOf(w, x, t)
    requires AsksNothing(w, x, t)
    ensures Sent(Handle(y, w.m, n, src, msg, c).outs, t, outs)
  {
    ArrivalOk(w, y, taken, src, msg, n);
    if o :| o in Handle(y, w.m, n, src, msg, c).outs && o.msg.t == t && IsRequest(o.msg) {
      WhoAsks(y, w.m, n, src, msg, c, o);
      assert false;
    }
  }

  lemma DeliverAsked(w: World, w': World, y: Addr, src: Proc, c: Choice, x: Addr, t: TxId, outs: seq<Out>)
    requires Base(w) && Base(w') && Deliver(w, w', y, src, c) && SplitOf(w, x, t) && SplitOf(w', x, t)
    requires Asked(w, x, t, outs) && Sent(Handle(y, w.m, w.sn(y), src, w.net(src, SN(y))[0], c).outs, t, outs)
    ensures Asked(w', x, t, outs)
  {
    var n, msg := w.sn(y), w.net(src, SN(y))[0];
    DeliverTakes(w, w', y, src, c, n, msg);
    TookAsked(w, w', y, true, src, msg, n, c, Handle(y, w.m, n, src, msg, c), x, t, outs);
  }

  lemma ReplayAsked(w: World, w': World, y: Addr, c: Choice, x: Addr, t: TxId, outs: seq<Out>)
    requires Base(w) && Base(w') && Replay(w, w', y, c) && SplitOf(w, x, t) && SplitOf(w', x, t)
    requires AsksNothing(w, x, t) && Asked(w, x, t, outs)
    ensures Asked(w', x, t, outs)
  {
    var n := w.sn(y).(delayed := w.sn(y).delayed[1..]);
    var (src, msg) := w.sn(y).delayed[0];
    ReplayTakes(w, w', y, c, n, src, msg);
    NothingSent(w, y, false, src, msg, n, c, x, t, outs);
    TookAsked(w, w', y, false, src, msg, n, c, Handle(y, w.m, n, src, msg, c), x, t, outs);
  }

  lemma ResReplayAsked(w: World, w': World, a: Addr, x: Addr, t: TxId, outs: seq<Out>)
    requires Base(w) && ResReplay(w, w', a) && SplitOf(w, x, t) && Asked(w, x, t, outs)
    ensures Asked(w', x, t, outs)
  {
    var r := w.rn(a).(delayed := w.rn(a).delayed[1..]);
    var (src, msg) := w.rn(a).delayed[0];
    ResReplayTakes(w, w', a, r, src, msg);
    ResTookAsked(w, w', a, false, src, msg, r, HandleRes(r, src, msg), x, t, outs);
  }

  lemma SearchAsked(w: World, w': World, x: Addr, t: TxId, outs: seq<Out>)
    requires w' == w.(needed := w'.needed, armed := w'.armed) && Asked(w, x, t, outs)
    ensures Asked(w', x, t, outs)
  {
    assert w'.sn == w.sn && w'.rn == w.rn && w'.net == w.net;
    assert forall y :: NodeAsked(y, w.sn(y), x, t, outs);
    assert forall a :: ResAsked(a, w.rn(a), t, outs);
  }

  lemma StructureStepAsked(w: World, w': World, act: Action, x: Addr, t: TxId, outs: seq<Out>)
    requires Base(w) && Base(w') && Does(w, w', act) && SplitOf(w, x, t) && SplitOf(w', x, t)
    requires act.ADeliver? || act.AReplay?
    requires AsksNothing(w, x, t) && Asked(w, x, t, outs)
    ensures Asked(w', x, t, outs)
  {
    if act.ADeliver? {
      NothingSent(w, act.x, true, act.src, w.net(act.src, SN(act.x))[0], w.sn(act.x), act.c, x, t, outs);
      DeliverAsked(w, w', act.x, act.src, act.c, x, t, outs);
    } else {
      ReplayAsked(w, w', act.x, act.c, x, t, outs);
    }
  }

  lemma ResourceStepAsked(w: World, w': World, act: Action, x: Addr, t: TxId, outs: seq<Out>)
    requires Base(w) && Does(w, w', act) && SplitOf(w, x, t) && (act.AResDeliver? || act.AResReplay? || act.AResSend?)
    requires Asked(w, x, t, outs)
    ensures Asked(w', x, t, outs)
  {
    if act.AResDeliver? {
      var msg := w.net(act.src, RN(act.a))[0];
      ResTookAsked(w, w', act.a, true, act.src, msg, w.rn(act.a), HandleRes(w.rn(act.a), act.src, msg), x, t, outs);
    } else if act.AResReplay? {
      ResReplayAsked(w, w', act.a, x, t, outs);
    } else {
      ResSendAsked(w, w', act.a, x, t, outs);
    }
  }

  lemma EnteringAsked(w: World, w': World, act: Action, x: Addr, t: TxId, outs: seq<Out>)
    requires SplitsOk(w) && Does(w, w', act) && SplitOf(w, x, t) && Asked(w, x, t, outs)
    requires !act.ADeliver? && !act.AReplay? && !act.AResDeliver? && !act.AResReplay? && !act.AResSend?
    ensures Asked(w', x, t, outs)
  {
    match act
    case AStartSplit(y, s) => StartSplitAsked(w, w', y, s, x, t, outs);
    case ARepeat(_, _) => SearchAsked(w, w', x, t, outs);
    case ALose(_, _, _) => SearchAsked(w, w', x, t, outs);
    case AOffer(y, z, s) => OfferAsked(w, w', y, z, s, x, t, outs);
    case AStartInsert(a, s) => StartInsertAsked(w, w', a, s, x, t, outs);
    case AAcceptInsert(y, a, s) => AcceptInsertAsked(w, w', y, a, s, x, t, outs);
  }

  /** Requests of `t` stay what they are once the driver no longer waits. */
  lemma StepAsked(w: World, w': World, act: Action, x: Addr, t: TxId, outs: seq<Out>)
    requires Base(w) && Base(w') && Does(w, w', act) && SplitOf(w, x, t) && SplitOf(w', x, t)
    requires AsksNothing(w, x, t) && Asked(w, x, t, outs)
    ensures Asked(w', x, t, outs)
  {
    if act.ADeliver? || act.AReplay? {
      StructureStepAsked(w, w', act, x, t, outs);
    } else if act.AResDeliver? || act.AResReplay? || act.AResSend? {
      ResourceStepAsked(w, w', act, x, t, outs);
    } else {
      EnteringAsked(w, w', act, x, t, outs);
    }
  }

  // ---------------------------------------------------------------------------------------------
  // The driver
  // ---------------------------------------------------------------------------------------------

  /** As it was when it split, but for what it has heard since. */
  predicate SameSplit(n: Node, s: Node) {
    n == s.(noAck := n.noAck, acked := n.acked, delayed := n.delayed)
  }

  lemma DriverHandled(x: Addr, m: nat, n: Node, src: Proc, msg: Msg, c: Choice, t: TxId, s: Node)
    requires ValidChoice(n, c) && t != NO_TX && s.tx == t && s.phase == Splitting && (n.tx == t ==> SameSplit(n, s))
    requires msg.t == t ==> !IsRequest(msg)
    ensures var n' := Handle(x, m, n, src, msg, c).n; n'.tx == t ==> SameSplit(n', s)
  {
  }

  lemma TookDriver(w: World, w': World, y: Addr, taken: bool, src: Proc, msg: Msg, n: Node, c: Choice, r: Reply,
                   x: Addr, t: TxId, s: Node)
    requires Base(w) && SplitOf(w, x, t) && Took(w, w', y, taken, src, msg, n, r)
    requires ValidChoice(n, c) && r == Handle(y, w.m, n, src, msg, c)
    requires s.tx == t && s.phase == Splitting && (w.sn(x).tx == t ==> SameSplit(w.sn(x), s))
    ensures w'.sn(x).tx == t ==> SameSplit(w'.sn(x), s)
  {
    if y == x {
      ArrivalOk(w, y, taken, src, msg, n);
      DriverHandled(x, w.m, n, src, msg, c, t, s);
    }
  }

  lemma OfferDriver(w: World, w': World, y: Addr, z: Addr, u: TxId, x: Addr, t: TxId, s: Node)
    requires Inv(w) && SplitOf(w, x, t) && Offer(w, w', y, z, u) && (w.sn(x).tx == t ==> SameSplit(w.sn(x), s))
    ensures w'.sn(x).tx == t ==> SameSplit(w'.sn(x), s)
  {
    OfferedTo(w, w', y, z, u);
  }

  lemma DeliverDriver(w: World, w': World, y: Addr, src: Proc, c: Choice, x: Addr, t: TxId, s: Node)
    requires Base(w) && Deliver(w, w', y, src, c) && SplitOf(w, x, t)
    requires s.tx == t && s.phase == Splitting && (w.sn(x).tx == t ==> SameSplit(w.sn(x), s))
    ensures w'.sn(x).tx == t ==> SameSplit(w'.sn(x), s)
  {
    var n, msg := w.sn(y), w.net(src, SN(y))[0];
    DeliverTakes(w, w', y, src, c, n, msg);
    TookDriver(w, w', y, true, src, msg, n, c, Handle(y, w.m, n, src, msg, c), x, t, s);
  }

  lemma ReplayDriver(w: World, w': World, y: Addr, c: Choice, x: Addr, t: TxId, s: Node)
    requires Base(w) && Replay(w, w', y, c) && SplitOf(w, x, t)
    requires s.tx == t && s.phase == Splitting && (w.sn(x).tx == t ==> SameSplit(w.sn(x), s))
    ensures w'.sn(x).tx == t ==> SameSplit(w'.sn(x), s)
  {
    var n := w.sn(y).(delayed := w.sn(y).delayed[1..]);
    var (src, msg) := w.sn(y).delayed[0];
    ReplayTakes(w, w', y, c, n, src, msg);
    TookDriver(w, w', y, false, src, msg, n, c, Handle(y, w.m, n, src, msg, c), x, t, s);
  }

  lemma EnteringDriver(w: World, w': World, act: Action, x: Addr, t: TxId, s: Node)
    requires SplitsOk(w) && Does(w, w', act) && SplitOf(w, x, t) && !act.ADeliver? && !act.AReplay? && !act.AOffer?
    requires w.sn(x).tx == t ==> SameSplit(w.sn(x), s)
    ensures w'.sn(x).tx == t ==> SameSplit(w'.sn(x), s)
  {
  }

  /** Until the end of `t` its driver changes nothing else. */
  lemma StepDriver(w: World, w': World, act: Action, x: Addr, t: TxId, s: Node)
    requires Inv(w) && Does(w, w', act) && SplitOf(w, x, t)
    requires s.tx == t && s.phase == Splitting && (w.sn(x).tx == t ==> SameSplit(w.sn(x), s))
    ensures w'.sn(x).tx == t ==> SameSplit(w'.sn(x), s)
  {
    if act.ADeliver? {
      DeliverDriver(w, w', act.x, act.src, act.c, x, t, s);
    } else if act.AReplay? {
      ReplayDriver(w, w', act.x, act.c, x, t, s);
    } else if act.AOffer? {
      OfferDriver(w, w', act.y, act.x, act.t, x, t, s);
    } else {
      EnteringDriver(w, w', act, x, t, s);
    }
  }

  // ---------------------------------------------------------------------------------------------
  // From the split on
  // ---------------------------------------------------------------------------------------------

  /** In this step `x` gets its brother for `t` and splits. */
  ghost predicate SplitsOff(w: World, w': World, x: Addr, t: TxId, brother: Addr, c: Choice) {
    && Deliver(w, w', x, SN(brother), c) && w.net(SN(brother), SN(x))[0] == NewStrNode(t)
    && w.sn(x).tx == t && w.sn(x).phase == WaitStr && Upper(w.sn(x)) != NOBODY
  }

  lemma WaitingPair(w: World, x: Addr, t: TxId, q: Proc)
    requires SplitOf(w, x, t) && Coherent(t, View(w, t, q)) && DriverOk(w, x, w.sn(x)) && t !in w.decided
    requires w.sn(x).tx == t && w.sn(x).phase == WaitStr && q != SN(x)
    ensures var v := View(w, t, q); v.dm.requests == 0 && v.delayed == 0 && !Holds(v, t)
  {
  }

  lemma NobodyAsked(w: World, x: Addr, t: TxId, q: Proc)
    requires Inv(w) && SplitOf(w, x, t) && w.sn(x).tx == t && w.sn(x).phase == WaitStr && q != SN(x) && q.a != NOBODY
    ensures forall msg | msg in w.net(SN(x), q) && msg.t == t :: !IsRequest(msg)
    ensures NumDelayed(if q.SN? then w.sn(q.a).delayed else w.rn(q.a).delayed, t) == 0
    ensures !Holds(View(w, t, q), t)
  {
    assert Coherent(t, View(w, t, q)) && NodeOk(w, x, w.sn(x));
    WaitingPair(w, x, t, q);
    forall msg | msg in w.net(SN(x), q) && msg.t == t ensures !IsRequest(msg) {
      if IsRequest(msg) { NumPositive(w.net(SN(x), q), Request, t, msg); }
    }
  }

  lemma {:induction false} NoneDelayedHere(ds: seq<(Proc, Msg)>, t: TxId)
    requires NumDelayed(ds, t) == 0
    ensures forall d | d in ds :: !Is(d.1, Request, t)
  {
    if ds != [] { NoneDelayedHere(ds[1..], t); }
  }

  lemma WaitingLink(w: World, x: Addr, t: TxId, p: Proc, q: Proc, msg: Msg)
    requires Inv(w) && SplitOf(w, x, t) && w.sn(x).tx == t && w.sn(x).phase == WaitStr && msg in w.net(p, q)
    requires msg.t == t
    ensures !IsRequest(msg)
  {
    assert MsgOk(w, p, q, msg);
    if p == SN(x) { NobodyAsked(w, x, t, q); }
  }

  /** Before that nothing is asked in the name of `t`. */
  lemma WaitingAsksNothing(w: World, x: Addr, t: TxId, outs: seq<Out>)
    requires Inv(w) && SplitOf(w, x, t) && w.sn(x).tx == t && w.sn(x).phase == WaitStr
    ensures Asked(w, x, t, outs)
  {
    forall p, q, msg | msg in w.net(p, q) && msg.t == t ensures !IsRequest(msg) {
      WaitingLink(w, x, t, p, q, msg);
    }
    forall y ensures NodeAsked(y, w.sn(y), x, t, outs) && DelayedAsked(w.sn(y).delayed, SN(y), t, outs) {
      WaitingNode(w, x, t, y, outs);
    }
    forall a ensures ResAsked(a, w.rn(a), t, outs) && DelayedAsked(w.rn(a).delayed, RN(a), t, outs) {
      WaitingRes(w, x, t, a, outs);
    }
  }

  lemma WaitingNode(w: World, x: Addr, t: TxId, y: Addr, outs: seq<Out>)
    requires Inv(w) && SplitOf(w, x, t) && w.sn(x).tx == t && w.sn(x).phase == WaitStr
    ensures NodeAsked(y, w.sn(y), x, t, outs) && DelayedAsked(w.sn(y).delayed, SN(y), t, outs)
  {
    assert NodeOk(w, y, w.sn(y));
    if y != x && y != NOBODY {
      NobodyAsked(w, x, t, SN(y));
      NoneDelayedHere(w.sn(y).delayed, t);
    }
  }

  lemma WaitingRes(w: World, x: Addr, t: TxId, a: Addr, outs: seq<Out>)
    requires Inv(w) && SplitOf(w, x, t) && w.sn(x).tx == t && w.sn(x).phase == WaitStr
    ensures ResAsked(a, w.rn(a), t, outs) && DelayedAsked(w.rn(a).delayed, RN(a), t, outs)
  {
    assert ResOk(w, a, w.rn(a));
    if a != NOBODY {
      NobodyAsked(w, x, t, RN(a));
      NoneDelayedHere(w.rn(a).delayed, t);
    }
  }

  /** What is known of `t` since `x` became `s` and sent `outs`. */
  ghost predicate Planned(w: World, x: Addr, t: TxId, s: Node, outs: seq<Out>) {
    SplitOf(w, x, t) && Asked(w, x, t, outs) && (w.sn(x).tx == t ==> SameSplit(w.sn(x), s))
  }

  lemma StepSplitOf(w: World, w': World, act: Action, x: Addr, t: TxId)
    requires Does(w, w', act) && SplitOf(w, x, t)
    ensures SplitOf(w', x, t)
  {
  }

  lemma SplitIsPlanned(w: World, w': World, x: Addr, t: TxId, brother: Addr, c: Choice)
    requires Inv(w) && Inv(w') && SplitsOff(w, w', x, t, brother, c)
    ensures var r := Split(x, w.sn(x), brother, c.moved); Planned(w', x, t, r.n, r.outs)
  {
    var n := w.sn(x);
    var r := Split(x, n, brother, c.moved);
    assert NodeOk(w, x, n);
    assert SplitOf(w, x, t);
    WaitingAsksNothing(w, x, t, r.outs);
    SplitIsAsked(w, w', x, t, brother, c, r);
  }

  lemma SplitIsAsked(w: World, w': World, x: Addr, t: TxId, brother: Addr, c: Choice, r: Reply)
    requires Base(w) && Base(w') && SplitsOff(w, w', x, t, brother, c) && SplitOf(w, x, t)
    requires r == Split(x, w.sn(x), brother, c.moved) && Asked(w, x, t, r.outs)
    ensures Planned(w', x, t, r.n, r.outs)
  {
    assert Handle(x, w.m, w.sn(x), SN(brother), NewStrNode(t), c) == r;
    StepSplitOf(w, w', ADeliver(x, SN(brother), c), x, t);
    DeliverAsked(w, w', x, SN(brother), c, x, t, r.outs);
  }

  lemma StaysPlanned(w: World, w': World, act: Action, x: Addr, t: TxId, s: Node, outs: seq<Out>)
    requires Inv(w) && Inv(w') && Does(w, w', act) && Planned(w, x, t, s, outs) && s.tx == t && s.phase == Splitting
    ensures Planned(w', x, t, s, outs)
  {
    StepSplitOf(w, w', act, x, t);
    StepAsked(w, w', act, x, t, outs);
    StepDriver(w, w', act, x, t, s);
  }

  lemma NextPlanned(w: World, w': World, x: Addr, t: TxId, s: Node, outs: seq<Out>)
    requires Inv(w) && Inv(w') && Next(w, w') && Planned(w, x, t, s, outs) && s.tx == t && s.phase == Splitting
    ensures Planned(w', x, t, s, outs)
  {
    var act :| Does(w, w', act);
    StaysPlanned(w, w', act, x, t, s, outs);
  }

  lemma RunNextPlanned(ws: seq<World>, k: nat, w: World, w': World, x: Addr, t: TxId, s: Node, outs: seq<Out>)
    requires Run(ws) && k + 1 < |ws| && w == ws[k] && w' == ws[k + 1]
    requires Planned(w, x, t, s, outs) && s.tx == t && s.phase == Splitting
    ensures Planned(w', x, t, s, outs)
  {
    RunStep(ws, k, w, w');
    NextPlanned(w, w', x, t, s, outs);
  }

  /** In every world after the split everything about `t` goes by its plan. */
  lemma RunPlanned(ws: seq<World>, j: nat, k: nat, x: Addr, t: TxId, s: Node, outs: seq<Out>)
    requires Run(ws) && j <= k < |ws| && Planned(ws[j], x, t, s, outs) && s.tx == t && s.phase == Splitting
    ensures Planned(ws[k], x, t, s, outs)
  {
    var good := w => Planned(w, x, t, s, outs);
    forall i: nat | j <= i < |ws| - 1 && good(ws[i]) ensures good(ws[i + 1]) {
      RunNextPlanned(ws, i, ws[i], ws[i + 1], x, t, s, outs);
    }
    EverAfter(ws, good, j, k);
  }

  // ---------------------------------------------------------------------------------------------
  // A node without a place has no father, and a future father only while its links change
  // ---------------------------------------------------------------------------------------------

  predicate Tidy(n: Node) {
    && (n.phase == Offline || n.phase == StartIn || n.phase == Init ==> n.father == NOBODY)
    && (n.phase == Offline || n.phase == StartIn || n.phase == Online || n.phase == AddChild ==> n.newFather == NOBODY)
  }

  ghost predicate AllTidy(w: World) {
    forall y {:trigger Tidy(w.sn(y))} :: Tidy(w.sn(y))
  }

  lemma HandledTidy(self: Addr, m: nat, n: Node, src: Proc, msg: Msg, c: Choice)
    requires ValidChoice(n, c) && Tidy(n) && (n.tx == NO_TX <==> n.phase == Offline || n.phase == Online)
    ensures Tidy(Handle(self, m, n, src, msg, c).n)
  {
  }

  lemma StepTidy(w: World, w': World, act: Action)
    requires NodesOk(w) && AllTidy(w) && Does(w, w', act)
    ensures AllTidy(w')
  {
    forall y ensures Tidy(w'.sn(y)) {
      assert Tidy(w.sn(y)) && NodeOk(w, y, w.sn(y));
      NodeTidy(w, w', act, y);
    }
  }

  lemma NodeTidy(w: World, w': World, act: Action, y: Addr)
    requires Tidy(w.sn(y)) && TxOk(w, y, w.sn(y)) && Does(w, w', act)
    ensures Tidy(w'.sn(y))
  {
    match act
    case ADeliver(x, src, c) =>
      if y == x { HandledTidy(x, w.m, w.sn(x), src, w.net(src, SN(x))[0], c); }
    case AReplay(x, c) =>
      if y == x {
        var (src, msg) := w.sn(x).delayed[0];
        HandledTidy(x, w.m, w.sn(x).(delayed := w.sn(x).delayed[1..]), src, msg, c);
      }
    case _ =>
  }

  lemma RunTidyNext(ws: seq<World>, k: nat, w: World, w': World)
    requires Run(ws) && k + 1 < |ws| && w == ws[k] && w' == ws[k + 1] && AllTidy(w)
    ensures AllTidy(w')
  {
    RunStep(ws, k, w, w');
    var act :| Does(w, w', act);
    StepTidy(w, w', act);
  }

  lemma RunTidy(ws: seq<World>, k: nat)
    requires Run(ws) && k < |ws|
    ensures AllTidy(ws[k])
  {
    var good := w => AllTidy(w);
    forall i: nat | i < |ws| - 1 && good(ws[i]) ensures good(ws[i + 1]) { RunTidyNext(ws, i, ws[i], ws[i + 1]); }
    EverAfter(ws, good, 0, k);
  }

  // ---------------------------------------------------------------------------------------------
  // Who leaves with the commit
  // ---------------------------------------------------------------------------------------------

  /** In this step `p` leaves `t` with the commit. */
  ghost predicate LeavesDone(w: World, w': World, t: TxId, p: Proc) {
    TxOf(w, p) == t && TxOf(w', p) != t && (t, p) in w'.log && w'.log[(t, p)]
  }

  /** A node that counts one more acknowledgement. */
  function Heard(n: Node, src: Proc): Node {
    if src in n.noAck
    then n.(noAck := RemoveFirst(n.noAck, src), acked := if src in n.acked then n.acked else n.acked + [src])
    else n
  }

  /** A node leaves by a commit, or by the last acknowledgement it waited for. */
  lemma HowItLeaves(self: Addr, m: nat, n: Node, src: Proc, msg: Msg, c: Choice)
    requires ValidChoice(n, c) && n.tx != NO_TX && Handle(self, m, n, src, msg, c).n.tx != n.tx
    requires msg.Commit? || msg.Ack?
    ensures msg.t == n.tx
    ensures msg.Commit? ==> Handle(self, m, n, src, msg, c).n == Committed(self, n).n
    ensures msg.Ack? ==> n.driver == self && Handle(self, m, n, src, msg, c).n == Committed(self, Heard(n, src)).n
  {
  }

  lemma TookLeaves(w: World, w': World, y: Addr, taken: bool, src: Proc, msg: Msg, n: Node, c: Choice, r: Reply,
                   x: Addr, t: TxId)
    requires Inv(w) && Took(w, w', y, taken, src, msg, n, r) && ValidChoice(n, c) && r == Handle(y, w.m, n, src, msg, c)
    requires SplitOf(w, x, t) && LeavesDone(w, w', t, SN(y))
    ensures n == w.sn(y) && n.tx == t
    ensures y != x ==> r.n == Committed(y, n).n && (n.phase == Init || n.phase == AddChild || n.phase == ChangeFather)
    ensures y == x ==> r.n == Committed(x, Heard(n, src)).n
  {
    ArrivalOk(w, y, taken, src, msg, n);
    HowItLeaves(y, w.m, n, src, msg, c);
    if y != x {
      MemberIsPlaced(w, y, src, t);
    }
  }

  /** The commit of a split finds the member waiting. */
  lemma MemberIsPlaced(w: World, y: Addr, src: Proc, t: TxId)
    requires Inv(w) && t in w.split && t in w.owner && w.owner[t] != SN(y) && y != NOBODY
    requires w.net(src, SN(y)) != [] && w.net(src, SN(y))[0] == Commit(t) && w.sn(y).tx == t
    ensures w.sn(y).phase == Init || w.sn(y).phase == AddChild || w.sn(y).phase == ChangeFather
  {
    assert MsgOk(w, src, SN(y), Commit(t)) && NodeOk(w, y, w.sn(y));
    NumPositive(w.net(src, SN(y)), Told(true), t, Commit(t));
    assert Coherent(t, View(w, t, SN(y)));
  }

  lemma OnlyDeliveryLeaves(w: World, w': World, act: Action, y: Addr)
    requires Does(w, w', act) && w.sn(y).tx != NO_TX && w'.sn(y).tx != w.sn(y).tx && !act.AOffer?
    ensures act.ADeliver? && act.x == y
  {
  }

  lemma OfferLeavesNothing(w: World, w': World, y: Addr, x: Addr, t: TxId, z: Addr)
    requires NodesOk(w) && Offer(w, w', y, x, t) && w.sn(z).tx != NO_TX
    ensures w'.sn(z).tx == w.sn(z).tx
  {
    assert NodeOk(w, y, w.sn(y));
  }

  lemma DeliveryLeaves(w: World, w': World, y: Addr, src: Proc, c: Choice, x: Addr, t: TxId)
    requires Inv(w) && Deliver(w, w', y, src, c) && SplitOf(w, x, t) && LeavesDone(w, w', t, SN(y))
    ensures y != x ==> w'.sn(y) == Committed(y, w.sn(y)).n
                       && (w.sn(y).phase == Init || w.sn(y).phase == AddChild || w.sn(y).phase == ChangeFather)
    ensures y == x ==> w'.sn(x) == Committed(x, Heard(w.sn(x), src)).n
  {
    var n, msg := w.sn(y), w.net(src, SN(y))[0];
    DeliverTakes(w, w', y, src, c, n, msg);
    TookLeaves(w, w', y, true, src, msg, n, c, Handle(y, w.m, n, src, msg, c), x, t);
  }

  lemma StructureLeaves(w: World, w': World, act: Action, y: Addr, x: Addr, t: TxId) returns (src: Proc)
    requires Inv(w) && Does(w, w', act) && SplitOf(w, x, t) && LeavesDone(w, w', t, SN(y))
    ensures y != x ==> w'.sn(y) == Committed(y, w.sn(y)).n
                       && (w.sn(y).phase == Init || w.sn(y).phase == AddChild || w.sn(y).phase == ChangeFather)
    ensures y == x ==> w'.sn(x) == Committed(x, Heard(w.sn(x), src)).n
  {
    if act.AOffer? { OfferLeavesNothing(w, w', act.y, act.x, act.t, y); }
    OnlyDeliveryLeaves(w, w', act, y);
    src := act.src;
    DeliveryLeaves(w, w', y, src, act.c, x, t);
  }

  lemma ResLeft(r: Res, src: Proc, msg: Msg)
    requires HandleRes(r, src, msg).r.tx != r.tx && (msg.Commit? || msg.Ack?)
    ensures msg.t == r.tx && (msg.Commit? ==> HandleRes(r, src, msg).r.father == r.newFather)
  {
  }

  lemma OnlyDeliveryFrees(w: World, w': World, act: Action, a: Addr, t: TxId)
    requires Does(w, w', act) && LeavesDone(w, w', t, RN(a)) && t != NO_TX
    ensures act.AResDeliver? && act.a == a
  {
  }

  lemma DeliveryFrees(w: World, w': World, a: Addr, src: Proc, x: Addr, t: TxId)
    requires Base(w) && ResDeliver(w, w', a, src) && SplitOf(w, x, t) && LeavesDone(w, w', t, RN(a))
    ensures w'.rn(a).father == w.rn(a).newFather
  {
    var msg := w.net(src, RN(a))[0];
    assert ResArrives(w, a, true, src, msg, w.rn(a));
    ResArrivalOk(w, a, true, src, msg, w.rn(a));
    ResLeft(w.rn(a), src, msg);
  }

  lemma ResourceLeaves(w: World, w': World, act: Action, a: Addr, x: Addr, t: TxId)
    requires Base(w) && Does(w, w', act) && SplitOf(w, x, t) && LeavesDone(w, w', t, RN(a))
    ensures w'.rn(a).father == w.rn(a).newFather
  {
    OnlyDeliveryFrees(w, w', act, a, t);
    DeliveryFrees(w, w', a, act.src, x, t);
  }

  // ---------------------------------------------------------------------------------------------
  // What who leaves has done
  // ---------------------------------------------------------------------------------------------

  ghost function FatherOf(w: World, p: Proc): Addr {
    if p.SN? then w.sn(p.a).father else w.rn(p.a).father
  }

  /** A node in its place, with these links. */
  predicate Linked(n: Node, father: Addr, level: nat, children: seq<Addr>) {
    n.phase == Online && n.tx == NO_TX && n.father == father && n.level == level && Actuals(n.zones) == children
  }

  /** The links that are real already. */
  function Reals(zs: seq<Zone>): seq<Addr> {
    if zs == [] then [] else (if zs[0].actual == NOBODY then [] else [zs[0].actual]) + Reals(zs[1..])
  }

  /** `f` had the child `x` and now has `brother` as well. */
  predicate Gains(f: Node, f': Node, x: Addr, brother: Addr) {
    x in Reals(f.zones) && Linked(f', f.father, f.level, [brother] + Reals(f.zones))
  }

  /** What the split of `x`, which was `s`, asks of each role. */
  ghost predicate DoneAs(w: World, w': World, p: Proc, x: Addr, s: Node, brother: Addr, c: Choice)
    requires ValidChoice(s, c)
  {
    || (p in Movers(s, c.moved) && FatherOf(w', p) == brother)
    || (p == SN(brother) && Linked(w'.sn(brother), Upper(s), s.level, Links(s, c.moved)))
    || (s.father == NOBODY && p == SN(s.newFather) && Linked(w'.sn(s.newFather), NOBODY, s.level + 1, [x, brother]))
    || (s.father != NOBODY && p == SN(s.father) && Gains(w.sn(s.father), w'.sn(s.father), x, brother))
  }

  lemma {:induction false} WholeIsReal(zs: seq<Zone>)
    requires Whole(zs)
    ensures Reals(zs) == Actuals(zs) == Actuals(CommitZones(zs))
  {
    SameWhenCommitted(zs);
    if zs != [] {
      WholeIsReal(zs[1..]);
      assert Actuals(zs) == [zs[0].actual] + Actuals(zs[1..]);
    }
  }

  /** What each request of a split is, and to whom. */
  lemma WhatIsAsked(x: Addr, s: Node, brother: Addr, c: Choice, o: Out)
    requires ValidChoice(s, c) && o in Split(x, s, brother, c.moved).outs
    ensures
      || (o.to in Movers(s, c.moved) && o.msg == NewFather(s.tx, brother))
      || (o.to == SN(brother) && o.msg == InitStrNode(s.tx, Upper(s), Links(s, c.moved), s.level))
      || (s.father == NOBODY && o == Out(SN(s.newFather), InitStrNode(s.tx, NOBODY, [x, brother], s.level + 1)))
      || (s.father != NOBODY && o == Out(SN(s.father), NewChild(s.tx, brother)))
  {
    SplitSends(x, s, brother, c);
    var outs := Split(x, s, brother, c.moved).outs;
    var k :| 0 <= k < |outs| && outs[k] == o;
    if 0 < k < |outs| - 1 {
      assert o == ToAll(Movers(s, c.moved), NewFather(s.tx, brother))[k - 1];
      assert o.to == Movers(s, c.moved)[k - 1];
    }
  }

  lemma ChildDone(w: World, w': World, y: Addr, n: Node, x: Addr, s: Node, brother: Addr, c: Choice)
    requires ValidChoice(s, c) && s.tx != NO_TX && brother != NOBODY && n == w.sn(y) && w'.sn(y) == Committed(y, n).n
    requires NodeAsked(y, n, x, s.tx, Split(x, s, brother, c.moved).outs) && n.tx == s.tx && n.phase == ChangeFather
    ensures DoneAs(w, w', SN(y), x, s, brother, c)
  {
    WhatIsAsked(x, s, brother, c, Out(SN(y), NewFather(s.tx, n.newFather)));
  }

  lemma FreshDone(w: World, w': World, y: Addr, n: Node, x: Addr, s: Node, brother: Addr, c: Choice)
    requires ValidChoice(s, c) && s.tx != NO_TX && Upper(s) != NOBODY && n == w.sn(y) && w'.sn(y) == Committed(y, n).n
    requires NodeAsked(y, n, x, s.tx, Split(x, s, brother, c.moved).outs) && n.tx == s.tx && n.phase == Init
    requires n.father == NOBODY
    ensures DoneAs(w, w', SN(y), x, s, brother, c)
  {
    var cs := Nexts(n.zones);
    AdditionsBecomeReal(cs);
    WhatIsAsked(x, s, brother, c, Out(SN(y), InitStrNode(s.tx, n.newFather, cs, n.level)));
  }

  lemma FatherDone(w: World, w': World, y: Addr, n: Node, x: Addr, s: Node, brother: Addr, c: Choice)
    requires ValidChoice(s, c) && s.tx != NO_TX && brother != NOBODY && n == w.sn(y) && w'.sn(y) == Committed(y, n).n
    requires n.newFather == NOBODY
    requires NodeAsked(y, n, x, s.tx, Split(x, s, brother, c.moved).outs) && n.tx == s.tx && n.phase == AddChild
    ensures DoneAs(w, w', SN(y), x, s, brother, c)
  {
    WhatIsAsked(x, s, brother, c, Out(SN(y), NewChild(s.tx, n.zones[0].next)));
    var rest := n.zones[1..];
    WholeIsReal(rest);
    OneMoreCommitted(brother, rest);
    assert n.zones == [Zone(NOBODY, brother, true)] + rest;
    assert Reals(n.zones) == Reals(rest);
  }

  /** The driver keeps its place, its level and the children that do not move; as a root it gets a father. */
  ghost predicate DriverDone(n: Node, s: Node, c: Choice)
    requires ValidChoice(s, c)
  {
    n.phase == Online && n.tx == NO_TX && n.father == Upper(s) && n.level == s.level
      && n.zones == CommitZones(Detach(s.zones, c.moved))
  }

  lemma DriverLeaves(w: World, w': World, src: Proc, x: Addr, s: Node, brother: Addr, c: Choice)
    requires ValidChoice(s, c) && Upper(s) != NOBODY && (s.father != NOBODY ==> s.newFather == NOBODY)
    requires SameSplit(w.sn(x), Split(x, s, brother, c.moved).n) && w'.sn(x) == Committed(x, Heard(w.sn(x), src)).n
    ensures DriverDone(w'.sn(x), s, c)
  {
  }

  lemma MemberLeaves(w: World, w': World, act: Action, y: Addr, x: Addr, s: Node, brother: Addr, c: Choice)
    requires Inv(w) && Does(w, w', act) && ValidChoice(s, c) && s.tx != NO_TX && Upper(s) != NOBODY && brother != NOBODY
    requires SplitOf(w, x, s.tx) && NodeAsked(y, w.sn(y), x, s.tx, Split(x, s, brother, c.moved).outs) && Tidy(w.sn(y))
    requires LeavesDone(w, w', s.tx, SN(y)) && y != x
    ensures DoneAs(w, w', SN(y), x, s, brother, c)
  {
    var src := StructureLeaves(w, w', act, y, x, s.tx);
    var n := w.sn(y);
    if n.phase == ChangeFather {
      ChildDone(w, w', y, n, x, s, brother, c);
    } else if n.phase == Init {
      FreshDone(w, w', y, n, x, s, brother, c);
    } else {
      FatherDone(w, w', y, n, x, s, brother, c);
    }
  }

  lemma ResourceMemberLeaves(w: World, w': World, act: Action, a: Addr, x: Addr, s: Node, brother: Addr, c: Choice)
    requires Base(w) && Does(w, w', act) && ValidChoice(s, c) && s.tx != NO_TX
    requires SplitOf(w, x, s.tx) && ResAsked(a, w.rn(a), s.tx, Split(x, s, brother, c.moved).outs)
    requires LeavesDone(w, w', s.tx, RN(a))
    ensures DoneAs(w, w', RN(a), x, s, brother, c)
  {
    ResourceLeaves(w, w', act, a, x, s.tx);
    WhatIsAsked(x, s, brother, c, Out(RN(a), NewFather(s.tx, w.rn(a).newFather)));
  }

  /** Whoever leaves a split with the commit has done what its role asks. */
  lemma LeaverObeys(w: World, w': World, p: Proc, x: Addr, s: Node, brother: Addr, c: Choice)
    requires Inv(w) && AllTidy(w) && Next(w, w') && ValidChoice(s, c) && s.tx != NO_TX && Upper(s) != NOBODY
    requires brother != NOBODY
    requires s.father != NOBODY ==> s.newFather == NOBODY
    requires var r := Split(x, s, brother, c.moved); Planned(w, x, s.tx, r.n, r.outs)
    requires LeavesDone(w, w', s.tx, p)
    ensures if p == SN(x) then DriverDone(w'.sn(x), s, c) else DoneAs(w, w', p, x, s, brother, c)
  {
    var act :| Does(w, w', act);
    if p == SN(x) {
      var src := StructureLeaves(w, w', act, x, x, s.tx);
      DriverLeaves(w, w', src, x, s, brother, c);
    } else if p.SN? {
      assert Tidy(w.sn(p.a)) && NodeAsked(p.a, w.sn(p.a), x, s.tx, Split(x, s, brother, c.moved).outs);
      MemberLeaves(w, w', act, p.a, x, s, brother, c);
    } else {
      assert ResAsked(p.a, w.rn(p.a), s.tx, Split(x, s, brother, c.moved).outs);
      ResourceMemberLeaves(w, w', act, p.a, x, s, brother, c);
    }
  }

  lemma SplitterFacts(w: World, w': World, x: Addr, t: TxId, brother: Addr, c: Choice)
    requires Inv(w) && SplitsOff(w, w', x, t, brother, c)
    ensures ValidChoice(w.sn(x), c) && t != NO_TX && brother != NOBODY
    ensures w.sn(x).father != NOBODY ==> w.sn(x).newFather == NOBODY
  {
    assert NodeOk(w, x, w.sn(x)) && MsgOk(w, SN(brother), SN(x), NewStrNode(t));
  }

  /**
   In every run, at the step in which a node leaves a split with the commit: the driver keeps its place, level and the
   children that do not move; a moved child has the brother as its father; the brother has exactly the moved children,
   below the driver's father and at its level; a new root has the driver and the brother; and the driver's father has
   the brother besides what it had, the driver among it.
   */
  lemma MembersObey(ws: seq<World>, j: nat, k: nat, x: Addr, t: TxId, brother: Addr, c: Choice, p: Proc)
    requires Run(ws) && j < k && k + 1 < |ws| && SplitsOff(ws[j], ws[j + 1], x, t, brother, c)
    requires LeavesDone(ws[k], ws[k + 1], t, p)
    ensures
      var s := ws[j].sn(x);
      if p == SN(x) then DriverDone(ws[k + 1].sn(x), s, c) else DoneAs(ws[k], ws[k + 1], p, x, s, brother, c)
  {
    var r := Split(x, ws[j].sn(x), brother, c.moved);
    SplitBegins(ws, j, ws[j], ws[j + 1], x, t, brother, c);
    RunPlanned(ws, j + 1, k, x, t, r.n, r.outs);
    RunLeaver(ws, k, ws[k], ws[k + 1], p, x, ws[j].sn(x), brother, c);
  }

  lemma SplitBegins(ws: seq<World>, j: nat, w: World, w': World, x: Addr, t: TxId, brother: Addr, c: Choice)
    requires Run(ws) && j + 1 < |ws| && w == ws[j] && w' == ws[j + 1] && SplitsOff(w, w', x, t, brother, c)
    ensures var s := w.sn(x); var r := Split(x, s, brother, c.moved);
            && Planned(w', x, t, r.n, r.outs) && t != NO_TX && brother != NOBODY
               && (s.father != NOBODY ==> s.newFather == NOBODY)
  {
    RunStep(ws, j, w, w');
    SplitterFacts(w, w', x, t, brother, c);
    SplitIsPlanned(w, w', x, t, brother, c);
  }

  lemma RunLeaver(ws: seq<World>, k: nat, w: World, w': World, p: Proc, x: Addr, s: Node, brother: Addr, c: Choice)
    requires Run(ws) && k + 1 < |ws| && w == ws[k] && w' == ws[k + 1]
    requires ValidChoice(s, c) && s.tx != NO_TX && Upper(s) != NOBODY && brother != NOBODY
    requires s.father != NOBODY ==> s.newFather == NOBODY
    requires var r := Split(x, s, brother, c.moved); Planned(w, x, s.tx, r.n, r.outs)
    requires LeavesDone(w, w', s.tx, p)
    ensures if p == SN(x) then DriverDone(w'.sn(x), s, c) else DoneAs(w, w', p, x, s, brother, c)
  {
    RunStep(ws, k, w, w');
    RunTidy(ws, k);
    LeaverObeys(w, w', p, x, s, brother, c);
  }

  // ---------------------------------------------------------------------------------------------
  // Every split that wins has had its split step
  // ---------------------------------------------------------------------------------------------

  lemma WhoStarts(self: Addr, m: nat, n: Node, src: Proc, msg: Msg, c: Choice)
    requires ValidChoice(n, c)
    ensures
      var n' := Handle(self, m, n, src, msg, c).n;
      n'.phase == Splitting && !(n.phase == Splitting && n.tx == n'.tx)
      ==> n.phase == WaitStr && msg == NewStrNode(n.tx) && n'.tx == n.tx && Upper(n) != NOBODY
  {
  }

  /** `x` is splitting for `t`. */
  ghost predicate SplittingFor(w: World, x: Addr, t: TxId) {
    w.sn(x).phase == Splitting && w.sn(x).tx == t
  }

  lemma StepStarts(w: World, w': World, act: Action, x: Addr, t: TxId) returns (brother: Addr, c: Choice)
    requires Base(w) && Does(w, w', act) && SplittingFor(w', x, t) && !SplittingFor(w, x, t)
    ensures SplitsOff(w, w', x, t, brother, c)
  {
    brother, c := NOBODY, Choice([], false);
    match act
    case ADeliver(y, src, d) =>
      DeliverStarts(w, w', y, src, d, x, t);
      brother, c := src.a, d;
    case AReplay(y, d) =>
      ReplayStartsNothing(w, w', y, d, x, t);
    case _ =>
  }

  lemma DeliverStarts(w: World, w': World, y: Addr, src: Proc, c: Choice, x: Addr, t: TxId)
    requires Base(w) && Deliver(w, w', y, src, c) && SplittingFor(w', x, t) && !SplittingFor(w, x, t)
    ensures SplitsOff(w, w', x, t, src.a, c)
  {
    var msg := w.net(src, SN(y))[0];
    assert MsgOk(w, src, SN(y), msg);
    WhoStarts(y, w.m, w.sn(y), src, msg, c);
  }

  lemma ReplayStartsNothing(w: World, w': World, y: Addr, c: Choice, x: Addr, t: TxId)
    requires Base(w) && Replay(w, w', y, c) && !SplittingFor(w, x, t)
    ensures !SplittingFor(w', x, t)
  {
    var n := w.sn(y).(delayed := w.sn(y).delayed[1..]);
    var (src, msg) := w.sn(y).delayed[0];
    assert NodeOk(w, y, w.sn(y));
    WhoStarts(y, w.m, n, src, msg, c);
  }

  lemma RunStarts(ws: seq<World>, j: nat, w: World, w': World, x: Addr, t: TxId) returns (brother: Addr, c: Choice)
    requires Run(ws) && j + 1 < |ws| && w == ws[j] && w' == ws[j + 1] && SplittingFor(w', x, t)
    requires !SplittingFor(w, x, t)
    ensures SplitsOff(w, w', x, t, brother, c)
  {
    RunStep(ws, j, w, w');
    var act :| Does(w, w', act);
    brother, c := StepStarts(w, w', act, x, t);
  }

  lemma {:induction false} FirstSplitting(ws: seq<World>, k: nat, x: Addr, t: TxId) returns (j: nat)
    requires k < |ws| && !SplittingFor(ws[0], x, t) && SplittingFor(ws[k], x, t)
    ensures j < k && !SplittingFor(ws[j], x, t) && SplittingFor(ws[j + 1], x, t)
  {
    if SplittingFor(ws[k - 1], x, t) {
      j := FirstSplitting(ws, k - 1, x, t);
    } else {
      j := k - 1;
      assert ws[j + 1] == ws[k];
    }
  }

  lemma NotSplittingAtFirst(w: World, x: Addr, t: TxId)
    requires Initial(w)
    ensures !SplittingFor(w, x, t)
  {
  }

  lemma RecordsWin(w: World, w': World, x: Addr, n: Node, r: Reply, msg: Msg, t: TxId)
    requires Records(w, w', x, n, r, msg) && Won(w', t) && !Won(w, t)
    ensures Driving(n) && n.tx == t && msg.Ack? && !(Driving(r.n) && r.n.tx == t)
  {
  }

  lemma TookWins(w: World, w': World, x: Addr, taken: bool, src: Proc, msg: Msg, n: Node, c: Choice, r: Reply, t: TxId)
    requires Base(w) && AllCoherent(w) && Took(w, w', x, taken, src, msg, n, r) && Won(w', t) && !Won(w, t)
    requires ValidChoice(n, c) && r == Handle(x, w.m, n, src, msg, c)
    ensures SplitOf(w, x, t) && n == w.sn(x) && n.tx == t && n.phase == Splitting && taken && msg == Ack(t)
    ensures r == Committed(x, Heard(n, src)) && Heard(n, src).noAck == []
  {
    ArrivalOk(w, x, taken, src, msg, n);
    RecordsWin(w, w', x, n, r, msg, t);
    assert msg.t == t && Open(w, t);
    assert Coherent(t, View(w, t, src));
    AckIsListed(w, x, src, msg, n, t);
  }

  /** The step in which a split wins is its driver's, who takes the last acknowledgement. */
  lemma StepWins(w: World, w': World, act: Action, t: TxId)
    requires Base(w) && AllCoherent(w) && Does(w, w', act) && Won(w', t) && !Won(w, t)
    ensures act.ADeliver? && SplitOf(w, act.x, t) && SplittingFor(w, act.x, t)
    ensures w'.sn(act.x) == Committed(act.x, Heard(w.sn(act.x), act.src)).n && Heard(w.sn(act.x), act.src).noAck == []
  {
    match act
    case ADeliver(y, src, c) =>
      var n, msg := w.sn(y), w.net(src, SN(y))[0];
      DeliverTakes(w, w', y, src, c, n, msg);
      TookWins(w, w', y, true, src, msg, n, c, Handle(y, w.m, n, src, msg, c), t);
    case AReplay(y, c) => ReplayDecidesNothing(w, w', y, c);
    case _ =>
  }

  lemma RunWins(ws: seq<World>, k: nat, w: World, w': World, t: TxId) returns (x: Addr)
    requires Run(ws) && k + 1 < |ws| && w == ws[k] && w' == ws[k + 1] && Won(w', t) && !Won(w, t)
    ensures SplitOf(w, x, t) && SplittingFor(w, x, t)
  {
    RunStep(ws, k, w, w');
    var act :| Does(w, w', act);
    StepWins(w, w', act, t);
    x := act.x;
  }

  lemma {:induction false} FirstWon(ws: seq<World>, k: nat, t: TxId) returns (i: nat)
    requires k < |ws| && !Won(ws[0], t) && Won(ws[k], t)
    ensures i < k && !Won(ws[i], t) && Won(ws[i + 1], t)
  {
    if Won(ws[k - 1], t) {
      i := FirstWon(ws, k - 1, t);
    } else {
      i := k - 1;
      assert ws[i + 1] == ws[k];
    }
  }

  lemma NotWonAtFirst(w: World, t: TxId)
    requires Initial(w)
    ensures !Won(w, t)
  {
  }

  /** A split that has won has had the step that `MembersObey` speaks of. */
  lemma WonWasPlanned(ws: seq<World>, k: nat, t: TxId) returns (j: nat, x: Addr, brother: Addr, c: Choice)
    requires Run(ws) && k < |ws| && Won(ws[k], t)
    ensures j < k && SplitsOff(ws[j], ws[j + 1], x, t, brother, c)
  {
    NotWonAtFirst(ws[0], t);
    var i := FirstWon(ws, k, t);
    x := RunWins(ws, i, ws[i], ws[i + 1], t);
    NotSplittingAtFirst(ws[0], x, t);
    j := FirstSplitting(ws, i, x, t);
    brother, c := RunStarts(ws, j, ws[j], ws[j + 1], x, t);
  }

  // ---------------------------------------------------------------------------------------------
  // Who leaves without the commit
  // ---------------------------------------------------------------------------------------------

  /** In this step `p` gives `t` up. */
  ghost predicate LeavesUndone(w: World, w': World, t: TxId, p: Proc) {
    TxOf(w, p) == t && TxOf(w', p) != t && (t, p) in w'.log && !w'.log[(t, p)]
  }

  lemma {:induction false} RollbackLeavesReals(zs: seq<Zone>)
    requires forall z | z in zs :: ZoneOk(z)
    ensures Actuals(RollbackZones(zs)) == Reals(zs)
  {
    if zs != [] {
      assert zs[0] in zs && forall z | z in zs[1..] :: z in zs;
      RollbackLeavesReals(zs[1..]);
      var rest := RollbackZones(zs[1..]);
      if !zs[0].IsAddition() {
        var z := if zs[0].IsDeletion() then zs[0].Rollback() else zs[0];
        assert RollbackZones(zs) == [z] + rest && z.actual == zs[0].actual;
        assert Actuals([z] + rest) == [z.actual] + Actuals(rest);
      }
    }
  }

  lemma HowItGivesUp(self: Addr, m: nat, n: Node, src: Proc, msg: Msg, c: Choice)
    requires ValidChoice(n, c) && n.tx != NO_TX && !msg.Commit? && !msg.Ack?
    ensures var n' := Handle(self, m, n, src, msg, c).n;
            n'.tx != n.tx ==> n'.father == n.father && n'.zones == RollbackZones(n.zones)
  {
  }

  lemma DeliveryGivesUp(w: World, w': World, y: Addr, src: Proc, c: Choice, t: TxId)
    requires Base(w) && Deliver(w, w', y, src, c) && t != NO_TX && LeavesUndone(w, w', t, SN(y))
    ensures w'.sn(y).father == w.sn(y).father && Actuals(w'.sn(y).zones) == Reals(w.sn(y).zones)
  {
    var n := w.sn(y);
    HowItGivesUp(y, w.m, n, src, w.net(src, SN(y))[0], c);
    assert NodeOk(w, y, n);
    forall z | z in n.zones ensures ZoneOk(z) { assert LinkOk(w, y, n, z); }
    RollbackLeavesReals(n.zones);
  }

  lemma GivesUp(w: World, w': World, act: Action, t: TxId, p: Proc)
    requires Base(w) && Does(w, w', act) && t != NO_TX && LeavesUndone(w, w', t, p)
    ensures FatherOf(w', p) == FatherOf(w, p) && (p.SN? ==> Actuals(w'.sn(p.a).zones) == Reals(w.sn(p.a).zones))
  {
    if p.SN? {
      if act.AOffer? { OfferLeavesNothing(w, w', act.y, act.x, act.t, p.a); }
      OnlyDeliveryLeaves(w, w', act, p.a);
      DeliveryGivesUp(w, w', p.a, act.src, act.c, t);
    } else {
      ResourceGivesUp(w, w', act, t, p.a);
    }
  }

  lemma ResourceGivesUp(w: World, w': World, act: Action, t: TxId, a: Addr)
    requires Does(w, w', act) && t != NO_TX && LeavesUndone(w, w', t, RN(a))
    ensures w'.rn(a).father == w.rn(a).father
  {
  }

  /**
   Whoever leaves a transaction without the commit, driver or member, has the father and the children it had before.
   */
  lemma NothingIsLost(ws: seq<World>, k: nat, t: TxId, p: Proc)
    requires Run(ws) && k + 1 < |ws| && t != NO_TX && LeavesUndone(ws[k], ws[k + 1], t, p)
    ensures FatherOf(ws[k + 1], p) == FatherOf(ws[k], p)
    ensures p.SN? ==> Actuals(ws[k + 1].sn(p.a).zones) == Reals(ws[k].sn(p.a).zones)
  {
    RunGivesUp(ws, k, ws[k], ws[k + 1], t, p);
  }

  lemma RunGivesUp(ws: seq<World>, k: nat, w: World, w': World, t: TxId, p: Proc)
    requires Run(ws) && k + 1 < |ws| && w == ws[k] && w' == ws[k + 1] && t != NO_TX && LeavesUndone(w, w', t, p)
    ensures FatherOf(w', p) == FatherOf(w, p) && (p.SN? ==> Actuals(w'.sn(p.a).zones) == Reals(w.sn(p.a).zones))
  {
    RunStep(ws, k, w, w');
    var act :| Does(w, w', act);
    GivesUp(w, w', act, t, p);
  }
}
