/**
 What every reachable overlay keeps: well-formed nodes and messages, and a coherent pair for every
 split and every other node.
 */
module OverlayInvariant {
  import opened Common
  import opened Overlay
  import opened OverlayProtocol
  import opened OverlayPairs

  ghost predicate Open(w: World, t: TxId) {
    t in w.split && t !in w.decided
  }

  ghost predicate Won(w: World, t: TxId) {
    t in w.decided && w.decided[t]
  }

  ghost predicate Lost(w: World, t: TxId) {
    t in w.decided && !w.decided[t]
  }

  /** An address of a structure node that has its place in the tree, now or as soon as its commit arrives. */
  ghost predicate Settled(w: World, a: Addr) {
    var n := w.sn(a);
    n.phase != Offline && n.phase != StartIn && (n.phase == Init ==> Won(w, n.tx))
  }

  /** An address that node `self` may be linked to when `t` commits. */
  ghost predicate Candidate(w: World, t: TxId, self: Addr, a: Addr) {
    a != NOBODY && a != self && (SN(a) in Enlisted(w, t) || (t in w.owner && SN(a) == w.owner[t]))
  }

  // ---------------------------------------------------------------------------------------------
  // Messages
  // ---------------------------------------------------------------------------------------------

  ghost predicate RequestOk(w: World, q: Proc, msg: Msg) {
    && q in Enlisted(w, msg.t)
    && match msg
       case NewFather(t, f) =>
         f != NOBODY && SN(f) in Enlisted(w, t) && q != SN(f)
       case NewChild(t, c) =>
         q.SN? && Candidate(w, t, q.a, c)
       case InitStrNode(t, f, cs, level) =>
         && q.SN? && (f != NOBODY ==> Candidate(w, t, q.a, f)) && |cs| <= 2 * w.m
         && (forall i | 0 <= i < |cs| :: cs[i] != NOBODY)
         && (level > 0 ==> forall i | 0 <= i < |cs| :: Candidate(w, t, q.a, cs[i]))
       case _ => false
  }

  /** A message from `p` to `q` belongs to a known transaction and goes in the right direction. */
  ghost predicate MsgOk(w: World, p: Proc, q: Proc, msg: Msg) {
    && p.a != NOBODY && q.a != NOBODY && p != q && msg.t != NO_TX && msg.t in w.owner
    && match msg
       case NewStrNode(t) => t in w.split && p.SN? && q == w.owner[t]
       case Ack(t) => q == w.owner[t] && (t !in w.split ==> (q.a, t) !in w.inserts)
       case Nack(t) => t in w.split && q == w.owner[t]
       case Commit(t) => p == w.owner[t]
       case Rollback(t) => t in w.split && p == w.owner[t]
       case _ => msg.t in w.split && p == w.owner[msg.t] && RequestOk(w, q, msg)
  }

  ghost predicate DelayedOk(w: World, q: Proc, ds: seq<(Proc, Msg)>) {
    forall d | d in ds :: MsgOk(w, d.0, q, d.1) && (d.1.NewFather? || d.1.NewChild?)
  }

  // ---------------------------------------------------------------------------------------------
  // Nodes
  // ---------------------------------------------------------------------------------------------

  /** A zone is being added, or it is real and changes at most into nothing. */
  predicate ZoneOk(z: Zone) {
    if z.actual == NOBODY then z.changing && z.next != NOBODY
    else z.changing && z.next != NOBODY ==> z.next == z.actual
  }

  /**
   A link to a structure node leads to another, settled one; a pending link to one that commits in the same
   transaction.
   */
  ghost predicate LinkOk(w: World, x: Addr, n: Node, z: Zone) {
    && ZoneOk(z)
    && (n.level > 0 ==>
          if z.actual != NOBODY then z.actual != x && Settled(w, z.actual)
          else n.tx != NO_TX && Candidate(w, n.tx, x, z.next))
  }

  ghost predicate LinksOk(w: World, x: Addr, n: Node) {
    && |n.zones| <= 2 * w.m
    && (n.father != NOBODY ==> n.father != x && Settled(w, n.father))
    && (n.newFather != NOBODY ==> n.tx != NO_TX && Candidate(w, n.tx, x, n.newFather))
    && (forall z | z in n.zones :: LinkOk(w, x, n, z))
    && (n.phase == Offline || n.phase == StartIn ==> n.zones == [])
    && (n.phase == Init ==> forall z | z in n.zones :: z.actual == NOBODY)
    && (n.phase != Splitting ==> forall z | z in n.zones :: !z.IsDeletion())
    && (n.phase != Init && n.phase != AddChild ==> forall z | z in n.zones :: z.actual != NOBODY)
  }

  ghost predicate TxOk(w: World, x: Addr, n: Node) {
    && (n.tx == NO_TX <==> n.phase == Offline || n.phase == Online)
    && (n.tx != NO_TX ==> x != NOBODY && n.tx in w.owner && n.driver == w.owner[n.tx].a)
    && (n.tx != NO_TX && n.phase != AddChild ==> n.tx in w.split)
    && (n.phase == ChangeFather ==> n.father == n.driver)
    && (n.phase == AddChild && n.tx !in w.split ==> n.level == 0)
    && ((n.phase == Offline && n.level > 0) || n.phase == StartIn || n.phase == Init ==> w.rn(x).father != NOBODY)
  }

  ghost predicate DriverOk(w: World, x: Addr, n: Node) {
    && (Driving(n) ==> n.tx in w.owner && w.owner[n.tx] == SN(x) && Open(w, n.tx))
    && (!Driving(n) ==> n.noAck == [] && n.acked == [] && (n.tx != NO_TX && n.tx in w.owner ==> w.owner[n.tx] != SN(x)))
    && (forall p | p in n.noAck || p in n.acked :: p != SN(x) && p.a != NOBODY)
    && (Driving(n) ==> Enlisted(w, n.tx) == (set p | p in n.noAck) + set p | p in n.acked)
    && (forall i, j | 0 <= i < j < |n.acked| :: n.acked[i] != n.acked[j])
    && (n.phase == WaitStr ==>
          && n.acked == [] && |n.zones| == 2 * w.m
          && n.noAck == if n.newFather == NOBODY then [] else [SN(n.newFather)])
    && (n.phase == WaitStr && n.newFather != NOBODY ==> n.father == NOBODY)
  }

  ghost predicate NodeOk(w: World, x: Addr, n: Node) {
    TxOk(w, x, n) && DriverOk(w, x, n) && LinksOk(w, x, n) && DelayedOk(w, SN(x), n.delayed)
  }

  ghost predicate ResOk(w: World, a: Addr, r: Res) {
    && (r.tx != NO_TX ==> r.tx in w.owner && a != NOBODY)
    && (r.tx != NO_TX && r.tx in w.split ==> r.newFather != NOBODY)
    && (r.tx != NO_TX && r.tx !in w.split ==> w.owner[r.tx] == RN(a))
    && DelayedOk(w, RN(a), r.delayed)
    && (forall o | o in r.owed :: o.msg.Commit? && MsgOk(w, RN(a), o.to, o.msg) && o.msg.t !in w.split)
  }

  // ---------------------------------------------------------------------------------------------
  // Worlds
  // ---------------------------------------------------------------------------------------------

  ghost predicate NetOk(w: World) {
    forall p, q, msg | msg in w.net(p, q) :: MsgOk(w, p, q, msg)
  }

  ghost predicate NodesOk(w: World) {
    (forall x :: NodeOk(w, x, w.sn(x))) && (forall a :: ResOk(w, a, w.rn(a)))
  }

  ghost predicate SplitsOk(w: World) {
    && (forall t | t in w.owner :: t != NO_TX && w.owner[t].a != NOBODY && (t in w.split <==> w.owner[t].SN?))
    && (forall t | t in w.split :: t in w.owner && Settled(w, w.owner[t].a))
    && (forall t | t in w.decided || t in w.enlisted :: t in w.split)
    && (forall t | Open(w, t) :: Driving(w.sn(w.owner[t].a)) && w.sn(w.owner[t].a).tx == t)
    && (forall d | d in w.inserts :: d.1 in w.owner && d.1 !in w.split && w.owner[d.1] == RN(d.0)
                                     && w.rn(d.0).tx == d.1 && w.rn(d.0).father == NOBODY)
    && (forall k | k in w.log :: k.0 in w.owner)
    && (forall k | k in w.told :: k.0 in w.owner)
  }

  ghost predicate Base(w: World) {
    w.m >= 2 && NetOk(w) && NodesOk(w) && SplitsOk(w)
  }

  ghost function NumDelayed(ds: seq<(Proc, Msg)>, t: TxId): nat {
    if ds == [] then 0 else One(Is(ds[0].1, Request, t)) + NumDelayed(ds[1..], t)
  }

  ghost function Times(ps: seq<Proc>, p: Proc): nat {
    if ps == [] then 0 else One(ps[0] == p) + Times(ps[1..], p)
  }

  predicate FatherDelayed(ds: seq<(Proc, Msg)>, t: TxId) {
    exists e :: e in ds && e.1.NewFather? && e.1.t == t
  }

  ghost function View(w: World, t: TxId, q: Proc): Pair
    requires t in w.owner
  {
    var d := w.owner[t];
    var dn := w.sn(d.a);
    var fate := if t in w.decided then Decided(w.decided[t]) else Running;
    var tx := if q.SN? then w.sn(q.a).tx else w.rn(q.a).tx;
    var ds := if q.SN? then w.sn(q.a).delayed else w.rn(q.a).delayed;
    Pair(
      q.SN?, if q.SN? then w.sn(q.a).phase else Online, tx, q.RN? || Settled(w, q.a),
      NumDelayed(ds, t), FatherDelayed(ds, t),
      fate, fate == Running && dn.phase == WaitStr, if fate == Running then Times(dn.noAck, q) else 0,
      fate == Running && q in dn.acked, q in Enlisted(w, t),
      DownOf(w.net(d, q), t), UpOf(w.net(q, d), t),
      if (t, q) in w.log then Left(w.log[(t, q)]) else Never, (t, q, true) in w.told, (t, q, false) in w.told)
  }

  ghost predicate AllCoherent(w: World) {
    forall t, q: Proc | t in w.split && t in w.owner && q != w.owner[t] && q.a != NOBODY :: Coherent(t, View(w, t, q))
  }

  /** Other peers are enlisted, never the driver itself. */
  ghost predicate EnlistedOk(w: World) {
    forall t, p: Proc | t in w.owner && p in Enlisted(w, t) :: p != w.owner[t] && p.a != NOBODY
  }

  /** Nodes are searched for on behalf of the driver of a split. */
  ghost predicate SearchesOk(w: World) {
    forall d | d in w.needed || d in w.armed :: d.1 in w.owner && d.1 in w.split && w.owner[d.1] == SN(d.0)
  }

  ghost predicate Inv(w: World) {
    Base(w) && AllCoherent(w) && EnlistedOk(w) && SearchesOk(w)
  }

  lemma InitialIsGood(w: World)
    requires Initial(w)
    ensures Inv(w)
  {
  }

  // ---------------------------------------------------------------------------------------------
  // What only grows
  // ---------------------------------------------------------------------------------------------

  ghost predicate Grows(w: World, w': World) {
    && w'.m == w.m
    && (forall t | t in w.owner :: t in w'.owner && w'.owner[t] == w.owner[t] && (t in w.split <==> t in w'.split))
    && (forall t :: Enlisted(w, t) <= Enlisted(w', t))
    && (forall t | t in w.decided :: t in w'.decided && w'.decided[t] == w.decided[t])
    && (forall a | Settled(w, a) :: Settled(w', a))
    && (forall a | w.rn(a).father != NOBODY :: w'.rn(a).father != NOBODY)
    && (forall d | d in w'.inserts :: d in w.inserts || d.1 !in w.owner)
  }

  lemma SameEnlisted(w: World, w': World)
    requires EnlistedOk(w) && w'.enlisted == w.enlisted && w'.owner == w.owner
    ensures EnlistedOk(w')
  {
    forall t ensures Enlisted(w', t) == Enlisted(w, t) {}
  }

  lemma SearchesStayOk(w: World, w': World)
    requires SearchesOk(w) && Grows(w, w')
    requires forall d | d in w'.needed || d in w'.armed :: d in w.needed || d in w.armed
    ensures SearchesOk(w')
  {
  }

  lemma MsgStaysOk(w: World, w': World, p: Proc, q: Proc, msg: Msg)
    requires Grows(w, w') && MsgOk(w, p, q, msg)
    ensures MsgOk(w', p, q, msg)
  {
  }

  lemma DelayedStayOk(w: World, w': World, q: Proc, ds: seq<(Proc, Msg)>)
    requires Grows(w, w') && DelayedOk(w, q, ds)
    ensures DelayedOk(w', q, ds)
  {
    forall d | d in ds ensures MsgOk(w', d.0, q, d.1) { MsgStaysOk(w, w', d.0, q, d.1); }
  }

  lemma LinksStayOk(w: World, w': World, x: Addr, n: Node)
    requires Grows(w, w') && LinksOk(w, x, n)
    ensures LinksOk(w', x, n)
  {
  }

  lemma NodeStaysOk(w: World, w': World, x: Addr, n: Node)
    requires Grows(w, w') && NodeOk(w, x, n)
    requires Driving(n) ==> Open(w', n.tx) && Enlisted(w', n.tx) == Enlisted(w, n.tx)
    ensures NodeOk(w', x, n)
  {
    LinksStayOk(w, w', x, n);
    DelayedStayOk(w, w', SN(x), n.delayed);
  }

  lemma ResStaysOk(w: World, w': World, a: Addr, r: Res)
    requires Grows(w, w') && ResOk(w, a, r)
    ensures ResOk(w', a, r)
  {
    DelayedStayOk(w, w', RN(a), r.delayed);
    forall o | o in r.owed ensures MsgOk(w', RN(a), o.to, o.msg) { MsgStaysOk(w, w', RN(a), o.to, o.msg); }
  }
}
