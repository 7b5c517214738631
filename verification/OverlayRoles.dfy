/** A step of a structure node, seen by one split: as the node asked, as the driver, or as neither. */
module OverlayRoles {
  import opened Overlay
  import opened OverlayProtocol
  import opened OverlayPairs
  import opened OverlayInvariant
  import opened OverlaySafety

  /** An answer about the message's transaction, or something sent as the driver of its own. */
  predicate Answer(n: Node, src: Proc, msg: Msg, o: Out) {
    || (o.to == src && o.msg == Ack(msg.t) && IsRequest(msg))
    || (o.to == src && o.msg == Nack(msg.t) && IsRequest(msg))
    || (o.to == src && o.msg == Rollback(msg.t) && (msg.NewStrNode? || msg.Ack?))
    || (Driving(n) && o.msg.t == n.tx && (o.msg.Commit? || o.msg.Rollback? || IsRequest(o.msg)))
  }

  lemma SplitAsks(self: Addr, n: Node, brother: Addr, moved: seq<nat>)
    requires forall i | 0 <= i < |moved| :: moved[i] < |n.zones|
    ensures forall o | o in Split(self, n, brother, moved).outs :: o.msg.t == n.tx && IsRequest(o.msg)
  {
  }

  lemma OutcomeTells(self: Addr, n: Node)
    ensures forall o | o in Committed(self, n).outs :: o.msg == Commit(n.tx) && o.to in n.acked
    ensures forall o | o in RolledBack(self, n).outs :: o.msg == Rollback(n.tx) && o.to in n.acked
  {
  }

  /** A handler sends nothing else. */
  lemma Answers(self: Addr, m: nat, n: Node, src: Proc, msg: Msg, c: Choice)
    requires ValidChoice(n, c) && (!Driving(n) ==> n.noAck == [] && n.acked == [])
    ensures forall o | o in Handle(self, m, n, src, msg, c).outs :: Answer(n, src, msg, o)
  {
    OutcomeTells(self, n);
    match msg
    case NewStrNode(t) =>
      SplitAsks(self, n, src.a, c.moved);
    case Ack(t) =>
      AckAnswers(self, n, src, t);
    case NewFather(_, _) =>
      FatherAnswers(self, n, src, msg);
    case _ =>
  }

  lemma AckAnswers(self: Addr, n: Node, src: Proc, t: TxId)
    requires !Driving(n) ==> n.noAck == [] && n.acked == []
    ensures forall o | o in OnAck(self, n, src, t).outs :: Answer(n, src, Ack(t), o)
  {
    if n.tx == t && n.driver == self && src in n.noAck {
      OutcomeTells(self, n.(noAck := RemoveFirst(n.noAck, src),
        acked := if src in n.acked then n.acked else n.acked + [src]));
    } else {
      OutcomeTells(self, n);
    }
  }

  lemma FatherAnswers(self: Addr, n: Node, src: Proc, msg: Msg)
    requires msg.NewFather? && (!Driving(n) ==> n.noAck == [] && n.acked == [])
    ensures forall o | o in OnNewFather(self, n, src, msg).outs :: Answer(n, src, msg, o)
  {
    OutcomeTells(self, n);
  }

  /** How a handler may move a node from one transaction to another. */
  predicate Moves(n: Node, n': Node, src: Proc, msg: Msg) {
    && (n'.tx == n.tx || n'.tx == msg.t || n'.tx == NO_TX)
    && (n'.tx == n.tx && n'.phase != n.phase ==> n.tx == msg.t || n.tx == NO_TX)
    && (n'.tx != n.tx && n.tx != NO_TX && n.tx != msg.t ==>
          && msg.NewFather? && src.a == n.father
          && n.phase != AddChild && n.phase != StartIn && n.phase != Init)
    && (n'.delayed == n.delayed
        || (n'.delayed == n.delayed + [(src, msg)] && n' == n.(delayed := n'.delayed) && IsRequest(msg)))
    && (Driving(n') ==> Driving(n) && n'.tx == n.tx)
  }

  lemma TxMoves(self: Addr, m: nat, n: Node, src: Proc, msg: Msg, c: Choice)
    requires ValidChoice(n, c)
    ensures Moves(n, Handle(self, m, n, src, msg, c).n, src, msg)
  {
  }

  lemma {:induction false} DelayedAppend(a: seq<(Proc, Msg)>, b: seq<(Proc, Msg)>, t: TxId)
    ensures NumDelayed(a + b, t) == NumDelayed(a, t) + NumDelayed(b, t)
    ensures FatherDelayed(a + b, t) <==> FatherDelayed(a, t) || FatherDelayed(b, t)
  {
    if a == [] {
      assert a + b == b;
    } else {
      DelayedAppend(a[1..], b, t);
      assert (a + b)[1..] == a[1..] + b;
      assert a + b == [a[0]] + (a[1..] + b);
      assert a == [a[0]] + a[1..];
    }
  }

  // ---------------------------------------------------------------------------------------------
  // Views after a step
  // ---------------------------------------------------------------------------------------------

  /** The view of the node that takes the step: its state, its two links and its log change. */
  lemma MemberView(w: World, w': World, x: Addr, taken: bool, src: Proc, msg: Msg, n: Node, r: Reply, t: TxId)
    requires Took(w, w', x, taken, src, msg, n, r) && (Settled(w, x) ==> Settled(w', x))
    requires t in w.owner && w.owner[t].SN? && w.owner[t] != SN(x)
    requires Driving(n) ==> n.tx in w.owner && w.owner[n.tx] == SN(x)
    requires Driving(r.n) ==> r.n.tx in w.owner && w.owner[r.n.tx] == SN(x)
    requires forall o | o in r.outs && o.msg.t == t :: !o.msg.Commit? && !o.msg.Rollback?
    ensures
      var d, v, v' := w.owner[t], View(w, t, SN(x)), View(w', t, SN(x));
      && v'.isSN && v'.phase == r.n.phase && v'.tx == r.n.tx
      && v'.fate == v.fate && v'.waiting == v.waiting && v'.noAck == v.noAck && v'.acked == v.acked
      && v'.enlisted == v.enlisted && v'.toldCommit == v.toldCommit && v'.toldRollback == v.toldRollback
      && v'.settled == Settled(w', x) && (v.settled ==> v'.settled)
      && v'.delayed == NumDelayed(r.n.delayed, t) && v'.fatherDelayed == FatherDelayed(r.n.delayed, t)
      && v'.dm == DownOf(if taken && src == d then w.net(d, SN(x))[1..] else w.net(d, SN(x)), t)
      && v'.md == UpOf(w.net(SN(x), d) + For(r.outs, d), t)
      && v'.exit == if n.tx == t && t != NO_TX && r.n.tx != t then Left(msg.Commit? || msg.Ack?) else v.exit
  {
    var d := w.owner[t];
    assert d.SN? && d.a != x;
  }

  /** The driver takes the step: what it knows of another node. */
  lemma DriverBooks(w: World, w': World, x: Addr, taken: bool, src: Proc, msg: Msg, n: Node, r: Reply, t: TxId, q: Proc)
    requires Took(w, w', x, taken, src, msg, n, r) && (q.SN? && Settled(w, q.a) ==> Settled(w', q.a))
    requires t in w.owner && w.owner[t] == SN(x) && q != SN(x)
    ensures
      var v, v' := View(w, t, q), View(w', t, q);
      && DriverStep(v, v')
      && v'.settled == (q.RN? || Settled(w', q.a))
      && v'.fate == (if t in w'.decided then Decided(w'.decided[t]) else Running)
      && v'.waiting == (v'.fate == Running && r.n.phase == WaitStr)
      && v'.noAck == (if v'.fate == Running then Times(r.n.noAck, q) else 0)
      && v'.acked == (v'.fate == Running && q in r.n.acked)
      && v'.enlisted == (q in Enlisted(w', t))
  {
  }

  /** The driver takes the step: the links to and from another node, and what it was told. */
  lemma DriverLinks(w: World, w': World, x: Addr, taken: bool, src: Proc, msg: Msg, n: Node, r: Reply, t: TxId, q: Proc)
    requires Took(w, w', x, taken, src, msg, n, r)
    requires t in w.owner && w.owner[t] == SN(x) && q != SN(x)
    ensures
      var v, v' := View(w, t, q), View(w', t, q);
      && v'.dm == DownOf(w.net(SN(x), q) + For(r.outs, q), t)
      && v'.md == UpOf(if taken && src == q then w.net(q, SN(x))[1..] else w.net(q, SN(x)), t)
      && v'.toldCommit == (v.toldCommit || Out(q, Commit(t)) in r.outs)
      && v'.toldRollback == (v.toldRollback || Out(q, Rollback(t)) in r.outs)
  {
  }

  /** A split is not concerned by the step of a node that neither drives it nor is the node looked at. */
  lemma Bystander(w: World, w': World, x: Addr, taken: bool, src: Proc, msg: Msg, n: Node, r: Reply, t: TxId, q: Proc)
    requires Took(w, w', x, taken, src, msg, n, r) && (q.SN? && Settled(w, q.a) ==> Settled(w', q.a))
    requires t in w.owner && w.owner[t].SN? && w.owner[t] != SN(x) && q != SN(x)
    requires Driving(n) ==> n.tx in w.owner && w.owner[n.tx] == SN(x)
    requires Driving(r.n) ==> r.n.tx in w.owner && w.owner[r.n.tx] == SN(x)
    requires forall o | o in r.outs && o.msg.t == t :: !o.msg.Commit? && !o.msg.Rollback?
    ensures View(w', t, q) == View(w, t, q).(settled := View(w', t, q).settled)
    ensures View(w, t, q).settled ==> View(w', t, q).settled
  {
    assert w'.net(w.owner[t], q) == w.net(w.owner[t], q);
    assert w'.net(q, w.owner[t]) == w.net(q, w.owner[t]);
    assert Enlisted(w', t) == Enlisted(w, t);
    assert w'.sn(w.owner[t].a) == w.sn(w.owner[t].a);
  }
}
