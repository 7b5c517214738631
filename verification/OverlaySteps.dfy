/** Every step of a structure node keeps every pair coherent and every node well-formed. */
module OverlaySteps {
  import opened Overlay
  import opened OverlayProtocol
  import opened OverlayPairs
  import opened OverlayInvariant
  import opened OverlaySafety
  import opened OverlayRoles
  import opened OverlayMember
  import opened OverlayDriver

  // ---------------------------------------------------------------------------------------------
  // Pairs
  // ---------------------------------------------------------------------------------------------

  /** The children that move are settled structure nodes, or resource nodes. */
  lemma MoversPlaced(w: World, x: Addr, n: Node, c: Choice, q: Proc)
    requires LinksOk(w, x, n) && Driving(n) && ValidChoice(n, c) && q in Movers(n, c.moved)
    ensures q.RN? || Settled(w, q.a)
  {
    var i :| 0 <= i < |c.moved| && Movers(n, c.moved)[i] == q;
    var z := n.zones[c.moved[i]];
    assert z in n.zones && LinkOk(w, x, n, z);
  }

  /** An acknowledgement of an open split comes from a node that is listed, when the driver no longer waits. */
  lemma AckIsListed(w: World, x: Addr, src: Proc, msg: Msg, n: Node, t: TxId)
    requires Base(w) && Arrives(w, x, true, src, msg, n) && msg == Ack(t) && t in w.split && t in w.owner
    requires w.owner[t] == SN(x)
    requires t !in w.decided && Driving(n) && Coherent(t, View(w, t, src))
    ensures src in n.noAck && n.phase == Splitting
  {
    NumPositive(w.net(src, SN(x)), Acked, t, msg);
    TimesIn(n.noAck, src);
    var v := View(w, t, src);
    assert v.md.acks > 0;
  }

  lemma GoodBooksHold(w: World, x: Addr, taken: bool, src: Proc, msg: Msg, n: Node, t: TxId, q: Proc, c: Choice)
    requires Base(w) && AllCoherent(w) && Arrives(w, x, taken, src, msg, n) && ValidChoice(n, c)
    requires t in w.split && t !in w.decided && DriverKnown(w, x, taken, src, msg, n, t) && q != SN(x)
    ensures GoodBooks(View(w, t, q), x, n, src, msg, t, q, c)
  {
    ArrivalOk(w, x, taken, src, msg, n);
    if msg == Ack(t) {
      assert Coherent(t, View(w, t, src));
      AckIsListed(w, x, src, msg, n, t);
    }
    if q in Movers(n, c.moved) { MoversPlaced(w, x, n, c, q); }
  }

  lemma DriverKeeps(w: World, w': World, x: Addr, taken: bool, src: Proc, msg: Msg, n: Node, c: Choice, r: Reply,
                    t: TxId, q: Proc)
    requires Base(w) && AllCoherent(w) && Took(w, w', x, taken, src, msg, n, r) && ValidChoice(n, c)
    requires r == Handle(x, w.m, n, src, msg, c)
    requires t in w.split && t in w.owner && w.owner[t] == SN(x) && q != SN(x)
    requires q.SN? && Settled(w, q.a) ==> Settled(w', q.a)
    requires Coherent(t, View(w, t, q))
    ensures Coherent(t, View(w', t, q))
  {
    DriverFacts(w, x, taken, src, msg, n, t);
    if t in w.decided {
      DriverLate(w, w', x, taken, src, msg, n, c, r, t, q);
    } else {
      TxMoves(x, w.m, n, src, msg, c);
      OpenView(w, w', x, taken, src, msg, n, r, t, q);
      GoodBooksHold(w, x, taken, src, msg, n, t, q, c);
      OpenPair(View(w, t, q), View(w', t, q), t, q, x, w.m, taken, src, msg, n, c, r);
    }
  }

  lemma BystanderKeeps(w: World, w': World, x: Addr, taken: bool, src: Proc, msg: Msg, n: Node, c: Choice, r: Reply,
                       t: TxId, q: Proc)
    requires Took(w, w', x, taken, src, msg, n, r) && ValidChoice(n, c) && r == Handle(x, w.m, n, src, msg, c)
    requires t in w.owner && w.owner[t] != SN(x) && q != SN(x) && Known(w, x, taken, src, msg, n, t)
    requires Coherent(t, View(w, t, q)) && (q.SN? && Settled(w, q.a) ==> Settled(w', q.a))
    requires Settled(w, x) ==> Settled(w', x)
    ensures Coherent(t, View(w', t, q))
  {
    StepFits(w, w', x, taken, src, msg, n, c, r, t);
    Bystander(w, w', x, taken, src, msg, n, r, t, q);
    BystanderPair(w', t, q, View(w, t, q), View(w', t, q));
  }

  lemma BystanderPair(w': World, t: TxId, q: Proc, v: Pair, v': Pair)
    requires Coherent(t, v) && v' == v.(settled := v'.settled) && (v.settled ==> v'.settled)
    requires t in w'.owner && v' == View(w', t, q)
    ensures Coherent(t, v')
  {
    OtherBusiness(t, v, v');
  }

  lemma TookPairs(w: World, w': World, x: Addr, taken: bool, src: Proc, msg: Msg, n: Node, c: Choice, r: Reply)
    requires Inv(w) && Took(w, w', x, taken, src, msg, n, r) && ValidChoice(n, c) && r == Handle(x, w.m, n, src, msg, c)
    requires Grows(w, w')
    ensures AllCoherent(w')
  {
    forall t, q: Proc | t in w'.split && t in w'.owner && q != w'.owner[t] && q.a != NOBODY
      ensures Coherent(t, View(w', t, q)) {
      assert Coherent(t, View(w, t, q));
      assert (Settled(w, q.a) ==> Settled(w', q.a)) && (Settled(w, x) ==> Settled(w', x));
      if w.owner[t] == SN(x) {
        DriverKeeps(w, w', x, taken, src, msg, n, c, r, t, q);
      } else if q == SN(x) {
        MemberKeeps(w, w', x, taken, src, msg, n, c, r, t);
      } else {
        MemberFacts(w, x, taken, src, msg, n, t);
        BystanderKeeps(w, w', x, taken, src, msg, n, c, r, t, q);
      }
    }
  }
}
