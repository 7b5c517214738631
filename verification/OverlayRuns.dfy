/** The remaining steps, whole runs, and what follows for every split. */
module OverlayRuns {
  import opened Overlay
  import opened OverlayProtocol
  import opened OverlayPairs
  import opened OverlayInvariant
  import opened OverlaySafety
  import opened OverlayRoles
  import opened OverlayMember
  import opened OverlayDriver
  import opened OverlayHandlers
  import opened OverlayResources

  // ---------------------------------------------------------------------------------------------
  // A structure node enters a transaction on its own
  // ---------------------------------------------------------------------------------------------

  /** `x`, in no transaction, becomes `n'` in transaction `t` and sends `o`. */
  ghost predicate Enters(w: World, w': World, x: Addr, n': Node, o: Out, t: TxId) {
    && x != NOBODY && t != NO_TX && t in w.owner && o.msg.t == t && w.sn(x).tx == NO_TX && n'.tx == t
    && n'.delayed == w.sn(x).delayed
    && OnlySN(w, w', x, n') && Sends(w, w', SN(x), false, SN(x), [o])
    && w' == w.(sn := w'.sn, net := w'.net, inserts := w'.inserts, needed := w'.needed)
    && w'.inserts <= w.inserts && w'.needed <= w.needed
    && n'.phase != Offline && (n'.phase == StartIn ==> w.sn(x).phase == Offline) && n'.phase != Init && !Driving(n')
  }

  lemma EntersGrows(w: World, w': World, x: Addr, n': Node, o: Out, t: TxId)
    requires Base(w) && Enters(w, w', x, n', o, t)
    ensures Grows(w, w')
  {
    assert NodeOk(w, x, w.sn(x));
    forall a | Settled(w, a) ensures Settled(w', a) {}
  }

  lemma EntersOther(w: World, w': World, x: Addr, n': Node, o: Out, t: TxId, s: TxId, q: Proc)
    requires Enters(w, w', x, n', o, t) && Grows(w, w') && s in w.owner && s in w.split && w.owner[s].SN?
    requires s in w.decided || w.owner[s] != SN(x)
    requires s != NO_TX && w.owner[t] != SN(x) && (s != t || q != SN(x))
    requires Coherent(s, View(w, s, q)) && q != w.owner[s]
    ensures Coherent(s, View(w', s, q))
  {
    var d := w.owner[s];
    var v, v' := View(w, s, q), View(w', s, q);
    assert q.SN? && Settled(w, q.a) ==> Settled(w', q.a);
    if d == SN(x) {
      EntersAsDriver(w, w', x, n', o, t, s, q);
    } else if q == SN(x) {
      EntersAsMember(w, w', x, n', o, t, s);
    } else {
      EntersElsewhere(w, w', x, n', o, t, s, q);
      OtherBusiness(s, v, v');
    }
  }

  lemma EntersElsewhere(w: World, w': World, x: Addr, n': Node, o: Out, t: TxId, s: TxId, q: Proc)
    requires Enters(w, w', x, n', o, t) && s in w.owner && w.owner[s].SN? && w.owner[s] != SN(x) && q != SN(x)
    ensures View(w', s, q) == View(w, s, q)
  {
    var d := w.owner[s];
    assert w'.net(d, q) == w.net(d, q) && w'.net(q, d) == w.net(q, d) && w'.sn(d.a) == w.sn(d.a);
  }

  lemma EntersAsMember(w: World, w': World, x: Addr, n': Node, o: Out, t: TxId, s: TxId)
    requires Enters(w, w', x, n', o, t) && s in w.owner && w.owner[s].SN? && w.owner[s] != SN(x) && s != t && s != NO_TX
    requires Settled(w, x) ==> Settled(w', x)
    requires Coherent(s, View(w, s, SN(x)))
    ensures Coherent(s, View(w', s, SN(x)))
  {
    var d := w.owner[s];
    var v, v' := View(w, s, SN(x)), View(w', s, SN(x));
    QuietUp(w.net(SN(x), d), [o], d, s);
    assert w'.net(SN(x), d) == w.net(SN(x), d) + For([o], d) && w'.net(d, SN(x)) == w.net(d, SN(x));
    SettledPhase(w', x);
    assert w'.sn(d.a) == w.sn(d.a);
    OtherBusiness(s, v, v');
  }

  lemma EntersAsDriver(w: World, w': World, x: Addr, n': Node, o: Out, t: TxId, s: TxId, q: Proc)
    requires Enters(w, w', x, n', o, t) && s in w.owner && w.owner[s] == SN(x) && s in w.decided && s != t && q != SN(x)
    requires q.SN? && Settled(w, q.a) ==> Settled(w', q.a)
    requires Coherent(s, View(w, s, q))
    ensures Coherent(s, View(w', s, q))
  {
    var v, v' := View(w, s, q), View(w', s, q);
    ForQuiet([o], q, s);
    DownExtended(w.net(SN(x), q), For([o], q), s);
    assert w'.net(SN(x), q) == w.net(SN(x), q) + For([o], q) && w'.net(q, SN(x)) == w.net(q, SN(x));
    DriverElsewhere(s, v, v');
  }

  lemma EntersBase(w: World, w': World, x: Addr, n': Node, o: Out, t: TxId)
    requires Base(w) && Enters(w, w', x, n', o, t) && Grows(w, w') && NodeOk(w', x, n') && MsgOk(w', SN(x), o.to, o.msg)
    ensures Base(w')
  {
    EntersNet(w, w', x, n', o, t);
    EntersNodes(w, w', x, n', o, t);
    EntersSplits(w, w', x, n', o, t);
  }

  lemma EntersNet(w: World, w': World, x: Addr, n': Node, o: Out, t: TxId)
    requires NetOk(w) && Enters(w, w', x, n', o, t) && Grows(w, w') && MsgOk(w', SN(x), o.to, o.msg)
    ensures NetOk(w')
  {
    forall p, q, l | l in w'.net(p, q) ensures MsgOk(w', p, q, l) {
      if p == SN(x) && l in For([o], q) {
        ForHas([o], q, l);
        assert Out(q, l) in [o];
      } else {
        assert l in w.net(p, q);
        MsgStaysOk(w, w', p, q, l);
      }
    }
  }

  lemma EntersNodes(w: World, w': World, x: Addr, n': Node, o: Out, t: TxId)
    requires NodesOk(w) && Enters(w, w', x, n', o, t) && Grows(w, w') && NodeOk(w', x, n')
    ensures NodesOk(w')
  {
    forall a ensures NodeOk(w', a, w'.sn(a)) {
      if a != x {
        assert NodeOk(w, a, w.sn(a));
        NodeStaysOk(w, w', a, w.sn(a));
      }
    }
    ResourcesStayOk(w, w');
  }

  lemma EntersSplits(w: World, w': World, x: Addr, n': Node, o: Out, t: TxId)
    requires SplitsOk(w) && Enters(w, w', x, n', o, t) && Grows(w, w')
    ensures SplitsOk(w')
  {
    forall s | s in w'.split ensures Settled(w', w'.owner[s].a) { assert Settled(w, w.owner[s].a); }
    forall s | Open(w', s) ensures Driving(w'.sn(w'.owner[s].a)) && w'.sn(w'.owner[s].a).tx == s {
      assert Open(w, s);
    }
  }

  // ---------------------------------------------------------------------------------------------
  // Offers and insertions
  // ---------------------------------------------------------------------------------------------

  lemma OfferPairs(w: World, w': World, y: Addr, x: Addr, t: TxId)
    requires Inv(w) && Offer(w, w', y, x, t) && y != x && Grows(w, w')
    requires Enters(w, w', y, w.sn(y).(phase := StartIn, tx := t, driver := x), Out(SN(x), NewStrNode(t)), t)
    ensures AllCoherent(w')
  {
    forall s, q: Proc | s in w'.split && s in w'.owner && q != w'.owner[s] && q.a != NOBODY
      ensures Coherent(s, View(w', s, q)) {
      assert Coherent(s, View(w, s, q)) && Settled(w, w.owner[s].a);
      if s == t && q == SN(y) {
        OfferMade(w, w', y, x, t);
      } else {
        EntersOther(w, w', y, w'.sn(y), Out(SN(x), NewStrNode(t)), t, s, q);
      }
    }
  }

  lemma OfferMade(w: World, w': World, y: Addr, x: Addr, t: TxId)
    requires Offer(w, w', y, x, t) && t in w.owner && w.owner[t] == SN(x) && x != y && t != NO_TX && w.sn(y).tx == NO_TX
    requires Coherent(t, View(w, t, SN(y)))
    ensures Coherent(t, View(w', t, SN(y)))
  {
    var o := Out(SN(x), NewStrNode(t));
    var v, v' := View(w, t, SN(y)), View(w', t, SN(y));
    assert w'.net(SN(y), SN(x)) == w.net(SN(y), SN(x)) + For([o], SN(x)) && w'.net(SN(x), SN(y)) == w.net(SN(x), SN(y));
    SaidOnce(o, SN(x), Acked, t);
    SaidOnce(o, SN(x), Offered, t);
    UpExtended(w.net(SN(y), SN(x)), For([o], SN(x)), t);
    assert w'.sn(x) == w.sn(x);
    Offers(t, v, v');
  }

  lemma OfferEnters(w: World, w': World, y: Addr, x: Addr, t: TxId)
    requires Offer(w, w', y, x, t) && w.sn(y).tx == NO_TX
    requires y != x && t in w.owner && w.owner[t] == SN(x) && t in w.split && t != NO_TX && x != NOBODY
    ensures Enters(w, w', y, w.sn(y).(phase := StartIn, tx := t, driver := x), Out(SN(x), NewStrNode(t)), t)
  {
  }

  /** The search was sent by the driver of a split, who is not unused. */
  lemma OfferedTo(w: World, w': World, y: Addr, x: Addr, t: TxId)
    requires SearchesOk(w) && SplitsOk(w) && Offer(w, w', y, x, t)
    ensures y != x && t in w.owner && w.owner[t] == SN(x) && t in w.split && t != NO_TX && x != NOBODY
  {
    assert Settled(w, w.owner[t].a);
  }

  lemma OfferKeeps(w: World, w': World, y: Addr, x: Addr, t: TxId)
    requires Inv(w) && Offer(w, w', y, x, t)
    ensures Inv(w')
  {
    var n' := w.sn(y).(phase := StartIn, tx := t, driver := x);
    assert NodeOk(w, y, w.sn(y));
    OfferedTo(w, w', y, x, t);
    OfferEnters(w, w', y, x, t);
    EntersGrows(w, w', y, n', Out(SN(x), NewStrNode(t)), t);
    OfferNode(w, w', y, x, t);
    EntersBase(w, w', y, n', Out(SN(x), NewStrNode(t)), t);
    OfferPairs(w, w', y, x, t);
    SameEnlisted(w, w');
    SearchesStayOk(w, w');
  }

  lemma OfferNode(w: World, w': World, y: Addr, x: Addr, t: TxId)
    requires Grows(w, w') && NodeOk(w, y, w.sn(y)) && w.sn(y).phase == Offline && w.rn(y).father != NOBODY && y != x
    requires y != NOBODY
    requires t != NO_TX && t in w.owner && w.owner[t] == SN(x) && t in w.split
    ensures NodeOk(w', y, w.sn(y).(phase := StartIn, tx := t, driver := x))
  {
    NodeStaysOk(w, w', y, w.sn(y));
  }

  /** The searches that are under way matter to nobody. */
  lemma SearchesKeep(w: World, w': World)
    requires Inv(w) && w' == w.(needed := w'.needed, armed := w'.armed)
    requires forall d | d in w'.needed || d in w'.armed :: d in w.needed || d in w.armed
    ensures Inv(w')
  {
    SearchesGrow(w, w');
    SearchesNodes(w, w');
    SearchesSplits(w, w');
    SearchesStayOk(w, w');
    SameEnlisted(w, w');
    SearchesPairs(w, w');
    forall p, q, msg | msg in w'.net(p, q) ensures MsgOk(w', p, q, msg) { MsgStaysOk(w, w', p, q, msg); }
  }

  lemma SearchesPairs(w: World, w': World)
    requires AllCoherent(w) && w' == w.(needed := w'.needed, armed := w'.armed)
    ensures AllCoherent(w')
  {
    forall s, q: Proc | s in w'.split && s in w'.owner && q != w'.owner[s] && q.a != NOBODY
      ensures Coherent(s, View(w', s, q)) {
      assert Coherent(s, View(w, s, q)) && View(w', s, q) == View(w, s, q);
    }
  }

  lemma SearchesGrow(w: World, w': World)
    requires w' == w.(needed := w'.needed, armed := w'.armed)
    ensures Grows(w, w')
  {
    forall a | Settled(w, a) ensures Settled(w', a) {}
  }

  lemma SearchesSplits(w: World, w': World)
    requires SplitsOk(w) && Grows(w, w') && w' == w.(needed := w'.needed, armed := w'.armed)
    ensures SplitsOk(w')
  {
    forall s | s in w'.split ensures Settled(w', w'.owner[s].a) { assert Settled(w, w.owner[s].a); }
  }

  lemma SearchesNodes(w: World, w': World)
    requires NodesOk(w) && Grows(w, w') && w' == w.(needed := w'.needed, armed := w'.armed)
    ensures NodesOk(w')
  {
    forall x ensures NodeOk(w', x, w'.sn(x)) {
      assert NodeOk(w, x, w.sn(x));
      NodeStaysOk(w, w', x, w.sn(x));
    }
    ResourcesStayOk(w, w');
  }

  lemma AcceptInsertKeeps(w: World, w': World, x: Addr, a: Addr, t: TxId)
    requires Inv(w) && AcceptInsert(w, w', x, a, t)
    ensures Inv(w')
  {
    var n := w.sn(x);
    var n' := n.(phase := AddChild, tx := t, driver := a, zones := [Zone(NOBODY, a, true)] + n.zones);
    var o := Out(RN(a), Ack(t));
    assert NodeOk(w, x, n);
    EntersGrows(w, w', x, n', o, t);
    AcceptInsertNode(w, w', x, a, t, n, n');
    SameEnlisted(w, w');
    SearchesStayOk(w, w');
    EntersBase(w, w', x, n', o, t);
    AcceptInsertPairs(w, w', x, n', o, t);
  }

  lemma AcceptInsertPairs(w: World, w': World, x: Addr, n': Node, o: Out, t: TxId)
    requires Inv(w) && Enters(w, w', x, n', o, t) && Grows(w, w') && t !in w.split && w.owner[t] != SN(x)
    ensures AllCoherent(w')
  {
    forall s, q: Proc | s in w'.split && s in w'.owner && q != w'.owner[s] && q.a != NOBODY
      ensures Coherent(s, View(w', s, q)) {
      assert Coherent(s, View(w, s, q)) && Settled(w, w.owner[s].a);
      assert s !in w.decided ==> Open(w, s);
      EntersOther(w, w', x, n', o, t, s, q);
    }
  }

  lemma AcceptInsertNode(w: World, w': World, x: Addr, a: Addr, t: TxId, n: Node, n': Node)
    requires Grows(w, w') && NodeOk(w, x, n) && n.tx == NO_TX && |n.zones| < 2 * w.m && x != NOBODY && a != NOBODY
    requires t != NO_TX && t in w.owner && t !in w.split && w.owner[t] == RN(a) && n.level == 0
    requires n' == n.(phase := AddChild, tx := t, driver := a, zones := [Zone(NOBODY, a, true)] + n.zones)
    ensures NodeOk(w', x, n')
  {
    NodeStaysOk(w, w', x, n);
    forall z | z in n'.zones ensures LinkOk(w', x, n', z) {
      if z in n.zones { assert LinkOk(w', x, n, z); }
    }
  }

  // ---------------------------------------------------------------------------------------------
  // A split begins
  // ---------------------------------------------------------------------------------------------

  lemma {:induction false} LastOfUnknown(ch: seq<Msg>, t: TxId)
    requires forall msg | msg in ch :: msg.t != t
    ensures DownOf(ch, t) == Down(0, 0, 0, OnlyFathers(ch, t), true, CommitAhead(ch, t)) && UpOf(ch, t) == Up(0, 0)
  {
    if ch != [] { LastOfUnknown(ch[1..], t); }
  }

  lemma {:induction false} NoneDelayed(ds: seq<(Proc, Msg)>, t: TxId)
    requires forall d | d in ds :: d.1.t != t
    ensures NumDelayed(ds, t) == 0 && !FatherDelayed(ds, t)
  {
    if ds != [] { NoneDelayed(ds[1..], t); }
  }

  /** Nobody has heard of the new id. */
  lemma NewSplitPair(w: World, w': World, x: Addr, t: TxId, q: Proc)
    requires Base(w) && StartSplit(w, w', x, t) && q != SN(x) && t in w'.owner
    ensures Coherent(t, View(w', t, q))
  {
    NewSplitLinks(w, w', x, t, q);
    NewSplitView(w, w', x, t, q);
    Untouched(t, View(w', t, q));
  }

  lemma NewSplitLinks(w: World, w': World, x: Addr, t: TxId, q: Proc)
    requires Base(w) && StartSplit(w, w', x, t)
    ensures
      var ds := if q.SN? then w.sn(q.a).delayed else w.rn(q.a).delayed;
      && DownOf(w.net(SN(x), q), t) ==
         Down(0, 0, 0, OnlyFathers(w.net(SN(x), q), t), true, CommitAhead(w.net(SN(x), q), t))
      && UpOf(w.net(q, SN(x)), t) == Up(0, 0) && NumDelayed(ds, t) == 0 && !FatherDelayed(ds, t)
  {
    assert NodeOk(w, q.a, w.sn(q.a)) && ResOk(w, q.a, w.rn(q.a));
    LastOfUnknown(w.net(SN(x), q), t);
    LastOfUnknown(w.net(q, SN(x)), t);
    NoneDelayed(if q.SN? then w.sn(q.a).delayed else w.rn(q.a).delayed, t);
  }

  lemma NewSplitView(w: World, w': World, x: Addr, t: TxId, q: Proc)
    requires Base(w) && StartSplit(w, w', x, t) && q != SN(x) && t in w'.owner
    ensures
      var v := View(w', t, q);
      && v.tx != t && v.fate == Running && v.waiting && v.noAck == 0 && !v.acked && !v.enlisted
      && v.exit == Never && !v.toldCommit && !v.toldRollback
      && (v.isSN && v.settled ==> v.phase != Offline && v.phase != StartIn)
      && (v.isSN && !v.settled ==> v.phase == Offline || v.phase == StartIn || v.phase == Init)
  {
    assert NodeOk(w, x, w.sn(x)) && NodeOk(w, q.a, w.sn(q.a)) && ResOk(w, q.a, w.rn(q.a));
  }

  lemma StartSplitGrows(w: World, w': World, x: Addr, t: TxId)
    requires SplitsOk(w) && StartSplit(w, w', x, t)
    ensures Grows(w, w')
  {
    forall a | Settled(w, a) ensures Settled(w', a) {}
  }

  lemma StartSplitNodes(w: World, w': World, x: Addr, t: TxId)
    requires Base(w) && StartSplit(w, w', x, t) && Grows(w, w')
    ensures NodesOk(w')
  {
    forall a ensures NodeOk(w', a, w'.sn(a)) {
      assert NodeOk(w, a, w.sn(a));
      NodeStaysOk(w, w', a, w.sn(a));
      if a == x { StartSplitNode(w, w', x, t); }
    }
    ResourcesStayOk(w, w');
  }

  lemma StartSplitNode(w: World, w': World, x: Addr, t: TxId)
    requires StartSplit(w, w', x, t) && NodeOk(w', x, w.sn(x)) && t !in w.decided
    ensures NodeOk(w', x, w'.sn(x))
  {
    var n := w.sn(x);
    forall z | z in n.zones ensures LinkOk(w', x, w'.sn(x), z) { assert LinkOk(w', x, n, z); }
  }

  lemma StartSplitOpen(w: World, w': World, x: Addr, t: TxId, s: TxId)
    requires SplitsOk(w) && StartSplit(w, w', x, t) && Open(w', s)
    ensures Driving(w'.sn(w'.owner[s].a)) && w'.sn(w'.owner[s].a).tx == s
  {
    if s != t { assert Open(w, s); }
  }

  lemma StartSplitSplits(w: World, w': World, x: Addr, t: TxId)
    requires SplitsOk(w) && StartSplit(w, w', x, t) && Grows(w, w')
    ensures SplitsOk(w')
  {
    forall s | s in w'.split ensures Settled(w', w'.owner[s].a) { if s != t { assert Settled(w, w.owner[s].a); } }
    forall s | Open(w', s) ensures Driving(w'.sn(w'.owner[s].a)) && w'.sn(w'.owner[s].a).tx == s {
      StartSplitOpen(w, w', x, t, s);
    }
  }

  /** Another split does not notice. */
  lemma StartSplitPair(w: World, w': World, x: Addr, t: TxId, s: TxId, q: Proc)
    requires StartSplit(w, w', x, t) && s in w.owner && s in w.split && w.owner[s].SN? && s != t && s != NO_TX
    requires q != w.owner[s]
    requires w.owner[s] == SN(x) ==> s in w.decided
    requires Coherent(s, View(w, s, q))
    ensures Coherent(s, View(w', s, q))
  {
    var v, v' := View(w, s, q), View(w', s, q);
    if q == SN(x) {
      OtherBusiness(s, v, v');
    } else {
      assert v' == v;
    }
  }

  lemma StartSplitPairs(w: World, w': World, x: Addr, t: TxId)
    requires Inv(w) && StartSplit(w, w', x, t) && Grows(w, w')
    ensures AllCoherent(w')
  {
    assert NodeOk(w, x, w.sn(x));
    forall s, q: Proc | s in w'.split && s in w'.owner && q != w'.owner[s] && q.a != NOBODY
      ensures Coherent(s, View(w', s, q)) {
      if s == t {
        NewSplitPair(w, w', x, t, q);
      } else {
        assert Coherent(s, View(w, s, q));
        StartSplitPair(w, w', x, t, s, q);
      }
    }
  }

  lemma StartSplitSearches(w: World, w': World, x: Addr, t: TxId)
    requires SearchesOk(w) && StartSplit(w, w', x, t)
    ensures SearchesOk(w')
  {
    forall d | d in w'.needed || d in w'.armed ensures d.1 in w'.owner && d.1 in w'.split && w'.owner[d.1] == SN(d.0) {
      assert d in w.needed || d in w.armed || d == (x, t);
    }
  }

  lemma SameNetOk(w: World, w': World)
    requires NetOk(w) && Grows(w, w') && w'.net == w.net
    ensures NetOk(w')
  {
    forall p, q, msg | msg in w'.net(p, q) ensures MsgOk(w', p, q, msg) { MsgStaysOk(w, w', p, q, msg); }
  }

  lemma StartSplitEnlisted(w: World, w': World, x: Addr, t: TxId)
    requires EnlistedOk(w) && StartSplit(w, w', x, t)
    ensures EnlistedOk(w')
  {
    assert Enlisted(w', t) == {};
    forall s, p: Proc | s in w'.owner && p in Enlisted(w', s) ensures p != w'.owner[s] && p.a != NOBODY {
      assert s in w.owner && Enlisted(w', s) == Enlisted(w, s);
    }
  }

  lemma StartSplitKeeps(w: World, w': World, x: Addr, t: TxId)
    requires Inv(w) && StartSplit(w, w', x, t)
    ensures Inv(w')
  {
    assert NodeOk(w, x, w.sn(x));
    StartSplitGrows(w, w', x, t);
    StartSplitNodes(w, w', x, t);
    StartSplitSplits(w, w', x, t);
    StartSplitPairs(w, w', x, t);
    StartSplitSearches(w, w', x, t);
    SameNetOk(w, w');
    StartSplitEnlisted(w, w', x, t);
  }

  // ---------------------------------------------------------------------------------------------
  // Insertions of resource nodes
  // ---------------------------------------------------------------------------------------------

  lemma StartInsertKeeps(w: World, w': World, a: Addr, t: TxId)
    requires Inv(w) && StartInsert(w, w', a, t)
    ensures Inv(w')
  {
    StartInsertGrows(w, w', a, t);
    assert ResOk(w, a, w.rn(a));
    DelayedStayOk(w, w', RN(a), w.rn(a).delayed);
    ResStaysOk(w, w', a, w.rn(a));
    StartInsertNodes(w, w', a, t);
    StartInsertSplits(w, w', a, t);
    SearchesStayOk(w, w');
    forall p, q, msg | msg in w'.net(p, q) ensures MsgOk(w', p, q, msg) { MsgStaysOk(w, w', p, q, msg); }
    forall s, q: Proc | s in w'.split && s in w'.owner && q != w'.owner[s] && q.a != NOBODY
      ensures Coherent(s, View(w', s, q)) {
      assert Coherent(s, View(w, s, q));
      StartInsertPair(w, w', a, t, s, q);
    }
  }

  lemma StartInsertGrows(w: World, w': World, a: Addr, t: TxId)
    requires SplitsOk(w) && StartInsert(w, w', a, t)
    ensures Grows(w, w')
  {
    forall x | Settled(w, x) ensures Settled(w', x) {}
  }

  lemma StartInsertNodes(w: World, w': World, a: Addr, t: TxId)
    requires NodesOk(w) && SplitsOk(w) && StartInsert(w, w', a, t) && Grows(w, w') && ResOk(w', a, w.rn(a))
    ensures NodesOk(w')
  {
    forall x ensures NodeOk(w', x, w'.sn(x)) {
      assert NodeOk(w, x, w.sn(x));
      NodeStaysOk(w, w', x, w.sn(x));
    }
    forall b ensures ResOk(w', b, w'.rn(b)) { StartInsertRes(w, w', a, t, b); }
  }

  lemma StartInsertRes(w: World, w': World, a: Addr, t: TxId, b: Addr)
    requires ResOk(w, b, w.rn(b)) && SplitsOk(w) && StartInsert(w, w', a, t) && Grows(w, w') && ResOk(w', a, w.rn(a))
    ensures ResOk(w', b, w'.rn(b))
  {
    ResStaysOk(w, w', b, w.rn(b));
  }

  lemma StartInsertSplits(w: World, w': World, a: Addr, t: TxId)
    requires SplitsOk(w) && StartInsert(w, w', a, t) && Grows(w, w')
    ensures SplitsOk(w')
  {
    forall s | s in w'.split ensures Settled(w', w'.owner[s].a) { assert Settled(w, w.owner[s].a); }
  }

  lemma StartInsertPair(w: World, w': World, a: Addr, t: TxId, s: TxId, q: Proc)
    requires StartInsert(w, w', a, t) && s in w.owner && s != t && s != NO_TX
    requires Coherent(s, View(w, s, q))
    ensures Coherent(s, View(w', s, q))
  {
    var v, v' := View(w, s, q), View(w', s, q);
    if q == RN(a) {
      OtherBusiness(s, v, v');
    } else {
      assert v' == v;
    }
  }

  lemma ResSendKeeps(w: World, w': World, a: Addr)
    requires Inv(w) && ResSend(w, w', a)
    ensures Inv(w')
  {
    var o := w.rn(a).owed[0];
    assert ResOk(w, a, w.rn(a)) && o in w.rn(a).owed;
    ResSendGrows(w, w', a);
    ResSendNet(w, w', a, o);
    ResSendNodes(w, w', a);
    ResSendSplits(w, w', a, o);
    SearchesStayOk(w, w');
    SameEnlisted(w, w');
    forall s, q: Proc | s in w'.split && s in w'.owner && q != w'.owner[s] && q.a != NOBODY
      ensures Coherent(s, View(w', s, q)) {
      assert Coherent(s, View(w, s, q));
      ResSendPair(w, w', a, o, s, q);
    }
  }

  lemma ResSendGrows(w: World, w': World, a: Addr)
    requires ResSend(w, w', a)
    ensures Grows(w, w')
  {
    forall x | Settled(w, x) ensures Settled(w', x) {}
  }

  lemma ResSendNet(w: World, w': World, a: Addr, o: Out)
    requires NetOk(w) && ResSend(w, w', a) && Grows(w, w') && o == w.rn(a).owed[0] && MsgOk(w, RN(a), o.to, o.msg)
    ensures NetOk(w')
  {
    forall p, q, l | l in w'.net(p, q) ensures MsgOk(w', p, q, l) {
      if p == RN(a) && l in For([o], q) {
        ForHas([o], q, l);
        assert Out(q, l) in [o];
        MsgStaysOk(w, w', p, q, l);
      } else {
        assert l in w.net(p, q);
        MsgStaysOk(w, w', p, q, l);
      }
    }
  }

  lemma ResSendNodes(w: World, w': World, a: Addr)
    requires NodesOk(w) && ResSend(w, w', a) && Grows(w, w')
    ensures NodesOk(w')
  {
    forall x ensures NodeOk(w', x, w'.sn(x)) {
      assert NodeOk(w, x, w.sn(x));
      NodeStaysOk(w, w', x, w.sn(x));
    }
    forall b ensures ResOk(w', b, w'.rn(b)) {
      assert ResOk(w, b, w.rn(b));
      ResStaysOk(w, w', b, w.rn(b));
    }
  }

  lemma ResSendSplits(w: World, w': World, a: Addr, o: Out)
    requires SplitsOk(w) && ResSend(w, w', a) && Grows(w, w') && o == w.rn(a).owed[0] && o.msg.t in w.owner
    ensures SplitsOk(w')
  {
    forall s | s in w'.split ensures Settled(w', w'.owner[s].a) { assert Settled(w, w.owner[s].a); }
  }

  lemma ResSendPair(w: World, w': World, a: Addr, o: Out, s: TxId, q: Proc)
    requires ResSend(w, w', a) && o == w.rn(a).owed[0] && s in w.owner && w.owner[s].SN? && s != o.msg.t
    requires Coherent(s, View(w, s, q))
    ensures Coherent(s, View(w', s, q))
  {
    var d := w.owner[s];
    QuietUp(w.net(RN(a), d), [o], d, s);
    assert w'.net(d, q) == w.net(d, q);
    assert View(w', s, q) == View(w, s, q);
  }

  // ---------------------------------------------------------------------------------------------
  // Whole runs
  // ---------------------------------------------------------------------------------------------

  lemma DeliverTakes(w: World, w': World, x: Addr, src: Proc, c: Choice, n: Node, msg: Msg)
    requires Deliver(w, w', x, src, c) && n == w.sn(x) && msg == w.net(src, SN(x))[0]
    ensures ValidChoice(n, c) && Took(w, w', x, true, src, msg, n, Handle(x, w.m, n, src, msg, c))
  {
  }

  lemma DeliverKeeps(w: World, w': World, x: Addr, src: Proc, c: Choice)
    requires Inv(w) && Deliver(w, w', x, src, c)
    ensures Inv(w')
  {
    var n, msg := w.sn(x), w.net(src, SN(x))[0];
    DeliverTakes(w, w', x, src, c, n, msg);
    TookKeeps(w, w', x, true, src, msg, n, c, Handle(x, w.m, n, src, msg, c));
  }

  lemma ReplayTakes(w: World, w': World, x: Addr, c: Choice, n: Node, src: Proc, msg: Msg)
    requires Replay(w, w', x, c) && (src, msg) == w.sn(x).delayed[0] && n == w.sn(x).(delayed := w.sn(x).delayed[1..])
    ensures ValidChoice(n, c) && Took(w, w', x, false, src, msg, n, Handle(x, w.m, n, src, msg, c))
  {
  }

  lemma ReplayKeeps(w: World, w': World, x: Addr, c: Choice)
    requires Inv(w) && Replay(w, w', x, c)
    ensures Inv(w')
  {
    var n := w.sn(x).(delayed := w.sn(x).delayed[1..]);
    var (src, msg) := w.sn(x).delayed[0];
    ReplayTakes(w, w', x, c, n, src, msg);
    TookKeeps(w, w', x, false, src, msg, n, c, Handle(x, w.m, n, src, msg, c));
  }

  lemma ResDeliverKeeps(w: World, w': World, a: Addr, src: Proc)
    requires Inv(w) && ResDeliver(w, w', a, src)
    ensures Inv(w')
  {
    var msg := w.net(src, RN(a))[0];
    ResTookKeeps(w, w', a, true, src, msg, w.rn(a), HandleRes(w.rn(a), src, msg));
  }

  lemma ResReplayTakes(w: World, w': World, a: Addr, r: Res, src: Proc, msg: Msg)
    requires ResReplay(w, w', a) && (src, msg) == w.rn(a).delayed[0] && r == w.rn(a).(delayed := w.rn(a).delayed[1..])
    ensures ResTook(w, w', a, false, src, msg, r, HandleRes(r, src, msg))
  {
  }

  lemma ResReplayKeeps(w: World, w': World, a: Addr)
    requires Inv(w) && ResReplay(w, w', a)
    ensures Inv(w')
  {
    var r := w.rn(a).(delayed := w.rn(a).delayed[1..]);
    var (src, msg) := w.rn(a).delayed[0];
    ResReplayTakes(w, w', a, r, src, msg);
    ResTookKeeps(w, w', a, false, src, msg, r, HandleRes(r, src, msg));
  }

  /** Every step of the overlay keeps the invariant. */
  lemma MessageKeeps(w: World, w': World, act: Action)
    requires Inv(w) && Does(w, w', act)
    requires act.ADeliver? || act.AReplay? || act.AResDeliver? || act.AResReplay? || act.AResSend?
    ensures Inv(w')
  {
    match act
    case ADeliver(x, src, c) => DeliverKeeps(w, w', x, src, c);
    case AReplay(x, c) => ReplayKeeps(w, w', x, c);
    case AResDeliver(a, src) => ResDeliverKeeps(w, w', a, src);
    case AResReplay(a) => ResReplayKeeps(w, w', a);
    case AResSend(a) => ResSendKeeps(w, w', a);
  }

  lemma SearchKeeps(w: World, w': World, act: Action)
    requires Inv(w) && Does(w, w', act) && (act.AStartSplit? || act.ARepeat? || act.ALose? || act.AOffer?)
    ensures Inv(w')
  {
    if act.AStartSplit? {
      StartSplitKeeps(w, w', act.x, act.t);
    } else if act.AOffer? {
      OfferKeeps(w, w', act.y, act.x, act.t);
    } else {
      OnlySearches(w, w', act);
      SearchesKeep(w, w');
    }
  }

  lemma OnlySearches(w: World, w': World, act: Action)
    requires Does(w, w', act) && (act.ARepeat? || act.ALose?)
    ensures w' == w.(needed := w'.needed, armed := w'.armed)
    ensures forall d | d in w'.needed || d in w'.armed :: d in w.needed || d in w.armed
  {
  }

  lemma InsertKeeps(w: World, w': World, act: Action)
    requires Inv(w) && Does(w, w', act) && (act.AStartInsert? || act.AAcceptInsert?)
    ensures Inv(w')
  {
    match act
    case AStartInsert(a, t) => StartInsertKeeps(w, w', a, t);
    case AAcceptInsert(x, a, t) => AcceptInsertKeeps(w, w', x, a, t);
  }

  lemma StepKeeps(w: World, w': World, act: Action)
    requires Inv(w) && Does(w, w', act)
    ensures Inv(w')
  {
    if act.AStartInsert? || act.AAcceptInsert? {
      InsertKeeps(w, w', act);
    } else if act.AStartSplit? || act.ARepeat? || act.ALose? || act.AOffer? {
      SearchKeeps(w, w', act);
    } else {
      MessageKeeps(w, w', act);
    }
  }

  /** What holds in world `j`, and is kept by every step from there on, holds ever after. */
  lemma {:induction false} EverAfter(ws: seq<World>, good: World -> bool, j: nat, k: nat)
    requires j <= k < |ws| && good(ws[j])
    requires forall i: nat | j <= i < |ws| - 1 && good(ws[i]) :: good(ws[i + 1])
    ensures good(ws[k])
  {
    if j < k { EverAfter(ws, good, j, k - 1); }
  }

  lemma RunKeepsNext(ws: seq<World>, k: nat, w: World, w': World)
    requires Run(ws) && k + 1 < |ws| && w == ws[k] && w' == ws[k + 1] && Inv(w)
    ensures Inv(w')
  {
    assert Next(ws[k], ws[k + 1]);
    var act :| Does(w, w', act);
    StepKeeps(w, w', act);
  }

  lemma RunKeeps(ws: seq<World>, k: nat)
    requires Run(ws) && k < |ws|
    ensures Inv(ws[k])
  {
    var good := w => Inv(w);
    InitialIsGood(ws[0]);
    forall i: nat | i < |ws| - 1 && good(ws[i]) ensures good(ws[i + 1]) { RunKeepsNext(ws, i, ws[i], ws[i + 1]); }
    EverAfter(ws, good, 0, k);
  }

  /** One step of a run. */
  lemma RunStep(ws: seq<World>, k: nat, w: World, w': World)
    requires Run(ws) && k + 1 < |ws| && w == ws[k] && w' == ws[k + 1]
    ensures Inv(w) && Inv(w') && Next(w, w')
  {
    RunKeeps(ws, k);
    RunKeeps(ws, k + 1);
  }
}
