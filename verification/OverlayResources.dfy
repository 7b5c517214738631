/** Every step of a resource node keeps the invariant. */
module OverlayResources {
  import opened Common
  import opened Overlay
  import opened OverlayProtocol
  import opened OverlayPairs
  import opened OverlayInvariant
  import opened OverlaySafety
  import opened OverlayRoles
  import opened OverlayMember

  /** `msg` comes from a link, or is the first one that was put off. */
  ghost predicate ResArrives(w: World, a: Addr, taken: bool, src: Proc, msg: Msg, r: Res) {
    && a != NOBODY
    && if taken then w.net(src, RN(a)) != [] && w.net(src, RN(a))[0] == msg && r == w.rn(a)
       else w.rn(a).tx == NO_TX && w.rn(a).delayed != [] && w.rn(a).delayed[0] == (src, msg)
            && r == w.rn(a).(delayed := w.rn(a).delayed[1..])
  }

  ghost predicate ResTook(w: World, w': World, a: Addr, taken: bool, src: Proc, msg: Msg, r: Res, r': ResReply) {
    && ResArrives(w, a, taken, src, msg, r)
    && OnlyRN(w, w', a, r'.r) && Sends(w, w', RN(a), taken, src, r'.outs) && ResRecords(w, w', a, r, r'.r, msg)
  }

  lemma ResArrivalOk(w: World, a: Addr, taken: bool, src: Proc, msg: Msg, r: Res)
    requires Base(w) && ResArrives(w, a, taken, src, msg, r)
    ensures MsgOk(w, src, RN(a), msg) && ResOk(w, a, r)
    ensures !taken ==> r.tx == NO_TX && (msg.NewFather? || msg.NewChild?)
  {
    assert ResOk(w, a, w.rn(a));
    if !taken {
      assert w.rn(a).delayed[0] in w.rn(a).delayed;
      assert DelayedOk(w, RN(a), r.delayed);
    }
  }

  /** The ways a resource node answers. */
  predicate ResMoves(r: Res, src: Proc, msg: Msg, r': ResReply) {
    && (r'.outs == [] || (r'.outs == [Out(src, Ack(msg.t))] && msg.NewFather? && r'.r.tx == msg.t && r.tx == NO_TX
                          && r'.r.delayed == r.delayed && r'.r.owed == r.owed))
    && (r'.r.tx == r.tx || (r'.r.tx == NO_TX && r.tx == msg.t) || r'.outs != [])
    && (r'.r.delayed == r.delayed || (r'.r == r.(delayed := r.delayed + [(src, msg)]) && msg.NewFather?
       && r.tx != NO_TX))
    && ((msg.Commit? || msg.Rollback?) && r.tx == msg.t ==> r'.r.tx == NO_TX)
    && (msg.NewFather? && r'.outs == [] ==> r'.r == r || r'.r.delayed != r.delayed)
  }

  lemma ResMovesHold(r: Res, src: Proc, msg: Msg)
    ensures ResMoves(r, src, msg, HandleRes(r, src, msg))
  {
  }

  // ---------------------------------------------------------------------------------------------
  // Pairs
  // ---------------------------------------------------------------------------------------------

  lemma ResMemberView(w: World, w': World, a: Addr, taken: bool, src: Proc, msg: Msg, r: Res, r': ResReply, t: TxId)
    requires ResTook(w, w', a, taken, src, msg, r, r') && t in w.owner && w.owner[t].SN?
    ensures
      var d, v, v' := w.owner[t], View(w, t, RN(a)), View(w', t, RN(a));
      && NodeStep(v, v') && !v.isSN && v.tx == r.tx && v'.tx == r'.r.tx && v'.phase == v.phase && v.settled
         && v'.settled
      && v'.delayed == NumDelayed(r'.r.delayed, t) && v'.fatherDelayed == FatherDelayed(r'.r.delayed, t)
      && v.delayed == NumDelayed(w.rn(a).delayed, t) && v.fatherDelayed == FatherDelayed(w.rn(a).delayed, t)
      && v.dm == DownOf(w.net(d, RN(a)), t)
      && v'.dm == DownOf(if taken && src == d then w.net(d, RN(a))[1..] else w.net(d, RN(a)), t)
      && v.md == UpOf(w.net(RN(a), d), t) && v'.md == UpOf(w.net(RN(a), d) + For(r'.outs, d), t)
      && v'.exit == if r.tx == t && t != NO_TX && r'.r.tx != t then Left(msg.Commit? || msg.Ack?) else v.exit
  {
    assert w'.sn == w.sn;
  }

  /** What was put off, before and after the step. */
  lemma ResDelayedAccount(w: World, a: Addr, taken: bool, src: Proc, msg: Msg, r: Res, r': ResReply, t: TxId)
    requires ResArrives(w, a, taken, src, msg, r) && ResMoves(r, src, msg, r')
    ensures var later := r'.r.delayed != r.delayed;
            && NumDelayed(w.rn(a).delayed, t) + One(later && Is(msg, Request, t))
               == NumDelayed(r'.r.delayed, t) + One(!taken && Is(msg, Request, t))
            && (FatherDelayed(r'.r.delayed, t) || (!taken && msg.NewFather? && msg.t == t)
                <==> FatherDelayed(w.rn(a).delayed, t) || (later && msg.NewFather? && msg.t == t))
  {
    var one := [(src, msg)];
    assert (src, msg) in one;
    if !taken {
      DelayedAppend(one, r.delayed, t);
      assert w.rn(a).delayed == one + r.delayed;
    }
    if r'.r.delayed != r.delayed { DelayedAppend(r.delayed, one, t); }
  }

  lemma ResLinkPop(ch: seq<Msg>, popped: bool, msg: Msg, t: TxId)
    requires popped ==> ch != [] && ch[0] == msg
    ensures popped ==> Popped(DownOf(ch, t), DownOf(ch[1..], t), msg, t)
  {
    if popped { DownPopped(ch, t); }
  }

  /** A resource node stays coherent with every split. */
  lemma ResMemberKeeps(w: World, w': World, a: Addr, taken: bool, src: Proc, msg: Msg, r: Res, r': ResReply, t: TxId)
    requires ResTook(w, w', a, taken, src, msg, r, r') && ResMoves(r, src, msg, r') && t in w.owner && w.owner[t].SN?
    requires t != NO_TX
    requires msg.t == t ==> src == w.owner[t] && (IsRequest(msg) || msg.Commit? || msg.Rollback?)
    requires IsRequest(msg) && !msg.NewFather? ==> r' == ResReply(r, [])
    requires !taken ==> r.tx == NO_TX && IsRequest(msg)
    requires Coherent(t, View(w, t, RN(a)))
    ensures Coherent(t, View(w', t, RN(a)))
  {
    var d := w.owner[t];
    ResMemberView(w, w', a, taken, src, msg, r, r', t);
    ResDelayedAccount(w, a, taken, src, msg, r, r', t);
    FatherCounts(r'.r.delayed, t);
    ResLinkPop(w.net(d, RN(a)), taken && src == d, msg, t);
    if r'.outs == [] {
      QuietUp(w.net(RN(a), d), r'.outs, d, t);
    } else if msg.t == t {
      AckUp(w.net(RN(a), d), [], r'.outs, d, t);
    } else {
      QuietUp(w.net(RN(a), d), r'.outs, d, t);
    }
    ResCases(t, View(w, t, RN(a)), View(w', t, RN(a)), taken, taken && src == d, msg, r, r', r'.r.delayed != r.delayed);
  }

  lemma ResCases(t: TxId, v: Pair, v': Pair, taken: bool, popped: bool, msg: Msg, r: Res, r': ResReply, later: bool)
    requires Coherent(t, v) && NodeStep(v, v') && !v.isSN && v.tx == r.tx && v'.tx == r'.r.tx && v'.phase == v.phase
    requires t != NO_TX
    requires v.settled && v'.settled
    requires if popped then Popped(v.dm, v'.dm, msg, t) else v'.dm == v.dm
    requires v.delayed + One(later && Is(msg, Request, t)) == v'.delayed + One(!taken && Is(msg, Request, t))
    requires v'.fatherDelayed || (!taken && msg.NewFather? && msg.t == t) <==>
        v.fatherDelayed || (later && msg.NewFather? && msg.t == t)
    requires v'.fatherDelayed ==> v'.delayed > 0
    requires v'.md == (if r'.outs != [] && msg.t == t then v.md.(acks := v.md.acks + 1) else v.md)
    requires v'.exit == if r.tx == t && r'.r.tx != t then Left(msg.Commit? || msg.Ack?) else v.exit
    requires exists src :: ResMoves(r, src, msg, r')
    requires later <==> r'.r.delayed != r.delayed
    requires msg.t == t ==> (popped <==> taken) && (IsRequest(msg) || msg.Commit? || msg.Rollback?)
    requires IsRequest(msg) && !msg.NewFather? ==> r' == ResReply(r, [])
    requires !taken ==> r.tx == NO_TX && IsRequest(msg)
    ensures Coherent(t, v')
  {
    if msg.t != t {
      OtherBusiness(t, v, v');
    } else if IsRequest(msg) {
      if r'.outs != [] { Accepts(t, v, v'); } else { Declines(t, v, v', later); }
    } else {
      LearnsOutcome(t, v, v', msg.Commit?);
    }
  }

  lemma ResBystander(w: World, w': World, a: Addr, taken: bool, src: Proc, msg: Msg, r: Res, r': ResReply, t: TxId,
                     q: Proc)
    requires ResTook(w, w', a, taken, src, msg, r, r') && t in w.owner && w.owner[t].SN? && q != RN(a)
    ensures View(w', t, q) == View(w, t, q)
  {
    assert w'.net(w.owner[t], q) == w.net(w.owner[t], q) && w'.net(q, w.owner[t]) == w.net(q, w.owner[t]);
    assert w'.sn == w.sn;
  }

  lemma ResPairs(w: World, w': World, a: Addr, taken: bool, src: Proc, msg: Msg, r: Res, r': ResReply)
    requires Inv(w) && ResTook(w, w', a, taken, src, msg, r, r') && r' == HandleRes(r, src, msg)
    ensures AllCoherent(w')
  {
    ResArrivalOk(w, a, taken, src, msg, r);
    ResMovesHold(r, src, msg);
    forall t, q: Proc | t in w'.split && t in w'.owner && q != w'.owner[t] && q.a != NOBODY
      ensures Coherent(t, View(w', t, q)) {
      assert Coherent(t, View(w, t, q));
      if q == RN(a) {
        ResMemberKeeps(w, w', a, taken, src, msg, r, r', t);
      } else {
        ResBystander(w, w', a, taken, src, msg, r, r', t, q);
      }
    }
  }

  // ---------------------------------------------------------------------------------------------
  // The node and the world
  // ---------------------------------------------------------------------------------------------

  /** A resource node that has a father keeps having one, and one that waits to be inserted goes on waiting. */
  lemma ResStays(w: World, a: Addr, src: Proc, msg: Msg, r: Res)
    requires SplitsOk(w) && MsgOk(w, src, RN(a), msg) && ResOk(w, a, r)
    ensures var r' := HandleRes(r, src, msg).r;
            && (r.father != NOBODY ==> r'.father != NOBODY)
            && (r.father == NOBODY && (a, r.tx) in w.inserts ==> r'.tx == r.tx && r'.father == NOBODY)
  {
  }

  lemma ResHandledOk(w: World, a: Addr, src: Proc, msg: Msg, r: Res)
    requires SplitsOk(w) && MsgOk(w, src, RN(a), msg) && ResOk(w, a, r)
    ensures ResOk(w, a, HandleRes(r, src, msg).r)
  {
  }

  lemma ResHandledOuts(w: World, a: Addr, src: Proc, msg: Msg, r: Res)
    requires MsgOk(w, src, RN(a), msg)
    ensures forall o | o in HandleRes(r, src, msg).outs :: MsgOk(w, RN(a), o.to, o.msg)
  {
  }

  lemma ResGrows(w: World, w': World, a: Addr, taken: bool, src: Proc, msg: Msg, r: Res, r': ResReply)
    requires ResTook(w, w', a, taken, src, msg, r, r') && (r.father != NOBODY ==> r'.r.father != NOBODY)
    ensures Grows(w, w')
  {
    assert w'.sn == w.sn && w'.decided == w.decided;
    forall x | Settled(w, x) ensures Settled(w', x) {}
  }

  lemma ResNet(w: World, w': World, a: Addr, taken: bool, src: Proc, msg: Msg, r: Res, r': ResReply)
    requires NetOk(w) && Grows(w, w') && ResTook(w, w', a, taken, src, msg, r, r')
    requires forall o | o in r'.outs :: MsgOk(w, RN(a), o.to, o.msg)
    ensures NetOk(w')
  {
    forall p, q, l | l in w'.net(p, q) ensures MsgOk(w', p, q, l) {
      if p == RN(a) && l in For(r'.outs, q) {
        ForHas(r'.outs, q, l);
        assert Out(q, l) in r'.outs;
        MsgStaysOk(w, w', p, q, l);
      } else {
        assert l in w.net(p, q);
        MsgStaysOk(w, w', p, q, l);
      }
    }
  }

  lemma ResNodes(w: World, w': World, a: Addr, r': Res)
    requires NodesOk(w) && Grows(w, w') && OnlyRN(w, w', a, r') && w'.sn == w.sn && ResOk(w, a, r')
    requires w'.decided == w.decided && w'.enlisted == w.enlisted && w'.split == w.split
    ensures NodesOk(w')
  {
    forall x ensures NodeOk(w', x, w'.sn(x)) {
      assert NodeOk(w, x, w.sn(x));
      NodeStaysOk(w, w', x, w.sn(x));
    }
    forall b ensures ResOk(w', b, w'.rn(b)) {
      assert ResOk(w, b, w.rn(b));
      ResStaysOk(w, w', b, w'.rn(b));
    }
  }

  lemma ResSplits(w: World, w': World, a: Addr, taken: bool, src: Proc, msg: Msg, r: Res, r': ResReply)
    requires SplitsOk(w) && ResTook(w, w', a, taken, src, msg, r, r') && ResOk(w, a, r)
    requires r.father == NOBODY && (a, r.tx) in w.inserts ==> r'.r.tx == r.tx && r'.r.father == NOBODY
    ensures SplitsOk(w')
  {
    forall t | t in w'.split ensures Settled(w', w'.owner[t].a) { assert Settled(w, w.owner[t].a); }
  }

  lemma ResTookKeeps(w: World, w': World, a: Addr, taken: bool, src: Proc, msg: Msg, r: Res, r': ResReply)
    requires Inv(w) && ResTook(w, w', a, taken, src, msg, r, r') && r' == HandleRes(r, src, msg)
    ensures Inv(w')
  {
    ResArrivalOk(w, a, taken, src, msg, r);
    ResStays(w, a, src, msg, r);
    ResHandledOk(w, a, src, msg, r);
    ResHandledOuts(w, a, src, msg, r);
    ResGrows(w, w', a, taken, src, msg, r, r');
    ResNet(w, w', a, taken, src, msg, r, r');
    ResNodes(w, w', a, r'.r);
    ResSplits(w, w', a, taken, src, msg, r, r');
    ResPairs(w, w', a, taken, src, msg, r, r');
    SearchesStayOk(w, w');
    SameEnlisted(w, w');
  }
}
