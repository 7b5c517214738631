/** Every message handler of a structure node keeps the invariant. */
module OverlayHandlers {
  import opened Overlay
  import opened OverlayProtocol
  import opened OverlayPairs
  import opened OverlayInvariant
  import opened OverlaySafety
  import opened OverlayRoles
  import opened OverlayDriver
  import opened OverlaySteps
  import opened OverlayNodes

  /** When a split has won, everybody who takes part has its place. */
  lemma WonSettles(w: World, t: TxId, x: Addr)
    requires SplitsOk(w) && AllCoherent(w) && t in w.owner && (t in w.split ==> Won(w, t))
    ensures CandidatesSettled(w, t, x)
  {
    forall a | Candidate(w, t, x, a) ensures Settled(w, a) {
      if t in w.split && SN(a) != w.owner[t] {
        assert Coherent(t, View(w, t, SN(a)));
      }
    }
  }

  /** What is known when a message arrives. */
  ghost predicate Facts(w: World, x: Addr, src: Proc, msg: Msg, n: Node) {
    && w.m >= 2 && x != NOBODY && NodeOk(w, x, n) && MsgOk(w, src, SN(x), msg)
    && (msg.t in w.owner ==> (msg.t in w.split <==> w.owner[msg.t].SN?))
  }

  lemma FactsHold(w: World, x: Addr, taken: bool, src: Proc, msg: Msg, n: Node)
    requires Base(w) && Arrives(w, x, taken, src, msg, n)
    ensures Facts(w, x, src, msg, n)
  {
    ArrivalOk(w, x, taken, src, msg, n);
  }

  lemma NewStrNodeOk(w: World, w': World, x: Addr, src: Proc, msg: Msg, n: Node, c: Choice, r: Reply)
    requires Facts(w, x, src, msg, n) && Grows(w, w') && Records(w, w', x, n, r, msg) && ValidChoice(n, c)
    requires msg.NewStrNode? && r == OnNewStrNode(x, n, src, msg.t, c)
    requires n.tx == msg.t && Driving(n) ==>
        src.SN? && src != SN(x) && src.a != NOBODY && src !in Enlisted(w, n.tx) && !Settled(w, src.a)
    ensures StepOk(w, w', x, n, r)
  {
    if n.tx == msg.t && n.phase == WaitStr {
      BooksMove(w, w', x, src, msg, n, r, n.tx);
      if n.father == NOBODY && n.newFather == NOBODY {
        FirstOfferOk(w, w', x, src, n, r);
      } else {
        SplitOk(w, w', x, n, src.a, c, r);
      }
    } else {
      SameBooks(w, w', x, src, msg, n, r);
      ReplyOk(w, w', x, src, msg, Rollback(msg.t));
      AnswerOk(w, w', x, src, msg, n, r);
    }
  }

  lemma InitStrNodeOk(w: World, w': World, x: Addr, src: Proc, msg: Msg, n: Node, r: Reply)
    requires Facts(w, x, src, msg, n) && Grows(w, w') && Records(w, w', x, n, r, msg)
    requires msg.InitStrNode? && r == OnInitStrNode(n, src, msg)
    ensures StepOk(w, w', x, n, r)
  {
    if n.tx == msg.t && n.phase == StartIn {
      InitialisedOk(w, w', x, src, msg, n, r);
    } else {
      SameBooks(w, w', x, src, msg, n, r);
      ReplyOk(w, w', x, src, msg, Nack(msg.t));
      AnswerOk(w, w', x, src, msg, n, r);
    }
  }

  lemma NewFatherHandled(w: World, w': World, x: Addr, src: Proc, msg: Msg, n: Node, r: Reply)
    requires Facts(w, x, src, msg, n) && Grows(w, w') && Records(w, w', x, n, r, msg)
    requires msg.NewFather? && r == OnNewFather(x, n, src, msg)
    ensures StepOk(w, w', x, n, r)
  {
    if n.phase == StartIn || n.phase == Init || n.phase == AddChild {
      SameBooks(w, w', x, src, msg, n, r);
      DelayOk(w, w', x, src, msg, n, r);
    } else if n.phase != Offline && src.a == n.father {
      FatherChanges(w, w', x, src, msg, n, r);
    } else {
      SameBooks(w, w', x, src, msg, n, r);
      ReplyOk(w, w', x, src, msg, Nack(msg.t));
      AnswerOk(w, w', x, src, msg, n, r);
    }
  }

  lemma FatherChanges(w: World, w': World, x: Addr, src: Proc, msg: Msg, n: Node, r: Reply)
    requires Facts(w, x, src, msg, n) && Grows(w, w')
    requires msg.NewFather? && r == OnNewFather(x, n, src, msg) && src.a == n.father
    requires n.phase != Offline && n.phase != StartIn && n.phase != Init && n.phase != AddChild
    ensures StepOk(w, w', x, n, r)
  {
    MsgStaysOk(w, w', src, SN(x), msg);
    ReplyOk(w, w', x, src, msg, Ack(msg.t));
    if n.tx == NO_TX {
      NodeStaysOk(w, w', x, n);
      NewFatherOk(w', x, src, msg, n, r.n);
    } else {
      RollsBackOk(w, w', x, n, RolledBack(x, n));
      NewFatherOk(w', x, src, msg, RolledBack(x, n).n, r.n);
    }
  }

  lemma NewChildHandled(w: World, w': World, x: Addr, src: Proc, msg: Msg, n: Node, c: Choice, r: Reply)
    requires Facts(w, x, src, msg, n) && Grows(w, w') && Records(w, w', x, n, r, msg)
    requires msg.NewChild? && r == OnNewChild(w.m, n, src, msg, c)
    ensures StepOk(w, w', x, n, r)
  {
    if n.tx != NO_TX || |n.zones| >= 2 * w.m {
      SameBooks(w, w', x, src, msg, n, r);
      DelayOk(w, w', x, src, msg, n, r);
    } else if FindLink(n.zones, src.a) < |n.zones| {
      NewChildOk(w, w', x, src, msg, n, c, r);
    } else {
      SameBooks(w, w', x, src, msg, n, r);
      AnswerOk(w, w', x, src, msg, n, r);
    }
  }

  lemma AckHandled(w: World, w': World, x: Addr, src: Proc, msg: Msg, n: Node, r: Reply)
    requires Facts(w, x, src, msg, n) && Grows(w, w') && Records(w, w', x, n, r, msg)
    requires msg.Ack? && r == OnAck(x, n, src, msg.t)
    requires n.tx == msg.t && Driving(n) ==> src in n.noAck && n.phase == Splitting
    requires n.tx == msg.t && Won(w', n.tx) ==> CandidatesSettled(w', n.tx, x)
    ensures StepOk(w, w', x, n, r)
  {
    if n.tx == msg.t && n.driver == x {
      var counted := n.(noAck := RemoveFirst(n.noAck, src),
        acked := if src in n.acked then n.acked else n.acked + [src]);
      BooksMove(w, w', x, src, msg, n, r, n.tx);
      if counted.noAck == [] {
        CommitsOk(w, w', x, n, counted, r);
      } else {
        AckedOk(w, w', x, src, n, r);
      }
    } else {
      SameBooks(w, w', x, src, msg, n, r);
      ReplyOk(w, w', x, src, msg, Rollback(msg.t));
      AnswerOk(w, w', x, src, msg, n, r);
    }
  }

  lemma OutcomeHandled(w: World, w': World, x: Addr, src: Proc, msg: Msg, n: Node, c: Choice, r: Reply)
    requires Facts(w, x, src, msg, n) && Grows(w, w') && Records(w, w', x, n, r, msg) && ValidChoice(n, c)
    requires (msg.Nack? || msg.Commit? || msg.Rollback?) && r == Handle(x, w.m, n, src, msg, c)
    requires msg.Commit? && n.tx == msg.t ==> CandidatesSettled(w', n.tx, x)
    ensures StepOk(w, w', x, n, r)
  {
    if n.tx == msg.t && msg.Commit? {
      CommitsOk(w, w', x, n, n, r);
    } else if n.tx == msg.t && ((msg.Nack? && n.driver == x) || (msg.Rollback? && n.driver == src.a)) {
      RollsBackOk(w, w', x, n, r);
    } else {
      SameBooks(w, w', x, src, msg, n, r);
      AnswerOk(w, w', x, src, msg, n, r);
    }
  }

  // ---------------------------------------------------------------------------------------------
  // All messages
  // ---------------------------------------------------------------------------------------------

  /** A commit arrives only when the split has won. */
  lemma CommitIsWon(w: World, x: Addr, taken: bool, src: Proc, msg: Msg, n: Node)
    requires Base(w) && AllCoherent(w) && Arrives(w, x, taken, src, msg, n) && msg.Commit? && msg.t in w.split
    ensures Won(w, msg.t)
  {
    ArrivalOk(w, x, taken, src, msg, n);
    NumPositive(w.net(src, SN(x)), Told(true), msg.t, msg);
    assert Coherent(msg.t, View(w, msg.t, SN(x)));
  }

  /** What the handlers rely on beyond the node and the message. */
  ghost predicate Reliable(w: World, w': World, x: Addr, src: Proc, msg: Msg, n: Node) {
    && (msg.NewStrNode? && n.tx == msg.t && Driving(n) ==>
          src.SN? && src != SN(x) && src.a != NOBODY && src !in Enlisted(w, n.tx) && !Settled(w, src.a))
    && (msg.Ack? && n.tx == msg.t && Driving(n) ==> src in n.noAck && n.phase == Splitting)
    && (msg.Ack? && n.tx == msg.t && Won(w', n.tx) ==> CandidatesSettled(w', n.tx, x))
    && (msg.Commit? && n.tx == msg.t ==> CandidatesSettled(w', n.tx, x))
  }

  lemma ReliableHolds(w: World, w': World, x: Addr, taken: bool, src: Proc, msg: Msg, n: Node)
    requires Inv(w) && Arrives(w, x, taken, src, msg, n) && Grows(w, w') && SplitsOk(w') && AllCoherent(w')
    ensures Reliable(w, w', x, src, msg, n)
  {
    ArrivalOk(w, x, taken, src, msg, n);
    if n.tx == msg.t && Driving(n) {
      if msg.NewStrNode? {
        OfferIsFresh(w, x, taken, src, msg, n, msg.t);
      } else if msg.Ack? {
        assert Coherent(msg.t, View(w, msg.t, src));
        AckIsListed(w, x, src, msg, n, msg.t);
      }
    }
    if n.tx == msg.t && msg.Commit? {
      if msg.t in w.split { CommitIsWon(w, x, taken, src, msg, n); }
      WonSettles(w', n.tx, x);
    } else if n.tx == msg.t && msg.Ack? && Won(w', n.tx) {
      WonSettles(w', n.tx, x);
    }
  }

  lemma HandleOk(w: World, w': World, x: Addr, src: Proc, msg: Msg, n: Node, c: Choice, r: Reply)
    requires Facts(w, x, src, msg, n) && Grows(w, w') && Records(w, w', x, n, r, msg) && ValidChoice(n, c)
    requires r == Handle(x, w.m, n, src, msg, c) && Reliable(w, w', x, src, msg, n)
    ensures StepOk(w, w', x, n, r)
  {
    match msg
    case NewStrNode(_) => NewStrNodeOk(w, w', x, src, msg, n, c, r);
    case InitStrNode(_, _, _, _) => InitStrNodeOk(w, w', x, src, msg, n, r);
    case NewFather(_, _) => NewFatherHandled(w, w', x, src, msg, n, r);
    case NewChild(_, _) => NewChildHandled(w, w', x, src, msg, n, c, r);
    case Ack(_) => AckHandled(w, w', x, src, msg, n, r);
    case _ => OutcomeHandled(w, w', x, src, msg, n, c, r);
  }

  lemma SaysKnown(w: World, x: Addr, src: Proc, msg: Msg, n: Node, c: Choice)
    requires Facts(w, x, src, msg, n) && ValidChoice(n, c)
    ensures forall o | o in Handle(x, w.m, n, src, msg, c).outs :: o.msg.t in w.owner
  {
    Answers(x, w.m, n, src, msg, c);
  }

  lemma TookSplitsOk(w: World, w': World, x: Addr, taken: bool, src: Proc, msg: Msg, n: Node, c: Choice, r: Reply)
    requires Base(w) && Grows(w, w') && Took(w, w', x, taken, src, msg, n, r) && ValidChoice(n, c)
    requires r == Handle(x, w.m, n, src, msg, c)
    ensures SplitsOk(w')
  {
    FactsHold(w, x, taken, src, msg, n);
    SaysKnown(w, x, src, msg, n, c);
    TxMoves(x, w.m, n, src, msg, c);
    TookSplits(w, w', x, taken, src, msg, n, r);
  }

  lemma TookEnlisted(w: World, w': World, x: Addr, src: Proc, msg: Msg, n: Node, r: Reply)
    requires EnlistedOk(w) && Records(w, w', x, n, r, msg) && DriverOk(w', x, r.n)
    ensures EnlistedOk(w')
  {
    forall t, p | t in w'.owner && p in Enlisted(w', t) ensures p != w'.owner[t] && p.a != NOBODY {
      if p !in Enlisted(w, t) { assert Driving(r.n) && t == r.n.tx && p in r.n.noAck; }
    }
  }

  lemma TookSearches(w: World, w': World, x: Addr, src: Proc, msg: Msg, n: Node, r: Reply)
    requires SearchesOk(w) && Records(w, w', x, n, r, msg) && DriverOk(w, x, n) && (Driving(n) ==> n.tx in w.split)
    ensures SearchesOk(w')
  {
    forall d | d in w'.needed || d in w'.armed ensures d.1 in w'.owner && d.1 in w'.split && w'.owner[d.1] == SN(d.0) {
      assert d in w.needed || d in w.armed || (Driving(n) && d == (x, n.tx));
    }
  }

  /** Whatever message a structure node handles, the invariant survives. */
  lemma TookKeeps(w: World, w': World, x: Addr, taken: bool, src: Proc, msg: Msg, n: Node, c: Choice, r: Reply)
    requires Inv(w) && Took(w, w', x, taken, src, msg, n, r) && ValidChoice(n, c) && r == Handle(x, w.m, n, src, msg, c)
    ensures Inv(w')
  {
    FactsHold(w, x, taken, src, msg, n);
    if Settled(w, x) { KeepsPlace(w, x, taken, src, msg, n, c); }
    TookGrows(w, w', x, taken, src, msg, n, r);
    TookPairs(w, w', x, taken, src, msg, n, c, r);
    TookSplitsOk(w, w', x, taken, src, msg, n, c, r);
    ReliableHolds(w, w', x, taken, src, msg, n);
    HandleOk(w, w', x, src, msg, n, c, r);
    TookBase(w, w', x, taken, src, msg, n, r);
    TookEnlisted(w, w', x, src, msg, n, r);
    TookSearches(w, w', x, src, msg, n, r);
  }
}
