/** Every step of a structure node leaves it well-formed and sends well-formed messages. */
module OverlayNodes {
  import opened Overlay
  import opened OverlayProtocol
  import opened OverlayPairs
  import opened OverlayInvariant
  import opened OverlaySafety
  import opened OverlayRoles
  import opened OverlayDriver
  import opened OverlaySteps

  // ---------------------------------------------------------------------------------------------
  // Links after the end of a transaction
  // ---------------------------------------------------------------------------------------------

  /** Every node that a member may be linked to by `t` has its place. */
  ghost predicate CandidatesSettled(w: World, t: TxId, x: Addr) {
    forall a | Candidate(w, t, x, a) :: Settled(w, a)
  }

  lemma CommittedLinks(w: World, x: Addr, n: Node)
    requires LinksOk(w, x, n) && CandidatesSettled(w, n.tx, x)
    ensures LinksOk(w, x, Committed(x, n).n)
  {
    var n' := Committed(x, n).n;
    CommitZonesBound(n.zones);
    forall z | z in n'.zones ensures LinkOk(w, x, n', z) && z.actual != NOBODY && !z.IsDeletion() {
      CommittedZones(n.zones, z);
      var y :| y in n.zones && z.actual == (if y.actual == NOBODY then y.next else y.actual);
      assert LinkOk(w, x, n, y);
    }
  }

  lemma RolledBackLinks(w: World, x: Addr, n: Node)
    requires LinksOk(w, x, n)
    ensures LinksOk(w, x, RolledBack(x, n).n)
  {
    var n' := RolledBack(x, n).n;
    CommitZonesBound(n.zones);
    if n.phase == Init || n.phase == StartIn {
      forall z | z in n.zones ensures z.IsAddition() { assert LinkOk(w, x, n, z); }
      AdditionsVanish(n.zones);
    }
    forall z | z in n'.zones ensures LinkOk(w, x, n', z) && z.actual != NOBODY && !z.IsDeletion() {
      RolledBackZones(n.zones, z);
      var y :| y in n.zones && z.actual == y.actual;
      assert LinkOk(w, x, n, y);
    }
  }

  /** A node at the end of its transaction is well-formed, whatever the outcome. */
  lemma EndsOk(w: World, w': World, x: Addr, n: Node, n': Node)
    requires Grows(w, w') && TxOk(w, x, n) && DelayedOk(w, SN(x), n.delayed) && LinksOk(w', x, n')
    requires n'.delayed == n.delayed && n'.tx == NO_TX && n'.noAck == [] && n'.acked == [] && n'.newFather == NOBODY
    requires n'.phase == (if n.phase == StartIn || n.phase == Init then Offline else Online) || n'.phase == Online
    ensures NodeOk(w', x, n')
  {
    DelayedStayOk(w, w', SN(x), n'.delayed);
  }

  // ---------------------------------------------------------------------------------------------
  // Nothing changes
  // ---------------------------------------------------------------------------------------------

  /** A driver that goes on driving with the same books. */
  ghost predicate StillDriving(w: World, w': World, n: Node) {
    Driving(n) ==> Open(w', n.tx) && Enlisted(w', n.tx) == Enlisted(w, n.tx)
  }

  lemma SameBooks(w: World, w': World, x: Addr, src: Proc, msg: Msg, n: Node, r: Reply)
    requires Records(w, w', x, n, r, msg) && DriverOk(w, x, n) && TxOk(w, x, n)
    requires r.n.phase == n.phase && r.n.tx == n.tx && r.n.noAck == n.noAck
    ensures StillDriving(w, w', n)
  {
    if Driving(n) { BooksMove(w, w', x, src, msg, n, r, n.tx); }
  }

  /** An answer about the message's transaction goes back to where the message came from. */
  lemma ReplyOk(w: World, w': World, x: Addr, src: Proc, msg: Msg, reply: Msg)
    requires Grows(w, w') && MsgOk(w, src, SN(x), msg) && reply.t == msg.t
    requires ((reply.Ack? || reply.Nack?) && IsRequest(msg)) || (reply.Rollback? && (msg.NewStrNode? || msg.Ack?))
    requires msg.t in w.owner ==> (msg.t in w.split <==> w.owner[msg.t].SN?)
    ensures MsgOk(w', SN(x), src, reply)
  {
    MsgStaysOk(w, w', src, SN(x), msg);
  }

  /** The node only answers. */
  lemma AnswerOk(w: World, w': World, x: Addr, src: Proc, msg: Msg, n: Node, r: Reply)
    requires Grows(w, w') && NodeOk(w, x, n) && StillDriving(w, w', n) && r.n == n
    requires forall o | o in r.outs :: MsgOk(w', SN(x), o.to, o.msg)
    ensures StepOk(w, w', x, n, r)
  {
    NodeStaysOk(w, w', x, n);
  }

  lemma SameLinksOk(w: World, x: Addr, n: Node, n': Node)
    requires LinksOk(w, x, n) && n'.zones == n.zones && n'.level == n.level && n'.tx == n.tx && n'.phase == n.phase
    requires n'.father == n.father && n'.newFather == n.newFather
    ensures LinksOk(w, x, n')
  {
    forall z | z in n'.zones ensures LinkOk(w, x, n', z) { assert LinkOk(w, x, n, z); }
  }

  lemma MoreDelayedOk(w: World, x: Addr, n: Node, src: Proc, msg: Msg)
    requires NodeOk(w, x, n) && MsgOk(w, src, SN(x), msg) && (msg.NewFather? || msg.NewChild?)
    ensures NodeOk(w, x, n.(delayed := n.delayed + [(src, msg)]))
  {
    SameLinksOk(w, x, n, n.(delayed := n.delayed + [(src, msg)]));
  }

  /** The node puts the message off. */
  lemma DelayOk(w: World, w': World, x: Addr, src: Proc, msg: Msg, n: Node, r: Reply)
    requires Grows(w, w') && NodeOk(w, x, n) && MsgOk(w, src, SN(x), msg) && StillDriving(w, w', n)
    requires r == Delay(n, src, msg) && (msg.NewFather? || msg.NewChild?)
    ensures StepOk(w, w', x, n, r)
  {
    NodeStaysOk(w, w', x, n);
    MsgStaysOk(w, w', src, SN(x), msg);
    MoreDelayedOk(w', x, n, src, msg);
  }

  // ---------------------------------------------------------------------------------------------
  // The end of a transaction
  // ---------------------------------------------------------------------------------------------

  /** The members of a driver are told the outcome. */
  lemma TellOk(w: World, x: Addr, n: Node, members: seq<Proc>, outcome: Msg)
    requires n.tx != NO_TX && n.tx in w.split && n.tx in w.owner && w.owner[n.tx] == SN(x) && x != NOBODY
    requires forall p | p in members :: p != SN(x) && p.a != NOBODY
    requires outcome == Commit(n.tx) || outcome == Rollback(n.tx)
    ensures forall o | o in ToAll(members, outcome) :: MsgOk(w, SN(x), o.to, o.msg)
  {
  }

  lemma CommitsOk(w: World, w': World, x: Addr, n: Node, counted: Node, r: Reply)
    requires Grows(w, w') && TxOk(w, x, n) && DelayedOk(w, SN(x), n.delayed) && LinksOk(w, x, n)
    requires CandidatesSettled(w', n.tx, x)
    requires counted == n.(noAck := counted.noAck, acked := counted.acked) && n.tx != NO_TX
    requires r == Committed(x, counted) && counted.noAck == []
    requires n.driver == x && counted.acked != [] ==>
               n.tx in w.split && w.owner[n.tx] == SN(x) && forall p | p in counted.acked :: p != SN(x) && p.a != NOBODY
    ensures StepOk(w, w', x, n, r)
  {
    LinksStayOk(w, w', x, n);
    SameLinksOk(w', x, n, counted);
    CommittedLinks(w', x, counted);
    EndsOk(w, w', x, n, r.n);
    if n.driver == x && counted.acked != [] { TellOk(w', x, n, counted.acked, Commit(n.tx)); }
  }

  lemma RollsBackOk(w: World, w': World, x: Addr, n: Node, r: Reply)
    requires Grows(w, w') && NodeOk(w, x, n) && n.tx != NO_TX && r == RolledBack(x, n)
    ensures StepOk(w, w', x, n, r)
  {
    LinksStayOk(w, w', x, n);
    RolledBackLinks(w', x, n);
    EndsOk(w, w', x, n, r.n);
    if n.driver == x && n.acked != [] { TellOk(w', x, n, n.acked, Rollback(n.tx)); }
  }

  // ---------------------------------------------------------------------------------------------
  // Taking part
  // ---------------------------------------------------------------------------------------------

  lemma InitialisedOk(w: World, w': World, x: Addr, src: Proc, msg: Msg, n: Node, r: Reply)
    requires Grows(w, w') && NodeOk(w, x, n) && MsgOk(w, src, SN(x), msg) && msg.InitStrNode?
    requires n.tx == msg.t && n.phase == StartIn && r == OnInitStrNode(n, src, msg)
    ensures StepOk(w, w', x, n, r)
  {
    MsgStaysOk(w, w', src, SN(x), msg);
    DelayedStayOk(w, w', SN(x), n.delayed);
    LinksStayOk(w, w', x, n);
    InitialisedLinks(w', x, src, msg, n, r.n);
  }

  lemma InitialisedLinks(w: World, x: Addr, src: Proc, msg: Msg, n: Node, n': Node)
    requires MsgOk(w, src, SN(x), msg) && msg.InitStrNode? && n.tx == msg.t && n.zones == [] && LinksOk(w, x, n)
    requires n' == n.(phase := Init, newFather := msg.father, level := msg.level,
        zones := n.zones + Additions(msg.children))
    ensures LinksOk(w, x, n')
  {
    forall z | z in n'.zones ensures LinkOk(w, x, n', z) && z.actual == NOBODY && !z.IsDeletion() {
      var i :| 0 <= i < |msg.children| && z == Additions(msg.children)[i];
    }
  }

  lemma NewChildOk(w: World, w': World, x: Addr, src: Proc, msg: Msg, n: Node, c: Choice, r: Reply)
    requires Grows(w, w') && NodeOk(w, x, n) && MsgOk(w, src, SN(x), msg) && msg.NewChild? && x != NOBODY
    requires n.tx == NO_TX && |n.zones| < 2 * w.m && FindLink(n.zones, src.a) < |n.zones|
    requires r == OnNewChild(w.m, n, src, msg, c)
    ensures StepOk(w, w', x, n, r)
  {
    MsgStaysOk(w, w', src, SN(x), msg);
    DelayedStayOk(w, w', SN(x), n.delayed);
    LinksStayOk(w, w', x, n);
    NewChildLinks(w', x, src, msg, n, c, r.n);
  }

  lemma NewChildLinks(w: World, x: Addr, src: Proc, msg: Msg, n: Node, c: Choice, n': Node)
    requires LinksOk(w, x, n) && MsgOk(w, src, SN(x), msg) && msg.NewChild?
    requires n.tx == NO_TX && |n.zones| < 2 * w.m && FindLink(n.zones, src.a) < |n.zones|
    requires n.phase == Offline || n.phase == Online
    requires n' == OnNewChild(w.m, n, src, msg, c).n
    ensures LinksOk(w, x, n')
  {
    assert n.zones != [] && n.phase == Online;
    forall z | z in n'.zones ensures LinkOk(w, x, n', z) && !z.IsDeletion() {
      var i := FindLink(n.zones, src.a);
      assert n.zones[i] in n.zones;
      if z != n'.zones[0] {
        var k :| 1 <= k < |n'.zones| && z == n'.zones[k];
        assert n.zones[k - 1] in n.zones && LinkOk(w, x, n, n.zones[k - 1]);
      }
    }
  }

  /** `base` is the node as it was, or rolled back. */
  lemma NewFatherOk(w: World, x: Addr, src: Proc, msg: Msg, base: Node, n': Node)
    requires MsgOk(w, src, SN(x), msg) && msg.NewFather? && x != NOBODY
    requires NodeOk(w, x, base) && base.tx == NO_TX && base.phase == Online && base.father == src.a
    requires n' == base.(driver := src.a, newFather := msg.newFather, tx := msg.t, phase := ChangeFather)
    ensures NodeOk(w, x, n')
  {
    forall z | z in n'.zones ensures LinkOk(w, x, n', z) { assert LinkOk(w, x, base, z); }
  }

  // ---------------------------------------------------------------------------------------------
  // Driving
  // ---------------------------------------------------------------------------------------------

  /** Who has acknowledged and who has not, after one more. */
  lemma AckedLists(n: Node, n': Node, src: Proc)
    requires Counted(n, n', src)
    ensures forall p | p in n'.noAck || p in n'.acked :: p in n.noAck || p in n.acked
    ensures forall p | p in n.noAck || p in n.acked :: p in n'.noAck || p in n'.acked
    ensures (forall i, j | 0 <= i < j < |n.acked| :: n.acked[i] != n.acked[j])
            ==> forall i, j | 0 <= i < j < |n'.acked| :: n'.acked[i] != n'.acked[j]
  {
    TimesRemoved(n.noAck, src, src);
  }

  lemma AckedBooks(w: World, w': World, x: Addr, src: Proc, n: Node, n': Node)
    requires DriverOk(w, x, n) && Driving(n) && Counted(n, n', src) && n.phase == Splitting
    requires n.tx in w'.owner && w'.owner[n.tx] == w.owner[n.tx] && Open(w', n.tx)
    requires Enlisted(w', n.tx) == Enlisted(w, n.tx) + set p | p in n'.noAck
    ensures DriverOk(w', x, n')
  {
    AckedLists(n, n', src);
    assert Enlisted(w', n.tx) == (set p | p in n'.noAck) + set p | p in n'.acked;
  }

  lemma AckedOk(w: World, w': World, x: Addr, src: Proc, n: Node, r: Reply)
    requires Grows(w, w') && NodeOk(w, x, n) && Driving(n) && Counted(n, r.n, src) && r.outs == []
    requires n.phase == Splitting
    requires Open(w', n.tx) && Enlisted(w', n.tx) == Enlisted(w, n.tx) + set p | p in r.n.noAck
    ensures StepOk(w, w', x, n, r)
  {
    AckedBooks(w, w', x, src, n, r.n);
    LinksStayOk(w, w', x, n);
    SameLinksOk(w', x, n, r.n);
    DelayedStayOk(w, w', SN(x), n.delayed);
  }

  /** An offer comes from a node that is not settled and that nobody has enlisted for this split. */
  lemma OfferIsFresh(w: World, x: Addr, taken: bool, src: Proc, msg: Msg, n: Node, t: TxId)
    requires Base(w) && AllCoherent(w) && Arrives(w, x, taken, src, msg, n) && msg == NewStrNode(t) && t !in w.decided
    ensures src.SN? && src != SN(x) && src.a != NOBODY && src !in Enlisted(w, t) && !Settled(w, src.a)
  {
    ArrivalOk(w, x, taken, src, msg, n);
    NumPositive(w.net(src, SN(x)), Offered, t, msg);
    assert Coherent(t, View(w, t, src));
  }

  lemma FirstOfferOk(w: World, w': World, x: Addr, src: Proc, n: Node, r: Reply)
    requires Grows(w, w') && NodeOk(w, x, n) && n.phase == WaitStr && n.father == NOBODY && n.newFather == NOBODY
    requires src.SN? && src != SN(x) && src.a != NOBODY
    requires r == Reply(n.(newFather := src.a, noAck := n.noAck + [src]), [])
    requires Open(w', n.tx) && Enlisted(w', n.tx) == Enlisted(w, n.tx) + set p | p in r.n.noAck
    ensures StepOk(w, w', x, n, r)
  {
    assert r.n.noAck == [src];
    LinksStayOk(w, w', x, n);
    DelayedStayOk(w, w', SN(x), n.delayed);
    forall z | z in r.n.zones ensures LinkOk(w', x, r.n, z) { assert LinkOk(w', x, n, z); }
  }

  // ---------------------------------------------------------------------------------------------
  // Splitting
  // ---------------------------------------------------------------------------------------------

  /** What the driver knows when it has its brother (and, as a root, its father). */
  ghost predicate ReadyToSplit(w: World, x: Addr, n: Node, brother: Addr) {
    && NodeOk(w, x, n) && n.phase == WaitStr && (n.father != NOBODY || n.newFather != NOBODY)
    && brother != NOBODY && brother != x && !Settled(w, brother) && SN(brother) !in Enlisted(w, n.tx)
  }

  /** The members of a split, one by one. */
  lemma MoverOk(w: World, x: Addr, n: Node, brother: Addr, c: Choice, p: Proc)
    requires ReadyToSplit(w, x, n, brother) && ValidChoice(n, c) && p in Movers(n, c.moved)
    ensures p != SN(x) && p.a != NOBODY && p != SN(brother)
  {
    var i :| 0 <= i < |c.moved| && Movers(n, c.moved)[i] == p;
    assert LinkOk(w, x, n, n.zones[c.moved[i]]);
  }

  lemma SplitBooks(w: World, w': World, x: Addr, n: Node, brother: Addr, c: Choice)
    requires Grows(w, w') && ReadyToSplit(w, x, n, brother) && ValidChoice(n, c)
    requires var n' := Split(x, n, brother, c.moved).n;
             Open(w', n.tx) && Enlisted(w', n.tx) == Enlisted(w, n.tx) + set p | p in n'.noAck
    ensures DriverOk(w', x, Split(x, n, brother, c.moved).n)
  {
    var n' := Split(x, n, brother, c.moved).n;
    forall p | p in n'.noAck ensures p != SN(x) && p.a != NOBODY {
      if p in Movers(n, c.moved) { MoverOk(w, x, n, brother, c, p); }
    }
  }

  lemma SplitLinks(w: World, x: Addr, n: Node, brother: Addr, c: Choice)
    requires LinksOk(w, x, n) && Driving(n) && ValidChoice(n, c)
    ensures LinksOk(w, x, Split(x, n, brother, c.moved).n)
  {
    var n' := Split(x, n, brother, c.moved).n;
    forall z | z in n'.zones ensures LinkOk(w, x, n', z) && z.actual != NOBODY {
      var i :| 0 <= i < |n'.zones| && z == n'.zones[i];
      assert n.zones[i] in n.zones && LinkOk(w, x, n, n.zones[i]);
    }
  }

  /** The request to the new or old father. */
  lemma SplitTellsFather(w: World, w': World, x: Addr, n: Node, brother: Addr, c: Choice)
    requires Grows(w, w') && w.m >= 2 && ReadyToSplit(w, x, n, brother) && ValidChoice(n, c) && x != NOBODY
    requires n.tx in w'.split && forall p | p in Split(x, n, brother, c.moved).n.noAck :: p in Enlisted(w', n.tx)
    ensures var o := Split(x, n, brother, c.moved).outs[0]; MsgOk(w', SN(x), o.to, o.msg)
  {
    SplitListsFather(w, w', x, n, brother, c);
    if n.father == NOBODY {
      SplitTellsNewFather(w, w', x, n, brother, c);
    } else {
      assert Split(x, n, brother, c.moved).outs[0] == Out(SN(n.father), NewChild(n.tx, brother));
    }
  }

  lemma SplitTellsNewFather(w: World, w': World, x: Addr, n: Node, brother: Addr, c: Choice)
    requires Grows(w, w') && w.m >= 2 && ReadyToSplit(w, x, n, brother) && ValidChoice(n, c) && x != NOBODY
    requires n.tx in w'.split && n.father == NOBODY && n.newFather != brother && n.newFather != NOBODY
    requires n.newFather != x
    requires SN(brother) in Enlisted(w', n.tx) && SN(n.newFather) in Enlisted(w', n.tx)
    ensures var o := Split(x, n, brother, c.moved).outs[0]; MsgOk(w', SN(x), o.to, o.msg)
  {
    var o := Split(x, n, brother, c.moved).outs[0];
    assert o.msg.children == [x, brother];
    assert RequestOk(w', o.to, o.msg);
  }

  lemma SplitListsFather(w: World, w': World, x: Addr, n: Node, brother: Addr, c: Choice)
    requires ReadyToSplit(w, x, n, brother) && ValidChoice(n, c)
    requires forall p | p in Split(x, n, brother, c.moved).n.noAck :: p in Enlisted(w', n.tx)
    ensures SN(brother) in Enlisted(w', n.tx)
    ensures SN(if n.father == NOBODY then n.newFather else n.father) in Enlisted(w', n.tx)
    ensures n.father == NOBODY ==> n.newFather != brother && n.newFather != NOBODY && n.newFather != x
  {
    var noAck := Split(x, n, brother, c.moved).n.noAck;
    assert noAck[|noAck| - 1] == SN(brother);
    if n.father == NOBODY {
      assert n.noAck == [SN(n.newFather)] && noAck[0] == SN(n.newFather);
      assert SN(n.newFather) in Enlisted(w, n.tx);
    } else {
      assert n.noAck == [] && noAck[0] == SN(n.father);
    }
  }

  /** The request to a child that moves. */
  lemma SplitTellsChild(w: World, w': World, x: Addr, n: Node, brother: Addr, c: Choice, i: nat)
    requires Grows(w, w') && ReadyToSplit(w, x, n, brother) && ValidChoice(n, c) && x != NOBODY && i < |c.moved|
    requires n.tx in w'.split && forall p | p in Split(x, n, brother, c.moved).n.noAck :: p in Enlisted(w', n.tx)
    ensures MsgOk(w', SN(x), Movers(n, c.moved)[i], NewFather(n.tx, brother))
  {
    var p := Movers(n, c.moved)[i];
    MoverOk(w, x, n, brother, c, p);
    var noAck := Split(x, n, brother, c.moved).n.noAck;
    assert noAck[|noAck| - 1] == SN(brother);
    assert p in Movers(n, c.moved) && p in noAck;
  }

  /** The request to the brother: each moved child becomes its child. */
  lemma SplitTellsBrother(w: World, w': World, x: Addr, n: Node, brother: Addr, c: Choice)
    requires Grows(w, w') && ReadyToSplit(w, x, n, brother) && ValidChoice(n, c) && x != NOBODY
    requires n.tx in w'.split && forall p | p in Split(x, n, brother, c.moved).n.noAck :: p in Enlisted(w', n.tx)
    ensures var up := if n.father == NOBODY then n.newFather else n.father;
            MsgOk(w', SN(x), SN(brother), InitStrNode(n.tx, up, Links(n, c.moved), n.level))
  {
    var noAck, cs := Split(x, n, brother, c.moved).n.noAck, Links(n, c.moved);
    assert noAck[|noAck| - 1] == SN(brother);
    if n.father == NOBODY {
      assert n.noAck == [SN(n.newFather)] && noAck[0] == SN(n.newFather);
      assert SN(n.newFather) in Enlisted(w, n.tx);
    } else {
      assert n.noAck == [] && noAck[0] == SN(n.father);
    }
    forall i | 0 <= i < |cs| ensures cs[i] != NOBODY && (n.level > 0 ==> Candidate(w', n.tx, brother, cs[i])) {
      var p := Movers(n, c.moved)[i];
      assert p in Movers(n, c.moved) && p in noAck;
      MoverOk(w, x, n, brother, c, p);
    }
  }

  /** The requests of a split: to the father, to the children that move, in their order, and to the brother. */
  lemma SplitRequests(x: Addr, n: Node, brother: Addr, c: Choice)
    requires ValidChoice(n, c)
    ensures
      var outs := Split(x, n, brother, c.moved).outs;
      && |outs| == |c.moved| + 2 && |Movers(n, c.moved)| == |c.moved|
      && (forall i | 0 <= i < |c.moved| :: outs[i + 1] == Out(Movers(n, c.moved)[i], NewFather(n.tx, brother)))
  {
  }

  lemma SplitTellsMiddle(w: World, w': World, x: Addr, n: Node, brother: Addr, c: Choice, o: Out, i: nat)
    requires Grows(w, w') && w.m >= 2 && ReadyToSplit(w, x, n, brother) && ValidChoice(n, c) && x != NOBODY
    requires i < |c.moved| && |Split(x, n, brother, c.moved).outs| == |c.moved| + 2
    requires n.tx in w'.split && forall p | p in Split(x, n, brother, c.moved).n.noAck :: p in Enlisted(w', n.tx)
    requires o == Split(x, n, brother, c.moved).outs[i + 1]
    ensures MsgOk(w', SN(x), o.to, o.msg)
  {
    SplitRequests(x, n, brother, c);
    SplitTellsChild(w, w', x, n, brother, c, i);
  }

  lemma SplitTellsLast(w: World, w': World, x: Addr, n: Node, brother: Addr, c: Choice, o: Out)
    requires Grows(w, w') && w.m >= 2 && ReadyToSplit(w, x, n, brother) && ValidChoice(n, c) && x != NOBODY
    requires n.tx in w'.split && forall p | p in Split(x, n, brother, c.moved).n.noAck :: p in Enlisted(w', n.tx)
    requires o == Split(x, n, brother, c.moved).outs[|Split(x, n, brother, c.moved).outs| - 1]
    ensures MsgOk(w', SN(x), o.to, o.msg)
  {
    SplitTellsBrother(w, w', x, n, brother, c);
  }

  lemma SplitTells(w: World, w': World, x: Addr, n: Node, brother: Addr, c: Choice, outs: seq<Out>, k: nat)
    requires Grows(w, w') && w.m >= 2 && ReadyToSplit(w, x, n, brother) && ValidChoice(n, c) && x != NOBODY
    requires n.tx in w'.split && forall p | p in Split(x, n, brother, c.moved).n.noAck :: p in Enlisted(w', n.tx)
    requires outs == Split(x, n, brother, c.moved).outs && k < |outs|
    ensures MsgOk(w', SN(x), outs[k].to, outs[k].msg)
  {
    SplitRequests(x, n, brother, c);
    if k == 0 {
      SplitTellsFather(w, w', x, n, brother, c);
    } else if k < |outs| - 1 {
      SplitTellsMiddle(w, w', x, n, brother, c, outs[k], k - 1);
    } else {
      SplitTellsLast(w, w', x, n, brother, c, outs[k]);
    }
  }

  lemma SplitNodeOk(w: World, w': World, x: Addr, n: Node, brother: Addr, c: Choice)
    requires Grows(w, w') && ReadyToSplit(w, x, n, brother) && ValidChoice(n, c)
    requires var n' := Split(x, n, brother, c.moved).n;
             Open(w', n.tx) && Enlisted(w', n.tx) == Enlisted(w, n.tx) + set p | p in n'.noAck
    ensures NodeOk(w', x, Split(x, n, brother, c.moved).n)
  {
    SplitBooks(w, w', x, n, brother, c);
    LinksStayOk(w, w', x, n);
    SplitLinks(w', x, n, brother, c);
    DelayedStayOk(w, w', SN(x), n.delayed);
  }

  lemma SplitOk(w: World, w': World, x: Addr, n: Node, brother: Addr, c: Choice, r: Reply)
    requires Grows(w, w') && w.m >= 2 && ReadyToSplit(w, x, n, brother) && ValidChoice(n, c) && x != NOBODY
    requires r == Split(x, n, brother, c.moved)
    requires Open(w', n.tx) && Enlisted(w', n.tx) == Enlisted(w, n.tx) + set p | p in r.n.noAck
    ensures StepOk(w, w', x, n, r)
  {
    SplitNodeOk(w, w', x, n, brother, c);
    forall o | o in r.outs ensures MsgOk(w', SN(x), o.to, o.msg) {
      var k :| 0 <= k < |r.outs| && o == r.outs[k];
      SplitTells(w, w', x, n, brother, c, r.outs, k);
    }
  }
}
