/** A step of a structure node, seen by a split that the node drives or has driven. */
module OverlayDriver {
  import opened Common
  import opened Overlay
  import opened OverlayProtocol
  import opened OverlayPairs
  import opened OverlayInvariant
  import opened OverlaySafety
  import opened OverlayRoles

  /** All that the step does to the pair of the driver, which becomes `n'` and sends `outs`, and `q`. */
  ghost predicate Sees(v: Pair, v': Pair, t: TxId, q: Proc, popped: bool, msg: Msg, n': Node, outs: seq<Out>) {
    var said := For(outs, q);
    && DriverStep(v, v')
    && v'.waiting == (v'.fate == Running && n'.phase == WaitStr)
    && v'.noAck == (if v'.fate == Running then Times(n'.noAck, q) else 0)
    && v'.acked == (v'.fate == Running && q in n'.acked)
    && Extended(v.dm, v'.dm, DownOf(said, t))
    && (if popped then UpPopped(v.md, v'.md, msg, t) else v'.md == v.md)
    && v'.toldCommit == (v.toldCommit || Commit(t) in said)
    && v'.toldRollback == (v.toldRollback || Rollback(t) in said)
  }

  /** The books of the driver as the pair shows them. */
  ghost predicate Books(v: Pair, n: Node, q: Proc) {
    && v.waiting == (v.fate == Running && n.phase == WaitStr)
    && v.noAck == (if v.fate == Running then Times(n.noAck, q) else 0)
    && v.acked == (v.fate == Running && q in n.acked)
  }

  lemma DriverSees(w: World, w': World, x: Addr, taken: bool, src: Proc, msg: Msg, n: Node, r: Reply, t: TxId, q: Proc)
    requires Took(w, w', x, taken, src, msg, n, r) && (q.SN? && Settled(w, q.a) ==> Settled(w', q.a))
    requires t in w.owner && w.owner[t] == SN(x) && q != SN(x)
    ensures Sees(View(w, t, q), View(w', t, q), t, q, taken && src == q, msg, r.n, r.outs)
    ensures Books(View(w, t, q), n, q)
  {
    DriverBooks(w, w', x, taken, src, msg, n, r, t, q);
    DriverLinks(w, w', x, taken, src, msg, n, r, t, q);
    DownExtended(w.net(SN(x), q), For(r.outs, q), t);
    if taken && src == q { assert UpPopped(View(w, t, q).md, View(w', t, q).md, msg, t); }
    ForHas(r.outs, q, Commit(t));
    ForHas(r.outs, q, Rollback(t));
  }

  // ---------------------------------------------------------------------------------------------
  // Nothing to do with `t`
  // ---------------------------------------------------------------------------------------------

  /** The driver's books on `t` stay as they are, and nothing about `t` is said to `q` or heard from it. */
  lemma DriverQuiet(v: Pair, v': Pair, t: TxId, q: Proc, popped: bool, msg: Msg, n: Node, r: Reply)
    requires Sees(v, v', t, q, popped, msg, r.n, r.outs) && Books(v, n, q) && Coherent(t, v)
    requires v'.fate == v.fate && v'.enlisted == v.enlisted
    requires QuietTo(r.outs, q, t) && (popped ==> msg.t != t || !(msg.NewStrNode? || msg.Ack?))
    requires v.fate == Running ==> r.n.phase == n.phase && r.n.noAck == n.noAck && r.n.acked == n.acked
    requires v.fate == Running ==> forall o | o in r.outs && o.to == q :: !o.msg.NewFather?
    ensures Coherent(t, v')
  {
    ForQuiet(r.outs, q, t);
    ForHas(r.outs, q, Commit(t));
    ForHas(r.outs, q, Rollback(t));
    if v.fate == Running { ForNoFathers(r.outs, q, t); }
    DriverElsewhere(t, v, v');
  }

  // ---------------------------------------------------------------------------------------------
  // Acknowledgements and decisions
  // ---------------------------------------------------------------------------------------------

  /** The outcome of `t` is said to `q` once for every time it is listed, and nothing else about `t`. */
  lemma SaidOutcome(outs: seq<Out>, acked: seq<Proc>, outcome: Msg, after: seq<Out>, q: Proc, t: TxId)
    requires outs == ToAll(acked, outcome) + after && (outcome == Commit(t) || outcome == Rollback(t))
    requires QuietTo(after, q, t)
    ensures
      var said := DownOf(For(outs, q), t);
      && said.requests == 0
      && said.commits == (if outcome == Commit(t) then Times(acked, q) else 0)
      && said.rollbacks == (if outcome == Rollback(t) then Times(acked, q) else 0)
      && (outcome == Commit(t) && Times(acked, q) > 0 ==> said.ahead)
    ensures Commit(t) in For(outs, q) <==> outcome == Commit(t) && q in acked
    ensures Rollback(t) in For(outs, q) <==> outcome == Rollback(t) && q in acked
    ensures Times(acked, q) > 0 <==> q in acked
  {
    SaidDown(acked, outcome, after, q, t);
    TimesIn(acked, q);
    SaidHas(acked, outcome, after, q, Commit(t));
    SaidHas(acked, outcome, after, q, Rollback(t));
  }

  lemma SaidDown(acked: seq<Proc>, outcome: Msg, after: seq<Out>, q: Proc, t: TxId)
    requires (outcome == Commit(t) || outcome == Rollback(t)) && QuietTo(after, q, t)
    ensures
      var said := DownOf(For(ToAll(acked, outcome) + after, q), t);
      && said.requests == 0
      && said.commits == (if outcome == Commit(t) then Times(acked, q) else 0)
      && said.rollbacks == (if outcome == Rollback(t) then Times(acked, q) else 0)
      && (outcome == Commit(t) && Times(acked, q) > 0 ==> said.ahead)
  {
    var first, last := For(ToAll(acked, outcome), q), For(after, q);
    ForAppend(ToAll(acked, outcome), after, q);
    ForToAll(acked, outcome, q, t);
    ForQuiet(after, q, t);
    NumAppend(first, last, Request, t);
    NumAppend(first, last, Told(true), t);
    NumAppend(first, last, Told(false), t);
    if outcome == Commit(t) && Times(acked, q) > 0 { AheadAppend(first, last, t); }
  }

  lemma SaidHas(acked: seq<Proc>, outcome: Msg, after: seq<Out>, q: Proc, c: Msg)
    requires Out(q, c) !in after
    ensures c in For(ToAll(acked, outcome) + after, q) <==> outcome == c && q in acked
  {
    var all := ToAll(acked, outcome);
    ForHas(all + after, q, c);
    if q in acked && outcome == c {
      var i :| 0 <= i < |acked| && acked[i] == q;
      assert all[i] == Out(q, c);
    }
  }

  /** An offer or an acknowledgement that comes too late: its sender is told to roll back. */
  lemma DriverRejects(v: Pair, v': Pair, t: TxId, q: Proc, msg: Msg, n: Node, outs: seq<Out>)
    requires Sees(v, v', t, q, true, msg, n, outs) && Books(v, n, q) && Coherent(t, v)
    requires v'.fate == v.fate && v'.enlisted == v.enlisted && outs == [Out(q, Rollback(t))]
    requires msg.t == t && (msg.NewStrNode? || msg.Ack?) && !v.waiting && (msg.Ack? ==> v.fate != Running)
    ensures Coherent(t, v')
  {
    assert outs == ToAll([q], Rollback(t)) + [];
    SaidOutcome(outs, [q], Rollback(t), [], q, t);
    assert Times([q], q) == 1;
    forall o | o in outs && o.to == q ensures !o.msg.NewFather? {}
    ForNoFathers(outs, q, t);
    Rejects(t, v, v', msg);
  }

  lemma DriverRollsBack(v: Pair, v': Pair, t: TxId, q: Proc, popped: bool, msg: Msg, n: Node, r: Reply, after: seq<Out>)
    requires Sees(v, v', t, q, popped, msg, r.n, r.outs) && Books(v, n, q) && Coherent(t, v)
    requires v.fate == Running && v'.fate == Decided(false) && v'.enlisted == v.enlisted && v'.settled == v.settled
    requires forall i, j | 0 <= i < j < |n.acked| :: n.acked[i] != n.acked[j]
    requires r.outs == ToAll(n.acked, Rollback(t)) + after && QuietTo(after, q, t)
    requires popped ==> !(msg.NewStrNode? || msg.Ack?)
    ensures Coherent(t, v')
  {
    SaidOutcome(r.outs, n.acked, Rollback(t), after, q, t);
    TimesOnce(n.acked, q);
    DecidesRollback(t, v, v', Times(n.acked, q));
  }

  /** The driver takes an acknowledgement of `t`; `n'` is the node with its books updated. */
  predicate Counted(n: Node, n': Node, src: Proc) {
    && src in n.noAck
    && n' == n.(noAck := RemoveFirst(n.noAck, src), acked := if src in n.acked then n.acked else n.acked + [src])
  }

  /** What `q` becomes when the driver has counted the acknowledgement of `src`. */
  ghost function AfterAck(v: Pair, mine: bool): Pair
    requires mine ==> v.md.acks > 0 && v.noAck > 0
  {
    if mine then v.(md := v.md.(acks := v.md.acks - 1), noAck := v.noAck - 1, acked := true) else v
  }

  lemma AckCounts(v: Pair, t: TxId, q: Proc, n: Node, n': Node, src: Proc)
    requires Coherent(t, v) && v.fate == Running && Books(v, n, q) && Counted(n, n', src)
    requires q == src ==> v.md.acks > 0
    ensures q == src ==> v.noAck > 0 && !v.waiting
    ensures Coherent(t, AfterAck(v, q == src)) && Books(AfterAck(v, q == src), n', q)
  {
    TimesRemoved(n.noAck, src, q);
    if q == src {
      CountsAck(t, v, AfterAck(v, true));
    }
  }

  lemma DriverCounts(v: Pair, v': Pair, t: TxId, q: Proc, src: Proc, n: Node, n': Node)
    requires Sees(v, v', t, q, src == q, Ack(t), n', []) && Books(v, n, q) && Coherent(t, v)
    requires v.fate == Running && v'.fate == Running && v'.enlisted == v.enlisted
    requires Counted(n, n', src) && (q == src ==> v.md.acks > 0)
    ensures Coherent(t, v')
  {
    AckCounts(v, t, q, n, n', src);
    DriverElsewhere(t, AfterAck(v, q == src), v');
  }

  lemma DriverCommits(v: Pair, v': Pair, t: TxId, q: Proc, src: Proc, n: Node, counted: Node, r: Reply)
    requires Sees(v, v', t, q, src == q, Ack(t), r.n, r.outs) && Books(v, n, q) && Coherent(t, v)
    requires v.fate == Running && v'.fate == Decided(true) && v'.enlisted == v.enlisted
    requires v'.settled == (v.settled || (v.isSN && v.tx == t && v.phase == Init))
    requires Counted(n, counted, src) && counted.noAck == [] && r.outs == ToAll(counted.acked, Commit(t))
    requires q == src ==> v.md.acks > 0
    ensures Coherent(t, v')
  {
    AckCounts(v, t, q, n, counted, src);
    assert r.outs == ToAll(counted.acked, Commit(t)) + [];
    SaidOutcome(r.outs, counted.acked, Commit(t), [], q, t);
    DecidesCommit(t, AfterAck(v, q == src), v', Times(counted.acked, q));
  }

  // ---------------------------------------------------------------------------------------------
  // Enlisting
  // ---------------------------------------------------------------------------------------------

  /** The first of the two nodes that a root needs. */
  lemma DriverTakesOffer(v: Pair, v': Pair, t: TxId, q: Proc, src: Proc, n: Node, n': Node)
    requires Sees(v, v', t, q, src == q, NewStrNode(t), n', []) && Books(v, n, q) && Coherent(t, v)
    requires v.waiting && v'.fate == Running && v'.settled == v.settled && n'.noAck == n.noAck + [src]
    requires n'.acked == n.acked
    requires v'.enlisted == (v.enlisted || q == src)
    ensures Coherent(t, v')
  {
    TimesAppend(n.noAck, [src], q);
    assert Times([src], q) == One(src == q);
    Enlists(t, v, v', src == q, 0, One(q == src));
  }

  lemma SaidOnce(o: Out, q: Proc, k: Kind, t: TxId)
    ensures Num(For([o], q), k, t) == One(o.to == q && Is(o.msg, k, t))
  {
    assert [o][1..] == [] && [o.msg][1..] == [];
  }

  /** What is said to `q` first, to everybody in the middle, and last. */
  lemma SaidParts(first: Out, middle: seq<Out>, last: Out, q: Proc, k: Kind, t: TxId)
    ensures Num(For([first] + middle + [last], q), k, t)
            == One(first.to == q && Is(first.msg, k, t)) + Num(For(middle, q), k, t) +
              One(last.to == q && Is(last.msg, k, t))
  {
    ForAppend([first] + middle, [last], q);
    ForAppend([first], middle, q);
    NumAppend(For([first], q), For(middle, q), k, t);
    NumAppend(For([first] + middle, q), For([last], q), k, t);
    SaidOnce(first, q, k, t);
    SaidOnce(last, q, k, t);
  }

  /** How often a split asks `q`. */
  lemma SplitParts(self: Addr, n: Node, brother: Addr, moved: seq<nat>)
    requires forall i | 0 <= i < |moved| :: moved[i] < |n.zones|
    ensures
      var outs := Split(self, n, brother, moved).outs;
      && outs != [] && outs == [outs[0]] + ToAll(Movers(n, moved), NewFather(n.tx, brother)) + [outs[|outs| - 1]]
      && outs[0].to == SN(if n.father == NOBODY then n.newFather else n.father) && outs[|outs| - 1].to == SN(brother)
      && outs[0].msg.t == n.tx && IsRequest(outs[0].msg) && outs[|outs| - 1].msg.t == n.tx
      && IsRequest(outs[|outs| - 1].msg)
  {
  }

  lemma SplitSaid(self: Addr, n: Node, brother: Addr, moved: seq<nat>, q: Proc)
    requires forall i | 0 <= i < |moved| :: moved[i] < |n.zones|
    ensures
      var up := if n.father == NOBODY then n.newFather else n.father;
      var said := DownOf(For(Split(self, n, brother, moved).outs, q), n.tx);
      && said.requests == One(q == SN(up)) + Times(Movers(n, moved), q) + One(q == SN(brother))
      && said.commits == 0 && said.rollbacks == 0 && said.only
  {
    var t, outs := n.tx, Split(self, n, brother, moved).outs;
    var children := ToAll(Movers(n, moved), NewFather(t, brother));
    var first, last := outs[0], outs[|outs| - 1];
    SplitParts(self, n, brother, moved);
    ForToAll(Movers(n, moved), NewFather(t, brother), q, t);
    SaidParts(first, children, last, q, Request, t);
    SaidParts(first, children, last, q, Told(true), t);
    SaidParts(first, children, last, q, Told(false), t);
    SplitAsks(self, n, brother, moved);
    ForNoFathers(outs, q, t);
  }

  /** Nothing else is said. */
  lemma SplitOutcomes(self: Addr, n: Node, brother: Addr, moved: seq<nat>, q: Proc)
    requires forall i | 0 <= i < |moved| :: moved[i] < |n.zones|
    ensures var said := For(Split(self, n, brother, moved).outs, q); Commit(n.tx) !in said && Rollback(n.tx) !in said
  {
    SplitAsks(self, n, brother, moved);
    var outs := Split(self, n, brother, moved).outs;
    ForHas(outs, q, Commit(n.tx));
    ForHas(outs, q, Rollback(n.tx));
  }

  /** How often a split lists `q`. */
  lemma SplitLists(self: Addr, n: Node, brother: Addr, moved: seq<nat>, q: Proc)
    requires forall i | 0 <= i < |moved| :: moved[i] < |n.zones|
    ensures Times(Split(self, n, brother, moved).n.noAck, q)
            == Times(n.noAck, q) + One(n.father != NOBODY && q == SN(n.father)) + Times(Movers(n, moved), q) +
              One(q == SN(brother))
  {
    var up := if n.father == NOBODY then [] else [SN(n.father)];
    TimesAppend(n.noAck + up + Movers(n, moved), [SN(brother)], q);
    TimesAppend(n.noAck + up, Movers(n, moved), q);
    TimesAppend(n.noAck, up, q);
  }

  /**
   The driver has the nodes it needs, and enlists everybody: fathers and children have their place, the others offered.
   */
  lemma DriverSplits(v: Pair, v': Pair, t: TxId, q: Proc, src: Proc, n: Node, n': Node, outs: seq<Out>, children: nat)
    requires Sees(v, v', t, q, src == q, NewStrNode(t), n', outs)
    requires Books(v, n, q) && Coherent(t, v) && v.waiting && v'.fate == Running && !v'.waiting
    requires v'.settled == v.settled
    requires q.SN? == v.isSN && src.SN? && n'.acked == n.acked
    requires n.father == NOBODY ==> Times(n.noAck, q) == One(q == SN(n.newFather))
    requires children > 0 || (n.father != NOBODY && q == SN(n.father)) ==> v.settled
    requires Times(n'.noAck, q) == Times(n.noAck, q) + One(n.father != NOBODY && q == SN(n.father)) + children +
        One(q == src)
    requires v'.enlisted == (v.enlisted || Times(n'.noAck, q) > 0)
    requires
      var up := if n.father == NOBODY then n.newFather else n.father;
      var said := DownOf(For(outs, q), t);
      && said.requests == One(q == SN(up)) + children + One(q == src) && said.commits == 0 && said.rollbacks == 0
         && said.only
    requires Commit(t) !in For(outs, q) && Rollback(t) !in For(outs, q)
    ensures Coherent(t, v')
  {
    var up := if n.father == NOBODY then n.newFather else n.father;
    Enlists(t, v, v', src == q, One(q == SN(up)) + children + One(q == src),
            One(n.father != NOBODY && q == SN(n.father)) + children + One(q == src));
  }

  // ---------------------------------------------------------------------------------------------
  // All steps of the driver
  // ---------------------------------------------------------------------------------------------

  /** What is known of the driver, the message and the split. */
  ghost predicate DriverKnown(w: World, x: Addr, taken: bool, src: Proc, msg: Msg, n: Node, t: TxId) {
    && t != NO_TX && t in w.owner && w.owner[t] == SN(x) && src != SN(x) && (msg.NewStrNode? ==> src.SN?)
    && (msg.t == t ==> taken && (msg.NewStrNode? || msg.Ack? || msg.Nack?))
    && (t in w.decided ==> n.tx != t)
    && (t !in w.decided ==> Driving(n) && n.tx == t && n.driver == x && n == w.sn(x))
    && (!Driving(n) ==> n.noAck == [] && n.acked == [])
    && (n.tx != NO_TX && n.tx in w.decided ==> !Driving(n))
  }

  lemma DriverFacts(w: World, x: Addr, taken: bool, src: Proc, msg: Msg, n: Node, t: TxId)
    requires Base(w) && Arrives(w, x, taken, src, msg, n) && t in w.split && t in w.owner && w.owner[t] == SN(x)
    ensures DriverKnown(w, x, taken, src, msg, n, t)
  {
    ArrivalOk(w, x, taken, src, msg, n);
  }

  /** The split was decided before: late offers and acknowledgements are rejected, nothing else concerns it. */
  lemma DriverLate(w: World, w': World, x: Addr, taken: bool, src: Proc, msg: Msg, n: Node, c: Choice, r: Reply,
                   t: TxId, q: Proc)
    requires Took(w, w', x, taken, src, msg, n, r) && ValidChoice(n, c) && r == Handle(x, w.m, n, src, msg, c)
    requires DriverKnown(w, x, taken, src, msg, n, t) && t in w.decided && q != SN(x)
    requires Coherent(t, View(w, t, q)) && (q.SN? && Settled(w, q.a) ==> Settled(w', q.a))
    ensures Coherent(t, View(w', t, q))
  {
    var v, v' := View(w, t, q), View(w', t, q);
    DriverSees(w, w', x, taken, src, msg, n, r, t, q);
    TxMoves(x, w.m, n, src, msg, c);
    BooksMove(w, w', x, src, msg, n, r, t);
    LatePair(w, w', x, taken, src, msg, n, c, r, t, q);
  }

  lemma LatePair(w: World, w': World, x: Addr, taken: bool, src: Proc, msg: Msg, n: Node, c: Choice, r: Reply, t: TxId,
                 q: Proc)
    requires DriverKnown(w, x, taken, src, msg, n, t) && t in w.decided && t in w'.owner
    requires ValidChoice(n, c) && r == Handle(x, w.m, n, src, msg, c)
    requires Sees(View(w, t, q), View(w', t, q), t, q, taken && src == q, msg, r.n, r.outs)
    requires Books(View(w, t, q), n, q)
    requires View(w', t, q).fate == View(w, t, q).fate && View(w', t, q).enlisted == View(w, t, q).enlisted
    requires Coherent(t, View(w, t, q))
    ensures Coherent(t, View(w', t, q))
  {
    var v, v' := View(w, t, q), View(w', t, q);
    if msg.t == t && src == q && (msg.NewStrNode? || msg.Ack?) {
      LateReply(x, w.m, n, src, msg, c);
      DriverRejects(v, v', t, q, msg, r.n, r.outs);
    } else {
      LateAnswers(x, w.m, n, src, msg, c, t, q);
      DriverQuiet(v, v', t, q, taken && src == q, msg, n, r);
    }
  }

  lemma LateReply(self: Addr, m: nat, n: Node, src: Proc, msg: Msg, c: Choice)
    requires ValidChoice(n, c) && (msg.NewStrNode? || msg.Ack?) && n.tx != msg.t
    ensures Handle(self, m, n, src, msg, c) == Reply(n, [Out(src, Rollback(msg.t))])
  {
  }

  lemma LateAnswers(self: Addr, m: nat, n: Node, src: Proc, msg: Msg, c: Choice, t: TxId, q: Proc)
    requires ValidChoice(n, c) && n.tx != t && (!Driving(n) ==> n.noAck == [] && n.acked == [])
    requires msg.t == t ==> (msg.NewStrNode? || msg.Ack? || msg.Nack?) && (src == q ==> msg.Nack?)
    ensures QuietTo(Handle(self, m, n, src, msg, c).outs, q, t)
  {
    Answers(self, m, n, src, msg, c);
  }

  /** What becomes of the outcome and the members of `t` when its driver takes a step. */
  lemma BooksMove(w: World, w': World, x: Addr, src: Proc, msg: Msg, n: Node, r: Reply, t: TxId)
    requires Records(w, w', x, n, r, msg) && t != NO_TX
    requires t !in w.decided ==> Driving(n) && n.tx == t
    requires t in w.decided ==> n.tx != t
    requires Driving(r.n) ==> Driving(n) && r.n.tx == n.tx
    ensures t in w.decided ==> t in w'.decided && w'.decided[t] == w.decided[t] && Enlisted(w', t) == Enlisted(w, t)
    ensures t !in w.decided && Driving(r.n) ==>
              w'.decided == w.decided && Enlisted(w', t) == Enlisted(w, t) + set p | p in r.n.noAck
    ensures t !in w.decided && !Driving(r.n) ==>
        w'.decided == w.decided[t := msg.Ack?] && Enlisted(w', t) == Enlisted(w, t)
  {
  }

  /** Whether another node has its place changes only with the outcome of the transaction it is in. */
  lemma PlaceMoves(w: World, w': World, a: Addr, t: TxId, commit: bool)
    requires w'.sn(a) == w.sn(a) && t !in w.decided
    ensures w'.decided == w.decided ==> Settled(w', a) == Settled(w, a)
    ensures w'.decided == w.decided[t := commit] ==>
              Settled(w', a) == (Settled(w, a) || (commit && w.sn(a).tx == t && w.sn(a).phase == Init))
  {
  }

  /** The pair of an open split before and after a step of its driver. */
  ghost predicate OpenMove(v: Pair, v': Pair, t: TxId, q: Proc, popped: bool, msg: Msg, n: Node, r: Reply) {
    && Sees(v, v', t, q, popped, msg, r.n, r.outs) && Books(v, n, q) && v.fate == Running && v.isSN == q.SN?
    && (if Driving(r.n)
        then v'.fate == Running && v'.settled == v.settled && v'.enlisted == (v.enlisted || q in r.n.noAck)
        else && v'.fate == Decided(msg.Ack?) && v'.enlisted == v.enlisted
             && v'.settled == (v.settled || (msg.Ack? && v.isSN && v.tx == t && v.phase == Init)))
  }

  lemma OpenView(w: World, w': World, x: Addr, taken: bool, src: Proc, msg: Msg, n: Node, r: Reply, t: TxId, q: Proc)
    requires Took(w, w', x, taken, src, msg, n, r) && DriverKnown(w, x, taken, src, msg, n, t) && t !in w.decided
    requires q != SN(x)
    requires Driving(r.n) ==> Driving(n) && r.n.tx == n.tx
    ensures OpenMove(View(w, t, q), View(w', t, q), t, q, taken && src == q, msg, n, r)
  {
    BooksMove(w, w', x, src, msg, n, r, t);
    if q.SN? { PlaceMoves(w, w', q.a, t, msg.Ack?); }
    SettledMono(w, w', x, src, msg, n, r, t, q);
    DriverSees(w, w', x, taken, src, msg, n, r, t, q);
  }

  lemma SettledMono(w: World, w': World, x: Addr, src: Proc, msg: Msg, n: Node, r: Reply, t: TxId, q: Proc)
    requires OnlySN(w, w', x, r.n) && (q.SN? ==> q.a != x)
    requires w'.decided == w.decided || (t !in w.decided && w'.decided == w.decided[t := msg.Ack?])
    ensures q.SN? && Settled(w, q.a) ==> Settled(w', q.a)
  {
  }

  /** What the books of a driver satisfy. */
  ghost predicate GoodBooks(v: Pair, x: Addr, n: Node, src: Proc, msg: Msg, t: TxId, q: Proc, c: Choice)
    requires ValidChoice(n, c)
  {
    && Driving(n) && n.tx == t && t != NO_TX && n.driver == x
    && (forall i, j | 0 <= i < j < |n.acked| :: n.acked[i] != n.acked[j])
    && (n.phase == WaitStr ==> n.noAck == if n.newFather == NOBODY then [] else [SN(n.newFather)])
    && (n.father != NOBODY && q == SN(n.father) ==> v.settled)
    && (q in Movers(n, c.moved) ==> v.settled)
    && (msg == Ack(t) ==> src in n.noAck && n.phase == Splitting)
    && (msg.t == t ==> msg.NewStrNode? || msg.Ack? || msg.Nack?)
    && (msg.NewStrNode? ==> src.SN?)
  }

  /** The books on `t` do not change, and nothing about `t` is said to `q` or heard from it. */
  lemma OpenQuiet(v: Pair, v': Pair, t: TxId, q: Proc, popped: bool, msg: Msg, n: Node, r: Reply)
    requires OpenMove(v, v', t, q, popped, msg, n, r) && Coherent(t, v) && Driving(r.n)
    requires r.n.phase == n.phase && r.n.noAck == n.noAck && r.n.acked == n.acked
    requires r.outs == [] || exists o :: r.outs == [o] && !o.msg.NewFather? && (o.to == q ==> o.msg.t != t)
    requires popped ==> msg.t != t || !(msg.NewStrNode? || msg.Ack?)
    ensures Coherent(t, v')
  {
    TimesIn(n.noAck, q);
    DriverQuiet(v, v', t, q, popped, msg, n, r);
  }

  lemma OpenNewStrNode(v: Pair, v': Pair, t: TxId, q: Proc, x: Addr, popped: bool, src: Proc, msg: Msg, n: Node,
                       c: Choice, r: Reply)
    requires ValidChoice(n, c) && GoodBooks(v, x, n, src, msg, t, q, c) && OpenMove(v, v', t, q, popped, msg, n, r)
    requires Coherent(t, v)
    requires msg == NewStrNode(t) && r == OnNewStrNode(x, n, src, t, c) && popped == (src == q)
    ensures Coherent(t, v')
  {
    TimesIn(n.noAck, q);
    if n.phase != WaitStr {
      if src == q {
        DriverRejects(v, v', t, q, msg, n, r.outs);
      } else {
        OpenQuiet(v, v', t, q, popped, msg, n, r);
      }
    } else if n.father == NOBODY && n.newFather == NOBODY {
      DriverTakesOffer(v, v', t, q, src, n, r.n);
    } else {
      OpenSplits(v, v', t, q, x, src, n, c, r);
    }
  }

  lemma OpenSplits(v: Pair, v': Pair, t: TxId, q: Proc, x: Addr, src: Proc, n: Node, c: Choice, r: Reply)
    requires ValidChoice(n, c) && GoodBooks(v, x, n, src, NewStrNode(t), t, q, c)
    requires OpenMove(v, v', t, q, src == q, NewStrNode(t), n, r) && Coherent(t, v)
    requires n.phase == WaitStr && (n.father != NOBODY || n.newFather != NOBODY) && r == Split(x, n, src.a, c.moved)
    ensures Coherent(t, v')
  {
    SplitSaid(x, n, src.a, c.moved, q);
    SplitOutcomes(x, n, src.a, c.moved, q);
    SplitLists(x, n, src.a, c.moved, q);
    TimesIn(r.n.noAck, q);
    TimesIn(Movers(n, c.moved), q);
    DriverSplits(v, v', t, q, src, n, r.n, r.outs, Times(Movers(n, c.moved), q));
  }

  lemma OpenAck(v: Pair, v': Pair, t: TxId, q: Proc, x: Addr, popped: bool, src: Proc, msg: Msg, n: Node, c: Choice,
                r: Reply)
    requires ValidChoice(n, c) && GoodBooks(v, x, n, src, msg, t, q, c) && OpenMove(v, v', t, q, popped, msg, n, r)
    requires Coherent(t, v)
    requires msg == Ack(t) && r == OnAck(x, n, src, t) && popped == (src == q)
    ensures Coherent(t, v')
  {
    var counted := n.(noAck := RemoveFirst(n.noAck, src), acked := if src in n.acked then n.acked else n.acked + [src]);
    TimesIn(n.noAck, q);
    if counted.noAck == [] {
      DriverCommits(v, v', t, q, src, n, counted, r);
    } else {
      TimesRemoved(n.noAck, src, q);
      DriverCounts(v, v', t, q, src, n, counted);
    }
  }

  /** What a driver says when it gives its split up. */
  lemma GivesUpSays(self: Addr, m: nat, n: Node, src: Proc, msg: Msg, c: Choice) returns (after: seq<Out>)
    requires ValidChoice(n, c) && Driving(n) && n.tx != NO_TX && n.driver == self
    requires msg == Nack(n.tx) || (msg.NewFather? && src.a == n.father && msg.t != n.tx)
    ensures var r := Handle(self, m, n, src, msg, c);
            r.outs == ToAll(n.acked, Rollback(n.tx)) + after && !Driving(r.n) && r.n.tx != n.tx
    ensures after == [] || (msg.NewFather? && after == [Out(src, Ack(msg.t))])
  {
    after := if msg.NewFather? then [Out(src, Ack(msg.t))] else [];
  }

  lemma OpenGivesUp(v: Pair, v': Pair, t: TxId, q: Proc, popped: bool, src: Proc, msg: Msg, n: Node, r: Reply,
                    after: seq<Out>)
    requires OpenMove(v, v', t, q, popped, msg, n, r) && Coherent(t, v) && !Driving(r.n)
    requires forall i, j | 0 <= i < j < |n.acked| :: n.acked[i] != n.acked[j]
    requires r.outs == ToAll(n.acked, Rollback(t)) + after
    requires after == [] || (msg.NewFather? && msg.t != t && after == [Out(src, Ack(msg.t))])
    requires msg.Nack? || msg.NewFather?
    ensures Coherent(t, v')
  {
    DriverRollsBack(v, v', t, q, popped, msg, n, r, after);
  }

  /** Every step of the driver of an open split. */
  lemma OpenPair(v: Pair, v': Pair, t: TxId, q: Proc, x: Addr, m: nat, taken: bool, src: Proc, msg: Msg, n: Node,
                 c: Choice, r: Reply)
    requires ValidChoice(n, c) && GoodBooks(v, x, n, src, msg, t, q, c)
    requires OpenMove(v, v', t, q, taken && src == q, msg, n, r)
    requires Coherent(t, v) && r == Handle(x, m, n, src, msg, c) && (msg.t == t ==> taken)
    ensures Coherent(t, v')
  {
    if msg == NewStrNode(t) {
      OpenNewStrNode(v, v', t, q, x, src == q, src, msg, n, c, r);
    } else if msg == Ack(t) {
      OpenAck(v, v', t, q, x, src == q, src, msg, n, c, r);
    } else if msg == Nack(t) || (msg.NewFather? && src.a == n.father) {
      var after := GivesUpSays(x, m, n, src, msg, c);
      OpenGivesUp(v, v', t, q, taken && src == q, src, msg, n, r, after);
    } else {
      OtherwiseQuiet(x, m, n, src, msg, c);
      OpenQuiet(v, v', t, q, taken && src == q, msg, n, r);
    }
  }

  /** A driver puts off, or answers on the spot, what does not concern its own transaction. */
  lemma OtherwiseQuiet(self: Addr, m: nat, n: Node, src: Proc, msg: Msg, c: Choice)
    requires ValidChoice(n, c) && Driving(n) && n.tx != NO_TX
    requires msg.t == n.tx ==> msg.NewStrNode? || msg.Ack? || msg.Nack?
    requires msg != NewStrNode(n.tx) && msg != Ack(n.tx) && msg != Nack(n.tx) && !(msg.NewFather? && src.a == n.father)
    ensures
      var r := Handle(self, m, n, src, msg, c);
      && Driving(r.n) && r.n.phase == n.phase && r.n.noAck == n.noAck && r.n.acked == n.acked
      && (r.outs == [] || exists o :: r.outs == [o] && !o.msg.NewFather? && o.msg.t != n.tx)
  {
  }
}
