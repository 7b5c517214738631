/** A step of a structure node, seen by a split that asked the node to take part. */
module OverlayMember {
  import opened Common
  import opened Overlay
  import opened OverlayProtocol
  import opened OverlayPairs
  import opened OverlayInvariant
  import opened OverlaySafety
  import opened OverlayRoles

  /** What was put off, before and after the step. */
  lemma DelayedAccount(w: World, x: Addr, taken: bool, src: Proc, msg: Msg, n: Node, t: TxId)
    requires Arrives(w, x, taken, src, msg, n)
    ensures NumDelayed(w.sn(x).delayed, t) == NumDelayed(n.delayed, t) + One(!taken && Is(msg, Request, t))
    ensures FatherDelayed(w.sn(x).delayed, t) <==>
        FatherDelayed(n.delayed, t) || (!taken && msg.NewFather? && msg.t == t)
    ensures NumDelayed([(src, msg)], t) == One(Is(msg, Request, t))
    ensures FatherDelayed([(src, msg)], t) <==> msg.NewFather? && msg.t == t
  {
    assert (src, msg) in [(src, msg)];
    if !taken {
      DelayedAppend([(src, msg)], n.delayed, t);
      assert w.sn(x).delayed == [(src, msg)] + n.delayed;
    }
  }

  /** The message of another split leaves the links of this one alone. */
  lemma OtherMessage(w: World, x: Addr, taken: bool, src: Proc, msg: Msg, n: Node, t: TxId, d: Proc)
    requires Arrives(w, x, taken, src, msg, n) && msg.t != t
    ensures
      var ch := w.net(d, SN(x));
      var dm, dm' := DownOf(ch, t), DownOf(if taken && src == d then ch[1..] else ch, t);
      && dm'.requests == dm.requests && dm'.commits == dm.commits && dm'.rollbacks == dm.rollbacks
      && (dm.only ==> dm'.only) && (dm.last ==> dm'.last)
      && (dm.ahead && !(taken && src == d && msg.NewFather?) ==> dm'.ahead)
      && (taken && src == d && msg.NewFather? ==> !dm.only && !dm.ahead)
  {
    if taken && src == d {
      DownPopped(w.net(d, SN(x)), t);
    }
  }

  lemma QuietUp(md: seq<Msg>, outs: seq<Out>, d: Proc, t: TxId)
    requires QuietTo(outs, d, t)
    ensures UpOf(md + For(outs, d), t) == UpOf(md, t)
  {
    ForQuiet(outs, d, t);
    UpExtended(md, For(outs, d), t);
  }

  /** What is known of the node, the message and the split. */
  ghost predicate Known(w: World, x: Addr, taken: bool, src: Proc, msg: Msg, n: Node, t: TxId)
    requires t in w.owner
  {
    var d := w.owner[t];
    && t != NO_TX && d.SN? && d != SN(x) && n.tx == w.sn(x).tx && n.phase == w.sn(x).phase
    && (n.tx == t ==>
          && !Driving(n) && n.driver == d.a && (n.phase == ChangeFather ==> n.father == n.driver)
          && (n.phase == AddChild || n.phase == ChangeFather || n.phase == StartIn || n.phase == Init))
    && (Driving(n) ==> n.tx in w.owner && w.owner[n.tx] == SN(x))
    && (!Driving(n) ==> n.noAck == [] && n.acked == [])
    && (n.tx == NO_TX ==> n.phase == Offline || n.phase == Online)
    && (n.phase == Offline ==> n.tx == NO_TX && n.zones == [])
    && (msg.t == t ==> src == d && (IsRequest(msg) || msg.Commit? || msg.Rollback?))
    && (msg.NewFather? ==> src.SN?)
    && (!taken ==> n.tx == NO_TX && (msg.NewFather? || msg.NewChild?))
  }

  lemma MemberFacts(w: World, x: Addr, taken: bool, src: Proc, msg: Msg, n: Node, t: TxId)
    requires Base(w) && Arrives(w, x, taken, src, msg, n) && t in w.split && t in w.owner && w.owner[t] != SN(x)
    ensures Known(w, x, taken, src, msg, n, t)
  {
    ArrivalOk(w, x, taken, src, msg, n);
  }

  lemma SettledPhase(w: World, x: Addr)
    ensures Settled(w, x) ==> w.sn(x).phase != Offline && w.sn(x).phase != StartIn
    ensures !Settled(w, x) ==> w.sn(x).phase == Offline || w.sn(x).phase == StartIn || w.sn(x).phase == Init
  {
  }

  /** What the step of the node cannot change by itself. */
  ghost predicate Fits(w: World, w': World, x: Addr, n: Node, r: Reply, t: TxId) {
    && t != NO_TX && t in w.owner && w.owner[t].SN? && w.owner[t] != SN(x) && (Settled(w, x) ==> Settled(w', x))
    && (Driving(n) ==> n.tx in w.owner && w.owner[n.tx] == SN(x))
    && (Driving(r.n) ==> r.n.tx in w.owner && w.owner[r.n.tx] == SN(x))
    && (forall o | o in r.outs && o.msg.t == t :: o.msg.Ack? || o.msg.Nack?)
  }

  /** What the node put off after the step. */
  predicate PutOff(n: Node, n': Node, src: Proc, msg: Msg, later: bool) {
    n'.delayed == if later then n.delayed + [(src, msg)] else n.delayed
  }

  lemma ElsewhereView(w: World, w': World, x: Addr, taken: bool, src: Proc, msg: Msg, n: Node, r: Reply, t: TxId,
                      later: bool)
    requires Took(w, w', x, taken, src, msg, n, r) && Fits(w, w', x, n, r, t)
    requires msg.t != t && QuietTo(r.outs, w.owner[t], t) && PutOff(n, r.n, src, msg, later)
    ensures
      var d, v, v' := w.owner[t], View(w, t, SN(x)), View(w', t, SN(x));
      var father := taken && src == d && msg.NewFather?;
      && NodeStep(v, v') && SameLinks(v, v') && v'.delayed == v.delayed && v'.fatherDelayed == v.fatherDelayed
      && v.isSN && v.tx == w.sn(x).tx && v.phase == w.sn(x).phase && v'.tx == r.n.tx && v'.phase == r.n.phase
      && v'.exit == (if n.tx == t && r.n.tx != t then Left(msg.Commit? || msg.Ack?) else v.exit)
      && (v.dm.ahead && !father ==> v'.dm.ahead)
      && (father ==> !v.dm.only && !v.dm.ahead)
  {
    var d := w.owner[t];
    MemberView(w, w', x, taken, src, msg, n, r, t);
    OtherMessage(w, x, taken, src, msg, n, t, d);
    QuietUp(w.net(SN(x), d), r.outs, d, t);
    DelayedAccount(w, x, taken, src, msg, n, t);
    DelayedAppend(n.delayed, [(src, msg)], t);
    SettledPhase(w', x);
  }

  /** A message about something else arrives. */
  lemma MemberElsewhere(w: World, w': World, x: Addr, taken: bool, src: Proc, msg: Msg, n: Node, r: Reply, t: TxId)
    requires Took(w, w', x, taken, src, msg, n, r) && Fits(w, w', x, n, r, t) && Known(w, x, taken, src, msg, n, t)
    requires Moves(n, r.n, src, msg) && msg.t != t && QuietTo(r.outs, w.owner[t], t) && Coherent(t, View(w, t, SN(x)))
    ensures Coherent(t, View(w', t, SN(x)))
  {
    ElsewhereView(w, w', x, taken, src, msg, n, r, t, r.n.delayed != n.delayed);
    ElsewhereCases(t, View(w, t, SN(x)), View(w', t, SN(x)), w.owner[t],
                   taken && src == w.owner[t] && msg.NewFather?, n, r.n, src, msg);
  }

  lemma ElsewhereCases(t: TxId, v: Pair, v': Pair, d: Proc, father: bool, n: Node, n': Node, src: Proc, msg: Msg)
    requires Coherent(t, v) && NodeStep(v, v') && SameLinks(v, v') && v'.delayed == v.delayed
    requires v'.fatherDelayed == v.fatherDelayed
    requires v.isSN && v.tx == n.tx && v.phase == n.phase && v'.tx == n'.tx && v'.phase == n'.phase
    requires v'.exit == if n.tx == t && n'.tx != t then Left(msg.Commit? || msg.Ack?) else v.exit
    requires v.dm.ahead && !father ==> v'.dm.ahead
    requires father ==> !v.dm.only && !v.dm.ahead && src == d && msg.NewFather?
    requires msg.t != t && t != NO_TX && d.SN?
    requires n'.tx == n.tx || n'.tx == msg.t || n'.tx == NO_TX
    requires n'.tx == n.tx && n'.phase != n.phase ==> n.tx == msg.t || n.tx == NO_TX
    requires n'.tx != n.tx && n.tx != NO_TX && n.tx != msg.t ==>
               msg.NewFather? && src.a == n.father && n.phase != AddChild && n.phase != StartIn && n.phase != Init
    requires n.tx == t ==> n.driver == d.a && (n.phase == ChangeFather ==> n.father == n.driver)
                           && (n.phase == AddChild || n.phase == ChangeFather || n.phase == StartIn || n.phase == Init)
    requires n.tx == t && msg.NewFather? && src == d ==> father
    requires msg.NewFather? ==> src.SN?
    ensures Coherent(t, v')
  {
    if n.tx == t && n'.tx != t {
      assert src == d;
      Overridden(t, v, v');
    } else {
      OtherBusiness(t, v, v');
    }
  }

  // ---------------------------------------------------------------------------------------------
  // Messages of the split itself
  // ---------------------------------------------------------------------------------------------

  /** The three things a node does with a request. */
  predicate Accepted(n: Node, src: Proc, msg: Msg, r: Reply, before: seq<Out>) {
    && r.n.tx == msg.t && r.n.delayed == n.delayed && r.outs == before + [Out(src, Ack(msg.t))]
    && (forall o | o in before :: Driving(n) && o.msg.t == n.tx)
    && (r.n.phase == Init || r.n.phase == AddChild || r.n.phase == ChangeFather)
    && (r.n.phase == Init ==> n.phase == StartIn && n.tx == msg.t)
    && (r.n.phase == AddChild ==> n.tx == NO_TX && n.zones != [])
    && (r.n.phase == ChangeFather ==>
          msg.NewFather? && n.phase != Offline && n.phase != StartIn && n.phase != Init && n.phase != AddChild)
  }

  predicate Refused(n: Node, src: Proc, msg: Msg, r: Reply) {
    r.n == n && (r.outs == [] || r.outs == [Out(src, Nack(msg.t))])
  }

  predicate Postponed(n: Node, src: Proc, msg: Msg, r: Reply) {
    && r.n == n.(delayed := n.delayed + [(src, msg)]) && r.outs == []
    && (msg.NewFather? ==> n.phase == StartIn || n.phase == Init || n.phase == AddChild)
  }

  lemma RequestCases(self: Addr, m: nat, n: Node, src: Proc, msg: Msg, c: Choice) returns (before: seq<Out>)
    requires ValidChoice(n, c) && IsRequest(msg) && (!Driving(n) ==> n.acked == [])
    ensures var r := Handle(self, m, n, src, msg, c);
            Accepted(n, src, msg, r, before) || Refused(n, src, msg, r) || Postponed(n, src, msg, r)
  {
    before := if msg.NewFather? && n.tx != NO_TX then RolledBack(self, n).outs else [];
    OutcomeTells(self, n);
  }

  /** The links and the store of a node after a message of the split itself. */
  lemma OwnView(w: World, w': World, x: Addr, taken: bool, src: Proc, msg: Msg, n: Node, r: Reply, t: TxId, later: bool)
    requires Took(w, w', x, taken, src, msg, n, r) && Fits(w, w', x, n, r, t)
    requires msg.t == t && src == w.owner[t] && PutOff(n, r.n, src, msg, later)
    ensures
      var d, v, v' := w.owner[t], View(w, t, SN(x)), View(w', t, SN(x));
      && NodeStep(v, v') && v.isSN && v.tx == w.sn(x).tx && v.phase == w.sn(x).phase && v'.tx == r.n.tx
         && v'.phase == r.n.phase
      && v'.exit == (if n.tx == t && r.n.tx != t then Left(msg.Commit? || msg.Ack?) else v.exit)
      && v.settled == Settled(w, x) && v'.settled == Settled(w', x)
      && (if taken then Popped(v.dm, v'.dm, msg, t) else v'.dm == v.dm)
      && v.delayed + One(later && Is(msg, Request, t)) == v'.delayed + One(!taken && Is(msg, Request, t))
      && (v'.fatherDelayed ==> v.fatherDelayed || (later && msg.NewFather?))
      && (!taken && msg.NewFather? ==> v.fatherDelayed)
      && (v'.fatherDelayed ==> v'.delayed > 0)
      && v.md == UpOf(w.net(SN(x), d), t) && v'.md == UpOf(w.net(SN(x), d) + For(r.outs, d), t)
  {
    var d := w.owner[t];
    MemberView(w, w', x, taken, src, msg, n, r, t);
    if taken { DownPopped(w.net(d, SN(x)), t); }
    DelayedAccount(w, x, taken, src, msg, n, t);
    DelayedAppend(n.delayed, [(src, msg)], t);
    FatherCounts(r.n.delayed, t);
    SettledPhase(w', x);
  }

  lemma {:induction false} FatherCounts(ds: seq<(Proc, Msg)>, t: TxId)
    ensures FatherDelayed(ds, t) ==> NumDelayed(ds, t) > 0
  {
    if ds != [] {
      FatherCounts(ds[1..], t);
    }
  }

  lemma AckUp(md: seq<Msg>, before: seq<Out>, outs: seq<Out>, d: Proc, t: TxId)
    requires QuietTo(before, d, t) && outs == before + [Out(d, Ack(t))]
    ensures UpOf(md + For(outs, d), t) == Up(UpOf(md, t).acks + 1, UpOf(md, t).offers)
  {
    var last := [Out(d, Ack(t))];
    ForAppend(before, last, d);
    ForQuiet(before, d, t);
    assert For(last, d) == [Ack(t)];
    NumAppend(For(before, d), [Ack(t)], Acked, t);
    NumAppend(For(before, d), [Ack(t)], Offered, t);
    UpExtended(md, For(outs, d), t);
  }

  lemma NackUp(md: seq<Msg>, outs: seq<Out>, d: Proc, t: TxId)
    requires outs == [] || outs == [Out(d, Nack(t))]
    ensures UpOf(md + For(outs, d), t) == UpOf(md, t)
  {
    forall k, msg | (k == Acked || k == Offered) && msg in For(outs, d) ensures !Is(msg, k, t) { ForHas(outs, d, msg); }
    NumZero(For(outs, d), Acked, t);
    NumZero(For(outs, d), Offered, t);
    UpExtended(md, For(outs, d), t);
  }

  lemma MemberAccepts(w: World, w': World, x: Addr, taken: bool, src: Proc, msg: Msg, n: Node, r: Reply, t: TxId,
                      before: seq<Out>)
    requires Took(w, w', x, taken, src, msg, n, r) && Fits(w, w', x, n, r, t) && Known(w, x, taken, src, msg, n, t)
    requires IsRequest(msg) && msg.t == t && Accepted(n, src, msg, r, before) && Coherent(t, View(w, t, SN(x)))
    ensures Coherent(t, View(w', t, SN(x)))
  {
    var d, v, v' := w.owner[t], View(w, t, SN(x)), View(w', t, SN(x));
    AckUp(w.net(SN(x), d), before, r.outs, d, t);
    OwnView(w, w', x, taken, src, msg, n, r, t, false);
    Accepts(t, v, v');
  }

  lemma MemberDeclines(w: World, w': World, x: Addr, taken: bool, src: Proc, msg: Msg, n: Node, r: Reply, t: TxId,
                       later: bool)
    requires Took(w, w', x, taken, src, msg, n, r) && Fits(w, w', x, n, r, t) && Known(w, x, taken, src, msg, n, t)
    requires IsRequest(msg) && msg.t == t && Coherent(t, View(w, t, SN(x)))
    requires if later then Postponed(n, src, msg, r) else Refused(n, src, msg, r)
    ensures Coherent(t, View(w', t, SN(x)))
  {
    var d, v, v' := w.owner[t], View(w, t, SN(x)), View(w', t, SN(x));
    NackUp(w.net(SN(x), d), r.outs, d, t);
    OwnView(w, w', x, taken, src, msg, n, r, t, later);
    Declines(t, v, v', later);
  }

  lemma MemberLearns(w: World, w': World, x: Addr, taken: bool, src: Proc, msg: Msg, n: Node, r: Reply, t: TxId)
    requires Took(w, w', x, taken, src, msg, n, r) && Fits(w, w', x, n, r, t) && Known(w, x, taken, src, msg, n, t)
    requires (msg.Commit? || msg.Rollback?) && msg.t == t && Coherent(t, View(w, t, SN(x)))
    requires r.n.delayed == n.delayed && r.outs == []
    requires if n.tx == t then r.n.tx == NO_TX else r.n == n
    ensures Coherent(t, View(w', t, SN(x)))
  {
    var d, v, v' := w.owner[t], View(w, t, SN(x)), View(w', t, SN(x));
    var ch := w.net(SN(x), d);
    assert ch + For(r.outs, d) == ch;
    OwnView(w, w', x, taken, src, msg, n, r, t, false);
    LearnsOutcome(t, v, v', msg.Commit?);
  }

  lemma AnswersFit(w: World, w': World, x: Addr, taken: bool, src: Proc, msg: Msg, n: Node, r: Reply, t: TxId)
    requires Records(w, w', x, n, r, msg) && Moves(n, r.n, src, msg) && forall o | o in r.outs :: Answer(n, src, msg, o)
    requires t in w.owner && Known(w, x, taken, src, msg, n, t) && (Settled(w, x) ==> Settled(w', x))
    requires msg.NewStrNode? || msg.Ack? ==> w.owner[t] != SN(x) && msg.t != t
    ensures Fits(w, w', x, n, r, t)
    ensures msg.t != t ==> QuietTo(r.outs, w.owner[t], t)
  {
  }

  lemma StepFits(w: World, w': World, x: Addr, taken: bool, src: Proc, msg: Msg, n: Node, c: Choice, r: Reply, t: TxId)
    requires Records(w, w', x, n, r, msg) && ValidChoice(n, c) && r == Handle(x, w.m, n, src, msg, c)
    requires t in w.owner && Known(w, x, taken, src, msg, n, t) && (Settled(w, x) ==> Settled(w', x))
    requires msg.NewStrNode? || msg.Ack? ==> w.owner[t] != SN(x) && msg.t != t
    ensures Fits(w, w', x, n, r, t) && Moves(n, r.n, src, msg)
    ensures msg.t != t ==> QuietTo(r.outs, w.owner[t], t)
  {
    TxMoves(x, w.m, n, src, msg, c);
    Answers(x, w.m, n, src, msg, c);
    AnswersFit(w, w', x, taken, src, msg, n, r, t);
  }

  /** Whatever a structure node does, it stays coherent with every split that it does not drive. */
  lemma MemberKeeps(w: World, w': World, x: Addr, taken: bool, src: Proc, msg: Msg, n: Node, c: Choice, r: Reply,
                    t: TxId)
    requires Base(w) && Took(w, w', x, taken, src, msg, n, r) && ValidChoice(n, c)
    requires r == Handle(x, w.m, n, src, msg, c)
    requires Settled(w, x) ==> Settled(w', x)
    requires t in w.split && t in w.owner && w.owner[t] != SN(x) && Coherent(t, View(w, t, SN(x)))
    ensures Coherent(t, View(w', t, SN(x)))
  {
    MemberFacts(w, x, taken, src, msg, n, t);
    StepFits(w, w', x, taken, src, msg, n, c, r, t);
    if msg.t != t {
      MemberElsewhere(w, w', x, taken, src, msg, n, r, t);
    } else if IsRequest(msg) {
      var before := RequestCases(x, w.m, n, src, msg, c);
      if Accepted(n, src, msg, r, before) {
        MemberAccepts(w, w', x, taken, src, msg, n, r, t, before);
      } else {
        MemberDeclines(w, w', x, taken, src, msg, n, r, t, Postponed(n, src, msg, r));
      }
    } else {
      MemberLearns(w, w', x, taken, src, msg, n, r, t);
    }
  }
}
