/**
 What a split asks of each of its members, and what becomes of their links when the request is followed by
 the commit. `OverlayPlans` shows that in every run a member that leaves with the commit has done just that.
 */
module OverlayLinks {
  import opened Overlay

  /** The node that becomes, or stays, the father of the node that splits. */
  function Upper(n: Node): Addr {
    if n.father == NOBODY then n.newFather else n.father
  }

  function Actuals(zs: seq<Zone>): (r: seq<Addr>)
    ensures |r| == |zs| && forall i | 0 <= i < |zs| :: r[i] == zs[i].actual
  {
    seq(|zs|, i requires 0 <= i < |zs| => zs[i].actual)
  }

  /** A node that has offered itself and has no place yet. */
  predicate Unused(b: Node, t: TxId) {
    b.phase == StartIn && b.tx == t && b.zones == [] && b.father == NOBODY
  }

  lemma {:induction false} AdditionsBecomeReal(children: seq<Addr>)
    ensures Actuals(CommitZones(Additions(children))) == children
  {
    if children != [] {
      AdditionsBecomeReal(children[1..]);
      assert Additions(children)[1..] == Additions(children[1..]);
      assert CommitZones(Additions(children)) == [Zone(children[0], NOBODY, false)] +
        CommitZones(Additions(children[1..]));
      assert children == [children[0]] + children[1..];
    }
  }

  /** The brother is asked to take exactly the children that move, below the same father and at the same level. */
  lemma BrotherTakesChildren(self: Addr, n: Node, brother: Addr, c: Choice, b: Node)
    requires ValidChoice(n, c) && Upper(n) != NOBODY && n.tx != NO_TX && Unused(b, n.tx)
    ensures
      var outs := Split(self, n, brother, c.moved).outs;
      var last := outs[|outs| - 1];
      last.to == SN(brother) && last.msg.InitStrNode? && BecomesBrother(self, n, brother, c, b, last.msg)
  {
    AdditionsBecomeReal(Links(n, c.moved));
    assert [] + Additions(Links(n, c.moved)) == Additions(Links(n, c.moved));
  }

  ghost predicate BecomesBrother(self: Addr, n: Node, brother: Addr, c: Choice, b: Node, msg: Msg)
    requires ValidChoice(n, c) && msg.InitStrNode?
  {
    var r := OnInitStrNode(b, SN(self), msg);
    var b' := OnCommit(brother, r.n, n.tx).n;
    && r.outs == [Out(SN(self), Ack(n.tx))]
    && b'.phase == Online && b'.tx == NO_TX && b'.father == Upper(n) && b'.level == n.level
    && Actuals(b'.zones) == Links(n, c.moved)
  }

  /** A root and its brother become the two children of the node that offered itself first, one level up. */
  lemma RootGetsFather(self: Addr, n: Node, brother: Addr, c: Choice, f: Node)
    requires ValidChoice(n, c) && n.father == NOBODY && n.newFather != NOBODY && n.tx != NO_TX && Unused(f, n.tx)
    ensures
      var first := Split(self, n, brother, c.moved).outs[0];
      first.to == SN(n.newFather) && first.msg.InitStrNode? && BecomesRoot(self, n, brother, f, first.msg)
  {
    AdditionsBecomeReal([self, brother]);
    assert [] + Additions([self, brother]) == Additions([self, brother]);
  }

  ghost predicate BecomesRoot(self: Addr, n: Node, brother: Addr, f: Node, msg: Msg)
    requires msg.InitStrNode?
  {
    var r := OnInitStrNode(f, SN(self), msg);
    var f' := OnCommit(n.newFather, r.n, n.tx).n;
    && r.outs == [Out(SN(self), Ack(n.tx))]
    && f'.phase == Online && f'.tx == NO_TX && f'.father == NOBODY && f'.level == n.level + 1
    && Actuals(f'.zones) == [self, brother]
  }

  /** Zones without additions and deletions. */
  ghost predicate Whole(zs: seq<Zone>) {
    forall k | 0 <= k < |zs| :: zs[k].actual != NOBODY && (zs[k].changing ==> zs[k].next == zs[k].actual)
  }

  lemma OneMoreCommitted(brother: Addr, zs: seq<Zone>)
    requires brother != NOBODY
    ensures Actuals(CommitZones([Zone(NOBODY, brother, true)] + zs)) == [brother] + Actuals(CommitZones(zs))
  {
    var all := [Zone(NOBODY, brother, true)] + zs;
    assert all[1..] == zs && CommitZones(all) == [Zone(brother, NOBODY, false)] + CommitZones(zs);
  }

  lemma {:induction false} SameWhenCommitted(zs: seq<Zone>)
    requires Whole(zs)
    ensures Actuals(CommitZones(zs)) == Actuals(zs)
  {
    if zs != [] {
      SameWhenCommitted(zs[1..]);
      var z, rest := zs[0].Commit(), CommitZones(zs[1..]);
      assert zs[0].actual != NOBODY && !zs[0].IsDeletion() && z.actual == zs[0].actual;
      ActualsFront(zs[0], zs[1..]);
      ActualsFront(z, rest);
      assert zs == [zs[0]] + zs[1..];
    }
  }

  lemma ActualsFront(z: Zone, rest: seq<Zone>)
    ensures Actuals([z] + rest) == [z.actual] + Actuals(rest)
  {
  }

  function FirstOut(self: Addr, n: Node, brother: Addr): Out {
    Out(SN(Upper(n)), if n.father == NOBODY then InitStrNode(n.tx, NOBODY, [self, brother], n.level + 1)
      else NewChild(n.tx, brother))
  }

  function LastOut(n: Node, brother: Addr, c: Choice): Out
    requires ValidChoice(n, c)
  {
    Out(SN(brother), InitStrNode(n.tx, Upper(n), Links(n, c.moved), n.level))
  }

  lemma SplitSends(self: Addr, n: Node, brother: Addr, c: Choice)
    requires ValidChoice(n, c)
    ensures Split(self, n, brother, c.moved).outs
            == [FirstOut(self, n, brother)] + ToAll(Movers(n, c.moved), NewFather(n.tx, brother)) +
              [LastOut(n, brother, c)]
  {
  }

  lemma SplitLists(self: Addr, n: Node, brother: Addr, c: Choice)
    requires ValidChoice(n, c) && n.noAck == (if n.father == NOBODY then [SN(n.newFather)] else [])
    ensures Split(self, n, brother, c.moved).n.noAck == [SN(Upper(n))] + Movers(n, c.moved) + [SN(brother)]
  {
    assert n.noAck + (if n.father == NOBODY then [] else [SN(Upper(n))]) == [SN(Upper(n))];
  }

  lemma SameNames(f: Out, members: seq<Proc>, msg: Msg, l: Out, p: Proc)
    ensures p in [f.to] + members + [l.to] <==> exists o :: o in [f] + ToAll(members, msg) + [l] && o.to == p
  {
    if p in members {
      var i :| 0 <= i < |members| && members[i] == p;
      assert ToAll(members, msg)[i].to == p && ToAll(members, msg)[i] in ToAll(members, msg);
    }
    assert f in [f] + ToAll(members, msg) + [l] && l in [f] + ToAll(members, msg) + [l];
  }

  /** Exactly those who are asked have to acknowledge; as a root, the future father is on the list already. */
  lemma AskedMustAcknowledge(self: Addr, n: Node, brother: Addr, c: Choice, p: Proc)
    requires ValidChoice(n, c) && n.noAck == (if n.father == NOBODY then [SN(n.newFather)] else [])
    ensures
      var r := Split(self, n, brother, c.moved);
      p in r.n.noAck <==> exists o :: o in r.outs && o.to == p
  {
    SplitSends(self, n, brother, c);
    SplitLists(self, n, brother, c);
    SameNames(FirstOut(self, n, brother), Movers(n, c.moved), NewFather(n.tx, brother), LastOut(n, brother, c), p);
  }
}
