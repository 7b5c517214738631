/**
 The structure node and the resource node as objects that change in place. Each handler turns the
 state and the messages sent into what `Overlay` says of the state before.
 */
module StructureNode {
  import opened Overlay

  lemma DetachOneMore(zs: seq<Zone>, moved: seq<nat>, i: nat)
    requires i < |moved| && moved[i] < |zs|
    ensures var before := Detach(zs, moved[..i]);
            && before[moved[i]].actual == zs[moved[i]].actual
            && Detach(zs, moved[..i + 1]) == before[moved[i] := before[moved[i]].ResetLink()]
  {
    assert moved[..i + 1] == moved[..i] + [moved[i]];
  }

  /** Taking out, or replacing, the zone after `done`. */
  lemma EditZone(done: seq<Zone>, z: Zone, rest: seq<Zone>, y: Zone)
    ensures
      var all, i := done + ([z] + rest), |done|;
      && all[i] == z && all == done + [z] + rest
      && all[..i] + all[i + 1..] == done + rest
      && all[i := y] == done + [y] + rest
  {
  }

  lemma CommitNext(done: seq<Zone>, todo: seq<Zone>)
    requires todo != []
    ensures done + CommitZones(todo)
            == if todo[0].IsDeletion() then done + CommitZones(todo[1..])
               else done + [todo[0].Commit()] + CommitZones(todo[1..])
  {
    EditZone(done, todo[0].Commit(), CommitZones(todo[1..]), todo[0]);
  }

  lemma RollbackNext(done: seq<Zone>, todo: seq<Zone>)
    requires todo != []
    ensures done + RollbackZones(todo)
            == if todo[0].IsAddition() then done + RollbackZones(todo[1..])
               else done + [if todo[0].IsDeletion() then todo[0].Rollback() else todo[0]] + RollbackZones(todo[1..])
  {
    EditZone(done, if todo[0].IsDeletion() then todo[0].Rollback() else todo[0], RollbackZones(todo[1..]), todo[0]);
  }

  /** How far the division of the children has come after the first `i` moves. */
  ghost predicate MovedSoFar(n: Node, brother: Addr, moved: seq<nat>, i: nat,
                             zones: seq<Zone>, children: seq<Addr>, noAck: seq<Proc>, outs: seq<Out>)
    requires i <= |moved| && forall j | 0 <= j < |moved| :: moved[j] < |n.zones|
  {
    && zones == Detach(n.zones, moved[..i])
    && children == Links(n, moved[..i])
    && noAck == n.noAck + Movers(n, moved[..i])
    && outs == ToAll(Movers(n, moved[..i]), NewFather(n.tx, brother))
  }

  lemma MovesOneMore(n: Node, brother: Addr, moved: seq<nat>, i: nat,
                     zones: seq<Zone>, children: seq<Addr>, noAck: seq<Proc>, outs: seq<Out>)
    requires i < |moved| && forall j | 0 <= j < |moved| :: moved[j] < |n.zones|
    requires MovedSoFar(n, brother, moved, i, zones, children, noAck, outs)
    ensures
      var k := moved[i];
      var link := zones[k].actual;
      var member := if n.level == 0 then RN(link) else SN(link);
      MovedSoFar(n, brother, moved, i + 1, zones[k := zones[k].ResetLink()], children + [link], noAck + [member],
                 outs + [Out(member, NewFather(n.tx, brother))])
  {
    var done, next, k := moved[..i], moved[..i + 1], moved[i];
    assert next == done + [k];
    DetachOneMore(n.zones, moved, i);
    LinkOneMore(n, done, k, next);
    MoverOneMore(n, done, k, next);
    var member := Mover(n, k);
    ToAllOneMore(Movers(n, done), member, NewFather(n.tx, brother));
    Regroup(n.noAck, Movers(n, done), member);
  }

  function Mover(n: Node, k: nat): Proc
    requires k < |n.zones|
  {
    if n.level == 0 then RN(n.zones[k].actual) else SN(n.zones[k].actual)
  }

  lemma Regroup<T>(a: seq<T>, b: seq<T>, x: T)
    ensures (a + b) + [x] == a + (b + [x])
  {
  }

  lemma LinkOneMore(n: Node, done: seq<nat>, k: nat, next: seq<nat>)
    requires k < |n.zones| && next == done + [k] && forall j | 0 <= j < |done| :: done[j] < |n.zones|
    ensures Links(n, next) == Links(n, done) + [n.zones[k].actual]
  {
  }

  lemma MoverOneMore(n: Node, done: seq<nat>, k: nat, next: seq<nat>)
    requires k < |n.zones| && next == done + [k] && forall j | 0 <= j < |done| :: done[j] < |n.zones|
    ensures Movers(n, next) == Movers(n, done) + [Mover(n, k)]
  {
  }

  lemma ToAllOneMore(members: seq<Proc>, member: Proc, msg: Msg)
    ensures ToAll(members + [member], msg) == ToAll(members, msg) + [Out(member, msg)]
  {
  }

  lemma SplitSends(self: Addr, n: Node, brother: Addr, moved: seq<nat>, was: seq<Out>, first: Out, now: seq<Out>)
    requires forall i | 0 <= i < |moved| :: moved[i] < |n.zones|
    requires
      var up := if n.father == NOBODY then n.newFather else n.father;
      && first == Out(SN(up), if n.father == NOBODY then InitStrNode(n.tx, NOBODY, [self, brother], n.level + 1)
                              else NewChild(n.tx, brother))
      && now == was + [first] + ToAll(Movers(n, moved), NewFather(n.tx, brother))
                + [Out(SN(brother), InitStrNode(n.tx, up, Links(n, moved), n.level))]
    ensures now == was + Split(self, n, brother, moved).outs
  {
  }

  /** What moves does not depend on who is waited for. */
  lemma SameMovers(n: Node, asking: Node, moved: seq<nat>)
    requires asking.zones == n.zones && asking.level == n.level
    requires forall i | 0 <= i < |moved| :: moved[i] < |n.zones|
    ensures Movers(asking, moved) == Movers(n, moved) && Links(asking, moved) == Links(n, moved)
  {
  }

  class StructureNode {
    const self: Addr
    const m: nat
    var phase: Phase
    var father: Addr
    var newFather: Addr
    var transaction: TxId
    var txDriver: Addr
    var txMembersNoAck: seq<Proc>
    var txMembersAck: seq<Proc>
    var subZones: seq<Zone>
    var level: nat
    var delayedMessages: seq<(Proc, Msg)>
    var sent: seq<Out>

    constructor (self: Addr, m: nat)
      ensures this.self == self && this.m == m && State() == UNUSED && sent == []
    {
      this.self, this.m := self, m;
      phase, father, newFather, level := Offline, NOBODY, NOBODY, 0;
      transaction, txDriver, txMembersNoAck, txMembersAck := NO_TX, NOBODY, [], [];
      subZones, delayedMessages, sent := [], [], [];
    }

    function State(): Node
      reads this
    {
      Node(phase, father, newFather, transaction, txDriver, txMembersNoAck, txMembersAck, subZones, level,
        delayedMessages)
    }

    /** The state and the messages sent become what `r` says. */
    twostate predicate Becomes(r: Reply)
      reads this
    {
      State() == r.n && sent == old(sent) + r.outs
    }

    method Send(to: Proc, msg: Msg)
      modifies this`sent
      ensures sent == old(sent) + [Out(to, msg)]
    {
      sent := sent + [Out(to, msg)];
    }

    /** Sends `msg` to every member that has acknowledged, and forgets them. */
    method TellMembers(msg: Msg)
      modifies this`sent, this`txMembersAck
      ensures txMembersAck == [] && sent == old(sent) + ToAll(old(txMembersAck), msg)
    {
      ghost var n, told := 0, old(txMembersAck);
      while txMembersAck != []
        invariant n <= |told| && txMembersAck == told[n..]
        invariant sent == old(sent) + ToAll(told, msg)[..n]
      {
        Send(txMembersAck[0], msg);
        txMembersAck := txMembersAck[1..];
        n := n + 1;
      }
    }

    method CommitSubZones()
      modifies this`subZones
      ensures subZones == CommitZones(old(subZones))
    {
      var i := 0;
      ghost var done, todo: seq<Zone> := [], subZones;
      while i < |subZones|
        invariant i == |done| && subZones == done + todo && done + CommitZones(todo) == CommitZones(old(subZones))
        decreases |todo|
      {
        var z := subZones[i];
        assert todo == [z] + todo[1..] by { assert (done + todo)[i] == todo[0]; }
        EditZone(done, z, todo[1..], z.Commit());
        CommitNext(done, todo);
        if z.IsDeletion() {
          subZones := subZones[..i] + subZones[i + 1..];
        } else {
          subZones := subZones[i := z.Commit()];
          i := i + 1;
          done := done + [z.Commit()];
        }
        todo := todo[1..];
      }
    }

    method RollbackSubZones()
      modifies this`subZones
      ensures subZones == RollbackZones(old(subZones))
    {
      var i := 0;
      ghost var done, todo: seq<Zone> := [], subZones;
      while i < |subZones|
        invariant i == |done| && subZones == done + todo && done + RollbackZones(todo) == RollbackZones(old(subZones))
        decreases |todo|
      {
        var z := subZones[i];
        assert todo == [z] + todo[1..] by { assert (done + todo)[i] == todo[0]; }
        EditZone(done, z, todo[1..], z.Rollback());
        RollbackNext(done, todo);
        if z.IsDeletion() {
          subZones := subZones[i := z.Rollback()];
          i := i + 1;
          done := done + [z.Rollback()];
        } else if z.IsAddition() {
          subZones := subZones[..i] + subZones[i + 1..];
        } else {
          i := i + 1;
          done := done + [z];
        }
        todo := todo[1..];
      }
    }

    method Commit()
      modifies this
      ensures Becomes(Committed(self, old(State())))
    {
      if txDriver == self { TellMembers(Msg.Commit(transaction)); }
      CommitSubZones();
      if newFather != NOBODY {
        father := newFather;
        newFather := NOBODY;
      }
      txMembersAck := [];
      transaction := NO_TX;
      phase := Online;
    }

    method Rollback()
      modifies this
      ensures Becomes(RolledBack(self, old(State())))
    {
      if txDriver == self {
        txMembersNoAck := [];
        TellMembers(Msg.Rollback(transaction));
      }
      RollbackSubZones();
      newFather := NOBODY;
      transaction := NO_TX;
      if phase == StartIn || phase == Init {
        phase := Offline;
      } else {
        phase := Online;
      }
    }

    method HandleNewStrNode(src: Proc, t: TxId, c: Choice)
      requires ValidChoice(State(), c)
      modifies this
      ensures Becomes(OnNewStrNode(self, old(State()), src, t, c))
    {
      if transaction == t && phase == WaitStr {
        if father == NOBODY && newFather == NOBODY {
          newFather := src.a;
          txMembersNoAck := txMembersNoAck + [SN(src.a)];
          return;
        }
        Divide(src.a, c.moved);
      } else {
        Send(src, Msg.Rollback(t));
      }
    }

    /** Divides the children between this node and its new brother, and asks everybody to take part. */
    method Divide(brother: Addr, moved: seq<nat>)
      requires forall i | 0 <= i < |moved| :: moved[i] < |subZones|
      modifies this
      ensures Becomes(Split(self, old(State()), brother, moved))
    {
      ghost var n, was := State(), sent;
      var brothersFather := AskFather(brother);
      ghost var first, asking := sent[|was|], State();
      SameMovers(n, asking, moved);
      var children := MoveChildren(brother, moved);
      txMembersNoAck := txMembersNoAck + [SN(brother)];
      Send(SN(brother), InitStrNode(transaction, brothersFather, children, level));
      phase := Splitting;
      SplitSends(self, n, brother, moved, was, first, sent);
    }

    /** The father, or the node that will be one, is asked first. */
    method AskFather(brother: Addr) returns (brothersFather: Addr)
      modifies this`txMembersNoAck, this`sent
      ensures brothersFather == (if father == NOBODY then newFather else father)
      ensures txMembersNoAck == old(txMembersNoAck) + if father == NOBODY then [] else [SN(father)]
      ensures sent == old(sent)
                + [Out(SN(brothersFather),
                       if father == NOBODY then InitStrNode(transaction, NOBODY, [self, brother], level + 1)
                       else NewChild(transaction, brother))]
    {
      if father == NOBODY {
        brothersFather := newFather;
        Send(SN(newFather), InitStrNode(transaction, NOBODY, [self, brother], level + 1));
      } else {
        brothersFather := father;
        txMembersNoAck := txMembersNoAck + [SN(father)];
        Send(SN(father), NewChild(transaction, brother));
      }
    }

    /** Marks the moved zones as deleted and sends their nodes to the brother. */
    method MoveChildren(brother: Addr, moved: seq<nat>) returns (children: seq<Addr>)
      requires forall i | 0 <= i < |moved| :: moved[i] < |subZones|
      modifies this`subZones, this`txMembersNoAck, this`sent
      ensures subZones == Detach(old(subZones), moved) && children == Links(old(State()), moved)
      ensures txMembersNoAck == old(txMembersNoAck) + Movers(old(State()), moved)
      ensures sent == old(sent) + ToAll(Movers(old(State()), moved), NewFather(transaction, brother))
    {
      ghost var n := State();
      ghost var was := sent;
      children := [];
      for i := 0 to |moved|
        invariant |sent| >= |was| && sent[..|was|] == was
        invariant MovedSoFar(n, brother, moved, i, subZones, children, txMembersNoAck, sent[|was|..])
      {
        MovesOneMore(n, brother, moved, i, subZones, children, txMembersNoAck, sent[|was|..]);
        var link := MoveChild(brother, moved[i]);
        children := children + [link];
      }
      assert moved[..|moved|] == moved;
    }

    method MoveChild(brother: Addr, k: nat) returns (link: Addr)
      requires k < |subZones|
      modifies this`subZones, this`txMembersNoAck, this`sent
      ensures link == old(subZones)[k].actual && subZones == old(subZones)[k := old(subZones)[k].ResetLink()]
      ensures var member := if level == 0 then RN(link) else SN(link);
              && txMembersNoAck == old(txMembersNoAck) + [member]
              && sent == old(sent) + [Out(member, NewFather(transaction, brother))]
    {
      link := subZones[k].actual;
      subZones := subZones[k := subZones[k].ResetLink()];
      var member := if level == 0 then RN(link) else SN(link);
      txMembersNoAck := txMembersNoAck + [member];
      Send(member, NewFather(transaction, brother));
    }

    method HandleInitStrNode(src: Proc, msg: Msg)
      requires msg.InitStrNode?
      modifies this
      ensures Becomes(OnInitStrNode(old(State()), src, msg))
    {
      if transaction == msg.t && phase == StartIn {
        newFather := msg.father;
        level := msg.level;
        ghost var was := subZones;
        for i := 0 to |msg.children|
          invariant subZones == was + Additions(msg.children)[..i]
          invariant phase == StartIn && newFather == msg.father && level == msg.level && sent == old(sent)
          invariant State() == old(State()).(newFather := msg.father, level := msg.level, zones := subZones)
        {
          subZones := subZones + [Zone(NOBODY, NOBODY, false).SetLink(msg.children[i])];
        }
        Send(src, Ack(transaction));
        phase := Init;
      } else {
        Send(src, Nack(msg.t));
      }
    }

    method DelayMessage(src: Proc, msg: Msg)
      modifies this`delayedMessages
      ensures delayedMessages == old(delayedMessages) + [(src, msg)]
    {
      delayedMessages := delayedMessages + [(src, msg)];
    }

    method HandleNewFather(src: Proc, msg: Msg)
      requires msg.NewFather?
      modifies this
      ensures Becomes(OnNewFather(self, old(State()), src, msg))
    {
      if phase == Offline {
      } else if phase == StartIn || phase == Init || phase == AddChild {
        DelayMessage(src, msg);
      } else if src.a == father {
        if transaction != NO_TX { Rollback(); }
        PrepareFather(src, msg);
      } else {
        Send(src, Nack(msg.t));
      }
    }

    /** Takes part in the transaction that changes the father. */
    method PrepareFather(src: Proc, msg: Msg)
      requires msg.NewFather?
      modifies this
      ensures State() == old(State()).(driver := src.a, newFather := msg.newFather, tx := msg.t, phase := ChangeFather)
      ensures sent == old(sent) + [Out(src, Ack(msg.t))]
    {
      txDriver := src.a;
      newFather := msg.newFather;
      transaction := msg.t;
      phase := ChangeFather;
      Send(src, Ack(transaction));
    }

    method HandleNewChild(src: Proc, msg: Msg, c: Choice)
      requires msg.NewChild?
      modifies this
      ensures Becomes(OnNewChild(m, old(State()), src, msg, c))
    {
      if transaction != NO_TX || |subZones| >= 2 * m {
        DelayMessage(src, msg);
        return;
      }
      var i := 0;
      while i < |subZones| && subZones[i].actual != src.a
        invariant i <= |subZones| && forall k | 0 <= k < i :: subZones[k].actual != src.a
      {
        i := i + 1;
      }
      assert i == FindLink(subZones, src.a);
      if i < |subZones| {
        transaction := msg.t;
        txDriver := src.a;
        if c.newer { subZones := subZones[i := subZones[i].SetLink(subZones[i].actual)]; }
        subZones := [Zone(NOBODY, NOBODY, false).SetLink(msg.child)] + subZones;
        Send(src, Ack(transaction));
        phase := AddChild;
      }
    }

    method HandleAck(src: Proc, t: TxId)
      modifies this
      ensures Becomes(OnAck(self, old(State()), src, t))
    {
      if transaction == t && txDriver == self {
        var i := 0;
        while i < |txMembersNoAck| && txMembersNoAck[i] != src
          invariant i <= |txMembersNoAck| && src !in txMembersNoAck[..i]
        {
          i := i + 1;
        }
        FirstAt(txMembersNoAck, src, i);
        if i < |txMembersNoAck| {
          if src !in txMembersAck { txMembersAck := txMembersAck + [src]; }
          txMembersNoAck := txMembersNoAck[..i] + txMembersNoAck[i + 1..];
        }
        if txMembersNoAck == [] { Commit(); }
      } else {
        Send(src, Msg.Rollback(t));
      }
    }

    method HandleNack(t: TxId)
      modifies this
      ensures Becomes(OnNack(self, old(State()), t))
    {
      if transaction == t && txDriver == self { Rollback(); }
    }

    method HandleCommit(t: TxId)
      modifies this
      ensures Becomes(OnCommit(self, old(State()), t))
    {
      if t == transaction { Commit(); }
    }

    method HandleRollback(src: Proc, t: TxId)
      modifies this
      ensures Becomes(OnRollback(self, old(State()), src, t))
    {
      if t == transaction && txDriver == src.a { Rollback(); }
    }

    /** A message arrives. */
    method ReceiveMessage(src: Proc, msg: Msg, c: Choice)
      requires ValidChoice(State(), c)
      modifies this
      ensures Becomes(Handle(self, m, old(State()), src, msg, c))
    {
      match msg
      case NewStrNode(t) => HandleNewStrNode(src, t, c);
      case InitStrNode(_, _, _, _) => HandleInitStrNode(src, msg);
      case NewFather(_, _) => HandleNewFather(src, msg);
      case NewChild(_, _) => HandleNewChild(src, msg, c);
      case Ack(t) => HandleAck(src, t);
      case Nack(t) => HandleNack(t);
      case Commit(t) => HandleCommit(t);
      case Rollback(t) => HandleRollback(src, t);
    }
  }

  /** Taking the first occurrence out of a list, found by its place. */
  lemma {:induction false} FirstAt(ps: seq<Proc>, p: Proc, i: nat)
    requires i <= |ps| && p !in ps[..i] && (i < |ps| ==> ps[i] == p)
    ensures (p in ps) == (i < |ps|)
    ensures i < |ps| ==> RemoveFirst(ps, p) == ps[..i] + ps[i + 1..]
  {
    if i > 0 {
      assert p != ps[0] by { assert ps[..i][0] == ps[0]; }
      assert ps[1..][..i - 1] == ps[..i][1..];
      FirstAt(ps[1..], p, i - 1);
      assert i < |ps| ==> [ps[0]] + (ps[1..][..i - 1] + ps[1..][i..]) == ps[..i] + ps[i + 1..];
    }
  }

  class ResourceNode {
    const self: Addr
    var father: Addr
    var newFather: Addr
    var transaction: TxId
    var delayedMessages: seq<(Proc, Msg)>
    var owed: seq<Out>
    var sent: seq<Out>

    constructor (self: Addr)
      ensures this.self == self && State() == IDLE && sent == []
    {
      this.self := self;
      father, newFather, transaction, delayedMessages, owed, sent := NOBODY, NOBODY, NO_TX, [], [], [];
    }

    function State(): Res
      reads this
    {
      Res(father, newFather, transaction, delayedMessages, owed)
    }

    method Commit()
      modifies this
      ensures State() == ResCommitted(old(State())) && sent == old(sent)
    {
      transaction := NO_TX;
      if father == NOBODY || father != newFather {
        father := newFather;
        newFather := NOBODY;
      }
    }

    method Rollback()
      modifies this
      ensures State() == ResRolledBack(old(State())) && sent == old(sent)
    {
      transaction := NO_TX;
      newFather := NOBODY;
    }

    method ReceiveMessage(src: Proc, msg: Msg)
      modifies this
      ensures var r := HandleRes(old(State()), src, msg); State() == r.r && sent == old(sent) + r.outs
    {
      match msg
      case NewFather(t, f) =>
        if transaction != NO_TX {
          delayedMessages := delayedMessages + [(src, msg)];
        } else if father == src.a {
          newFather := f;
          transaction := t;
          sent := sent + [Out(src, Ack(t))];
        }
      case Ack(t) =>
        if t == transaction {
          newFather := src.a;
          Commit();
          owed := owed + [Out(src, Msg.Commit(t))];
        }
      case Nack(t) =>
        if t == transaction { Rollback(); }
      case Rollback(t) =>
        if t == transaction { Rollback(); }
      case Commit(t) =>
        if t == transaction { Commit(); }
      case _ =>
    }
  }
}
