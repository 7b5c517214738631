/**
 The overlay nodes that take part in father changes: structure nodes, which split in a two-phase
 commit (src/lib/overlay/StructureNode.cpp), their transactional child links
 (include/TransactionalZoneDescription.hpp), and resource nodes (src/lib/overlay/ResourceNode.cpp).
 */
module Overlay {

  /** A peer address; 0 is the null address. */
  type Addr = nat

  const NOBODY: Addr := 0

  /** A transaction id; 0 is the null transaction. */
  type TxId = nat

  const NO_TX: TxId := 0

  /** Every peer runs a structure node and a resource node. */
  datatype Proc = SN(a: Addr) | RN(a: Addr)

  datatype Msg =
    | NewStrNode(t: TxId)
    | InitStrNode(t: TxId, father: Addr, children: seq<Addr>, level: nat)
    | NewFather(t: TxId, newFather: Addr)
    | NewChild(t: TxId, child: Addr)
    | Ack(t: TxId)
    | Nack(t: TxId)
    | Commit(t: TxId)
    | Rollback(t: TxId)

  datatype Out = Out(to: Proc, msg: Msg)

  // ---------------------------------------------------------------------------------------------
  // Child links
  // ---------------------------------------------------------------------------------------------

  /** The link part of a transactional zone description. */
  datatype Zone = Zone(actual: Addr, next: Addr, changing: bool) {
    predicate IsAddition() { changing && actual == NOBODY && next != NOBODY }

    predicate IsDeletion() { changing && actual != NOBODY && next == NOBODY }

    function SetLink(a: Addr): Zone { Zone(actual, a, true) }

    function ResetLink(): Zone { Zone(actual, NOBODY, true) }

    function Commit(): Zone { if changing then Zone(next, NOBODY, false) else this }

    function Rollback(): Zone { if changing then Zone(actual, actual, false) else this }
  }

  function CommitZones(zs: seq<Zone>): seq<Zone> {
    if zs == [] then []
    else if zs[0].IsDeletion() then CommitZones(zs[1..])
    else [zs[0].Commit()] + CommitZones(zs[1..])
  }

  function RollbackZones(zs: seq<Zone>): seq<Zone> {
    if zs == [] then []
    else if zs[0].IsAddition() then RollbackZones(zs[1..])
    else [if zs[0].IsDeletion() then zs[0].Rollback() else zs[0]] + RollbackZones(zs[1..])
  }

  /** Marks the zones at the given places as deleted. */
  function Detach(zs: seq<Zone>, moved: seq<nat>): (r: seq<Zone>)
    ensures |r| == |zs|
    ensures forall i | 0 <= i < |zs| :: r[i] == if i in moved then zs[i].ResetLink() else zs[i]
  {
    seq(|zs|, i requires 0 <= i < |zs| => if i in moved then zs[i].ResetLink() else zs[i])
  }

  /** First zone with this actual link, or the number of zones. */
  function FindLink(zs: seq<Zone>, a: Addr): (i: nat)
    ensures i <= |zs|
    ensures i < |zs| ==> zs[i].actual == a
    ensures forall k | 0 <= k < i :: zs[k].actual != a
  {
    if zs == [] then 0 else if zs[0].actual == a then 0 else 1 + FindLink(zs[1..], a)
  }

  // ---------------------------------------------------------------------------------------------
  // Structure nodes
  // ---------------------------------------------------------------------------------------------

  datatype Phase = Offline | StartIn | Init | Online | AddChild | ChangeFather | WaitStr | Splitting

  datatype Node = Node(
    phase: Phase, father: Addr, newFather: Addr,
    tx: TxId, driver: Addr, noAck: seq<Proc>, acked: seq<Proc>,
    zones: seq<Zone>, level: nat, delayed: seq<(Proc, Msg)>)

  const UNUSED: Node := Node(Offline, NOBODY, NOBODY, NO_TX, NOBODY, [], [], [], 0, [])

  datatype Reply = Reply(n: Node, outs: seq<Out>)

  /**
   What the environment decides: which half of the children moves, and whether a child's sequence number was newer.
   */
  datatype Choice = Choice(moved: seq<nat>, newer: bool)

  /** `compareZones` and the distances pick some half of the zones; this is all that is used of it. */
  predicate ValidChoice(n: Node, c: Choice) {
    && |c.moved| == |n.zones| - |n.zones| / 2
    && (forall i | 0 <= i < |c.moved| :: c.moved[i] < |n.zones|)
    && (forall i, j | 0 <= i < j < |c.moved| :: c.moved[i] != c.moved[j])
  }

  function ToAll(members: seq<Proc>, msg: Msg): (outs: seq<Out>)
    ensures |outs| == |members| && forall i | 0 <= i < |outs| :: outs[i] == Out(members[i], msg)
  {
    seq(|members|, i requires 0 <= i < |members| => Out(members[i], msg))
  }

  function Committed(self: Addr, n: Node): Reply {
    Reply(
      n.(phase := Online, zones := CommitZones(n.zones),
         father := if n.newFather != NOBODY then n.newFather else n.father, newFather := NOBODY,
         tx := NO_TX, acked := []),
      if n.driver == self then ToAll(n.acked, Commit(n.tx)) else [])
  }

  function RolledBack(self: Addr, n: Node): Reply {
    var mine := n.driver == self;
    Reply(
      n.(phase := if n.phase == StartIn || n.phase == Init then Offline else Online,
         zones := RollbackZones(n.zones), newFather := NOBODY, tx := NO_TX,
         noAck := if mine then [] else n.noAck, acked := if mine then [] else n.acked),
      if mine then ToAll(n.acked, Rollback(n.tx)) else [])
  }

  /** The moved children as members of the transaction: resource nodes at the lowest level. */
  function Movers(n: Node, moved: seq<nat>): (r: seq<Proc>)
    requires forall i | 0 <= i < |moved| :: moved[i] < |n.zones|
    ensures |r| == |moved|
    ensures forall i | 0 <= i < |r| ::
        r[i] == if n.level == 0 then RN(n.zones[moved[i]].actual) else SN(n.zones[moved[i]].actual)
  {
    seq(|moved|, i requires 0 <= i < |moved| =>
      if n.level == 0 then RN(n.zones[moved[i]].actual) else SN(n.zones[moved[i]].actual))
  }

  function Links(n: Node, moved: seq<nat>): (r: seq<Addr>)
    requires forall i | 0 <= i < |moved| :: moved[i] < |n.zones|
    ensures |r| == |moved| && forall i | 0 <= i < |r| :: r[i] == n.zones[moved[i]].actual
  {
    seq(|moved|, i requires 0 <= i < |moved| => n.zones[moved[i]].actual)
  }

  /** The node has its brother (and its father): it enlists everybody and sends the requests. */
  function Split(self: Addr, n: Node, brother: Addr, moved: seq<nat>): Reply
    requires forall i | 0 <= i < |moved| :: moved[i] < |n.zones|
  {
    var root := n.father == NOBODY;
    var children := Movers(n, moved);
    var up := if root then n.newFather else n.father;
    Reply(
      n.(phase := Splitting, zones := Detach(n.zones, moved),
         noAck := n.noAck + (if root then [] else [SN(up)]) + children + [SN(brother)]),
      [Out(SN(up), if root then InitStrNode(n.tx, NOBODY, [self, brother], n.level + 1) else NewChild(n.tx, brother))]
      + ToAll(children, NewFather(n.tx, brother))
      + [Out(SN(brother), InitStrNode(n.tx, up, Links(n, moved), n.level))])
  }

  function OnNewStrNode(self: Addr, n: Node, src: Proc, t: TxId, c: Choice): Reply
    requires ValidChoice(n, c)
  {
    if n.tx == t && n.phase == WaitStr then
      if n.father == NOBODY && n.newFather == NOBODY then
        Reply(n.(newFather := src.a, noAck := n.noAck + [SN(src.a)]), [])
      else
        Split(self, n, src.a, c.moved)
    else
      Reply(n, [Out(src, Rollback(t))])
  }

  function Additions(children: seq<Addr>): (zs: seq<Zone>)
    ensures |zs| == |children| && forall i | 0 <= i < |zs| :: zs[i] == Zone(NOBODY, children[i], true)
  {
    seq(|children|, i requires 0 <= i < |children| => Zone(NOBODY, children[i], true))
  }

  function OnInitStrNode(n: Node, src: Proc, msg: Msg): Reply
    requires msg.InitStrNode?
  {
    if n.tx == msg.t && n.phase == StartIn then
      Reply(n.(phase := Init, newFather := msg.father, level := msg.level, zones := n.zones + Additions(msg.children)),
            [Out(src, Ack(n.tx))])
    else
      Reply(n, [Out(src, Nack(msg.t))])
  }

  function Delay(n: Node, src: Proc, msg: Msg): Reply {
    Reply(n.(delayed := n.delayed + [(src, msg)]), [])
  }

  function OnNewFather(self: Addr, n: Node, src: Proc, msg: Msg): Reply
    requires msg.NewFather?
  {
    if n.phase == Offline then Reply(n, [])
    else if n.phase == StartIn || n.phase == Init || n.phase == AddChild then Delay(n, src, msg)
    else if src.a == n.father then
      var r := if n.tx != NO_TX then RolledBack(self, n) else Reply(n, []);
      Reply(r.n.(driver := src.a, newFather := msg.newFather, tx := msg.t, phase := ChangeFather),
            r.outs + [Out(src, Ack(msg.t))])
    else Reply(n, [Out(src, Nack(msg.t))])
  }

  function OnNewChild(m: nat, n: Node, src: Proc, msg: Msg, c: Choice): Reply
    requires msg.NewChild?
  {
    if n.tx != NO_TX || |n.zones| >= 2 * m then Delay(n, src, msg)
    else
      var i := FindLink(n.zones, src.a);
      if i == |n.zones| then Reply(n, [])
      else
        var zs := if c.newer then n.zones[i := n.zones[i].SetLink(n.zones[i].actual)] else n.zones;
        Reply(n.(tx := msg.t, driver := src.a, phase := AddChild, zones := [Zone(NOBODY, msg.child, true)] + zs),
              [Out(src, Ack(msg.t))])
  }

  function RemoveFirst(ps: seq<Proc>, p: Proc): seq<Proc> {
    if ps == [] then [] else if ps[0] == p then ps[1..] else [ps[0]] + RemoveFirst(ps[1..], p)
  }

  function OnAck(self: Addr, n: Node, src: Proc, t: TxId): Reply {
    if n.tx == t && n.driver == self then
      var n' := if src in n.noAck
                then n.(noAck := RemoveFirst(n.noAck, src),
                     acked := if src in n.acked then n.acked else n.acked + [src])
                else n;
      if n'.noAck == [] then Committed(self, n') else Reply(n', [])
    else Reply(n, [Out(src, Rollback(t))])
  }

  function OnNack(self: Addr, n: Node, t: TxId): Reply {
    if n.tx == t && n.driver == self then RolledBack(self, n) else Reply(n, [])
  }

  function OnCommit(self: Addr, n: Node, t: TxId): Reply {
    if n.tx == t then Committed(self, n) else Reply(n, [])
  }

  function OnRollback(self: Addr, n: Node, src: Proc, t: TxId): Reply {
    if n.tx == t && n.driver == src.a then RolledBack(self, n) else Reply(n, [])
  }

  function Handle(self: Addr, m: nat, n: Node, src: Proc, msg: Msg, c: Choice): Reply
    requires ValidChoice(n, c)
  {
    match msg
    case NewStrNode(t) => OnNewStrNode(self, n, src, t, c)
    case InitStrNode(_, _, _, _) => OnInitStrNode(n, src, msg)
    case NewFather(_, _) => OnNewFather(self, n, src, msg)
    case NewChild(_, _) => OnNewChild(m, n, src, msg, c)
    case Ack(t) => OnAck(self, n, src, t)
    case Nack(t) => OnNack(self, n, t)
    case Commit(t) => OnCommit(self, n, t)
    case Rollback(t) => OnRollback(self, n, src, t)
  }

  // ---------------------------------------------------------------------------------------------
  // Resource nodes
  // ---------------------------------------------------------------------------------------------

  /** `owed` holds a commit that is sent after the delayed messages have had their turn. */
  datatype Res = Res(father: Addr, newFather: Addr, tx: TxId, delayed: seq<(Proc, Msg)>, owed: seq<Out>)

  const IDLE: Res := Res(NOBODY, NOBODY, NO_TX, [], [])

  datatype ResReply = ResReply(r: Res, outs: seq<Out>)

  function ResCommitted(r: Res): Res {
    if r.father == NOBODY || r.father != r.newFather
    then r.(tx := NO_TX, father := r.newFather, newFather := NOBODY)
    else r.(tx := NO_TX)
  }

  function ResRolledBack(r: Res): Res {
    r.(tx := NO_TX, newFather := NOBODY)
  }

  function HandleRes(r: Res, src: Proc, msg: Msg): ResReply {
    match msg
    case NewFather(t, f) =>
      if r.tx != NO_TX then ResReply(r.(delayed := r.delayed + [(src, msg)]), [])
      else if r.father == src.a then ResReply(r.(newFather := f, tx := t), [Out(src, Ack(t))])
      else ResReply(r, [])
    case Ack(t) =>
      if t == r.tx then ResReply(ResCommitted(r.(newFather := src.a)).(owed := r.owed + [Out(src, Commit(t))]), [])
      else ResReply(r, [])
    case Nack(t) =>
      if t == r.tx then ResReply(ResRolledBack(r), []) else ResReply(r, [])
    case Rollback(t) =>
      if t == r.tx then ResReply(ResRolledBack(r), []) else ResReply(r, [])
    case Commit(t) =>
      if t == r.tx then ResReply(ResCommitted(r), []) else ResReply(r, [])
    case _ => ResReply(r, [])
  }
}
