/**
 All the overlay nodes together, over FIFO links: the split transaction as a protocol. History
 variables record who drives which transaction, who was enlisted, what was decided and what each
 member did.
 */
module OverlayProtocol {
  import opened Overlay

  datatype World = World(
    m: nat,
    sn: Addr -> Node,
    rn: Addr -> Res,
    net: (Proc, Proc) -> seq<Msg>,        // FIFO links
    needed: multiset<(Addr, TxId)>,       // searches for a new structure node that are under way
    armed: set<(Addr, TxId)>,             // timers that will repeat such a search once
    inserts: set<(Addr, TxId)>,           // insertions being relayed to a leaf
    owner: map<TxId, Proc>,               // who drew the id
    split: set<TxId>,                     // ids of splits
    decided: map<TxId, bool>,             // outcome of each finished split at its driver
    enlisted: map<TxId, set<Proc>>,       // members asked to take part
    told: set<(TxId, Proc, bool)>,        // every commit (true) and rollback (false) ever sent
    log: map<(TxId, Proc), bool>)         // how each node left a transaction it was in

  ghost predicate Initial(w: World) {
    && w.m >= 2 && (forall a :: w.sn(a) == UNUSED) && (forall a :: w.rn(a) == IDLE)
    && (forall p, q :: w.net(p, q) == [])
    && w.needed == multiset{} && w.armed == {} && w.inserts == {} && w.owner == map[] && w.split == {}
       && w.decided == map[]
    && w.enlisted == map[] && w.told == {} && w.log == map[]
  }

  // ---------------------------------------------------------------------------------------------
  // Steps
  // ---------------------------------------------------------------------------------------------

  predicate Driving(n: Node) {
    n.phase == WaitStr || n.phase == Splitting
  }

  ghost function Enlisted(w: World, t: TxId): set<Proc> {
    if t in w.enlisted then w.enlisted[t] else {}
  }

  /** The messages among `outs` that go to `q`, in order. */
  ghost function For(outs: seq<Out>, q: Proc): seq<Msg> {
    if outs == [] then []
    else if outs[0].to == q then [outs[0].msg] + For(outs[1..], q)
    else For(outs[1..], q)
  }

  ghost predicate Sends(w: World, w': World, me: Proc, taken: bool, src: Proc, outs: seq<Out>)
    requires taken ==> w.net(src, me) != []
  {
    forall p, q ::
      var left := if taken && p == src && q == me then w.net(p, q)[1..] else w.net(p, q);
      w'.net(p, q) == if p == me then left + For(outs, q) else left
  }

  ghost function ToldIn(outs: seq<Out>): set<(TxId, Proc, bool)> {
    (set o | o in outs && o.msg.Commit? :: (o.msg.t, o.to, true))
    + (set o | o in outs && o.msg.Rollback? :: (o.msg.t, o.to, false))
  }

  /** A root has got the first of the two nodes that it needs. */
  predicate NeedsAnother(n: Node, n': Node) {
    n.phase == WaitStr && n'.phase == WaitStr && n'.newFather != n.newFather
  }

  /** A root that still needs a brother looks for one more node. */
  ghost function Searches(w: World, x: Addr, n: Node, n': Node): multiset<(Addr, TxId)> {
    if NeedsAnother(n, n') then w.needed + multiset{(x, n.tx)} else w.needed
  }

  /** The timer is set anew for each search, and cancelled when the node stops waiting. */
  ghost function Timers(w: World, x: Addr, n: Node, n': Node): set<(Addr, TxId)> {
    if NeedsAnother(n, n') then w.armed + {(x, n.tx)}
    else if n.phase == WaitStr && n'.phase != WaitStr then w.armed - {(x, n.tx)}
    else w.armed
  }

  /** What is recorded when structure node `x` handles `msg`. */
  ghost predicate Records(w: World, w': World, x: Addr, n: Node, r: Reply, msg: Msg) {
    && w'.m == w.m && w'.rn == w.rn && w'.inserts == w.inserts && w'.owner == w.owner && w'.split == w.split
    && w'.needed == Searches(w, x, n, r.n) && w'.armed == Timers(w, x, n, r.n)
    && w'.decided == (if Driving(n)
       && !(Driving(r.n) && r.n.tx == n.tx) then w.decided[n.tx := msg.Ack?] else w.decided)
    && w'.enlisted == (if Driving(r.n) then w.enlisted[r.n.tx := Enlisted(w, r.n.tx) + set p | p in r.n.noAck]
       else w.enlisted)
    && w'.told == w.told + ToldIn(r.outs)
    && w'.log == (if n.tx != NO_TX && r.n.tx != n.tx then w.log[(n.tx, SN(x)) := msg.Commit? || msg.Ack?] else w.log)
  }

  ghost predicate OnlySN(w: World, w': World, x: Addr, n: Node) {
    forall a :: w'.sn(a) == if a == x then n else w.sn(a)
  }

  ghost predicate OnlyRN(w: World, w': World, a: Addr, r: Res) {
    forall b :: w'.rn(b) == if b == a then r else w.rn(b)
  }

  /** Structure node `x` takes the next message of a link. */
  ghost predicate Deliver(w: World, w': World, x: Addr, src: Proc, c: Choice) {
    && x != NOBODY && w.net(src, SN(x)) != [] && ValidChoice(w.sn(x), c)
    && var n, msg := w.sn(x), w.net(src, SN(x))[0];
       var r := Handle(x, w.m, n, src, msg, c);
       OnlySN(w, w', x, r.n) && Sends(w, w', SN(x), true, src, r.outs) && Records(w, w', x, n, r, msg)
  }

  ghost predicate CanReplay(n: Node) {
    n.tx == NO_TX && n.delayed != []
  }

  /** Structure node `x`, in no transaction, takes its first delayed message. */
  ghost predicate Replay(w: World, w': World, x: Addr, c: Choice) {
    && x != NOBODY && CanReplay(w.sn(x)) && ValidChoice(w.sn(x), c)
    && var n := w.sn(x).(delayed := w.sn(x).delayed[1..]);
       var (src, msg) := w.sn(x).delayed[0];
       var r := Handle(x, w.m, n, src, msg, c);
       OnlySN(w, w', x, r.n) && Sends(w, w', SN(x), false, src, r.outs) && Records(w, w', x, n, r, msg)
  }

  /** `checkFanout`: a node with too many children draws a fresh id and looks for a structure node. */
  ghost predicate StartSplit(w: World, w': World, x: Addr, t: TxId) {
    && x != NOBODY && w.sn(x).phase == Online && w.sn(x).tx == NO_TX && |w.sn(x).zones| >= 2 * w.m
    && t != NO_TX && t !in w.owner
    && OnlySN(w, w', x, w.sn(x).(phase := WaitStr, tx := t, driver := x))
    && w'.rn == w.rn && w'.net == w.net
    && w' == w.(sn := w'.sn, needed := w.needed + multiset{(x, t)}, armed := w.armed + {(x, t)},
       owner := w.owner[t := SN(x)],
                split := w.split + {t}, enlisted := w.enlisted[t := {}])
  }

  /** A minute has passed: the search is repeated, once. */
  ghost predicate Repeat(w: World, w': World, x: Addr, t: TxId) {
    (x, t) in w.armed && w' == w.(needed := w.needed + multiset{(x, t)}, armed := w.armed - {(x, t)})
  }

  /** A search that reaches a node which has just offered itself is lost. */
  ghost predicate Lose(w: World, w': World, y: Addr, x: Addr, t: TxId) {
    (x, t) in w.needed && w.sn(y).phase == StartIn && w' == w.(needed := w.needed - multiset{(x, t)})
  }

  /** A search ends at a peer in the network whose structure node is unused, and which offers it. */
  ghost predicate Offer(w: World, w': World, y: Addr, x: Addr, t: TxId) {
    && y != NOBODY && (x, t) in w.needed && w.sn(y).phase == Offline && w.rn(y).father != NOBODY
    && OnlySN(w, w', y, w.sn(y).(phase := StartIn, tx := t, driver := x))
    && Sends(w, w', SN(y), false, SN(y), [Out(SN(x), NewStrNode(t))])
    && w' == w.(sn := w'.sn, net := w'.net, needed := w.needed - multiset{(x, t)})
  }

  /** A resource node outside the network asks to be inserted. */
  ghost predicate StartInsert(w: World, w': World, a: Addr, t: TxId) {
    && a != NOBODY && w.rn(a).father == NOBODY && w.rn(a).tx == NO_TX && t != NO_TX && t !in w.owner
    && OnlyRN(w, w', a, w.rn(a).(tx := t))
    && w' == w.(rn := w'.rn, inserts := w.inserts + {(a, t)}, owner := w.owner[t := RN(a)])
  }

  /** A leaf of the structure, or the unused node of the same peer, accepts the insertion. */
  ghost predicate AcceptInsert(w: World, w': World, x: Addr, a: Addr, t: TxId) {
    var n := w.sn(x);
    && x != NOBODY && (a, t) in w.inserts && n.tx == NO_TX && |n.zones| < 2 * w.m
    && (if n.phase == Online then n.level == 0 else a == x)
    && OnlySN(w, w', x, n.(phase := AddChild, tx := t, driver := a, zones := [Zone(NOBODY, a, true)] + n.zones))
    && Sends(w, w', SN(x), false, SN(x), [Out(RN(a), Ack(t))])
    && w' == w.(sn := w'.sn, net := w'.net, inserts := w.inserts - {(a, t)})
  }

  /** What the history variables record when resource node `a` handles `msg`. */
  ghost predicate ResRecords(w: World, w': World, a: Addr, r: Res, r': Res, msg: Msg) {
    && w' == w.(rn := w'.rn, net := w'.net, log := w'.log)
    && w'.log == (if r.tx != NO_TX && r'.tx != r.tx then w.log[(r.tx, RN(a)) := msg.Commit? || msg.Ack?] else w.log)
  }

  ghost predicate ResDeliver(w: World, w': World, a: Addr, src: Proc) {
    && a != NOBODY && w.net(src, RN(a)) != []
    && var msg := w.net(src, RN(a))[0];
       var r := HandleRes(w.rn(a), src, msg);
       OnlyRN(w, w', a, r.r) && Sends(w, w', RN(a), true, src, r.outs) && ResRecords(w, w', a, w.rn(a), r.r, msg)
  }

  ghost predicate ResReplay(w: World, w': World, a: Addr) {
    && a != NOBODY && w.rn(a).tx == NO_TX && w.rn(a).delayed != []
    && var (src, msg) := w.rn(a).delayed[0];
       var r := HandleRes(w.rn(a).(delayed := w.rn(a).delayed[1..]), src, msg);
       OnlyRN(w, w', a, r.r) && Sends(w, w', RN(a), false, src, r.outs) && ResRecords(w, w', a, w.rn(a), r.r, msg)
  }

  ghost predicate ResSend(w: World, w': World, a: Addr) {
    && a != NOBODY && w.rn(a).owed != []
    && OnlyRN(w, w', a, w.rn(a).(owed := w.rn(a).owed[1..]))
    && Sends(w, w', RN(a), false, RN(a), [w.rn(a).owed[0]])
    && w' == w.(rn := w'.rn, net := w'.net, told := w.told + ToldIn([w.rn(a).owed[0]]))
  }

  datatype Action =
    | ADeliver(x: Addr, src: Proc, c: Choice)
    | AReplay(x: Addr, c: Choice)
    | AStartSplit(x: Addr, t: TxId)
    | ARepeat(x: Addr, t: TxId)
    | ALose(y: Addr, x: Addr, t: TxId)
    | AOffer(y: Addr, x: Addr, t: TxId)
    | AStartInsert(a: Addr, t: TxId)
    | AAcceptInsert(x: Addr, a: Addr, t: TxId)
    | AResDeliver(a: Addr, src: Proc)
    | AResReplay(a: Addr)
    | AResSend(a: Addr)

  ghost predicate Does(w: World, w': World, act: Action) {
    match act
    case ADeliver(x, src, c) => Deliver(w, w', x, src, c)
    case AReplay(x, c) => Replay(w, w', x, c)
    case AStartSplit(x, t) => StartSplit(w, w', x, t)
    case ARepeat(x, t) => Repeat(w, w', x, t)
    case ALose(y, x, t) => Lose(w, w', y, x, t)
    case AOffer(y, x, t) => Offer(w, w', y, x, t)
    case AStartInsert(a, t) => StartInsert(w, w', a, t)
    case AAcceptInsert(x, a, t) => AcceptInsert(w, w', x, a, t)
    case AResDeliver(a, src) => ResDeliver(w, w', a, src)
    case AResReplay(a) => ResReplay(w, w', a)
    case AResSend(a) => ResSend(w, w', a)
  }

  ghost predicate Next(w: World, w': World) {
    exists act :: Does(w, w', act)
  }

  ghost predicate Run(ws: seq<World>) {
    && |ws| > 0 && Initial(ws[0])
    && forall k | 0 <= k < |ws| - 1 :: Next(ws[k], ws[k + 1])
  }
}
