/**
 One split transaction and one of the nodes that may take part in it: what the links between the
 driver and that node carry, and how each kind of step changes the pair.
 */
module OverlayPairs {
  import opened Common
  import opened Overlay

  // ---------------------------------------------------------------------------------------------
  // Links
  // ---------------------------------------------------------------------------------------------

  datatype Kind = Request | Acked | Offered | Told(commit: bool)

  predicate IsRequest(msg: Msg) {
    msg.InitStrNode? || msg.NewFather? || msg.NewChild?
  }

  predicate Is(msg: Msg, k: Kind, t: TxId) {
    && msg.t == t
    && match k
       case Request => IsRequest(msg)
       case Acked => msg.Ack?
       case Offered => msg.NewStrNode?
       case Told(c) => if c then msg.Commit? else msg.Rollback?
  }

  /** Number of messages of a kind about a transaction on a link. */
  function Num(ch: seq<Msg>, k: Kind, t: TxId): nat {
    if ch == [] then 0 else (if Is(ch[0], k, t) then 1 else 0) + Num(ch[1..], k, t)
  }

  lemma {:induction false} NumAppend(a: seq<Msg>, b: seq<Msg>, k: Kind, t: TxId)
    ensures Num(a + b, k, t) == Num(a, k, t) + Num(b, k, t)
  {
    if a == [] {
      assert a + b == b;
    } else {
      NumAppend(a[1..], b, k, t);
      assert (a + b)[1..] == a[1..] + b;
    }
  }

  lemma {:induction false} NumZero(ch: seq<Msg>, k: Kind, t: TxId)
    requires forall msg | msg in ch :: !Is(msg, k, t)
    ensures Num(ch, k, t) == 0
  {
    if ch != [] {
      NumZero(ch[1..], k, t);
    }
  }

  lemma {:induction false} NumPositive(ch: seq<Msg>, k: Kind, t: TxId, msg: Msg)
    requires msg in ch && Is(msg, k, t)
    ensures Num(ch, k, t) > 0
  {
    if msg != ch[0] {
      NumPositive(ch[1..], k, t, msg);
    }
  }

  /** Every father change on the link belongs to `t`. */
  predicate OnlyFathers(ch: seq<Msg>, t: TxId) {
    ch == [] || ((ch[0].NewFather? ==> ch[0].t == t) && OnlyFathers(ch[1..], t))
  }

  /** After a father change of `t`, every father change on the link belongs to `t`. */
  predicate LastFather(ch: seq<Msg>, t: TxId) {
    ch == [] || if ch[0].NewFather? && ch[0].t == t then OnlyFathers(ch[1..], t) else LastFather(ch[1..], t)
  }

  /** The commit of `t` is on the link, ahead of any father change. */
  predicate CommitAhead(ch: seq<Msg>, t: TxId) {
    ch != [] && (ch[0] == Commit(t) || (!ch[0].NewFather? && CommitAhead(ch[1..], t)))
  }

  /** What matters about `t` on the link from its driver, and on the link back. */
  datatype Down = Down(requests: nat, commits: nat, rollbacks: nat, only: bool, last: bool, ahead: bool)

  datatype Up = Up(acks: nat, offers: nat)

  function DownOf(ch: seq<Msg>, t: TxId): Down {
    Down(Num(ch, Request, t), Num(ch, Told(true), t), Num(ch, Told(false), t),
         OnlyFathers(ch, t), LastFather(ch, t), CommitAhead(ch, t))
  }

  function UpOf(ch: seq<Msg>, t: TxId): Up {
    Up(Num(ch, Acked, t), Num(ch, Offered, t))
  }

  /** `d'` is what may remain of `d` when `msg` leaves the link. */
  predicate Popped(d: Down, d': Down, msg: Msg, t: TxId) {
    && d.requests == d'.requests + One(Is(msg, Request, t))
    && d.commits == d'.commits + One(Is(msg, Told(true), t))
    && d.rollbacks == d'.rollbacks + One(Is(msg, Told(false), t))
    && (d.only ==> d'.only && (msg.NewFather? ==> msg.t == t))
    && (d.last ==> d'.last && (msg.NewFather? && msg.t == t ==> d'.only))
    && (d.ahead && msg != Commit(t) ==> d'.ahead && !msg.NewFather?)
  }

  lemma DownPopped(ch: seq<Msg>, t: TxId)
    requires ch != []
    ensures Popped(DownOf(ch, t), DownOf(ch[1..], t), ch[0], t)
  {
    if ch[0].NewFather? && ch[0].t == t && OnlyFathers(ch[1..], t) {
      OnlyIsLast(ch[1..], t);
    }
  }

  lemma {:induction false} OnlyIsLast(ch: seq<Msg>, t: TxId)
    requires OnlyFathers(ch, t)
    ensures LastFather(ch, t)
  {
    if ch != [] {
      OnlyIsLast(ch[1..], t);
    }
  }

  predicate UpPopped(u: Up, u': Up, msg: Msg, t: TxId) {
    u.acks == u'.acks + One(Is(msg, Acked, t)) && u.offers == u'.offers + One(Is(msg, Offered, t))
  }

  lemma {:induction false} OnlyAppend(a: seq<Msg>, b: seq<Msg>, t: TxId)
    requires OnlyFathers(a, t) && OnlyFathers(b, t)
    ensures OnlyFathers(a + b, t)
  {
    if a == [] {
      assert a + b == b;
    } else {
      OnlyAppend(a[1..], b, t);
      assert (a + b)[1..] == a[1..] + b;
    }
  }

  lemma {:induction false} LastAppend(a: seq<Msg>, b: seq<Msg>, t: TxId)
    requires LastFather(a, t) && OnlyFathers(b, t)
    ensures LastFather(a + b, t)
  {
    if a == [] {
      assert a + b == b;
      OnlyIsLast(b, t);
    } else {
      assert (a + b)[1..] == a[1..] + b;
      if a[0].NewFather? && a[0].t == t {
        OnlyAppend(a[1..], b, t);
      } else {
        LastAppend(a[1..], b, t);
      }
    }
  }

  lemma {:induction false} AheadAppend(a: seq<Msg>, b: seq<Msg>, t: TxId)
    requires CommitAhead(a, t) || (Num(a, Request, t) == 0 && OnlyFathers(a, t) && CommitAhead(b, t))
    ensures CommitAhead(a + b, t)
  {
    if a == [] {
      assert a + b == b;
    } else {
      assert (a + b)[1..] == a[1..] + b;
      if a[0] != Commit(t) {
        AheadAppend(a[1..], b, t);
      }
    }
  }

  /** `d'` is what may become of `d` when `added` is put at the end of the link. */
  predicate Extended(d: Down, d': Down, added: Down) {
    && d'.requests == d.requests + added.requests
    && d'.commits == d.commits + added.commits
    && d'.rollbacks == d.rollbacks + added.rollbacks
    && (d.only && added.only ==> d'.only)
    && (d.last && added.only ==> d'.last)
    && (d.ahead || (d.requests == 0 && d.only && added.ahead) ==> d'.ahead)
  }

  lemma DownExtended(a: seq<Msg>, b: seq<Msg>, t: TxId)
    ensures Extended(DownOf(a, t), DownOf(a + b, t), DownOf(b, t))
  {
    NumAppend(a, b, Request, t);
    NumAppend(a, b, Told(true), t);
    NumAppend(a, b, Told(false), t);
    if OnlyFathers(a, t) && OnlyFathers(b, t) { OnlyAppend(a, b, t); }
    if LastFather(a, t) && OnlyFathers(b, t) { LastAppend(a, b, t); }
    if CommitAhead(a, t) || (Num(a, Request, t) == 0 && OnlyFathers(a, t) && CommitAhead(b, t)) {
      AheadAppend(a, b, t);
    }
  }

  lemma UpExtended(a: seq<Msg>, b: seq<Msg>, t: TxId)
    ensures UpOf(a + b, t).acks == UpOf(a, t).acks + UpOf(b, t).acks
    ensures UpOf(a + b, t).offers == UpOf(a, t).offers + UpOf(b, t).offers
  {
    NumAppend(a, b, Acked, t);
    NumAppend(a, b, Offered, t);
  }

  // ---------------------------------------------------------------------------------------------
  // Pairs
  // ---------------------------------------------------------------------------------------------

  datatype Fate = Running | Decided(commit: bool)

  datatype Exit = Never | Left(commit: bool)

  /**
   All that matters about a split, its driver, and another node: what the node does, what it holds back of the
   driver's requests, what the driver knows, the two links, and the history.
   */
  datatype Pair = Pair(
    isSN: bool, phase: Phase, tx: TxId, settled: bool, delayed: nat, fatherDelayed: bool,
    fate: Fate, waiting: bool, noAck: nat, acked: bool, enlisted: bool,
    dm: Down, md: Up, exit: Exit, toldCommit: bool, toldRollback: bool)

  /** The node has acknowledged `t` and waits for the decision. */
  predicate Holds(v: Pair, t: TxId) {
    v.tx == t && (v.isSN ==> v.phase == Init || v.phase == AddChild || v.phase == ChangeFather)
  }

  /** While the driver collects acknowledgements: who has acknowledged holds, and cannot be made to leave. */
  predicate CoherentRunning(t: TxId, v: Pair) {
    v.fate == Running ==>
      && v.dm.requests + v.delayed + v.md.acks <= v.noAck
      && (v.md.acks > 0 || v.acked <==> Holds(v, t))
      && (v.enlisted <==> v.noAck > 0 || v.acked)
      && (v.isSN ==> v.dm.last)
      && (v.isSN && (v.fatherDelayed || (Holds(v, t) && v.phase == ChangeFather)) ==> v.dm.only)
  }

  /** While the driver waits for a structure node nothing is asked, answered or told. */
  predicate CoherentWaiting(t: TxId, v: Pair) {
    v.waiting ==>
      && v.fate == Running && v.dm.requests + v.delayed == 0 && v.md.acks == 0 && !v.acked
      && v.exit == Never && !v.toldCommit && !v.toldRollback
  }

  /** After the decision, who still holds has the outcome on its way. */
  predicate CoherentDecided(t: TxId, v: Pair) {
    && (v.fate == Decided(true) ==>
          && v.dm.requests + v.delayed == 0 && v.md.acks == 0
          && (Holds(v, t) ==> v.dm.commits > 0)
          && (Holds(v, t) && v.isSN && v.phase == ChangeFather ==> v.dm.ahead)
          && (v.enlisted ==> v.toldCommit && (Holds(v, t) || v.exit == Left(true)))
          && (v.enlisted && v.isSN ==> v.settled))
    && (v.fate == Decided(false) && Holds(v, t) ==> v.dm.rollbacks > 0 || v.md.acks > 0)
  }

  /** What was said and done agrees with the decision. */
  predicate CoherentOutcome(t: TxId, v: Pair) {
    && (v.dm.commits > 0 || v.toldCommit ==> v.fate == Decided(true) && v.enlisted)
    && (v.dm.rollbacks > 0 || v.toldRollback ==> v.fate == Decided(false) || (!v.enlisted && !v.waiting))
    && (v.enlisted && v.exit != Never ==> v.fate == Decided(v.exit.commit))
    && (Holds(v, t) || v.dm.requests > 0 || v.delayed > 0 || v.md.acks > 0 ==> v.enlisted)
    && (v.fatherDelayed ==> v.delayed > 0)
  }

  /** A structure node without a place in the tree is bound to at most one transaction, by at most one message. */
  predicate CoherentFresh(t: TxId, v: Pair) {
    && (v.isSN && !v.settled ==>
          v.md.offers + v.dm.requests + v.delayed + v.md.acks + v.dm.commits + v.dm.rollbacks
          + One(v.fate == Running && v.acked) <= One(v.tx == t))
    && (v.md.offers > 0 ==>
          v.isSN && !v.settled && v.phase == StartIn && v.tx == t && (v.enlisted ==> v.fate == Decided(false)))
    && (v.isSN && v.enlisted && v.fate != Decided(false) ==> v.settled || v.tx == t)
    && (v.isSN && v.settled ==> v.phase != Offline && v.phase != StartIn)
    && (v.isSN && !v.settled ==> v.phase == Offline || v.phase == StartIn || v.phase == Init)
  }

  predicate Coherent(t: TxId, v: Pair) {
    && CoherentRunning(t, v) && CoherentWaiting(t, v) && CoherentDecided(t, v) && CoherentOutcome(t, v)
    && CoherentFresh(t, v)
  }

  // ---------------------------------------------------------------------------------------------
  // Steps of the node
  // ---------------------------------------------------------------------------------------------

  /** The node's step leaves alone what the driver knows and what was said. */
  predicate NodeStep(v: Pair, v': Pair) {
    && v'.isSN == v.isSN && (v.settled ==> v'.settled)
    && v'.fate == v.fate && v'.waiting == v.waiting && v'.noAck == v.noAck && v'.acked == v.acked
       && v'.enlisted == v.enlisted
    && v'.toldCommit == v.toldCommit && v'.toldRollback == v.toldRollback
    && (v'.isSN && v'.settled ==> v'.phase != Offline && v'.phase != StartIn)
    && (v'.isSN && !v'.settled ==> v'.phase == Offline || v'.phase == StartIn || v'.phase == Init)
  }

  /** Nothing about `t` moves; father changes may leave the link. */
  predicate SameLinks(v: Pair, v': Pair) {
    && v'.dm.requests == v.dm.requests && v'.dm.commits == v.dm.commits && v'.dm.rollbacks == v.dm.rollbacks
    && (v.dm.only ==> v'.dm.only) && (v.dm.last ==> v'.dm.last)
    && v'.md == v.md
  }

  /** The node does something that has nothing to do with `t`, and stays in `t` or out of it. */
  lemma OtherBusiness(t: TxId, v: Pair, v': Pair)
    requires Coherent(t, v) && NodeStep(v, v') && SameLinks(v, v')
    requires v'.delayed == v.delayed && v'.fatherDelayed == v.fatherDelayed && v'.exit == v.exit
    requires if v.tx == t then v'.tx == t && v'.phase == v.phase else v'.tx != t
    requires v.dm.ahead && v.tx == t ==> v'.dm.ahead
    ensures Coherent(t, v')
  {
  }

  /**
   A father change of another transaction arrives from the driver: a node that changes its father for `t` gives `t` up.
   */
  lemma Overridden(t: TxId, v: Pair, v': Pair)
    requires Coherent(t, v) && NodeStep(v, v') && SameLinks(v, v') && v'.settled
    requires v.isSN && v.tx == t && v.phase == ChangeFather && v'.tx != t
    requires !v.dm.only && !v.dm.ahead
    requires v'.delayed == v.delayed && v'.fatherDelayed == v.fatherDelayed && v'.exit == Left(false)
    ensures Coherent(t, v') && v.fate == Decided(false)
  {
  }

  /** A request of `t`, fresh or held back until now, is accepted. */
  lemma Accepts(t: TxId, v: Pair, v': Pair)
    requires Coherent(t, v) && NodeStep(v, v')
    requires v'.dm.requests + v'.delayed + 1 == v.dm.requests + v.delayed
    requires v'.dm.commits == v.dm.commits && v'.dm.rollbacks == v.dm.rollbacks
    requires (v.dm.only ==> v'.dm.only) && (v.dm.last ==> v'.dm.last)
    requires v'.fatherDelayed ==> v'.delayed > 0 && v.fatherDelayed
    requires v'.md == v.md.(acks := v.md.acks + 1)
    requires Holds(v', t) && v'.settled == v.settled && v'.exit == v.exit
    requires v.isSN && v'.phase == ChangeFather && v.fate == Running ==> v'.dm.only
    ensures Coherent(t, v')
  {
  }

  /** A request of `t` is put off, refused or forgotten. */
  lemma Declines(t: TxId, v: Pair, v': Pair, later: bool)
    requires Coherent(t, v) && NodeStep(v, v')
    requires v'.dm.requests + v'.delayed + (if later then 0 else 1) == v.dm.requests + v.delayed
    requires v'.dm.commits == v.dm.commits && v'.dm.rollbacks == v.dm.rollbacks
    requires (v.dm.only ==> v'.dm.only) && (v.dm.last ==> v'.dm.last)
    requires v'.md == v.md
    requires v'.tx == v.tx && v'.phase == v.phase && v'.settled == v.settled && v'.exit == v.exit
    requires v'.fatherDelayed ==> v'.delayed > 0 && (v.isSN && v.fate == Running ==> v.fatherDelayed || v'.dm.only)
    requires v.dm.requests + v.delayed > 0
    ensures Coherent(t, v')
  {
  }

  /** The driver's decision arrives. */
  lemma LearnsOutcome(t: TxId, v: Pair, v': Pair, commit: bool)
    requires Coherent(t, v) && NodeStep(v, v')
    requires v'.dm.requests == v.dm.requests && v'.md == v.md
    requires v'.dm.commits + One(commit) == v.dm.commits && v'.dm.rollbacks + One(!commit) == v.dm.rollbacks
    requires (v.dm.only ==> v'.dm.only) && (v.dm.last ==> v'.dm.last)
    requires v'.delayed == v.delayed && v'.fatherDelayed == v.fatherDelayed
    requires if v.tx == t then v'.tx != t && v'.exit == Left(commit)
             else v'.tx == v.tx && v'.phase == v.phase && v'.exit == v.exit && v'.settled == v.settled
    requires v.dm.ahead && !commit ==> v'.dm.ahead
    ensures Coherent(t, v')
  {
  }

  /** An unused structure node offers itself. */
  lemma Offers(t: TxId, v: Pair, v': Pair)
    requires Coherent(t, v) && v.isSN && v.phase == Offline && v.tx == NO_TX != t
    requires v' == v.(phase := StartIn, tx := t, md := v.md.(offers := v.md.offers + 1))
    ensures Coherent(t, v')
  {
  }

  // ---------------------------------------------------------------------------------------------
  // Steps of the driver
  // ---------------------------------------------------------------------------------------------

  /** The driver's step leaves the node alone. */
  predicate DriverStep(v: Pair, v': Pair) {
    && v'.isSN == v.isSN && v'.phase == v.phase && v'.tx == v.tx && v'.delayed == v.delayed
    && v'.fatherDelayed == v.fatherDelayed && v'.exit == v.exit
    && (v.settled ==> v'.settled) && (v'.isSN && v'.settled ==> v'.phase != Offline && v'.phase != StartIn)
  }

  predicate SameFate(v: Pair, v': Pair) {
    && v'.fate == v.fate && v'.waiting == v.waiting && v'.noAck == v.noAck && v'.acked == v.acked
       && v'.enlisted == v.enlisted
    && v'.toldCommit == v.toldCommit
  }

  /** Neither link changes as far as `t` is concerned; father changes are sent only after `t` is decided. */
  predicate NothingSaid(v: Pair, v': Pair) {
    && v'.dm.requests == v.dm.requests && v'.dm.commits == v.dm.commits && v'.dm.rollbacks == v.dm.rollbacks
    && (v.fate == Running ==> (v.dm.only ==> v'.dm.only) && (v.dm.last ==> v'.dm.last))
    && (v.dm.ahead ==> v'.dm.ahead)
    && v'.md == v.md && v'.toldRollback == v.toldRollback
  }

  lemma DriverElsewhere(t: TxId, v: Pair, v': Pair)
    requires Coherent(t, v) && DriverStep(v, v') && SameFate(v, v') && NothingSaid(v, v')
    ensures Coherent(t, v')
  {
  }

  /** A new split: nobody has heard of it. */
  lemma Untouched(t: TxId, v: Pair)
    requires v.tx != t && v.delayed == 0 && !v.fatherDelayed && v.fate == Running && v.waiting && v.noAck == 0
    requires !v.acked && !v.enlisted
    requires v.dm.requests == 0 && v.dm.commits == 0 && v.dm.rollbacks == 0 && v.dm.last && v.md == Up(0, 0)
    requires v.exit == Never && !v.toldCommit && !v.toldRollback
    requires v.isSN && v.settled ==> v.phase != Offline && v.phase != StartIn
    requires v.isSN && !v.settled ==> v.phase == Offline || v.phase == StartIn || v.phase == Init
    ensures Coherent(t, v)
  {
  }

  /** The driver enlists some nodes while it waits; `asked` says how many requests go to this one now. */
  lemma Enlists(t: TxId, v: Pair, v': Pair, offered: bool, asked: nat, named: nat)
    requires Coherent(t, v) && DriverStep(v, v') && v.waiting && v'.settled == v.settled && v'.fate == Running
    requires v'.md.offers + One(offered) == v.md.offers && v'.md.acks == v.md.acks
    requires v'.noAck == v.noAck + named && v'.acked == v.acked && v'.enlisted == (v.enlisted || named > 0)
    requires v'.dm.requests == v.dm.requests + asked && v'.dm.commits == v.dm.commits
    requires v'.dm.rollbacks == v.dm.rollbacks
    requires v.isSN ==> v'.dm.last
    requires v'.toldCommit == v.toldCommit && v'.toldRollback == v.toldRollback
    requires asked <= v'.noAck && (v'.waiting ==> asked == 0)
    requires asked > 0 || named > 0 ==> (v.isSN ==> v.settled || (v.tx == t && asked <= 1 && v'.md.offers == 0))
    requires v.isSN && v.enlisted && !v.settled ==> v'.md.offers == 0
    ensures Coherent(t, v')
  {
  }

  /** The driver takes an acknowledgement of `t` and goes on waiting for others. */
  lemma CountsAck(t: TxId, v: Pair, v': Pair)
    requires Coherent(t, v) && DriverStep(v, v') && v.fate == Running && v'.fate == Running && !v.waiting && !v'.waiting
    requires v.md.acks > 0 && v'.md == v.md.(acks := v.md.acks - 1) && v'.dm == v.dm && v'.settled == v.settled
    requires v'.noAck + 1 == v.noAck && v'.acked && v'.enlisted == v.enlisted
    requires v'.toldCommit == v.toldCommit && v'.toldRollback == v.toldRollback
    ensures Coherent(t, v')
  {
  }

  /** Everybody has acknowledged: the driver commits and tells every member. */
  lemma DecidesCommit(t: TxId, v: Pair, v': Pair, told: nat)
    requires Coherent(t, v) && DriverStep(v, v') && v.fate == Running && v.noAck == 0 && v.md.acks == 0
    requires v'.fate == Decided(true) && !v'.waiting && v'.enlisted == v.enlisted
    requires v'.settled == (v.settled || (v.isSN && v.tx == t && v.phase == Init))
    requires v'.md == v.md && (told > 0 <==> v.acked)
    requires v'.dm.requests == v.dm.requests && v'.dm.commits == v.dm.commits + told
    requires v'.dm.rollbacks == v.dm.rollbacks
    requires v.dm.only && told > 0 ==> v'.dm.ahead
    requires v'.toldCommit == (v.toldCommit || told > 0) && v'.toldRollback == v.toldRollback
    ensures Coherent(t, v')
  {
  }

  /** The driver gives up and tells every member that has acknowledged. */
  lemma DecidesRollback(t: TxId, v: Pair, v': Pair, told: nat)
    requires Coherent(t, v) && DriverStep(v, v') && v.fate == Running
    requires v'.fate == Decided(false) && !v'.waiting && v'.enlisted == v.enlisted && v'.settled == v.settled
    requires v'.md == v.md && told == One(v.acked)
    requires v'.dm.requests == v.dm.requests && v'.dm.commits == v.dm.commits
    requires v'.dm.rollbacks == v.dm.rollbacks + told
    requires v'.toldCommit == v.toldCommit && v'.toldRollback == (v.toldRollback || told > 0)
    ensures Coherent(t, v')
  {
  }

  /** An offer or an acknowledgement comes too late: the sender is told to roll back. */
  lemma Rejects(t: TxId, v: Pair, v': Pair, msg: Msg)
    requires Coherent(t, v) && DriverStep(v, v') && SameFate(v, v') && msg.t == t && (msg.NewStrNode? || msg.Ack?)
    requires UpPopped(v.md, v'.md, msg, t) && !v.waiting && (msg.Ack? ==> v.fate != Running)
    requires v'.dm.requests == v.dm.requests && v'.dm.commits == v.dm.commits && v'.dm.rollbacks == v.dm.rollbacks + 1
    requires (v.dm.only ==> v'.dm.only) && (v.dm.last ==> v'.dm.last) && (v.dm.ahead ==> v'.dm.ahead)
    requires v'.toldRollback
    ensures Coherent(t, v')
  {
  }
}
