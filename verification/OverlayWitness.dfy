/**
 A run in which a split wins, so that what is proved of won splits is not about nothing: four peers join, the
 structure node of the first one splits, and a search that was repeated needlessly makes one id see both outcomes.
 */
module OverlayWitness {
  import opened Overlay
  import opened OverlayProtocol
  import opened OverlayInvariant
  import opened OverlayRuns
  import opened OverlayTheorems

  // ---------------------------------------------------------------------------------------------
  // What is to be seen of a world
  // ---------------------------------------------------------------------------------------------

  /** The nodes and links that are not as they were at first. */
  datatype Scene = Scene(sn: map<Addr, Node>, rn: map<Addr, Res>, net: map<(Proc, Proc), seq<Msg>>) {
    function Sn(a: Addr): Node { if a in sn then sn[a] else UNUSED }

    function Rn(a: Addr): Res { if a in rn then rn[a] else IDLE }

    function Net(p: Proc, q: Proc): seq<Msg> { if (p, q) in net then net[(p, q)] else [] }
  }

  ghost predicate Shows(w: World, s: Scene) {
    && w.m == 2
    && (forall a :: w.sn(a) == s.Sn(a)) && (forall a :: w.rn(a) == s.Rn(a))
       && (forall p, q :: w.net(p, q) == s.Net(p, q))
  }

  /** `p` sends some messages. */
  function Posted(s: Scene, p: Proc, outs: seq<Out>): (s': Scene)
    ensures s'.sn == s.sn && s'.rn == s.rn
    decreases |outs|
  {
    if outs == [] then s
    else Posted(s.(net := s.net[(p, outs[0].to) := s.Net(p, outs[0].to) + [outs[0].msg]]), p, outs[1..])
  }

  lemma {:induction false} PostedFor(s: Scene, p: Proc, outs: seq<Out>, a: Proc, b: Proc)
    ensures Posted(s, p, outs).Net(a, b) == if a == p then s.Net(a, b) + For(outs, b) else s.Net(a, b)
    decreases |outs|
  {
    if outs != [] {
      var s1 := s.(net := s.net[(p, outs[0].to) := s.Net(p, outs[0].to) + [outs[0].msg]]);
      PostedFor(s1, p, outs[1..], a, b);
      if a == p && b == outs[0].to {
        assert s1.Net(a, b) + For(outs[1..], b) == s.Net(a, b) + ([outs[0].msg] + For(outs[1..], b));
      }
    }
  }

  /** The first message from `src` to `me` is taken, and `me` sends some. */
  function Turn(s: Scene, me: Proc, taken: bool, src: Proc, outs: seq<Out>): (s': Scene)
    requires taken ==> s.Net(src, me) != []
    ensures s'.sn == s.sn && s'.rn == s.rn
  {
    Posted(if taken then s.(net := s.net[(src, me) := s.Net(src, me)[1..]]) else s, me, outs)
  }

  /** The links of `w` after that. */
  ghost function NetAfter(w: World, me: Proc, taken: bool, src: Proc, outs: seq<Out>): (Proc, Proc) -> seq<Msg> {
    (p: Proc, q: Proc) =>
      var left := if taken && p == src && q == me && w.net(p, q) != [] then w.net(p, q)[1..] else w.net(p, q);
      if p == me then left + For(outs, q) else left
  }

  lemma TurnShows(w: World, s: Scene, me: Proc, taken: bool, src: Proc, outs: seq<Out>)
    requires (forall p, q :: w.net(p, q) == s.Net(p, q)) && (taken ==> s.Net(src, me) != [])
    ensures forall p, q :: NetAfter(w, me, taken, src, outs)(p, q) == Turn(s, me, taken, src, outs).Net(p, q)
  {
    forall p, q ensures NetAfter(w, me, taken, src, outs)(p, q) == Turn(s, me, taken, src, outs).Net(p, q) {
      PostedFor(if taken then s.(net := s.net[(src, me) := s.Net(src, me)[1..]]) else s, me, outs, p, q);
    }
  }

  // ---------------------------------------------------------------------------------------------
  // Steps
  // ---------------------------------------------------------------------------------------------

  ghost function Last(ws: seq<World>): World
    requires |ws| > 0
  {
    ws[|ws| - 1]
  }

  lemma OneMore(ws: seq<World>, w': World, act: Action)
    requires Run(ws) && Does(Last(ws), w', act)
    ensures Run(ws + [w'])
  {
    var longer := ws + [w'];
    assert Next(Last(ws), w');
    forall k | 0 <= k < |longer| - 1 ensures Next(longer[k], longer[k + 1]) {
      if k < |ws| - 1 {
        assert longer[k] == ws[k] && longer[k + 1] == ws[k + 1];
        assert Next(ws[k], ws[k + 1]);
      }
    }
  }

  /** The world after node `x`, so far `n`, has answered a message from `src` with `r`. */
  ghost function Taken(w: World, x: Addr, n: Node, src: Proc, msg: Msg, r: Reply): World {
    w.(sn := (a: Addr) => if a == x then r.n else w.sn(a), net := NetAfter(w, SN(x), true, src, r.outs),
       needed := Searches(w, x, n, r.n), armed := Timers(w, x, n, r.n),
       decided := if Driving(n) && !(Driving(r.n) && r.n.tx == n.tx) then w.decided[n.tx := msg.Ack?] else w.decided,
       enlisted := if Driving(r.n) then w.enlisted[r.n.tx := Enlisted(w, r.n.tx) + set p | p in r.n.noAck]
         else w.enlisted,
       told := w.told + ToldIn(r.outs),
       log := if n.tx != NO_TX && r.n.tx != n.tx then w.log[(n.tx, SN(x)) := msg.Commit? || msg.Ack?] else w.log)
  }

  lemma TakenRecords(w: World, x: Addr, n: Node, src: Proc, msg: Msg, r: Reply)
    requires w.net(src, SN(x)) != []
    ensures
      var w' := Taken(w, x, n, src, msg, r);
      OnlySN(w, w', x, r.n) && Sends(w, w', SN(x), true, src, r.outs) && Records(w, w', x, n, r, msg)
  {
  }

  lemma TakenShows(w: World, s: Scene, x: Addr, n: Node, src: Proc, msg: Msg, r: Reply)
    requires Shows(w, s) && s.Net(src, SN(x)) != []
    ensures Shows(Taken(w, x, n, src, msg, r), Turn(s.(sn := s.sn[x := r.n]), SN(x), true, src, r.outs))
  {
    TurnShows(w, s.(sn := s.sn[x := r.n]), SN(x), true, src, r.outs);
  }

  /** A structure node takes a message. */
  lemma Takes(ws: seq<World>, s: Scene, x: Addr, src: Proc, c: Choice) returns (w': World)
    requires Run(ws) && Shows(Last(ws), s) && x != NOBODY && s.Net(src, SN(x)) != [] && ValidChoice(s.Sn(x), c)
    ensures
      var r := Handle(x, 2, s.Sn(x), src, s.Net(src, SN(x))[0], c);
      && Run(ws + [w'])
      && Shows(w', Turn(s.(sn := s.sn[x := r.n]), SN(x), true, src, r.outs))
      && w' == Taken(Last(ws), x, s.Sn(x), src, s.Net(src, SN(x))[0], r)
  {
    var w := Last(ws);
    var n, msg := s.Sn(x), s.Net(src, SN(x))[0];
    var r := Handle(x, 2, n, src, msg, c);
    w' := Taken(w, x, n, src, msg, r);
    TakenShows(w, s, x, n, src, msg, r);
    TakenRecords(w, x, n, src, msg, r);
    assert Deliver(w, w', x, src, c);
    OneMore(ws, w', ADeliver(x, src, c));
  }

  /** The same, for a known answer that does not end what the node drives. */
  lemma TakesAs(ws: seq<World>, s: Scene, x: Addr, src: Proc, msg: Msg, c: Choice, n': Node, outs: seq<Out>)
    returns (w': World)
    requires Run(ws) && Shows(Last(ws), s) && x != NOBODY && s.Net(src, SN(x)) == [msg] && ValidChoice(s.Sn(x), c)
    requires Handle(x, 2, s.Sn(x), src, msg, c) == Reply(n', outs)
    requires Driving(s.Sn(x)) ==> Driving(n') && n'.tx == s.Sn(x).tx
    ensures Run(ws + [w']) && Shows(w', Turn(s.(sn := s.sn[x := n']), SN(x), true, src, outs))
    ensures Last(ws).needed <= w'.needed && w'.decided == Last(ws).decided
  {
    w' := Takes(ws, s, x, src, c);
  }

  lemma StartsInsert(ws: seq<World>, s: Scene, a: Addr, t: TxId) returns (w': World)
    requires Run(ws) && Shows(Last(ws), s) && a != NOBODY && s.Rn(a) == IDLE && t != NO_TX && t !in Last(ws).owner
    ensures Run(ws + [w']) && Shows(w', s.(rn := s.rn[a := IDLE.(tx := t)]))
    ensures w' == Last(ws).(rn := w'.rn, inserts := Last(ws).inserts + {(a, t)}, owner := Last(ws).owner[t := RN(a)])
  {
    var w := Last(ws);
    w' := w.(rn := (b: Addr) => if b == a then IDLE.(tx := t) else w.rn(b), inserts := w.inserts + {(a, t)},
      owner := w.owner[t := RN(a)]);
    assert StartInsert(w, w', a, t);
    OneMore(ws, w', AStartInsert(a, t));
  }

  lemma AcceptsInsert(ws: seq<World>, s: Scene, x: Addr, a: Addr, t: TxId) returns (w': World)
    requires Run(ws) && Shows(Last(ws), s) && x != NOBODY && (a, t) in Last(ws).inserts && s.Sn(x).tx == NO_TX
    requires |s.Sn(x).zones| < 4
    requires if s.Sn(x).phase == Online then s.Sn(x).level == 0 else a == x
    ensures
      var n' := s.Sn(x).(phase := AddChild, tx := t, driver := a, zones := [Zone(NOBODY, a, true)] + s.Sn(x).zones);
      Run(ws + [w']) && Shows(w', Turn(s.(sn := s.sn[x := n']), SN(x), false, SN(x), [Out(RN(a), Ack(t))]))
    ensures w' == Last(ws).(sn := w'.sn, net := w'.net, inserts := Last(ws).inserts - {(a, t)})
  {
    var w := Last(ws);
    var n' := s.Sn(x).(phase := AddChild, tx := t, driver := a, zones := [Zone(NOBODY, a, true)] + s.Sn(x).zones);
    var outs := [Out(RN(a), Ack(t))];
    w' := w.(sn := (b: Addr) => if b == x then n' else w.sn(b), net := NetAfter(w, SN(x), false, SN(x), outs),
      inserts := w.inserts - {(a, t)});
    TurnShows(w, s.(sn := s.sn[x := n']), SN(x), false, SN(x), outs);
    assert AcceptInsert(w, w', x, a, t);
    OneMore(ws, w', AAcceptInsert(x, a, t));
  }

  lemma ResTakes(ws: seq<World>, s: Scene, a: Addr, src: Proc) returns (w': World)
    requires Run(ws) && Shows(Last(ws), s) && a != NOBODY && s.Net(src, RN(a)) != []
    ensures
      var r := HandleRes(s.Rn(a), src, s.Net(src, RN(a))[0]);
      Run(ws + [w']) && Shows(w', Turn(s.(rn := s.rn[a := r.r]), RN(a), true, src, r.outs))
    ensures w' == Last(ws).(rn := w'.rn, net := w'.net, log := w'.log)
  {
    var w := Last(ws);
    var msg := s.Net(src, RN(a))[0];
    var r := HandleRes(s.Rn(a), src, msg);
    w' := w.(rn := (b: Addr) => if b == a then r.r else w.rn(b), net := NetAfter(w, RN(a), true, src, r.outs),
             log := if s.Rn(a).tx != NO_TX && r.r.tx != s.Rn(a).tx
               then w.log[(s.Rn(a).tx, RN(a)) := msg.Commit? || msg.Ack?] else w.log);
    TurnShows(w, s.(rn := s.rn[a := r.r]), RN(a), true, src, r.outs);
    assert ResDeliver(w, w', a, src);
    OneMore(ws, w', AResDeliver(a, src));
  }

  lemma ResSends(ws: seq<World>, s: Scene, a: Addr) returns (w': World)
    requires Run(ws) && Shows(Last(ws), s) && a != NOBODY && s.Rn(a).owed != []
    ensures
      var r := s.Rn(a).(owed := s.Rn(a).owed[1..]);
      Run(ws + [w']) && Shows(w', Turn(s.(rn := s.rn[a := r]), RN(a), false, RN(a), [s.Rn(a).owed[0]]))
    ensures w' == Last(ws).(rn := w'.rn, net := w'.net, told := w'.told)
  {
    var w := Last(ws);
    var r := s.Rn(a).(owed := s.Rn(a).owed[1..]);
    var outs := [s.Rn(a).owed[0]];
    w' := w.(rn := (b: Addr) => if b == a then r else w.rn(b), net := NetAfter(w, RN(a), false, RN(a), outs),
      told := w.told + ToldIn(outs));
    TurnShows(w, s.(rn := s.rn[a := r]), RN(a), false, RN(a), outs);
    assert ResSend(w, w', a);
    OneMore(ws, w', AResSend(a));
  }

  lemma StartsSplit(ws: seq<World>, s: Scene, x: Addr, t: TxId) returns (w': World)
    requires Run(ws) && Shows(Last(ws), s) && x != NOBODY && s.Sn(x).phase == Online && s.Sn(x).tx == NO_TX
    requires |s.Sn(x).zones| >= 4
    requires t != NO_TX && t !in Last(ws).owner
    ensures Run(ws + [w']) && Shows(w', s.(sn := s.sn[x := s.Sn(x).(phase := WaitStr, tx := t, driver := x)]))
    ensures w'.needed == Last(ws).needed + multiset{(x, t)} && (x, t) in w'.armed && w'.decided == Last(ws).decided
  {
    var w := Last(ws);
    var n' := s.Sn(x).(phase := WaitStr, tx := t, driver := x);
    w' := w.(sn := (b: Addr) => if b == x then n' else w.sn(b), needed := w.needed + multiset{(x, t)},
      armed := w.armed + {(x, t)},
             owner := w.owner[t := SN(x)], split := w.split + {t}, enlisted := w.enlisted[t := {}]);
    assert StartSplit(w, w', x, t);
    OneMore(ws, w', AStartSplit(x, t));
  }

  lemma Repeats(ws: seq<World>, s: Scene, x: Addr, t: TxId) returns (w': World)
    requires Run(ws) && Shows(Last(ws), s) && (x, t) in Last(ws).armed
    ensures Run(ws + [w']) && Shows(w', s) && w'.needed == Last(ws).needed + multiset{(x, t)}
    ensures w'.decided == Last(ws).decided
  {
    var w := Last(ws);
    w' := w.(needed := w.needed + multiset{(x, t)}, armed := w.armed - {(x, t)});
    assert Repeat(w, w', x, t);
    OneMore(ws, w', ARepeat(x, t));
  }

  lemma Offered(ws: seq<World>, s: Scene, y: Addr, x: Addr, t: TxId) returns (w': World)
    requires Run(ws) && Shows(Last(ws), s) && y != NOBODY && (x, t) in Last(ws).needed && s.Sn(y).phase == Offline
    requires s.Rn(y).father != NOBODY
    ensures
      var n' := s.Sn(y).(phase := StartIn, tx := t, driver := x);
      Run(ws + [w']) && Shows(w', Turn(s.(sn := s.sn[y := n']), SN(y), false, SN(y), [Out(SN(x), NewStrNode(t))]))
    ensures w'.needed == Last(ws).needed - multiset{(x, t)} && w'.decided == Last(ws).decided
  {
    var w := Last(ws);
    var n' := s.Sn(y).(phase := StartIn, tx := t, driver := x);
    var outs := [Out(SN(x), NewStrNode(t))];
    w' := w.(sn := (b: Addr) => if b == y then n' else w.sn(b), net := NetAfter(w, SN(y), false, SN(y), outs),
      needed := w.needed - multiset{(x, t)});
    TurnShows(w, s.(sn := s.sn[y := n']), SN(y), false, SN(y), outs);
    assert Offer(w, w', y, x, t);
    OneMore(ws, w', AOffer(y, x, t));
  }

  // ---------------------------------------------------------------------------------------------
  // Peers join
  // ---------------------------------------------------------------------------------------------

  lemma SameScene(w: World, s: Scene, s': Scene)
    requires Shows(w, s) && (forall a :: s'.Sn(a) == s.Sn(a)) && (forall a :: s'.Rn(a) == s.Rn(a))
    requires forall p, q :: s'.Net(p, q) == s.Net(p, q)
    ensures Shows(w, s')
  {
  }

  /** All links are empty. */
  ghost predicate Silent(s: Scene) {
    forall p, q :: s.Net(p, q) == []
  }

  /** All links are empty but one. */
  ghost predicate Only(s: Scene, a: Proc, b: Proc, msgs: seq<Msg>) {
    forall p, q :: s.Net(p, q) == if p == a && q == b then msgs else []
  }

  lemma SameOnly(s: Scene, s': Scene, a: Proc, b: Proc, msgs: seq<Msg>)
    requires Only(s, a, b, msgs) && s'.net == s.net
    ensures Only(s', a, b, msgs)
  {
    forall p, q ensures s'.Net(p, q) == if p == a && q == b then msgs else [] {
      assert s.Net(p, q) == if p == a && q == b then msgs else [];
    }
  }

  lemma SameSilent(s: Scene, s': Scene)
    requires Silent(s) && s'.net == s.net
    ensures Silent(s')
  {
    forall p, q ensures s'.Net(p, q) == [] { assert s.Net(p, q) == []; }
  }

  lemma Says(s: Scene, me: Proc, o: Out)
    requires Silent(s)
    ensures Only(Turn(s, me, false, me, [o]), me, o.to, [o.msg])
  {
    forall p, q ensures Turn(s, me, false, me, [o]).Net(p, q) == if p == me && q == o.to then [o.msg] else [] {
      PostedFor(s, me, [o], p, q);
    }
  }

  lemma Hears(s: Scene, me: Proc, src: Proc, msg: Msg)
    requires Only(s, src, me, [msg])
    ensures Silent(Turn(s, me, true, src, []))
  {
    var s' := s.(net := s.net[(src, me) := s.Net(src, me)[1..]]);
    forall p, q ensures Turn(s, me, true, src, []).Net(p, q) == [] {
      PostedFor(s', me, [], p, q);
      assert s.Net(p, q) == if p == src && q == me then [msg] else [];
    }
  }

  function Leaf(zs: seq<Zone>, d: Addr): Node {
    Node(if zs == [] then Offline else Online, NOBODY, NOBODY, NO_TX, d, [], [], zs, 0, [])
  }

  const JOINED := Res(1, NOBODY, NO_TX, [], [])

  /** The structure node of peer 1 with its children, and the resource nodes that have joined. */
  function Camp(zs: seq<Zone>, d: Addr, rn: map<Addr, Res>): Scene {
    Scene(map[1 := Leaf(zs, d)], rn, map[])
  }

  predicate Real(zs: seq<Zone>) {
    forall i | 0 <= i < |zs| :: zs[i].actual != NOBODY && !zs[i].changing
  }

  lemma {:induction false} RealStays(zs: seq<Zone>)
    requires Real(zs)
    ensures CommitZones(zs) == zs
  {
    if zs != [] { RealStays(zs[1..]); }
  }

  lemma FirstCommitted(a: Addr, zs: seq<Zone>)
    requires a != NOBODY && Real(zs)
    ensures CommitZones([Zone(NOBODY, a, true)] + zs) == [Zone(a, NOBODY, false)] + zs
  {
    RealStays(zs);
    assert ([Zone(NOBODY, a, true)] + zs)[1..] == zs;
  }

  function Accepting(zs: seq<Zone>, d: Addr, a: Addr, t: TxId): Node {
    Leaf(zs, d).(phase := AddChild, tx := t, driver := a, zones := [Zone(NOBODY, a, true)] + zs)
  }

  /** The first half: the request is accepted. */
  lemma AsksIn(ws: seq<World>, zs: seq<Zone>, d: Addr, rn: map<Addr, Res>, a: Addr, t: TxId)
    returns (w: World, w': World, s: Scene)
    requires Run(ws) && Shows(Last(ws), Camp(zs, d, rn)) && a != NOBODY && a !in rn && |zs| < 4 && (zs == [] ==> a == 1)
    requires t != NO_TX && t !in Last(ws).owner
    ensures Run(ws + [w] + [w']) && Shows(w', s) && Only(s, SN(1), RN(a), [Ack(t)])
    ensures s.sn == map[1 := Accepting(zs, d, a, t)] && s.rn == rn[a := IDLE.(tx := t)]
    ensures w'.owner == Last(ws).owner[t := RN(a)] && w'.needed == Last(ws).needed && w'.decided == Last(ws).decided
  {
    w := StartsInsert(ws, Camp(zs, d, rn), a, t);
    var s1 := Camp(zs, d, rn[a := IDLE.(tx := t)]);
    assert Last(ws + [w]) == w;
    w' := AcceptsInsert(ws + [w], s1, 1, a, t);
    var s2 := s1.(sn := s1.sn[1 := Accepting(zs, d, a, t)]);
    s := Turn(s2, SN(1), false, SN(1), [Out(RN(a), Ack(t))]);
    Says(s2, SN(1), Out(RN(a), Ack(t)));
  }

  /** The second half: the resource node takes its father and says so. */
  lemma TakesFather(ws: seq<World>, s: Scene, zs: seq<Zone>, d: Addr, rn: map<Addr, Res>, a: Addr, t: TxId)
    returns (w: World, w': World, s': Scene)
    requires Run(ws) && Shows(Last(ws), s) && Only(s, SN(1), RN(a), [Ack(t)]) && a != NOBODY && t != NO_TX
    requires s.sn == map[1 := Accepting(zs, d, a, t)] && s.rn == rn[a := IDLE.(tx := t)]
    ensures Run(ws + [w] + [w']) && Shows(w', s') && Only(s', RN(a), SN(1), [Commit(t)])
    ensures s'.sn == s.sn && s'.rn == rn[a := JOINED]
    ensures w'.owner == Last(ws).owner && w'.needed == Last(ws).needed && w'.decided == Last(ws).decided
  {
    assert s.Net(SN(1), RN(a)) == [Ack(t)];
    w := ResTakes(ws, s, a, SN(1));
    var r := JOINED.(owed := [Out(SN(1), Commit(t))]);
    assert HandleRes(IDLE.(tx := t), SN(1), Ack(t)) == ResReply(r, []);
    var s1 := s.(rn := s.rn[a := r]);
    var s2 := Turn(s1, RN(a), true, SN(1), []);
    SameOnly(s, s1, SN(1), RN(a), [Ack(t)]);
    Hears(s1, RN(a), SN(1), Ack(t));
    assert Last(ws + [w]) == w && s2.Rn(a) == r;
    w' := ResSends(ws + [w], s2, a);
    var s3 := s2.(rn := s2.rn[a := JOINED]);
    assert r.(owed := r.owed[1..]) == JOINED;
    s' := Turn(s3, RN(a), false, RN(a), [Out(SN(1), Commit(t))]);
    SameSilent(s2, s3);
    Says(s3, RN(a), Out(SN(1), Commit(t)));
    assert s'.rn == rn[a := JOINED];
  }

  /** The leaf commits. */
  lemma CommitsChild(ws: seq<World>, s: Scene, zs: seq<Zone>, d: Addr, rn: map<Addr, Res>, a: Addr, t: TxId)
    returns (w': World)
    requires Run(ws) && Shows(Last(ws), s) && Only(s, RN(a), SN(1), [Commit(t)]) && a != NOBODY && t != NO_TX
    requires Real(zs)
    requires s.sn == map[1 := Accepting(zs, d, a, t)] && s.rn == rn[a := JOINED]
    ensures Run(ws + [w']) && Shows(w', Camp([Zone(a, NOBODY, false)] + zs, a, rn[a := JOINED]))
    ensures w'.owner == Last(ws).owner && w'.needed == Last(ws).needed && w'.decided == Last(ws).decided
  {
    assert s.Net(RN(a), SN(1)) == [Commit(t)];
    var n := Accepting(zs, d, a, t);
    var c := SomeChoice(n);
    w' := Takes(ws, s, 1, RN(a), c);
    FirstCommitted(a, zs);
    var n' := Leaf([Zone(a, NOBODY, false)] + zs, a);
    assert Handle(1, 2, n, RN(a), Commit(t), c) == Reply(n', []);
    var s1 := s.(sn := s.sn[1 := n']);
    var s2 := Turn(s1, SN(1), true, RN(a), []);
    SameOnly(s, s1, RN(a), SN(1), [Commit(t)]);
    Hears(s1, SN(1), RN(a), Commit(t));
    SameScene(w', s2, Camp([Zone(a, NOBODY, false)] + zs, a, rn[a := JOINED]));
  }

  /** A peer joins, in five steps. */
  lemma Joins(ws: seq<World>, zs: seq<Zone>, d: Addr, rn: map<Addr, Res>, a: Addr, t: TxId) returns (ws': seq<World>)
    requires Run(ws) && Shows(Last(ws), Camp(zs, d, rn)) && a != NOBODY && a !in rn && |zs| < 4 && (zs == [] ==> a == 1)
    requires Real(zs)
    requires t != NO_TX && t !in Last(ws).owner
    ensures Run(ws') && Shows(Last(ws'), Camp([Zone(a, NOBODY, false)] + zs, a, rn[a := JOINED]))
    ensures Last(ws').owner == Last(ws).owner[t := RN(a)] && Last(ws').decided == Last(ws).decided
  {
    var w1, w2, s := AsksIn(ws, zs, d, rn, a, t);
    var ws2 := ws + [w1] + [w2];
    assert Last(ws2) == w2;
    var w3, w4, s' := TakesFather(ws2, s, zs, d, rn, a, t);
    var ws4 := ws2 + [w3] + [w4];
    assert Last(ws4) == w4;
    var w5 := CommitsChild(ws4, s', zs, d, rn, a, t);
    ws' := ws4 + [w5];
    assert Last(ws') == w5;
  }

  const KIDS: seq<Zone> := [Zone(4, NOBODY, false), Zone(3, NOBODY, false), Zone(2, NOBODY, false),
    Zone(1, NOBODY, false)]

  const FOUR: map<Addr, Res> := map[1 := JOINED, 2 := JOINED, 3 := JOINED, 4 := JOINED]

  function First(): World {
    World(2, (a: Addr) => UNUSED, (a: Addr) => IDLE, (p: Proc, q: Proc) => [], multiset{}, {}, {}, map[], {}, map[],
      map[], {}, map[])
  }

  lemma OneJoins() returns (ws: seq<World>)
    ensures Run(ws) && Shows(Last(ws), Camp([Zone(1, NOBODY, false)], 1, map[1 := JOINED]))
    ensures Last(ws).owner.Keys == {1} && Last(ws).decided == map[]
  {
    var none: map<Addr, Res> := map[];
    assert Run([First()]) && Last([First()]) == First();
    SameScene(First(), Scene(map[], map[], map[]), Camp([], NOBODY, none));
    ws := Joins([First()], [], NOBODY, none, 1, 1);
    assert [Zone(1, NOBODY, false)] + [] == [Zone(1, NOBODY, false)];
  }

  /** Four peers join. */
  lemma FourJoin() returns (ws: seq<World>)
    ensures Run(ws) && Shows(Last(ws), Camp(KIDS, 4, FOUR)) && 5 !in Last(ws).owner && 5 !in Last(ws).decided
  {
    var zs1, rn1 := [Zone(1, NOBODY, false)], map[1 := JOINED];
    var ws1 := OneJoins();
    var ws2 := Joins(ws1, zs1, 1, rn1, 2, 2);
    var zs2, rn2 := [Zone(2, NOBODY, false)] + zs1, rn1[2 := JOINED];
    var ws3 := Joins(ws2, zs2, 2, rn2, 3, 3);
    var zs3, rn3 := [Zone(3, NOBODY, false)] + zs2, rn2[3 := JOINED];
    ws := Joins(ws3, zs3, 3, rn3, 4, 4);
    assert [Zone(4, NOBODY, false)] + zs3 == KIDS && rn3[4 := JOINED] == FOUR;
  }

  // ---------------------------------------------------------------------------------------------
  // The root splits
  // ---------------------------------------------------------------------------------------------

  const WAITING: Node := Leaf(KIDS, 4).(phase := WaitStr, tx := 5, driver := 1)
  const OFFERING: Node := UNUSED.(phase := StartIn, tx := 5, driver := 1)
  const HALF: Node := WAITING.(newFather := 2, noAck := [SN(2)])

  /** The search is repeated needlessly, and peer 2 offers itself: it will be the father. */
  lemma FindsFather(ws: seq<World>) returns (ws': seq<World>, s: Scene)
    requires Run(ws) && Shows(Last(ws), Camp(KIDS, 4, FOUR)) && 5 !in Last(ws).owner
    ensures Run(ws') && Shows(Last(ws'), s) && Silent(s) && s.sn == map[1 := HALF, 2 := OFFERING] && s.rn == FOUR
    ensures Last(ws').needed[(1, 5)] >= 2 && Last(ws').decided == Last(ws).decided
  {
    var s0 := Camp(KIDS, 4, FOUR);
    var w1 := StartsSplit(ws, s0, 1, 5);
    var ws1 := ws + [w1];
    assert Last(ws1) == w1;
    var s1 := s0.(sn := s0.sn[1 := WAITING]);
    var w2 := Repeats(ws1, s1, 1, 5);
    var ws2 := ws1 + [w2];
    assert Last(ws2) == w2;
    var w3 := Offered(ws2, s1, 2, 1, 5);
    var ws3 := ws2 + [w3];
    assert Last(ws3) == w3;
    var s2 := s1.(sn := s1.sn[2 := OFFERING]);
    var s3 := Turn(s2, SN(2), false, SN(2), [Out(SN(1), NewStrNode(5))]);
    Says(s2, SN(2), Out(SN(1), NewStrNode(5)));
    ws', s := TakesFirst(ws3, s3);
  }

  lemma TakesFirst(ws: seq<World>, s: Scene) returns (ws': seq<World>, s': Scene)
    requires Run(ws) && Shows(Last(ws), s) && Only(s, SN(2), SN(1), [NewStrNode(5)])
    requires s.sn == map[1 := WAITING, 2 := OFFERING] && s.rn == FOUR
    requires Last(ws).needed[(1, 5)] >= 1
    ensures Run(ws') && Shows(Last(ws'), s') && Silent(s') && s'.sn == map[1 := HALF, 2 := OFFERING] && s'.rn == FOUR
    ensures Last(ws').needed[(1, 5)] >= 2 && Last(ws').decided == Last(ws).decided
  {
    assert s.Net(SN(2), SN(1)) == [NewStrNode(5)];
    var c := SomeChoice(WAITING);
    var w := Takes(ws, s, 1, SN(2), c);
    ws' := ws + [w];
    assert Last(ws') == w;
    assert Handle(1, 2, WAITING, SN(2), NewStrNode(5), c) == Reply(HALF, []);
    var s1 := s.(sn := s.sn[1 := HALF]);
    SameOnly(s, s1, SN(2), SN(1), [NewStrNode(5)]);
    Hears(s1, SN(1), SN(2), NewStrNode(5));
    s' := Turn(s1, SN(1), true, SN(2), []);
  }

  const TWO: Choice := Choice([0, 1], false)

  function Request(q: Proc): Msg {
    if q == SN(2) then InitStrNode(5, NOBODY, [1, 3], 1)
    else if q == SN(3) then InitStrNode(5, 2, [4, 3], 0)
    else NewFather(5, 3)
  }

  const MEMBERS: seq<Proc> := [SN(2), RN(4), RN(3), SN(3)]

  const CUT: seq<Zone> :=
    [Zone(4, NOBODY, true), Zone(3, NOBODY, true), Zone(2, NOBODY, false), Zone(1, NOBODY, false)]

  const SPLIT: Node := HALF.(phase := Splitting, zones := CUT, noAck := MEMBERS)

  /** Requests are under way to `ps` and acknowledgements from `qs`. */
  ghost predicate Pending(s: Scene, ps: set<Proc>, qs: set<Proc>) {
    forall p, q ::
      s.Net(p, q) == if p == SN(1) && q in ps then [Request(q)] else if q == SN(1) && p in qs then [Ack(5)] else []
  }

  lemma SplitsIn()
    ensures OnNewStrNode(1, HALF, SN(3), 5, TWO)
            == Reply(SPLIT, ASKS)
  {
    var r := Split(1, HALF, 3, [0, 1]);
    assert Movers(HALF, [0, 1]) == [RN(4), RN(3)] && Links(HALF, [0, 1]) == [4, 3];
    assert Detach(HALF.zones, [0, 1]) == CUT;
    assert ToAll([RN(4), RN(3)], NewFather(5, 3)) == [Out(RN(4), NewFather(5, 3)), Out(RN(3), NewFather(5, 3))];
    assert r.n.noAck == MEMBERS;
    assert r.outs == ASKS;
  }

  lemma SplitSends(q: Proc)
    ensures For(ASKS, q) == if q in {SN(2), RN(4), RN(3), SN(3)} then [Request(q)] else []
  {
    var o4 := [Out(SN(3), Request(SN(3)))];
    var o3 := [Out(RN(3), Request(RN(3)))] + o4;
    var o2 := [Out(RN(4), Request(RN(4)))] + o3;
    var o1 := [Out(SN(2), Request(SN(2)))] + o2;
    assert o1 == ASKS;
    assert o4[1..] == [] && o3[1..] == o4 && o2[1..] == o3 && o1[1..] == o2;
    assert For(o4, q) == if q == SN(3) then [Request(q)] else [];
    assert For(o3, q) == if q == RN(3) then [Request(q)] + For(o4, q) else For(o4, q);
    assert For(o2, q) == if q == RN(4) then [Request(q)] + For(o3, q) else For(o3, q);
    assert For(o1, q) == if q == SN(2) then [Request(q)] + For(o2, q) else For(o2, q);
  }

  /** Peer 3 offers itself and becomes the brother. */
  lemma FindsBrother(ws: seq<World>, s: Scene) returns (ws': seq<World>, s': Scene)
    requires Run(ws) && Shows(Last(ws), s) && Silent(s) && s.sn == map[1 := HALF, 2 := OFFERING] && s.rn == FOUR
    requires Last(ws).needed[(1, 5)] >= 2
    ensures Run(ws') && Shows(Last(ws'), s') && Pending(s', {SN(2), RN(4), RN(3), SN(3)}, {})
    ensures s'.sn == map[1 := SPLIT, 2 := OFFERING, 3 := OFFERING] && s'.rn == FOUR
    ensures Last(ws').needed[(1, 5)] >= 1 && Last(ws').decided == Last(ws).decided
  {
    var w1 := Offered(ws, s, 3, 1, 5);
    var ws1 := ws + [w1];
    assert Last(ws1) == w1;
    var s1 := s.(sn := s.sn[3 := OFFERING]);
    SameSilent(s, s1);
    Says(s1, SN(3), Out(SN(1), NewStrNode(5)));
    var s2 := Turn(s1, SN(3), false, SN(3), [Out(SN(1), NewStrNode(5))]);
    ws', s' := TakesSecond(ws1, s2);
  }

  const ASKS: seq<Out> := [Out(SN(2), Request(SN(2))), Out(RN(4), Request(RN(4))), Out(RN(3), Request(RN(3))),
    Out(SN(3), Request(SN(3)))]

  lemma TakesSecond(ws: seq<World>, s: Scene) returns (ws': seq<World>, s': Scene)
    requires Run(ws) && Shows(Last(ws), s) && Only(s, SN(3), SN(1), [NewStrNode(5)])
    requires s.sn == map[1 := HALF, 2 := OFFERING, 3 := OFFERING] && s.rn == FOUR && Last(ws).needed[(1, 5)] >= 1
    ensures Run(ws') && Shows(Last(ws'), s') && Pending(s', {SN(2), RN(4), RN(3), SN(3)}, {})
    ensures s'.sn == map[1 := SPLIT, 2 := OFFERING, 3 := OFFERING] && s'.rn == FOUR
    ensures Last(ws').needed[(1, 5)] >= 1 && Last(ws').decided == Last(ws).decided
  {
    assert s.Net(SN(3), SN(1)) == [NewStrNode(5)];
    TwoIsValid();
    SplitsIn();
    s' := SplitsTo(s, SPLIT);
    ws' := TakesOn(ws, s, HALF, SPLIT, ASKS);
    SplitPending(s, s.(sn := s.sn[1 := SPLIT]));
    SplitMap(s);
  }

  lemma SplitMap(s: Scene)
    requires s.sn == map[1 := HALF, 2 := OFFERING, 3 := OFFERING]
    ensures s.sn[1 := SPLIT] == map[1 := SPLIT, 2 := OFFERING, 3 := OFFERING]
  {
  }

  lemma TwoIsValid()
    ensures ValidChoice(HALF, TWO) && Driving(HALF) && Driving(SPLIT) && SPLIT.tx == HALF.tx
  {
  }

  function SplitsTo(s: Scene, n': Node): (s': Scene)
    requires s.Net(SN(3), SN(1)) != []
    ensures s'.sn == s.sn[1 := n'] && s'.rn == s.rn
  {
    Turn(s.(sn := s.sn[1 := n']), SN(1), true, SN(3), ASKS)
  }

  lemma TakesOn(ws: seq<World>, s: Scene, n: Node, n': Node, outs: seq<Out>) returns (ws': seq<World>)
    requires Run(ws) && Shows(Last(ws), s) && Only(s, SN(3), SN(1), [NewStrNode(5)]) && s.Sn(1) == n && outs == ASKS
    requires ValidChoice(n, TWO) && OnNewStrNode(1, n, SN(3), 5, TWO) == Reply(n', outs) && Driving(n) && Driving(n')
    requires n'.tx == n.tx
    requires s.Net(SN(3), SN(1)) != []
    ensures Run(ws') && Shows(Last(ws'), SplitsTo(s, n'))
    ensures Last(ws).needed <= Last(ws').needed && Last(ws').decided == Last(ws).decided
  {
    assert s.Net(SN(3), SN(1)) == [NewStrNode(5)];
    var w := TakesAs(ws, s, 1, SN(3), NewStrNode(5), TWO, n', outs);
    ws' := ws + [w];
    assert Last(ws') == w;
  }

  lemma SplitPending(s: Scene, s1: Scene)
    requires Only(s, SN(3), SN(1), [NewStrNode(5)]) && s1.net == s.net
    ensures s1.Net(SN(3), SN(1)) != [] && Pending(Turn(s1, SN(1), true, SN(3), ASKS), {SN(2), RN(4), RN(3), SN(3)}, {})
  {
    var outs := ASKS;
    SameOnly(s, s1, SN(3), SN(1), [NewStrNode(5)]);
    assert s1.Net(SN(3), SN(1)) == [NewStrNode(5)];
    var t := s1.(net := s1.net[(SN(3), SN(1)) := s1.Net(SN(3), SN(1))[1..]]);
    forall p, q ensures Turn(s1, SN(1), true, SN(3), outs).Net(p, q) ==
      if p == SN(1) && q in {SN(2), RN(4), RN(3), SN(3)} then [Request(q)] else [] {
      PostedFor(t, SN(1), outs, p, q);
      SplitSends(q);
      assert s1.Net(p, q) == if p == SN(3) && q == SN(1) then [NewStrNode(5)] else [];
    }
  }

  // ---------------------------------------------------------------------------------------------
  // The members acknowledge
  // ---------------------------------------------------------------------------------------------

  lemma Answered(s: Scene, s1: Scene, ps: set<Proc>, qs: set<Proc>, x: Proc)
    requires Pending(s, ps, qs) && s1.net == s.net && x in ps && x != SN(1) && x !in qs && SN(1) !in ps && SN(1) !in qs
    ensures s1.Net(SN(1), x) == [Request(x)]
    ensures Pending(Turn(s1, x, true, SN(1), [Out(SN(1), Ack(5))]), ps - {x}, qs + {x})
  {
    assert s.Net(SN(1), x) == [Request(x)];
    var t := s1.(net := s1.net[(SN(1), x) := s1.Net(SN(1), x)[1..]]);
    forall p, q
      ensures Turn(s1, x, true, SN(1), [Out(SN(1), Ack(5))]).Net(p, q)
              == if p == SN(1) && q in ps - {x} then [Request(q)] else if q == SN(1) && p in qs + {x}
                then [Ack(5)] else []
    {
      PostedFor(t, x, [Out(SN(1), Ack(5))], p, q);
      assert s.Net(p, q) == if p == SN(1) && q in ps then [Request(q)] else if q == SN(1) && p in qs
        then [Ack(5)] else [];
    }
  }

  lemma Heard1(s: Scene, s1: Scene, qs: set<Proc>, x: Proc)
    requires Pending(s, {}, qs) && s1.net == s.net && x in qs && SN(1) !in qs
    ensures s1.Net(x, SN(1)) == [Ack(5)] && Pending(Turn(s1, SN(1), true, x, []), {}, qs - {x})
  {
    assert s.Net(x, SN(1)) == [Ack(5)];
    var t := s1.(net := s1.net[(x, SN(1)) := s1.Net(x, SN(1))[1..]]);
    forall p, q ensures Turn(s1, SN(1), true, x, []).Net(p, q) == if q == SN(1) && p in qs - {x} then [Ack(5)] else [] {
      PostedFor(t, SN(1), [], p, q);
      assert s.Net(p, q) == if q == SN(1) && p in qs then [Ack(5)] else [];
    }
  }

  function Ready(zs: seq<Zone>, newFather: Addr, level: nat): Node {
    OFFERING.(phase := Init, newFather := newFather, level := level, zones := zs)
  }

  const BOUND: Res := JOINED.(newFather := 3, tx := 5)

  /** What is still to be had of a world: a search, and no decision. */
  ghost predicate Left(w: World) {
    w.needed[(1, 5)] >= 1 && 5 !in w.decided
  }

  lemma NodeAnswers(ws: seq<World>, s: Scene, ps: set<Proc>, qs: set<Proc>, x: Addr, n': Node)
    returns (ws': seq<World>, s': Scene)
    requires Run(ws) && Shows(Last(ws), s) && Left(Last(ws)) && Pending(s, ps, qs) && SN(x) in ps && SN(x) !in qs
    requires SN(1) !in ps && SN(1) !in qs
    requires x != NOBODY && x != 1 && s.Sn(x) == OFFERING && OnInit(Request(SN(x)), n')
    ensures Run(ws') && Shows(Last(ws'), s') && Left(Last(ws')) && Pending(s', ps - {SN(x)}, qs + {SN(x)})
    ensures s'.sn == s.sn[x := n'] && s'.rn == s.rn
  {
    var s1 := s.(sn := s.sn[x := n']);
    Answered(s, s1, ps, qs, SN(x));
    assert s.Net(SN(1), SN(x)) == [Request(SN(x))];
    var c := SomeChoice(OFFERING);
    assert Handle(x, 2, OFFERING, SN(1), Request(SN(x)), c) == Reply(n', [Out(SN(1), Ack(5))]);
    var w := TakesAs(ws, s, x, SN(1), Request(SN(x)), c, n', [Out(SN(1), Ack(5))]);
    ws' := ws + [w];
    assert Last(ws') == w;
    s' := Turn(s1, SN(x), true, SN(1), [Out(SN(1), Ack(5))]);
  }

  ghost predicate OnInit(msg: Msg, n': Node) {
    msg.InitStrNode? && OnInitStrNode(OFFERING, SN(1), msg) == Reply(n', [Out(SN(1), Ack(5))])
  }

  lemma ResourceAnswers(ws: seq<World>, s: Scene, ps: set<Proc>, qs: set<Proc>, a: Addr)
    returns (ws': seq<World>, s': Scene)
    requires Run(ws) && Shows(Last(ws), s) && Left(Last(ws)) && Pending(s, ps, qs) && RN(a) in ps && RN(a) !in qs
    requires SN(1) !in ps && SN(1) !in qs
    requires a != NOBODY && s.Rn(a) == JOINED
    ensures Run(ws') && Shows(Last(ws'), s') && Left(Last(ws')) && Pending(s', ps - {RN(a)}, qs + {RN(a)})
    ensures s'.sn == s.sn && s'.rn == s.rn[a := BOUND]
  {
    var s1 := s.(rn := s.rn[a := BOUND]);
    Answered(s, s1, ps, qs, RN(a));
    assert s.Net(SN(1), RN(a)) == [NewFather(5, 3)];
    assert HandleRes(JOINED, SN(1), NewFather(5, 3)) == ResReply(BOUND, [Out(SN(1), Ack(5))]);
    var w := ResTakes(ws, s, a, SN(1));
    ws' := ws + [w];
    assert Last(ws') == w;
    s' := Turn(s1, RN(a), true, SN(1), [Out(SN(1), Ack(5))]);
  }

  /** The driver when it has heard of the first `k` members. */
  function Counted(k: nat): Node
    requires k <= 4
  {
    SPLIT.(noAck := MEMBERS[k..], acked := MEMBERS[..k])
  }

  lemma CountsNext(k: nat, c: Choice)
    requires k < 3 && ValidChoice(Counted(k), c)
    ensures Handle(1, 2, Counted(k), MEMBERS[k], Ack(5), c) == Reply(Counted(k + 1), [])
  {
    assert MEMBERS[k..][0] == MEMBERS[k] && MEMBERS[k..][1..] == MEMBERS[k + 1..];
    assert MEMBERS[..k] + [MEMBERS[k]] == MEMBERS[..k + 1] && MEMBERS[k] !in MEMBERS[..k];
  }

  lemma CountsLast(c: Choice)
    requires ValidChoice(Counted(3), c)
    ensures Handle(1, 2, Counted(3), SN(3), Ack(5), c) == Committed(1, SPLIT.(noAck := [], acked := MEMBERS))
  {
    assert MEMBERS[3..] == [SN(3)] && MEMBERS[..3] + [SN(3)] == MEMBERS && SN(3) !in MEMBERS[..3];
  }

  lemma DriverHears(ws: seq<World>, s: Scene, qs: set<Proc>, k: nat) returns (ws': seq<World>, s': Scene)
    requires Run(ws) && Shows(Last(ws), s) && Left(Last(ws)) && k < 3 && Pending(s, {}, qs) && MEMBERS[k] in qs
    requires SN(1) !in qs && s.Sn(1) == Counted(k)
    ensures Run(ws') && Shows(Last(ws'), s') && Left(Last(ws')) && Pending(s', {}, qs - {MEMBERS[k]})
    ensures s'.Sn(1) == Counted(k + 1)
    ensures s'.sn == s.sn[1 := Counted(k + 1)] && s'.rn == s.rn
  {
    var n' := Counted(k + 1);
    var s1 := s.(sn := s.sn[1 := n']);
    Heard1(s, s1, qs, MEMBERS[k]);
    assert s.Net(MEMBERS[k], SN(1)) == [Ack(5)];
    var c := SomeChoice(Counted(k));
    CountsNext(k, c);
    var w := TakesAs(ws, s, 1, MEMBERS[k], Ack(5), c, n', []);
    ws' := ws + [w];
    assert Last(ws') == w;
    s' := Turn(s1, SN(1), true, MEMBERS[k], []);
  }

  // ---------------------------------------------------------------------------------------------
  // The whole run
  // ---------------------------------------------------------------------------------------------

  const FATHER: Node := Ready([Zone(NOBODY, 1, true), Zone(NOBODY, 3, true)], NOBODY, 1)
  const BROTHER: Node := Ready([Zone(NOBODY, 4, true), Zone(NOBODY, 3, true)], 2, 0)

  lemma NewNodesAnswer()
    ensures OnInit(Request(SN(2)), FATHER) && OnInit(Request(SN(3)), BROTHER)
  {
    assert [] + Additions([1, 3]) == FATHER.zones && [] + Additions([4, 3]) == BROTHER.zones;
  }

  /** The members acknowledge: the future father and a child, then the other child and the brother. */
  lemma TwoAnswer(ws: seq<World>, s: Scene) returns (ws': seq<World>, s': Scene)
    requires Run(ws) && Shows(Last(ws), s) && Left(Last(ws)) && Pending(s, {SN(2), RN(4), RN(3), SN(3)}, {})
    requires s.Sn(2) == OFFERING && s.rn == FOUR
    ensures Run(ws') && Shows(Last(ws'), s') && Left(Last(ws')) && Pending(s', {RN(3), SN(3)}, {SN(2), RN(4)})
    ensures s'.sn == s.sn[2 := FATHER] && s'.rn == FOUR[4 := BOUND]
  {
    NewNodesAnswer();
    var ws1, s1 := NodeAnswers(ws, s, {SN(2), RN(4), RN(3), SN(3)}, {}, 2, FATHER);
    SamePending(s1, {SN(2), RN(4), RN(3), SN(3)} - {SN(2)}, {} + {SN(2)}, {RN(4), RN(3), SN(3)}, {SN(2)});
    ws', s' := ResourceAnswers(ws1, s1, {RN(4), RN(3), SN(3)}, {SN(2)}, 4);
    SamePending(s', {RN(4), RN(3), SN(3)} - {RN(4)}, {SN(2)} + {RN(4)}, {RN(3), SN(3)}, {SN(2), RN(4)});
  }

  lemma OthersAnswer(ws: seq<World>, s: Scene) returns (ws': seq<World>, s': Scene)
    requires Run(ws) && Shows(Last(ws), s) && Left(Last(ws)) && Pending(s, {RN(3), SN(3)}, {SN(2), RN(4)})
    requires s.Sn(3) == OFFERING && s.Rn(3) == JOINED
    ensures Run(ws') && Shows(Last(ws'), s') && Left(Last(ws')) && Pending(s', {}, {SN(2), RN(4), RN(3), SN(3)})
    ensures s'.sn == s.sn[3 := BROTHER] && s'.rn == s.rn[3 := BOUND]
  {
    NewNodesAnswer();
    var ws1, s1 := ResourceAnswers(ws, s, {RN(3), SN(3)}, {SN(2), RN(4)}, 3);
    SamePending(s1, {RN(3), SN(3)} - {RN(3)}, {SN(2), RN(4)} + {RN(3)}, {SN(3)}, {SN(2), RN(4), RN(3)});
    ws', s' := NodeAnswers(ws1, s1, {SN(3)}, {SN(2), RN(4), RN(3)}, 3, BROTHER);
    SamePending(s', {SN(3)} - {SN(3)}, {SN(2), RN(4), RN(3)} + {SN(3)}, {}, {SN(2), RN(4), RN(3), SN(3)});
  }

  lemma AllAnswer(ws: seq<World>, s: Scene) returns (ws': seq<World>, s': Scene)
    requires Run(ws) && Shows(Last(ws), s) && Left(Last(ws)) && Pending(s, {SN(2), RN(4), RN(3), SN(3)}, {})
    requires s.Sn(1) == SPLIT && s.Sn(2) == OFFERING && s.Sn(3) == OFFERING && s.Sn(4) == UNUSED && s.rn == FOUR
    ensures Run(ws') && Shows(Last(ws'), s') && Left(Last(ws')) && Pending(s', {}, {SN(2), RN(4), RN(3), SN(3)})
    ensures s'.Sn(1) == SPLIT && s'.Sn(4) == UNUSED && s'.Rn(4) == BOUND
  {
    var ws1, s1 := TwoAnswer(ws, s);
    ws', s' := OthersAnswer(ws1, s1);
  }

  lemma SamePending(s: Scene, ps: set<Proc>, qs: set<Proc>, ps': set<Proc>, qs': set<Proc>)
    requires Pending(s, ps, qs) && ps' == ps && qs' == qs
    ensures Pending(s, ps', qs')
  {
  }

  /** The driver hears of three of them. */
  lemma ThreeCounted(ws: seq<World>, s: Scene) returns (ws': seq<World>, s': Scene)
    requires Run(ws) && Shows(Last(ws), s) && Left(Last(ws)) && Pending(s, {}, {SN(2), RN(4), RN(3), SN(3)})
    requires s.Sn(1) == SPLIT && s.Sn(4) == UNUSED && s.Rn(4) == BOUND
    ensures Run(ws') && Shows(Last(ws'), s') && Left(Last(ws')) && Pending(s', {}, {SN(3)})
    ensures s'.Sn(1) == Counted(3) && s'.Sn(4) == UNUSED && s'.Rn(4) == BOUND
  {
    assert Counted(0) == SPLIT && MEMBERS[0] == SN(2) && MEMBERS[1] == RN(4) && MEMBERS[2] == RN(3);
    var ws1, s1 := DriverHears(ws, s, {SN(2), RN(4), RN(3), SN(3)}, 0);
    SamePending(s1, {}, {SN(2), RN(4), RN(3), SN(3)} - {SN(2)}, {}, {RN(4), RN(3), SN(3)});
    var ws2, s2 := DriverHears(ws1, s1, {RN(4), RN(3), SN(3)}, 1);
    SamePending(s2, {}, {RN(4), RN(3), SN(3)} - {RN(4)}, {}, {RN(3), SN(3)});
    ws', s' := DriverHears(ws2, s2, {RN(3), SN(3)}, 2);
    SamePending(s', {}, {RN(3), SN(3)} - {RN(3)}, {}, {SN(3)});
  }

  /** And of the last one, and commits. */
  lemma LastCounted(ws: seq<World>, s: Scene) returns (ws': seq<World>)
    requires Run(ws) && Shows(Last(ws), s) && Left(Last(ws)) && Pending(s, {}, {SN(3)})
    requires s.Sn(1) == Counted(3) && s.Sn(4) == UNUSED && s.Rn(4) == BOUND
    ensures Run(ws') && Won(Last(ws'), 5) && (1, 5) in Last(ws').needed && (5, SN(2), true) in Last(ws').told
    ensures Last(ws').sn(4) == UNUSED && Last(ws').rn(4) == BOUND && Last(ws').net(SN(4), SN(1)) == []
  {
    assert s.Net(SN(3), SN(1)) == [Ack(5)] && s.Net(SN(4), SN(1)) == [];
    var c := SomeChoice(Counted(3));
    CountsLast(c);
    var w := Takes(ws, s, 1, SN(3), c);
    ws' := ws + [w];
    assert Last(ws') == w;
    var r := Committed(1, SPLIT.(noAck := [], acked := MEMBERS));
    LastTells();
    var s1 := s.(sn := s.sn[1 := r.n]);
    var t := s1.(net := s1.net[(SN(3), SN(1)) := s1.Net(SN(3), SN(1))[1..]]);
    PostedFor(t, SN(1), r.outs, SN(4), SN(1));
    assert t.Net(SN(4), SN(1)) == s.Net(SN(4), SN(1));
    assert Turn(s1, SN(1), true, SN(3), r.outs).Sn(4) == UNUSED;
  }

  lemma LastTells()
    ensures (5, SN(2), true) in ToldIn(Committed(1, SPLIT.(noAck := [], acked := MEMBERS)).outs)
  {
    var outs := Committed(1, SPLIT.(noAck := [], acked := MEMBERS)).outs;
    assert outs == ToAll(MEMBERS, Commit(5)) && outs[0] == Out(SN(2), Commit(5));
    assert outs[0] in outs && outs[0].msg.Commit?;
    assert (outs[0].msg.t, outs[0].to, true) in ToldIn(outs);
  }

  /** A split can win, and a search of it can be left over. */
  lemma SplitCanWin() returns (ws: seq<World>)
    ensures Run(ws) && Won(Last(ws), 5) && (1, 5) in Last(ws).needed && (5, SN(2), true) in Last(ws).told
    ensures Last(ws).sn(4) == UNUSED && Last(ws).rn(4) == BOUND && Last(ws).net(SN(4), SN(1)) == []
  {
    var ws0 := FourJoin();
    var ws1, s1 := FindsFather(ws0);
    var ws2, s2 := FindsBrother(ws1, s1);
    var ws3, s3 := AllAnswer(ws2, s2);
    var ws4, s4 := ThreeCounted(ws3, s3);
    ws := LastCounted(ws4, s4);
  }

  /** One id can see both outcomes: in this run its members are told to commit and a peer is told to roll back. */
  lemma BothOutcomes() returns (ws: seq<World>, t: TxId, p: Proc, q: Proc)
    ensures Run(ws) && (t, p, true) in Last(ws).told && (t, q, false) in Last(ws).told
  {
    var ws0 := SplitCanWin();
    t, p, q := 5, SN(2), SN(4);
    RunKeeps(ws0, |ws0| - 1);
    assert 5 in Last(ws0).split;
    DriverIsNot(ws0);
    WhoIsTold(ws0, |ws0| - 1, 5, SN(2));
    ws := LateOfferIsRolledBack(ws0, 1, 4, 5);
  }

  lemma DriverIsNot(ws: seq<World>)
    requires Run(ws) && Inv(Last(ws)) && (5, SN(2), true) in Last(ws).told && (1, 5) in Last(ws).needed
    ensures 5 in Last(ws).owner && Last(ws).owner[5] == SN(1)
  {
  }
}
