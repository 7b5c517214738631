/**
 The tree that the overlay nodes form. Father and child links agree in every reachable world, when a node
 that waits for a decided transaction is counted as having done it already; the levels of father and child
 differ by one, so there are no cycles.
 */
module OverlayTree {
  import opened Overlay
  import opened OverlayProtocol
  import opened OverlayPairs
  import opened OverlayInvariant
  import opened OverlaySafety
  import opened OverlayRoles
  import opened OverlaySteps
  import opened OverlayHandlers
  import opened OverlayResources
  import opened OverlayRuns
  import opened OverlayTheorems
  import opened OverlayLinks
  import opened OverlayPlans

  // ---------------------------------------------------------------------------------------------
  // Trees
  // ---------------------------------------------------------------------------------------------

  /** Fathers, children and levels; the children of a structure node at level 0 are resource nodes. */
  datatype Shape = Shape(fa: Proc -> Addr, ch: Addr -> seq<Addr>, lev: Addr -> nat) {
    function Kid(x: Addr, c: Addr): Proc {
      if lev(x) == 0 then RN(c) else SN(c)
    }

    ghost predicate ChildOk(x: Addr, c: Addr) {
      c in ch(x) ==> x != NOBODY && fa(Kid(x, c)) == x && (lev(x) > 0 ==> lev(x) == lev(c) + 1)
    }

    ghost predicate FatherOk(p: Proc) {
      fa(p) != NOBODY ==> p.a in ch(fa(p)) && p == Kid(fa(p), p.a)
    }

    /** Father and child links agree, levels differ by one, and nobody is linked twice. */
    ghost predicate IsTree() {
      && (forall x, c :: ChildOk(x, c))
      && (forall p :: FatherOk(p))
      && (forall x :: Distinct(ch(x)))
    }

    /** Whoever has a father has at least `m` children. */
    ghost predicate Full(m: nat) {
      forall x :: EnoughAt(x, m)
    }

    ghost predicate EnoughAt(x: Addr, m: nat) {
      fa(SN(x)) != NOBODY ==> |ch(x)| >= m
    }
  }

  ghost predicate StaysFull(s: Shape, s': Shape, m: nat) {
    s.Full(m) ==> s'.Full(m)
  }

  ghost predicate Distinct(s: seq<Addr>) {
    forall i, j | 0 <= i < j < |s| :: s[i] != s[j]
  }

  /** A node without father and children, and so without a place, may change its level. */
  ghost predicate SameShape(s: Shape, s': Shape) {
    && (forall p :: s'.fa(p) == s.fa(p))
    && (forall x :: s'.ch(x) == s.ch(x))
    && (forall x :: s'.lev(x) == s.lev(x) || (s.ch(x) == [] && s.fa(SN(x)) == NOBODY))
  }

  lemma SameTree(s: Shape, s': Shape)
    requires s.IsTree() && SameShape(s, s')
    ensures s'.IsTree()
  {
    forall x, c ensures s'.ChildOk(x, c) {
      assert s.ChildOk(x, c);
      assert s.lev(x) > 0 ==> s.ChildOk(x, c) && (c in s.ch(x) ==> s.fa(SN(c)) == x);
    }
    forall p ensures s'.FatherOk(p) { assert s.FatherOk(p); }
    forall x ensures Distinct(s'.ch(x)) { assert Distinct(s.ch(x)); }
  }

  lemma SameFull(s: Shape, s': Shape, m: nat)
    requires SameShape(s, s')
    ensures StaysFull(s, s', m)
  {
    if s.Full(m) {
      forall x ensures s'.EnoughAt(x, m) { assert s.EnoughAt(x, m); }
    }
  }

  /** A resource node without a father becomes the first child of a node at level 0. */
  ghost predicate Inserted(s: Shape, s': Shape, y: Addr, a: Addr) {
    && y != NOBODY && s.lev(y) == 0 && s.fa(RN(a)) == NOBODY
    && (forall p :: s'.fa(p) == if p == RN(a) then y else s.fa(p))
    && (forall x :: s'.ch(x) == if x == y then [a] + s.ch(y) else s.ch(x))
    && (forall x :: s'.lev(x) == s.lev(x))
  }

  lemma InsertedTree(s: Shape, s': Shape, y: Addr, a: Addr)
    requires s.IsTree() && Inserted(s, s', y, a)
    ensures s'.IsTree()
  {
    forall x, c ensures s'.ChildOk(x, c) { assert s.ChildOk(x, c); }
    forall p ensures s'.FatherOk(p) { assert s.FatherOk(p); }
    forall x ensures Distinct(s'.ch(x)) {
      assert Distinct(s.ch(x)) && s.ChildOk(y, a);
      if x == y {
        forall i, j | 0 <= i < j < |s'.ch(y)| ensures s'.ch(y)[i] != s'.ch(y)[j] {
          assert s'.ch(y)[j] == s.ch(y)[j - 1] && (i > 0 ==> s'.ch(y)[i] == s.ch(y)[i - 1]);
        }
      }
    }
  }

  lemma InsertedFull(s: Shape, s': Shape, y: Addr, a: Addr, m: nat)
    requires Inserted(s, s', y, a)
    ensures StaysFull(s, s', m)
  {
    if s.Full(m) {
      forall x ensures s'.EnoughAt(x, m) { assert s.EnoughAt(x, m); }
    }
  }

  // ---------------------------------------------------------------------------------------------
  // A split
  // ---------------------------------------------------------------------------------------------

  /**
   `x` keeps the children `stay` and gives `go` to `brother`, which had no place; both are children of `top`, which is
   the father of `x` or, if it had none, a node without a place, too.
   */
  datatype Cut = Cut(x: Addr, brother: Addr, top: Addr, root: bool, stay: seq<Addr>, go: seq<Addr>)

  ghost predicate CutOk(s: Shape, c: Cut) {
    && c.x != NOBODY && c.brother != NOBODY && c.top != NOBODY && c.x != c.brother && c.x != c.top && c.brother != c.top
    && s.fa(SN(c.brother)) == NOBODY && s.ch(c.brother) == [] && s.lev(c.brother) == s.lev(c.x)
    && s.fa(SN(c.x)) == (if c.root then NOBODY else c.top)
    && (c.root ==> s.fa(SN(c.top)) == NOBODY && s.ch(c.top) == [] && s.lev(c.top) == s.lev(c.x) + 1)
    && Distinct(c.stay) && Distinct(c.go)
    && (forall a :: a in c.stay || a in c.go <==> a in s.ch(c.x)) && (forall a :: !(a in c.stay && a in c.go))
  }

  ghost predicate Moves(s: Shape, s': Shape, c: Cut) {
    && (forall p :: s'.fa(p) == if p == SN(c.x) || p == SN(c.brother) then c.top
                                else if p.a in c.go && p == s.Kid(c.x, p.a) then c.brother else s.fa(p))
    && (forall y :: s'.ch(y) == if y == c.x then c.stay else if y == c.brother then c.go
                                else if y != c.top then s.ch(y)
                                else if c.root then [c.x, c.brother] else [c.brother] + s.ch(y))
    && (forall y :: s'.lev(y) == s.lev(y))
  }

  lemma MovesChild(s: Shape, s': Shape, c: Cut, y: Addr, a: Addr)
    requires s.IsTree() && CutOk(s, c) && Moves(s, s', c)
    ensures s'.ChildOk(y, a)
  {
    assert s.ChildOk(y, a) && s.ChildOk(c.x, a);
    assert s.FatherOk(SN(c.x));
    assert s.ChildOk(c.top, c.x);
  }

  lemma MovesFather(s: Shape, s': Shape, c: Cut, p: Proc)
    requires s.IsTree() && CutOk(s, c) && Moves(s, s', c)
    ensures s'.FatherOk(p)
  {
    assert s.FatherOk(p) && s.FatherOk(SN(c.x));
    assert s.ChildOk(c.top, c.x);
  }

  lemma MovesDistinct(s: Shape, s': Shape, c: Cut, y: Addr)
    requires s.IsTree() && CutOk(s, c) && Moves(s, s', c)
    ensures Distinct(s'.ch(y))
  {
    assert Distinct(s.ch(y)) && s.ChildOk(c.top, c.brother) && s.FatherOk(SN(c.x));
    assert s.ChildOk(c.top, c.x);
    if y == c.top && !c.root {
      forall i, j | 0 <= i < j < |s'.ch(y)| ensures s'.ch(y)[i] != s'.ch(y)[j] {
        assert s'.ch(y)[j] == s.ch(y)[j - 1] && (i > 0 ==> s'.ch(y)[i] == s.ch(y)[i - 1]);
      }
    }
  }

  /** A split leaves a tree. */
  lemma MovedTree(s: Shape, s': Shape, c: Cut)
    requires s.IsTree() && CutOk(s, c) && Moves(s, s', c)
    ensures s'.IsTree()
  {
    forall y, a ensures s'.ChildOk(y, a) { MovesChild(s, s', c, y, a); }
    forall p ensures s'.FatherOk(p) { MovesFather(s, s', c, p); }
    forall y ensures Distinct(s'.ch(y)) { MovesDistinct(s, s', c, y); }
  }

  /** A split that leaves enough on both sides leaves enough everywhere. */
  lemma MovedFull(s: Shape, s': Shape, c: Cut, m: nat)
    requires s.IsTree() && CutOk(s, c) && Moves(s, s', c) && |c.stay| >= m && |c.go| >= m
    ensures StaysFull(s, s', m)
  {
    if s.Full(m) {
      forall y ensures s'.EnoughAt(y, m) {
        assert s.EnoughAt(y, m) && s.ChildOk(c.x, y);
      }
    }
  }

  // ---------------------------------------------------------------------------------------------
  // The tree of a world
  // ---------------------------------------------------------------------------------------------

  /**
   What the node waits for is decided: its split has won, or the resource node it inserts has taken it as its father.
   */
  ghost predicate Bound(w: World, n: Node) {
    && n.tx != NO_TX && !Driving(n)
    && if n.tx in w.split then Won(w, n.tx) else w.rn(n.driver).father != NOBODY
  }

  ghost predicate ResBound(w: World, r: Res) {
    r.tx != NO_TX && r.tx in w.split && Won(w, r.tx)
  }

  /** A node's links, after the commit if it is bound to come. */
  function NodeFa(n: Node, bound: bool): Addr {
    if bound && n.newFather != NOBODY then n.newFather else n.father
  }

  function NodeCh(n: Node, bound: bool): seq<Addr> {
    if bound then Actuals(CommitZones(n.zones)) else Reals(n.zones)
  }

  function ResFa(r: Res, bound: bool): Addr {
    if bound then r.newFather else r.father
  }

  ghost function Fa(w: World, p: Proc): Addr {
    if p.SN? then NodeFa(w.sn(p.a), Bound(w, w.sn(p.a)))
    else ResFa(w.rn(p.a), ResBound(w, w.rn(p.a)))
  }

  ghost function Ch(w: World, x: Addr): seq<Addr> {
    NodeCh(w.sn(x), Bound(w, w.sn(x)))
  }

  ghost function ShapeOf(w: World): Shape {
    Shape((p: Proc) => Fa(w, p), (x: Addr) => Ch(w, x), (x: Addr) => w.sn(x).level)
  }

  // ---------------------------------------------------------------------------------------------
  // A node handles a message
  // ---------------------------------------------------------------------------------------------

  lemma {:induction false} AllReal(zs: seq<Zone>)
    requires forall z | z in zs :: z.actual != NOBODY
    ensures Reals(zs) == Actuals(zs)
  {
    if zs != [] {
      assert zs[0] in zs && forall z | z in zs[1..] :: z in zs;
      AllReal(zs[1..]);
      assert Actuals(zs) == [zs[0].actual] + Actuals(zs[1..]);
    }
  }

  lemma {:induction false} NoneReal(zs: seq<Zone>)
    requires forall z | z in zs :: z.actual == NOBODY
    ensures Reals(zs) == []
  {
    if zs != [] {
      assert zs[0] in zs && forall z | z in zs[1..] :: z in zs;
      NoneReal(zs[1..]);
    }
  }

  lemma CommitIsReal(zs: seq<Zone>)
    requires forall z | z in zs :: ZoneOk(z)
    ensures Reals(CommitZones(zs)) == Actuals(CommitZones(zs))
  {
    forall z | z in CommitZones(zs) ensures z.actual != NOBODY { CommittedZones(zs, z); }
    AllReal(CommitZones(zs));
  }

  lemma RollbackIsReal(zs: seq<Zone>)
    requires forall z | z in zs :: ZoneOk(z)
    ensures Reals(RollbackZones(zs)) == Reals(zs)
  {
    forall z | z in RollbackZones(zs) ensures z.actual != NOBODY { RolledBackZones(zs, z); }
    AllReal(RollbackZones(zs));
    RollbackLeavesReals(zs);
  }

  lemma {:induction false} SameReals(zs: seq<Zone>, ds: seq<Zone>)
    requires |ds| == |zs| && forall i | 0 <= i < |zs| :: ds[i].actual == zs[i].actual
    ensures Reals(ds) == Reals(zs)
  {
    if zs != [] { SameReals(zs[1..], ds[1..]); }
  }

  /** What is known of a well-formed node. */
  ghost predicate Plain(n: Node) {
    && (forall z | z in n.zones :: ZoneOk(z)) && Tidy(n)
    && (n.phase == StartIn || n.phase == Offline ==> n.zones == [])
    && (n.tx == NO_TX <==> n.phase == Offline || n.phase == Online)
    && (n.tx == NO_TX ==> Whole(n.zones))
  }

  ghost predicate SamePlace(n: Node, b: bool, n': Node, b': bool) {
    && NodeFa(n', b') == NodeFa(n, b) && NodeCh(n', b') == NodeCh(n, b)
    && (n'.level == n.level || (NodeFa(n, b) == NOBODY && NodeCh(n, b) == []))
  }

  lemma CommittedPlace(self: Addr, n: Node)
    requires Plain(n)
    ensures SamePlace(n, true, Committed(self, n).n, false)
  {
    CommitIsReal(n.zones);
  }

  lemma RolledBackPlace(self: Addr, n: Node)
    requires Plain(n)
    ensures SamePlace(n, false, RolledBack(self, n).n, false)
  {
    RollbackIsReal(n.zones);
  }

  /** A node that waits for its initialisation has no place, whatever becomes of it. */
  lemma FreshPlace(n: Node, b: bool)
    requires Plain(n) && n.phase == StartIn
    ensures NodeFa(n, b) == NOBODY && NodeCh(n, b) == []
  {
  }

  lemma InitPlace(n: Node, src: Proc, msg: Msg)
    requires Plain(n) && msg.InitStrNode? && n.tx == msg.t && n.phase == StartIn
    ensures SamePlace(n, false, OnInitStrNode(n, src, msg).n, false)
  {
    FreshPlace(n, false);
    NoneReal(n.zones + Additions(msg.children));
  }

  lemma NewChildPlace(m: nat, n: Node, src: Proc, msg: Msg, c: Choice)
    requires Plain(n) && msg.NewChild? && n.tx == NO_TX && |n.zones| < 2 * m && FindLink(n.zones, src.a) < |n.zones|
    ensures SamePlace(n, false, OnNewChild(m, n, src, msg, c).n, false)
  {
    var i := FindLink(n.zones, src.a);
    var zs := if c.newer then n.zones[i := n.zones[i].SetLink(n.zones[i].actual)] else n.zones;
    SameReals(n.zones, zs);
    assert ([Zone(NOBODY, msg.child, true)] + zs)[1..] == zs;
  }

  lemma NewFatherPlace(self: Addr, n: Node, src: Proc, msg: Msg)
    requires Plain(n) && msg.NewFather? && src.a == n.father
    requires n.phase != Offline && n.phase != StartIn && n.phase != Init && n.phase != AddChild
    ensures SamePlace(n, false, OnNewFather(self, n, src, msg).n, false)
  {
    RollbackIsReal(n.zones);
  }

  lemma SplitPlace(self: Addr, n: Node, brother: Addr, c: Choice)
    requires ValidChoice(n, c)
    ensures SamePlace(n, false, Split(self, n, brother, c.moved).n, false)
  {
    SameReals(n.zones, Detach(n.zones, c.moved));
  }

  /**
   What the node may rely on: its transaction is bound when the commit comes, and not when it is given up or begins.
   */
  predicate FitsBound(self: Addr, n: Node, src: Proc, msg: Msg, n': Node, b: bool, b': bool) {
    && (n.tx == NO_TX || Driving(n) ==> !b) && (n'.tx == NO_TX || Driving(n') ==> !b')
    && (n'.tx == n.tx && !Driving(n) && !Driving(n') ==> b' == b)
    && (msg.Commit? && msg.t == n.tx && n.tx != NO_TX ==> b)
    && (msg.Rollback? && msg.t == n.tx && n.driver == src.a ==> !b || n.phase == StartIn)
    && (IsRequest(msg) && n'.tx == msg.t && n' != n ==> !b')
    && (msg.NewFather? && n'.tx == msg.t && n' != n.(delayed := n'.delayed) ==> !b)
    && ((msg.Nack? || msg.Ack?) && msg.t == n.tx && n.tx != NO_TX ==> Driving(n))
  }

  /** Whatever a node handles, it keeps its place in the tree, unless its own split wins. */
  lemma HandledPlace(self: Addr, m: nat, n: Node, src: Proc, msg: Msg, c: Choice, b: bool, b': bool)
    requires ValidChoice(n, c) && Plain(n) && msg.t != NO_TX
    requires FitsBound(self, n, src, msg, Handle(self, m, n, src, msg, c).n, b, b')
    requires msg.Ack? && Driving(n) ==> Handle(self, m, n, src, msg, c).n.tx == n.tx
    ensures SamePlace(n, b, Handle(self, m, n, src, msg, c).n, b')
  {
    match msg
    case NewStrNode(t) =>
      if n.tx == t && n.phase == WaitStr && !(n.father == NOBODY && n.newFather == NOBODY) {
        SplitPlace(self, n, src.a, c);
      }
    case InitStrNode(_, _, _, _) =>
      if n.tx == msg.t && n.phase == StartIn { InitPlace(n, src, msg); }
    case NewFather(_, _) =>
      if n.phase != Offline && n.phase != StartIn && n.phase != Init && n.phase != AddChild && src.a == n.father {
        NewFatherPlace(self, n, src, msg);
      }
    case NewChild(_, _) =>
      if n.tx == NO_TX && |n.zones| < 2 * m && FindLink(n.zones, src.a) < |n.zones| {
        NewChildPlace(m, n, src, msg, c);
      }
    case Ack(_) =>
    case Nack(t) =>
      if n.tx == t { RolledBackPlace(self, n); }
    case Commit(t) =>
      if n.tx == t { CommittedPlace(self, n); }
    case Rollback(t) =>
      if n.tx == t && n.driver == src.a {
        RolledBackPlace(self, n);
        if n.phase == StartIn { FreshPlace(n, b); }
      }
  }

  // ---------------------------------------------------------------------------------------------
  // Insertions
  // ---------------------------------------------------------------------------------------------

  /** A node that inserts a resource node has it in front of real zones, at level 0. */
  ghost predicate InsertsOne(w: World, n: Node) {
    n.tx != NO_TX && n.tx !in w.split ==>
      && n.phase == AddChild && n.level == 0 && n.tx in w.owner && w.owner[n.tx] == RN(n.driver)
      && n.zones != [] && n.zones[0] == Zone(NOBODY, n.driver, true) && Whole(n.zones[1..])
      && (w.rn(n.driver).father == NOBODY ==> w.rn(n.driver).tx == n.tx)
  }

  /** One node at a time inserts a resource node, and none before the request has come to it. */
  ghost predicate InsertsAlone(w: World, x: Addr, y: Addr) {
    w.sn(x).tx == w.sn(y).tx && w.sn(x).tx != NO_TX && w.sn(x).tx !in w.split ==> x == y
  }

  ghost predicate NotYet(w: World, d: (Addr, TxId), x: Addr) {
    d in w.inserts ==> w.sn(x).tx != d.1
  }

  /** The messages of an insertion. */
  ghost predicate InsertMsg(w: World, p: Proc, q: Proc, msg: Msg) {
    msg.t !in w.split ==>
      && (msg.Ack? && q.RN? && w.rn(q.a).tx == msg.t ==> p.SN? && w.sn(p.a).tx == msg.t)
      && (msg.Commit? && p.RN? ==> w.rn(p.a).father != NOBODY)
  }

  ghost predicate InsertRes(w: World, a: Addr, r: Res) {
    && (r.tx != NO_TX && r.tx !in w.split ==> r.father == NOBODY)
    && (r.tx != NO_TX && r.tx in w.split ==> r.father != NOBODY)
    && (r.owed != [] ==> r.father != NOBODY)
  }

  ghost predicate InsertsOk(w: World) {
    && (forall x {:trigger InsertsOne(w, w.sn(x))} :: InsertsOne(w, w.sn(x)))
    && (forall x, y :: InsertsAlone(w, x, y))
    && (forall d, x :: NotYet(w, d, x))
    && (forall p, q, msg | msg in w.net(p, q) :: InsertMsg(w, p, q, msg))
    && (forall a {:trigger InsertRes(w, a, w.rn(a))} :: InsertRes(w, a, w.rn(a)))
  }

  /** A node that inserts a resource node goes on doing so until the commit comes. */
  lemma InsertMoves(self: Addr, m: nat, n: Node, src: Proc, msg: Msg, c: Choice)
    requires ValidChoice(n, c)
    ensures
      var n' := Handle(self, m, n, src, msg, c).n;
      && (n.phase == AddChild && n.tx != NO_TX
          && !(msg.t == n.tx && (msg.Commit? || msg.Ack? || msg.Nack? || msg.Rollback?))
          ==> n' == n.(delayed := n'.delayed))
      && (n'.tx != n.tx ==> n'.tx == NO_TX || (n'.tx == msg.t && IsRequest(msg)))
  {
  }

  lemma TookInsert(w: World, y: Addr, taken: bool, src: Proc, msg: Msg, n: Node, c: Choice)
    requires Base(w) && InsertsOk(w) && Arrives(w, y, taken, src, msg, n) && ValidChoice(n, c)
    ensures
      var n' := Handle(y, w.m, n, src, msg, c).n;
      && (n'.tx != NO_TX && n'.tx !in w.split ==> n'.tx == n.tx && n' == n.(delayed := n'.delayed))
      && (n.tx != NO_TX && n.tx !in w.split && n'.tx != n.tx ==> msg == Commit(n.tx) && w.rn(n.driver).father != NOBODY)
  {
    ArrivalOk(w, y, taken, src, msg, n);
    InsertMoves(y, w.m, n, src, msg, c);
    assert InsertsOne(w, w.sn(y));
    if taken { assert msg in w.net(src, SN(y)) && InsertMsg(w, src, SN(y), msg); }
  }

  /** All that a structure node says belongs to a split. */
  lemma AnswerOfSplit(w: World, y: Addr, src: Proc, msg: Msg, n: Node, o: Out)
    requires MsgOk(w, src, SN(y), msg) && NodeOk(w, y, n) && Answer(n, src, msg, o) && (o.msg.Ack? || o.msg.Commit?)
    ensures o.msg.t in w.split
  {
  }

  lemma SaysSplit(w: World, y: Addr, taken: bool, src: Proc, msg: Msg, n: Node, c: Choice)
    requires Base(w) && Arrives(w, y, taken, src, msg, n) && ValidChoice(n, c)
    ensures forall o | o in Handle(y, w.m, n, src, msg, c).outs && (o.msg.Ack? || o.msg.Commit?) :: o.msg.t in w.split
  {
    ArrivalOk(w, y, taken, src, msg, n);
    Answers(y, w.m, n, src, msg, c);
    forall o | o in Handle(y, w.m, n, src, msg, c).outs && (o.msg.Ack? || o.msg.Commit?) ensures o.msg.t in w.split {
      AnswerOfSplit(w, y, src, msg, n, o);
    }
  }

  lemma TookInsertsNodes(w: World, w': World, y: Addr, n': Node)
    requires SplitsOk(w) && InsertsOk(w) && OnlySN(w, w', y, n') && w'.rn == w.rn && w'.split == w.split
    requires w'.owner == w.owner && w'.inserts == w.inserts
    requires n'.tx != NO_TX && n'.tx !in w.split ==>
               n'.tx == w.sn(y).tx && n' == w.sn(y).(delayed := n'.delayed)
    ensures forall x :: InsertsOne(w', w'.sn(x))
    ensures forall x, z :: InsertsAlone(w', x, z)
    ensures forall d, x :: NotYet(w', d, x)
  {
    forall x ensures InsertsOne(w', w'.sn(x)) { assert InsertsOne(w, w.sn(x)); }
    forall x, z ensures InsertsAlone(w', x, z) { assert InsertsAlone(w, x, z); }
    forall d, x ensures NotYet(w', d, x) {
      assert NotYet(w, d, x);
      if d in w'.inserts { assert d.1 in w.owner && d.1 != NO_TX && d.1 !in w.split; }
    }
  }

  lemma TookInsertsNet(w: World, w': World, y: Addr, taken: bool, src: Proc, msg: Msg, n: Node, c: Choice, r: Reply)
    requires Base(w) && InsertsOk(w) && Took(w, w', y, taken, src, msg, n, r) && ValidChoice(n, c)
    requires r == Handle(y, w.m, n, src, msg, c)
    requires NetOk(w')
    ensures forall p, q, l | l in w'.net(p, q) :: InsertMsg(w', p, q, l)
  {
    TookInsert(w, y, taken, src, msg, n, c);
    SaysSplit(w, y, taken, src, msg, n, c);
    assert InsertsOne(w, w.sn(y));
    forall p, q, l | l in w'.net(p, q) ensures InsertMsg(w', p, q, l) {
      if p == SN(y) && l in For(r.outs, q) {
        ForHas(r.outs, q, l);
        assert Out(q, l) in r.outs;
      } else {
        assert l in w.net(p, q) && InsertMsg(w, p, q, l) && MsgOk(w, p, q, l);
        OldInsertMsg(w, w', p, q, l, y, n, r.n);
      }
    }
  }

  lemma OldInsertMsg(w: World, w': World, p: Proc, q: Proc, l: Msg, y: Addr, n: Node, n': Node)
    requires InsertsOk(w) && InsertMsg(w, p, q, l) && MsgOk(w, p, q, l)
    requires OnlySN(w, w', y, n') && w'.rn == w.rn && w'.split == w.split && w'.owner == w.owner
    requires w'.inserts == w.inserts
    requires n == w.sn(y).(delayed := n.delayed)
    requires n.tx != NO_TX && n.tx !in w.split && n'.tx != n.tx ==> w.rn(n.driver).father != NOBODY
    ensures InsertMsg(w', p, q, l)
  {
    assert InsertsOne(w, w.sn(y));
    if q.RN? { assert InsertRes(w, q.a, w.rn(q.a)); }
  }

  lemma TookInserts(w: World, w': World, y: Addr, taken: bool, src: Proc, msg: Msg, n: Node, c: Choice, r: Reply)
    requires Base(w) && InsertsOk(w) && Took(w, w', y, taken, src, msg, n, r) && ValidChoice(n, c)
    requires r == Handle(y, w.m, n, src, msg, c)
    requires NetOk(w')
    ensures InsertsOk(w')
  {
    TookInsert(w, y, taken, src, msg, n, c);
    TookInsertsNet(w, w', y, taken, src, msg, n, c, r);
    TookInsertsNodes(w, w', y, r.n);
    forall a ensures InsertRes(w', a, w'.rn(a)) { assert InsertRes(w, a, w.rn(a)); }
  }

  // Resource nodes

  /** How a resource node moves, as far as insertions are concerned. */
  lemma ResInsertMoves(w: World, a: Addr, taken: bool, src: Proc, msg: Msg, r: Res)
    requires Base(w) && ResArrives(w, a, taken, src, msg, r) && InsertRes(w, a, w.rn(a))
    ensures
      var r' := HandleRes(r, src, msg).r;
      && InsertRes(w, a, r')
      && (r.father != NOBODY ==> r'.father != NOBODY)
      && (r'.tx != r.tx ==> r'.tx == NO_TX || r'.tx in w.split)
      && (r.tx != NO_TX && r.tx !in w.split && r'.father == NOBODY ==> r'.tx == r.tx)
  {
    ResArrivalOk(w, a, taken, src, msg, r);
  }

  lemma ResInsertsNodes(w: World, w': World, a: Addr, r: Res, r': Res)
    requires InsertsOk(w) && OnlyRN(w, w', a, r') && w'.sn == w.sn && w'.split == w.split && w'.owner == w.owner
    requires w'.inserts == w.inserts
    requires w.rn(a).father != NOBODY ==> r'.father != NOBODY
    requires w.rn(a).tx != NO_TX && w.rn(a).tx !in w.split && r'.father == NOBODY ==> r'.tx == w.rn(a).tx
    ensures forall x :: InsertsOne(w', w'.sn(x))
    ensures forall x, z :: InsertsAlone(w', x, z)
    ensures forall d, x :: NotYet(w', d, x)
  {
    forall x ensures InsertsOne(w', w'.sn(x)) { assert InsertsOne(w, w.sn(x)); }
    forall x, z ensures InsertsAlone(w', x, z) { assert InsertsAlone(w, x, z); }
    forall d, x ensures NotYet(w', d, x) { assert NotYet(w, d, x); }
  }

  lemma ResInsertsNet(w: World, w': World, a: Addr, taken: bool, src: Proc, outs: seq<Out>)
    requires NetOk(w) && InsertsOk(w) && w'.sn == w.sn && w'.split == w.split && w'.owner == w.owner
    requires taken ==> w.net(src, RN(a)) != []
    requires OnlyRN(w, w', a, w'.rn(a)) && Sends(w, w', RN(a), taken, src, outs)
    requires w.rn(a).father != NOBODY ==> w'.rn(a).father != NOBODY
    requires w'.rn(a).tx != w.rn(a).tx ==> w'.rn(a).tx == NO_TX || w'.rn(a).tx in w.split
    requires forall o | o in outs && o.msg.t !in w.split :: o.msg.Commit? && w'.rn(a).father != NOBODY
    ensures forall p, q, l | l in w'.net(p, q) :: InsertMsg(w', p, q, l)
  {
    forall p, q, l | l in w'.net(p, q) ensures InsertMsg(w', p, q, l) {
      if p == RN(a) && l in For(outs, q) {
        ForHas(outs, q, l);
        assert Out(q, l) in outs;
      } else {
        assert l in w.net(p, q) && InsertMsg(w, p, q, l) && MsgOk(w, p, q, l);
      }
    }
  }

  /** All that a resource node answers belongs to a split. */
  lemma ResSaysSplit(w: World, a: Addr, taken: bool, src: Proc, msg: Msg, r: Res)
    requires Base(w) && ResArrives(w, a, taken, src, msg, r)
    ensures forall o | o in HandleRes(r, src, msg).outs :: o.msg.t in w.split
  {
    ResArrivalOk(w, a, taken, src, msg, r);
    ResAnswers(r, src, msg);
  }

  lemma ResAnswers(r: Res, src: Proc, msg: Msg)
    ensures forall o | o in HandleRes(r, src, msg).outs :: o.msg.t == msg.t && msg.NewFather?
  {
  }

  lemma ResTookInserts(w: World, w': World, a: Addr, taken: bool, src: Proc, msg: Msg, r: Res, r': ResReply)
    requires Base(w) && InsertsOk(w) && ResTook(w, w', a, taken, src, msg, r, r') && r' == HandleRes(r, src, msg)
    ensures InsertsOk(w')
  {
    assert InsertRes(w, a, w.rn(a));
    ResInsertMoves(w, a, taken, src, msg, r);
    ResSaysSplit(w, a, taken, src, msg, r);
    ResInsertsNodes(w, w', a, r, r'.r);
    ResInsertsNet(w, w', a, taken, src, r'.outs);
    ResInsertsRes(w, w', a, r'.r);
  }

  lemma ResInsertsRes(w: World, w': World, a: Addr, r': Res)
    requires OnlyRN(w, w', a, r') && w'.split == w.split && InsertRes(w', a, r')
    requires forall b {:trigger InsertRes(w, b, w.rn(b))} :: InsertRes(w, b, w.rn(b))
    ensures forall b {:trigger InsertRes(w', b, w'.rn(b))} :: InsertRes(w', b, w'.rn(b))
  {
    forall b ensures InsertRes(w', b, w'.rn(b)) { assert InsertRes(w, b, w.rn(b)); }
  }

  lemma ResSendInserts(w: World, w': World, a: Addr)
    requires Base(w) && InsertsOk(w) && ResSend(w, w', a)
    ensures InsertsOk(w')
  {
    var o := w.rn(a).owed[0];
    assert InsertRes(w, a, w.rn(a)) && ResOk(w, a, w.rn(a)) && o in w.rn(a).owed;
    ResInsertsNodes(w, w', a, w.rn(a), w'.rn(a));
    ResInsertsNet(w, w', a, false, RN(a), [o]);
    forall b ensures InsertRes(w', b, w'.rn(b)) { assert InsertRes(w, b, w.rn(b)); }
  }

  // The other steps

  lemma StartSplitInserts(w: World, w': World, y: Addr, t: TxId)
    requires Base(w) && InsertsOk(w) && StartSplit(w, w', y, t)
    ensures InsertsOk(w')
  {
    StartSplitInsertsNodes(w, w', y, t);
    StartSplitInsertsNet(w, w', y, t);
    forall a ensures InsertRes(w', a, w'.rn(a)) {
      assert InsertRes(w, a, w.rn(a)) && ResOk(w, a, w.rn(a));
      StartSplitInsertsRes(w, w', y, t, a);
    }
  }

  lemma StartSplitInsertsRes(w: World, w': World, y: Addr, t: TxId, a: Addr)
    requires StartSplit(w, w', y, t) && InsertRes(w, a, w.rn(a)) && ResOk(w, a, w.rn(a))
    ensures InsertRes(w', a, w'.rn(a))
  {
  }

  lemma StartSplitInsertsNodes(w: World, w': World, y: Addr, t: TxId)
    requires NodesOk(w) && SplitsOk(w) && InsertsOk(w) && StartSplit(w, w', y, t)
    ensures forall x {:trigger InsertsOne(w', w'.sn(x))} :: InsertsOne(w', w'.sn(x))
    ensures forall x, z :: InsertsAlone(w', x, z)
    ensures forall d, x :: NotYet(w', d, x)
  {
    forall x ensures InsertsOne(w', w'.sn(x)) { assert InsertsOne(w, w.sn(x)) && TxOk(w, x, w.sn(x)); }
    forall x, z ensures InsertsAlone(w', x, z) {
      assert InsertsAlone(w, x, z) && TxOk(w, x, w.sn(x)) && TxOk(w, z, w.sn(z));
    }
    forall d, x ensures NotYet(w', d, x) { assert NotYet(w, d, x) && TxOk(w, x, w.sn(x)); }
  }

  lemma StartSplitInsertsNet(w: World, w': World, y: Addr, t: TxId)
    requires NetOk(w) && InsertsOk(w) && StartSplit(w, w', y, t)
    ensures forall p, q, l | l in w'.net(p, q) :: InsertMsg(w', p, q, l)
  {
    forall p, q, l | l in w'.net(p, q) ensures InsertMsg(w', p, q, l) {
      assert InsertMsg(w, p, q, l) && MsgOk(w, p, q, l);
    }
  }

  lemma SearchInserts(w: World, w': World)
    requires InsertsOk(w) && w' == w.(needed := w'.needed, armed := w'.armed)
    ensures InsertsOk(w')
  {
    forall x ensures InsertsOne(w', w'.sn(x)) { assert InsertsOne(w, w.sn(x)); }
    forall x, z ensures InsertsAlone(w', x, z) { assert InsertsAlone(w, x, z); }
    forall d, x ensures NotYet(w', d, x) { assert NotYet(w, d, x); }
    forall p, q, l | l in w'.net(p, q) ensures InsertMsg(w', p, q, l) { assert InsertMsg(w, p, q, l); }
    forall a ensures InsertRes(w', a, w'.rn(a)) { assert InsertRes(w, a, w.rn(a)); }
  }

  /** One node enters a transaction and says something. */
  lemma EnteringNet(w: World, w': World, y: Addr, o: Out)
    requires NetOk(w) && InsertsOk(w) && w'.split == w.split && w'.rn == w.rn && w.sn(y).tx == NO_TX
    requires (forall x | x != y :: w'.sn(x) == w.sn(x)) && Sends(w, w', SN(y), false, SN(y), [o])
    requires o.msg.Ack? ==> w'.sn(y).tx == o.msg.t
    ensures forall p, q, l | l in w'.net(p, q) :: InsertMsg(w', p, q, l)
  {
    forall p, q, l | l in w'.net(p, q) ensures InsertMsg(w', p, q, l) {
      if p == SN(y) && l in For([o], q) {
        ForHas([o], q, l);
      } else {
        assert l in w.net(p, q) && InsertMsg(w, p, q, l) && MsgOk(w, p, q, l);
      }
    }
  }

  lemma OfferInserts(w: World, w': World, y: Addr, x: Addr, t: TxId)
    requires Base(w) && InsertsOk(w) && Offer(w, w', y, x, t) && t in w.split
    ensures InsertsOk(w')
  {
    assert NodeOk(w, y, w.sn(y));
    TookInsertsNodes(w, w', y, w'.sn(y));
    EnteringNet(w, w', y, Out(SN(x), NewStrNode(t)));
    forall a ensures InsertRes(w', a, w'.rn(a)) { assert InsertRes(w, a, w.rn(a)); }
  }

  lemma AcceptInsertsNodes(w: World, w': World, y: Addr, a: Addr, s: TxId)
    requires SplitsOk(w) && InsertsOk(w) && AcceptInsert(w, w', y, a, s) && Whole(w.sn(y).zones)
    requires w'.sn(y).zones[1..] == w.sn(y).zones && w'.sn(y).level == 0
    ensures forall x {:trigger InsertsOne(w', w'.sn(x))} :: InsertsOne(w', w'.sn(x))
    ensures forall x, z :: InsertsAlone(w', x, z)
    ensures forall d, x :: NotYet(w', d, x)
  {
    forall x ensures InsertsOne(w', w'.sn(x)) { assert InsertsOne(w, w.sn(x)); }
    forall x, z ensures InsertsAlone(w', x, z) {
      assert InsertsAlone(w, x, z) && NotYet(w, (a, s), x) && NotYet(w, (a, s), z);
    }
    forall d, x ensures NotYet(w', d, x) {
      assert NotYet(w, d, x);
      assert d in w.inserts ==> d.1 in w.owner && w.owner[d.1] == RN(d.0);
    }
  }

  lemma AcceptInsertInserts(w: World, w': World, y: Addr, a: Addr, s: TxId)
    requires Base(w) && InsertsOk(w) && AcceptInsert(w, w', y, a, s)
    ensures InsertsOk(w')
  {
    var n := w.sn(y);
    assert NodeOk(w, y, n);
    PlainZonesHold(w, y, n);
    assert ([Zone(NOBODY, a, true)] + n.zones)[1..] == n.zones;
    AcceptInsertsNodes(w, w', y, a, s);
    EnteringNet(w, w', y, Out(RN(a), Ack(s)));
    forall b ensures InsertRes(w', b, w'.rn(b)) { assert InsertRes(w, b, w.rn(b)); }
  }

  lemma StartInsertInserts(w: World, w': World, a: Addr, s: TxId)
    requires Base(w) && InsertsOk(w) && StartInsert(w, w', a, s)
    ensures InsertsOk(w')
  {
    forall x ensures InsertsOne(w', w'.sn(x)) { assert InsertsOne(w, w.sn(x)); }
    forall x, z ensures InsertsAlone(w', x, z) { assert InsertsAlone(w, x, z); }
    forall d, x ensures NotYet(w', d, x) { assert NotYet(w, d, x) && NodeOk(w, x, w.sn(x)); }
    forall p, q, l | l in w'.net(p, q) ensures InsertMsg(w', p, q, l) {
      assert InsertMsg(w, p, q, l) && MsgOk(w, p, q, l);
    }
    forall b ensures InsertRes(w', b, w'.rn(b)) { assert InsertRes(w, b, w.rn(b)) && ResOk(w, b, w.rn(b)); }
  }

  lemma DeliverInserts(w: World, w': World, y: Addr, src: Proc, c: Choice)
    requires Base(w) && NetOk(w') && InsertsOk(w) && Deliver(w, w', y, src, c)
    ensures InsertsOk(w')
  {
    var n, msg := w.sn(y), w.net(src, SN(y))[0];
    DeliverTakes(w, w', y, src, c, n, msg);
    TookInserts(w, w', y, true, src, msg, n, c, Handle(y, w.m, n, src, msg, c));
  }

  lemma ReplayInserts(w: World, w': World, y: Addr, c: Choice)
    requires Base(w) && NetOk(w') && InsertsOk(w) && Replay(w, w', y, c)
    ensures InsertsOk(w')
  {
    var n := w.sn(y).(delayed := w.sn(y).delayed[1..]);
    var (src, msg) := w.sn(y).delayed[0];
    ReplayTakes(w, w', y, c, n, src, msg);
    TookInserts(w, w', y, false, src, msg, n, c, Handle(y, w.m, n, src, msg, c));
  }

  lemma ResReplayInserts(w: World, w': World, a: Addr)
    requires Base(w) && InsertsOk(w) && ResReplay(w, w', a)
    ensures InsertsOk(w')
  {
    var r := w.rn(a).(delayed := w.rn(a).delayed[1..]);
    var (src, msg) := w.rn(a).delayed[0];
    ResReplayTakes(w, w', a, r, src, msg);
    ResTookInserts(w, w', a, false, src, msg, r, HandleRes(r, src, msg));
  }

  lemma ResDeliverInserts(w: World, w': World, a: Addr, src: Proc)
    requires Base(w) && InsertsOk(w) && ResDeliver(w, w', a, src)
    ensures InsertsOk(w')
  {
    var msg := w.net(src, RN(a))[0];
    ResTookInserts(w, w', a, true, src, msg, w.rn(a), HandleRes(w.rn(a), src, msg));
  }

  lemma OfferStepInserts(w: World, w': World, y: Addr, x: Addr, t: TxId)
    requires Inv(w) && InsertsOk(w) && Offer(w, w', y, x, t)
    ensures InsertsOk(w')
  {
    OfferedTo(w, w', y, x, t);
    OfferInserts(w, w', y, x, t);
  }

  lemma StepInserts(w: World, w': World, act: Action)
    requires Inv(w) && NetOk(w') && InsertsOk(w) && Does(w, w', act)
    ensures InsertsOk(w')
  {
    match act
    case ADeliver(y, src, c) => DeliverInserts(w, w', y, src, c);
    case AReplay(y, c) => ReplayInserts(w, w', y, c);
    case AStartSplit(y, t) => StartSplitInserts(w, w', y, t);
    case ARepeat(_, _) => SearchInserts(w, w');
    case ALose(_, _, _) => SearchInserts(w, w');
    case AOffer(y, x, t) => OfferStepInserts(w, w', y, x, t);
    case AStartInsert(a, s) => StartInsertInserts(w, w', a, s);
    case AAcceptInsert(y, a, s) => AcceptInsertInserts(w, w', y, a, s);
    case AResDeliver(a, src) => ResDeliverInserts(w, w', a, src);
    case AResReplay(a) => ResReplayInserts(w, w', a);
    case AResSend(a) => ResSendInserts(w, w', a);
  }

  // ---------------------------------------------------------------------------------------------
  // The future father of a root
  // ---------------------------------------------------------------------------------------------

  /** While a root looks for its brother, its future father waits for its initialisation. */
  ghost predicate FutureFather(w: World, x: Addr) {
    var n := w.sn(x);
    n.phase == WaitStr && n.newFather != NOBODY ==>
      w.sn(n.newFather).phase == StartIn && w.sn(n.newFather).tx == n.tx && n.newFather != x
  }

  lemma StaysWaiting(self: Addr, m: nat, n: Node, src: Proc, msg: Msg, c: Choice)
    requires ValidChoice(n, c) && n.phase == StartIn && n.driver != self && n.tx != NO_TX
    requires msg.t == n.tx ==> !msg.InitStrNode? && !msg.Commit? && !msg.Rollback?
    ensures var n' := Handle(self, m, n, src, msg, c).n; n'.phase == StartIn && n'.tx == n.tx
  {
  }

  lemma FutureFatherStays(w: World, w': World, f: Addr, src: Proc, c: Choice, x: Addr)
    requires Inv(w) && Deliver(w, w', f, src, c) && FutureFather(w, x) && x != f
    requires w.sn(x).phase == WaitStr && w.sn(x).newFather == f && f != NOBODY
    ensures w'.sn(f).phase == StartIn && w'.sn(f).tx == w.sn(x).tx
  {
    var msg := w.net(src, SN(f))[0];
    FutureFatherHears(w, f, src, msg, x, w.sn(x).tx);
    StaysWaiting(f, w.m, w.sn(f), src, msg, c);
  }

  /** Nothing that reaches the future father ends its waiting. */
  lemma FutureFatherHears(w: World, f: Addr, src: Proc, msg: Msg, x: Addr, t: TxId)
    requires Inv(w) && f != NOBODY && w.net(src, SN(f)) != [] && w.net(src, SN(f))[0] == msg
    requires FutureFather(w, x) && x != f && w.sn(x).phase == WaitStr && w.sn(x).newFather == f && w.sn(x).tx == t
    ensures w.sn(f).driver != f && t != NO_TX
    ensures msg.t == t ==> !msg.InitStrNode? && !msg.Commit? && !msg.Rollback?
  {
    assert NodeOk(w, x, w.sn(x)) && NodeOk(w, f, w.sn(f)) && MsgOk(w, src, SN(f), msg);
    assert SplitOf(w, x, t);
    if msg.t == t {
      assert Coherent(t, View(w, t, SN(f)));
      NobodyAsked(w, x, t, SN(f));
      if msg.Commit? { NumPositive(w.net(src, SN(f)), Told(true), t, msg); }
      if msg.Rollback? { NumPositive(w.net(src, SN(f)), Told(false), t, msg); }
    }
  }

  /** A root that has its future father, and gets one more offer. */
  lemma FutureFatherOffered(w: World, w': World, x: Addr, src: Proc, c: Choice)
    requires Base(w) && Deliver(w, w', x, src, c) && FutureFather(w, x) && w.sn(x).phase == WaitStr
    requires w.net(src, SN(x))[0] == NewStrNode(w.sn(x).tx) && src.SN? && src != SN(x)
    requires w.sn(src.a).phase == StartIn && w.sn(src.a).tx == w.sn(x).tx
    ensures FutureFather(w', x)
  {
  }

  lemma OfferIsFromWaiting(w: World, x: Addr, src: Proc, t: TxId)
    requires Inv(w) && x != NOBODY && w.net(src, SN(x)) != [] && w.net(src, SN(x))[0] == NewStrNode(t)
    requires w.sn(x).tx == t && w.sn(x).phase == WaitStr
    ensures src.SN? && src != SN(x) && w.sn(src.a).phase == StartIn && w.sn(src.a).tx == t
  {
    assert NodeOk(w, x, w.sn(x)) && MsgOk(w, src, SN(x), NewStrNode(t));
    NumPositive(w.net(src, SN(x)), Offered, t, NewStrNode(t));
    assert Coherent(t, View(w, t, src));
  }

  lemma FutureFatherFound(w: World, w': World, x: Addr, src: Proc, c: Choice)
    requires Inv(w) && Deliver(w, w', x, src, c) && FutureFather(w, x)
    ensures FutureFather(w', x)
  {
    var n, msg := w.sn(x), w.net(src, SN(x))[0];
    if msg == NewStrNode(n.tx) && n.phase == WaitStr {
      OfferIsFromWaiting(w, x, src, n.tx);
      FutureFatherOffered(w, w', x, src, c);
    } else {
      SameFuture(x, w.m, n, src, msg, c);
      FutureOther(w, x);
    }
  }

  lemma SameFuture(self: Addr, m: nat, n: Node, src: Proc, msg: Msg, c: Choice)
    requires ValidChoice(n, c) && !(msg == NewStrNode(n.tx) && n.phase == WaitStr)
    ensures var n' := Handle(self, m, n, src, msg, c).n;
            n'.phase == WaitStr ==> n.phase == WaitStr && n'.newFather == n.newFather && n'.tx == n.tx
  {
  }

  lemma FutureOther(w: World, x: Addr)
    requires FutureFather(w, x)
    ensures w.sn(x).phase == WaitStr && w.sn(x).newFather != NOBODY ==> w.sn(x).newFather != x
  {
  }

  lemma EnteringFuture(w: World, w': World, act: Action, x: Addr)
    requires Tidy(w.sn(x)) && (w.sn(x).phase == WaitStr ==> w.sn(x).tx != NO_TX) && Does(w, w', act)
    requires FutureFather(w, x)
    requires !act.ADeliver? && !act.AReplay?
    ensures FutureFather(w', x)
  {
  }

  lemma DeliverFuture(w: World, w': World, y: Addr, src: Proc, c: Choice, x: Addr)
    requires Inv(w) && Deliver(w, w', y, src, c) && FutureFather(w, x)
    ensures FutureFather(w', x)
  {
    if y == x {
      FutureFatherFound(w, w', x, src, c);
    } else if w.sn(x).phase == WaitStr && w.sn(x).newFather == y && y != NOBODY {
      FutureFatherStays(w, w', y, src, c, x);
    }
  }

  lemma StepFuture(w: World, w': World, act: Action, x: Addr)
    requires Inv(w) && Tidy(w.sn(x)) && Does(w, w', act) && FutureFather(w, x)
    ensures FutureFather(w', x)
  {
    if act.ADeliver? {
      DeliverFuture(w, w', act.x, act.src, act.c, x);
    } else if act.AReplay? {
      ReplayFuture(w, w', act.x, act.c, x);
    } else {
      assert NodeOk(w, x, w.sn(x));
      EnteringFuture(w, w', act, x);
    }
  }

  lemma ReplayFuture(w: World, w': World, y: Addr, c: Choice, x: Addr)
    requires Inv(w) && Replay(w, w', y, c) && FutureFather(w, x)
    ensures FutureFather(w', x)
  {
    assert NodeOk(w, x, w.sn(x)) && NodeOk(w, y, w.sn(y));
    if y == x {
      var n := w.sn(x).(delayed := w.sn(x).delayed[1..]);
      var (src, msg) := w.sn(x).delayed[0];
      SameFuture(x, w.m, n, src, msg, c);
    }
  }

  // ---------------------------------------------------------------------------------------------
  // Steps that move nobody
  // ---------------------------------------------------------------------------------------------

  /** No split wins in this step. */
  ghost predicate NoWin(w: World, w': World) {
    forall t {:trigger Won(w', t)} {:trigger Won(w, t)} :: Won(w', t) <==> Won(w, t)
  }

  lemma PlacedBySN(w: World, w': World, y: Addr)
    requires OnlySN(w, w', y, w'.sn(y)) && w'.rn == w.rn && w'.split == w.split && NoWin(w, w')
    requires SamePlace(w.sn(y), Bound(w, w.sn(y)), w'.sn(y), Bound(w', w'.sn(y)))
    ensures SameShape(ShapeOf(w), ShapeOf(w'))
  {
    forall p: Proc ensures Fa(w', p) == Fa(w, p) {}
    forall x ensures Ch(w', x) == Ch(w, x) {}
  }

  /** Nobody is asked in the name of a split that has won. */
  lemma RequestNotWon(w: World, y: Addr, taken: bool, src: Proc, msg: Msg, n: Node)
    requires Inv(w) && Arrives(w, y, taken, src, msg, n) && IsRequest(msg)
    ensures msg.t in w.split && !Won(w, msg.t)
  {
    ArrivalOk(w, y, taken, src, msg, n);
    assert Coherent(msg.t, View(w, msg.t, SN(y)));
    if taken {
      NumPositive(w.net(src, SN(y)), Request, msg.t, msg);
    } else {
      assert w.sn(y).delayed[0] == (src, msg);
    }
  }

  /** A node that is overridden was not bound. */
  lemma OverriddenNotWon(w: World, y: Addr, src: Proc, msg: Msg, n: Node)
    requires Inv(w) && Arrives(w, y, true, src, msg, n) && msg.NewFather? && n.phase == ChangeFather
    requires src.a == n.father
    ensures !Won(w, n.tx)
  {
    ArrivalOk(w, y, true, src, msg, n);
    assert Coherent(n.tx, View(w, n.tx, SN(y)));
  }

  lemma RollbackNotWon(w: World, y: Addr, taken: bool, src: Proc, msg: Msg, n: Node)
    requires Inv(w) && Arrives(w, y, taken, src, msg, n) && msg.Rollback? && msg.t == n.tx && n.driver == src.a
    ensures !Bound(w, n) || n.phase == StartIn
  {
    ArrivalOk(w, y, taken, src, msg, n);
    NumPositive(w.net(src, SN(y)), Told(false), msg.t, msg);
    if !Driving(n) { assert Coherent(msg.t, View(w, msg.t, SN(y))); }
  }

  lemma CommitIsBound(w: World, y: Addr, taken: bool, src: Proc, msg: Msg, n: Node)
    requires Inv(w) && InsertsOk(w) && Arrives(w, y, taken, src, msg, n) && msg.Commit? && msg.t == n.tx
    ensures Bound(w, n)
  {
    ArrivalOk(w, y, taken, src, msg, n);
    if msg.t in w.split {
      CommitIsWon(w, y, taken, src, msg, n);
    } else {
      assert InsertsOne(w, w.sn(y)) && msg in w.net(src, SN(y)) && InsertMsg(w, src, SN(y), msg);
    }
  }

  lemma BoundFacts(w: World, y: Addr, taken: bool, src: Proc, msg: Msg, n: Node, c: Choice)
    requires Inv(w) && InsertsOk(w) && Arrives(w, y, taken, src, msg, n) && ValidChoice(n, c)
    ensures var n' := Handle(y, w.m, n, src, msg, c).n; FitsBound(y, n, src, msg, n', Bound(w, n), Bound(w, n'))
  {
    ArrivalOk(w, y, taken, src, msg, n);
    TookInsert(w, y, taken, src, msg, n, c);
    if msg.Commit? && msg.t == n.tx { CommitIsBound(w, y, taken, src, msg, n); }
    if msg.Rollback? && msg.t == n.tx && n.driver == src.a { RollbackNotWon(w, y, taken, src, msg, n); }
    if IsRequest(msg) {
      RequestNotWon(w, y, taken, src, msg, n);
      OverrideFacts(w, y, taken, src, msg, n, c);
    }
  }

  lemma OverrideFacts(w: World, y: Addr, taken: bool, src: Proc, msg: Msg, n: Node, c: Choice)
    requires Inv(w) && Arrives(w, y, taken, src, msg, n) && ValidChoice(n, c) && IsRequest(msg)
    ensures var n' := Handle(y, w.m, n, src, msg, c).n;
            msg.NewFather? && n'.tx == msg.t && n' != n.(delayed := n'.delayed) ==> !Bound(w, n)
  {
    ArrivalOk(w, y, taken, src, msg, n);
    if msg.NewFather? && n.phase == ChangeFather && src.a == n.father {
      assert taken;
      OverriddenNotWon(w, y, src, msg, n);
    }
  }

  lemma PlainHolds(w: World, x: Addr, n: Node)
    requires NodeOk(w, x, n) && Tidy(n)
    ensures Plain(n)
  {
    PlainZonesHold(w, x, n);
    forall z | z in n.zones ensures ZoneOk(z) { assert LinkOk(w, x, n, z); }
  }

  lemma TookPlace(w: World, y: Addr, taken: bool, src: Proc, msg: Msg, n: Node, c: Choice)
    requires Inv(w) && InsertsOk(w) && Tidy(n) && Arrives(w, y, taken, src, msg, n) && ValidChoice(n, c)
    requires msg.Ack? && Driving(n) ==> Handle(y, w.m, n, src, msg, c).n.tx == n.tx
    ensures var n' := Handle(y, w.m, n, src, msg, c).n; SamePlace(n, Bound(w, n), n', Bound(w, n'))
  {
    ArrivalOk(w, y, taken, src, msg, n);
    PlainHolds(w, y, n);
    BoundFacts(w, y, taken, src, msg, n, c);
    HandledPlace(y, w.m, n, src, msg, c, Bound(w, n), Bound(w, Handle(y, w.m, n, src, msg, c).n));
  }

  lemma PlacedLikewise(w: World, w': World, y: Addr, n: Node, n': Node)
    requires OnlySN(w, w', y, n') && w'.rn == w.rn && w'.split == w.split && NoWin(w, w')
    requires n == w.sn(y).(delayed := n.delayed) && SamePlace(n, Bound(w, n), n', Bound(w, n'))
    ensures SameShape(ShapeOf(w), ShapeOf(w'))
  {
    assert Bound(w', n') == Bound(w, n') && Bound(w, w.sn(y)) == Bound(w, n);
    PlacedBySN(w, w', y);
  }

  lemma TookSame(w: World, w': World, y: Addr, taken: bool, src: Proc, msg: Msg, n: Node, c: Choice, r: Reply)
    requires Inv(w) && InsertsOk(w) && Tidy(n) && NoWin(w, w')
    requires Took(w, w', y, taken, src, msg, n, r) && ValidChoice(n, c) && r == Handle(y, w.m, n, src, msg, c)
    requires msg.Ack? && Driving(n) ==> r.n.tx == n.tx
    ensures SameShape(ShapeOf(w), ShapeOf(w'))
  {
    TookPlace(w, y, taken, src, msg, n, c);
    PlacedLikewise(w, w', y, n, r.n);
  }

  /** The driver takes the last acknowledgement. */
  predicate WinsNow(n: Node, msg: Msg, n': Node) {
    msg.Ack? && Driving(n) && n'.tx != n.tx
  }

  lemma StillDrives(self: Addr, n: Node, src: Proc, t: TxId)
    requires Driving(n) && OnAck(self, n, src, t).n.tx == n.tx && n.tx != NO_TX
    ensures Driving(OnAck(self, n, src, t).n)
  {
  }

  lemma TookNoWin(w: World, w': World, y: Addr, n: Node, c: Choice, r: Reply, src: Proc, msg: Msg)
    requires Records(w, w', y, n, r, msg) && DriverOk(w, y, n) && TxOk(w, y, n) && ValidChoice(n, c)
    requires r == Handle(y, w.m, n, src, msg, c) && !WinsNow(n, msg, r.n)
    ensures NoWin(w, w')
  {
    if msg.Ack? && Driving(n) { StillDrives(y, n, src, msg.t); }
  }

  lemma StartSplitBound(w: World, w': World, y: Addr, t: TxId, x: Addr)
    requires SplitsOk(w) && StartSplit(w, w', y, t) && TxOk(w, x, w.sn(x))
    ensures Bound(w', w'.sn(x)) == Bound(w, w.sn(x))
  {
  }

  lemma StartSplitResBound(w: World, w': World, y: Addr, t: TxId, a: Addr)
    requires SplitsOk(w) && StartSplit(w, w', y, t) && ResOk(w, a, w.rn(a))
    ensures ResBound(w', w'.rn(a)) == ResBound(w, w.rn(a))
  {
  }

  lemma StartSplitSame(w: World, w': World, y: Addr, t: TxId)
    requires Base(w) && StartSplit(w, w', y, t) && Tidy(w.sn(y))
    ensures SameShape(ShapeOf(w), ShapeOf(w'))
  {
    forall x ensures Bound(w', w'.sn(x)) == Bound(w, w.sn(x)) {
      assert NodeOk(w, x, w.sn(x));
      StartSplitBound(w, w', y, t, x);
    }
    forall a ensures ResBound(w', w'.rn(a)) == ResBound(w, w.rn(a)) {
      assert ResOk(w, a, w.rn(a));
      StartSplitResBound(w, w', y, t, a);
    }
    StartSplitPlaces(w, w', y, t);
  }

  lemma StartSplitPlaces(w: World, w': World, y: Addr, t: TxId)
    requires StartSplit(w, w', y, t) && !Bound(w, w.sn(y))
    requires forall x {:trigger Bound(w', w'.sn(x))} :: Bound(w', w'.sn(x)) == Bound(w, w.sn(x))
    requires forall a {:trigger ResBound(w', w'.rn(a))} :: ResBound(w', w'.rn(a)) == ResBound(w, w.rn(a))
    ensures SameShape(ShapeOf(w), ShapeOf(w'))
  {
    forall p: Proc ensures Fa(w', p) == Fa(w, p) {}
    forall x ensures Ch(w', x) == Ch(w, x) {}
  }

  lemma OfferSame(w: World, w': World, y: Addr, x: Addr, t: TxId)
    requires Base(w) && Offer(w, w', y, x, t) && Tidy(w.sn(y)) && t in w.split && t != NO_TX
    ensures SameShape(ShapeOf(w), ShapeOf(w'))
  {
    assert NodeOk(w, y, w.sn(y));
    PlacedBySN(w, w', y);
  }

  lemma AcceptInsertSame(w: World, w': World, y: Addr, a: Addr, s: TxId)
    requires Base(w) && AcceptInsert(w, w', y, a, s)
    ensures SameShape(ShapeOf(w), ShapeOf(w'))
  {
    var n := w.sn(y);
    assert ([Zone(NOBODY, a, true)] + n.zones)[1..] == n.zones;
    PlacedBySN(w, w', y);
  }

  lemma StartInsertSame(w: World, w': World, a: Addr, s: TxId)
    requires Base(w) && StartInsert(w, w', a, s)
    ensures SameShape(ShapeOf(w), ShapeOf(w'))
  {
    PlacedByRN(w, w', a);
  }

  lemma PlacedByRN(w: World, w': World, a: Addr)
    requires OnlyRN(w, w', a, w'.rn(a)) && w'.sn == w.sn && w'.split == w.split && w'.decided == w.decided
    requires w'.rn(a).father == NOBODY <==> w.rn(a).father == NOBODY
    requires Fa(w', RN(a)) == Fa(w, RN(a))
    ensures SameShape(ShapeOf(w), ShapeOf(w'))
  {
    forall x ensures Bound(w', w'.sn(x)) == Bound(w, w.sn(x)) {}
    forall p: Proc ensures Fa(w', p) == Fa(w, p) {}
    forall x ensures Ch(w', x) == Ch(w, x) {}
  }

  /** What a resource node hears of a split agrees with its outcome. */
  lemma ResHears(w: World, a: Addr, taken: bool, src: Proc, msg: Msg, r: Res)
    requires Inv(w) && ResArrives(w, a, taken, src, msg, r)
    ensures IsRequest(msg) ==> msg.t in w.split && !Won(w, msg.t)
    ensures msg.Commit? && msg.t == r.tx ==> ResBound(w, r)
    ensures msg.Rollback? && msg.t == r.tx ==> !ResBound(w, r)
    ensures msg.Nack? ==> msg.t != r.tx || r.tx == NO_TX
  {
    ResArrivalOk(w, a, taken, src, msg, r);
    var ch := w.net(src, RN(a));
    if msg.t in w.split && w.owner[msg.t].SN? {
      if msg.t != NO_TX && RN(a) != w.owner[msg.t] { assert Coherent(msg.t, View(w, msg.t, RN(a))); }
      if taken && IsRequest(msg) { NumPositive(ch, Request, msg.t, msg); }
      if msg.Commit? { NumPositive(ch, Told(true), msg.t, msg); }
      if msg.Rollback? { NumPositive(ch, Told(false), msg.t, msg); }
      if !taken { assert w.rn(a).delayed[0] == (src, msg); }
    }
  }

  lemma ResPlace(r: Res, src: Proc, msg: Msg, b: bool, b': bool)
    requires var r' := HandleRes(r, src, msg).r;
        (r'.tx == r.tx ==> b' == b) && (r'.tx == NO_TX ==> !b') && (r.tx == NO_TX ==> !b)
    requires msg.t != NO_TX && !((msg.Ack? || msg.Nack?) && msg.t == r.tx)
    requires (msg.Commit? && msg.t == r.tx ==> b) && (msg.Rollback? && msg.t == r.tx ==> !b)
    requires msg.NewFather? ==> !b' || msg.t != HandleRes(r, src, msg).r.tx
    requires b ==> r.father != NOBODY && r.newFather != NOBODY
    ensures
      var r' := HandleRes(r, src, msg).r;
      ResFa(r', b') == ResFa(r, b) && (r'.father == NOBODY <==> r.father == NOBODY)
  {
  }

  lemma ResSame(w: World, w': World, a: Addr, taken: bool, src: Proc, msg: Msg, r: Res, r': ResReply)
    requires Inv(w) && InsertsOk(w) && ResTook(w, w', a, taken, src, msg, r, r') && r' == HandleRes(r, src, msg)
    requires !(msg.Ack? && msg.t == r.tx)
    ensures SameShape(ShapeOf(w), ShapeOf(w'))
  {
    ResPlaceHolds(w, a, taken, src, msg, r);
    PlacedByRN(w, w', a);
  }

  lemma ResPlaceHolds(w: World, a: Addr, taken: bool, src: Proc, msg: Msg, r: Res)
    requires Inv(w) && InsertsOk(w) && ResArrives(w, a, taken, src, msg, r) && !(msg.Ack? && msg.t == r.tx)
    ensures
      var r' := HandleRes(r, src, msg).r;
      ResFa(r', ResBound(w, r')) == ResFa(r, ResBound(w, r)) && (r'.father == NOBODY <==> r.father == NOBODY)
  {
    ResArrivalOk(w, a, taken, src, msg, r);
    ResHears(w, a, taken, src, msg, r);
    assert InsertRes(w, a, w.rn(a));
    var r' := HandleRes(r, src, msg).r;
    ResPlace(r, src, msg, ResBound(w, r), ResBound(w, r'));
  }

  // ---------------------------------------------------------------------------------------------
  // A resource node is inserted
  // ---------------------------------------------------------------------------------------------

  lemma InsertionFacts(w: World, a: Addr, src: Proc, msg: Msg, r: Res)
    requires Inv(w) && InsertsOk(w) && ResArrives(w, a, true, src, msg, r) && msg.Ack? && msg.t == r.tx
    ensures src.SN? && src.a != NOBODY && r.father == NOBODY && msg.t != NO_TX && msg.t !in w.split
    ensures w.sn(src.a).tx == msg.t && w.sn(src.a).driver == a && InsertsOne(w, w.sn(src.a))
  {
    ResArrivalOk(w, a, true, src, msg, r);
    assert msg in w.net(src, RN(a)) && InsertMsg(w, src, RN(a), msg);
    assert InsertsOne(w, w.sn(src.a)) && InsertRes(w, a, w.rn(a));
  }

  lemma InsertionBound(w: World, w': World, a: Addr, y: Addr, x: Addr)
    requires InsertsOk(w) && OnlyRN(w, w', a, w'.rn(a)) && w'.sn == w.sn && w'.split == w.split
    requires w'.decided == w.decided
    requires w.rn(a).father == NOBODY && w'.rn(a).father != NOBODY && w.rn(a).tx != NO_TX
    requires w.sn(y).tx == w.rn(a).tx && w.sn(y).tx !in w.split && w.sn(y).driver == a
    ensures Bound(w', w'.sn(x)) == if x == y then true else Bound(w, w.sn(x))
    ensures !Bound(w, w.sn(y))
  {
    assert InsertsOne(w, w.sn(x)) && InsertsOne(w, w.sn(y)) && InsertsAlone(w, x, y);
  }

  lemma AddedPlace(zs: seq<Zone>, rest: seq<Zone>, a: Addr)
    requires zs == [Zone(NOBODY, a, true)] + rest && Whole(rest) && a != NOBODY
    ensures Actuals(CommitZones(zs)) == [a] + Reals(rest) && Reals(zs) == Reals(rest)
  {
    WholeIsReal(rest);
    OneMoreCommitted(a, rest);
    assert zs[1..] == rest;
  }

  lemma InsertionPlace(n: Node, a: Addr)
    requires n.zones != [] && n.zones[0] == Zone(NOBODY, a, true) && Whole(n.zones[1..]) && a != NOBODY
    ensures NodeCh(n, true) == [a] + NodeCh(n, false)
  {
    AddedPlace(n.zones, n.zones[1..], a);
  }

  lemma ResInserted(w: World, w': World, a: Addr, src: Proc, msg: Msg, r: Res, r': ResReply)
    requires Inv(w) && InsertsOk(w) && AllTidy(w) && ResTook(w, w', a, true, src, msg, r, r')
    requires r' == HandleRes(r, src, msg)
    requires msg.Ack? && msg.t == r.tx
    ensures Inserted(ShapeOf(w), ShapeOf(w'), src.a, a)
  {
    InsertionFacts(w, a, src, msg, r);
    var y := src.a;
    InsertionShape(w, w', a, y);
  }

  lemma InsertionShape(w: World, w': World, a: Addr, y: Addr)
    requires InsertsOk(w) && AllTidy(w) && OnlyRN(w, w', a, w'.rn(a)) && w'.sn == w.sn && w'.split == w.split
    requires w'.decided == w.decided
    requires w.rn(a).father == NOBODY && w'.rn(a).father == y && y != NOBODY && w'.rn(a).tx == NO_TX && a != NOBODY
    requires w.sn(y).tx == w.rn(a).tx && w.sn(y).tx != NO_TX && w.sn(y).tx !in w.split && w.sn(y).driver == a
    ensures Inserted(ShapeOf(w), ShapeOf(w'), y, a)
  {
    forall x ensures Bound(w', w'.sn(x)) == (if x == y then true else Bound(w, w.sn(x))) && !Bound(w, w.sn(y)) {
      InsertionBound(w, w', a, y, x);
    }
    assert InsertsOne(w, w.sn(y)) && Tidy(w.sn(y));
    InsertionPlace(w.sn(y), a);
    forall p: Proc ensures Fa(w', p) == if p == RN(a) then y else Fa(w, p) {}
    forall x ensures Ch(w', x) == if x == y then [a] + Ch(w, y) else Ch(w, x) {}
  }

  // ---------------------------------------------------------------------------------------------
  // A split wins
  // ---------------------------------------------------------------------------------------------

  /** What was so when `x`, which was `s`, split. */
  ghost predicate PlanOk(x: Addr, s: Node, brother: Addr, c: Choice) {
    && ValidChoice(s, c) && s.tx != NO_TX && x != NOBODY && brother != NOBODY && Upper(s) != NOBODY
    && x != brother && x != Upper(s) && brother != Upper(s) && (s.father != NOBODY ==> s.newFather == NOBODY)
    && SN(brother) !in Movers(s, c.moved) && (s.father == NOBODY ==> SN(Upper(s)) !in Movers(s, c.moved))
    && AtRest(s.zones)
  }

  function CutOf(x: Addr, s: Node, brother: Addr, c: Choice): Cut
    requires ValidChoice(s, c)
  {
    Cut(x, brother, Upper(s), s.father == NOBODY, Actuals(CommitZones(Detach(s.zones, c.moved))), Links(s, c.moved))
  }

  /** All that is known just before the split wins. */
  ghost predicate Winning(w: World, x: Addr, s: Node, brother: Addr, c: Choice) {
    && PlanOk(x, s, brother, c) && ShapeOf(w).IsTree() && s.tx !in w.decided && s.tx in w.split
       && SplittingFor(w, x, s.tx)
    && SameSplit(w.sn(x), Split(x, s, brother, c.moved).n)
  }

  /** Whoever is asked waits, and has done what it was asked. */
  ghost predicate Waiting(w: World, x: Addr, s: Node, brother: Addr, c: Choice, y: Addr)
    requires ValidChoice(s, c)
  {
    var outs, n := Split(x, s, brother, c.moved).outs, w.sn(y);
    && NodeAsked(y, n, x, s.tx, outs) && Plain(n)
    && ((exists o :: o in outs && o.to == SN(y)) ==> Waits(w, s.tx, SN(y)))
    && (n.tx == s.tx && y != x ==>
          n.phase == StartIn || n.phase == Init || n.phase == AddChild || n.phase == ChangeFather)
    && (n.phase == ChangeFather ==> Whole(n.zones))
  }

  lemma AskedOut(x: Addr, s: Node, brother: Addr, c: Choice)
    requires ValidChoice(s, c)
    ensures
      var outs := Split(x, s, brother, c.moved).outs;
      && (exists o :: o in outs && o.to == SN(brother)) && (exists o :: o in outs && o.to == SN(Upper(s)))
      && forall p | p in Movers(s, c.moved) :: exists o :: o in outs && o.to == p
  {
    SplitSends(x, s, brother, c);
    var outs := Split(x, s, brother, c.moved).outs;
    assert outs[|outs| - 1].to == SN(brother) && outs[0].to == SN(Upper(s));
    forall p | p in Movers(s, c.moved) ensures exists o :: o in outs && o.to == p {
      var k :| 0 <= k < |c.moved| && Movers(s, c.moved)[k] == p;
      assert outs[1 + k].to == p;
    }
  }

  lemma BrotherWaits(w: World, x: Addr, s: Node, brother: Addr, c: Choice)
    requires PlanOk(x, s, brother, c) && Waiting(w, x, s, brother, c, brother)
    ensures var n := w.sn(brother);
            && n.tx == s.tx && n.phase == Init && n.level == s.level && NodeFa(n, true) == Upper(s)
               && NodeFa(n, false) == NOBODY
            && NodeCh(n, true) == Links(s, c.moved) && NodeCh(n, false) == []
  {
    AskedOut(x, s, brother, c);
    var n := w.sn(brother);
    RoleOf(w, x, s, brother, c, brother);
    NoneReal(n.zones);
    AdditionsBecomeReal(Nexts(n.zones));
  }

  lemma TopWaits(w: World, x: Addr, s: Node, brother: Addr, c: Choice)
    requires PlanOk(x, s, brother, c) && s.father == NOBODY && Waiting(w, x, s, brother, c, Upper(s))
    ensures var n := w.sn(Upper(s));
            && n.tx == s.tx && n.phase == Init && n.level == s.level + 1 && NodeFa(n, true) == NOBODY
               && NodeFa(n, false) == NOBODY
            && NodeCh(n, true) == [x, brother] && NodeCh(n, false) == []
  {
    AskedOut(x, s, brother, c);
    var n := w.sn(Upper(s));
    RoleOf(w, x, s, brother, c, Upper(s));
    NoneReal(n.zones);
    AdditionsBecomeReal(Nexts(n.zones));
  }

  lemma FatherWaits(w: World, x: Addr, s: Node, brother: Addr, c: Choice)
    requires PlanOk(x, s, brother, c) && s.father != NOBODY && Waiting(w, x, s, brother, c, s.father)
    requires SN(s.father) !in Movers(s, c.moved)
    ensures var n := w.sn(s.father);
            && n.tx == s.tx && n.phase == AddChild && NodeFa(n, true) == NodeFa(n, false)
            && NodeCh(n, true) == [brother] + NodeCh(n, false)
  {
    AskedOut(x, s, brother, c);
    RoleOf(w, x, s, brother, c, s.father);
    InsertionPlace(w.sn(s.father), brother);
  }

  /** Whoever waits does so in the role of its request. */
  lemma RoleOf(w: World, x: Addr, s: Node, brother: Addr, c: Choice, y: Addr)
    requires PlanOk(x, s, brother, c) && Waiting(w, x, s, brother, c, y) && w.sn(y).tx == s.tx
    ensures
      var n := w.sn(y);
      && (n.phase == ChangeFather ==> SN(y) in Movers(s, c.moved) && n.newFather == brother)
      && (n.phase == Init ==>
            n.zones == Additions(Nexts(n.zones))
            && (if y == brother then n.newFather == Upper(s) && n.level == s.level
               && Nexts(n.zones) == Links(s, c.moved)
                else s.father == NOBODY && y == Upper(s) && n.newFather == NOBODY && n.level == s.level + 1
                     && Nexts(n.zones) == [x, brother]))
      && (n.phase == AddChild ==>
            s.father != NOBODY && y == s.father && AddsChild(n.zones, x) && n.zones[0].next == brother)
  {
    var n := w.sn(y);
    if n.phase == ChangeFather { WhatIsAsked(x, s, brother, c, Out(SN(y), NewFather(s.tx, n.newFather))); }
    if n.phase == Init {
      WhatIsAsked(x, s, brother, c, Out(SN(y), InitStrNode(s.tx, n.newFather, Nexts(n.zones), n.level)));
    }
    if n.phase == AddChild { WhatIsAsked(x, s, brother, c, Out(SN(y), NewChild(s.tx, n.zones[0].next))); }
  }

  lemma MoverWaits(w: World, x: Addr, s: Node, brother: Addr, c: Choice, y: Addr)
    requires PlanOk(x, s, brother, c) && Waiting(w, x, s, brother, c, y) && SN(y) in Movers(s, c.moved)
    requires s.father == NOBODY || y != s.father
    ensures var n := w.sn(y);
            n.tx == s.tx && n.phase == ChangeFather && NodeFa(n, true) == brother && NodeCh(n, true) == NodeCh(n, false)
  {
    AskedOut(x, s, brother, c);
    RoleOf(w, x, s, brother, c, y);
    WholeIsReal(w.sn(y).zones);
  }

  /** Some zones stay: which links are left, and in what order. */
  ghost predicate Kept(zs: seq<Zone>, ds: seq<Zone>, a: Addr)
    requires |ds| == |zs|
  {
    exists i :: 0 <= i < |zs| && zs[i].actual == a && !ds[i].IsDeletion()
  }

  lemma {:induction false} StayKept(zs: seq<Zone>, ds: seq<Zone>, a: Addr)
    requires AtRest(zs) && Marked(zs, ds)
    ensures a in Actuals(CommitZones(ds)) <==> Kept(zs, ds, a)
  {
    if zs != [] {
      var rest := CommitZones(ds[1..]);
      assert zs[0] in zs && forall z | z in zs[1..] :: z in zs;
      StayKept(zs[1..], ds[1..], a);
      if Kept(zs[1..], ds[1..], a) {
        var i :| 0 <= i < |zs[1..]| && zs[1..][i].actual == a && !ds[1..][i].IsDeletion();
        assert zs[i + 1].actual == a && !ds[i + 1].IsDeletion();
      }
      if Kept(zs, ds, a) {
        var i :| 0 <= i < |zs| && zs[i].actual == a && !ds[i].IsDeletion();
        if i > 0 { assert zs[1..][i - 1].actual == a && !ds[1..][i - 1].IsDeletion(); }
      }
      if !ds[0].IsDeletion() {
        assert CommitZones(ds) == [ds[0].Commit()] + rest && ds[0].Commit().actual == zs[0].actual;
        assert Actuals([ds[0].Commit()] + rest) == [zs[0].actual] + Actuals(rest);
      }
    }
  }

  lemma {:induction false} StayDistinct(zs: seq<Zone>, ds: seq<Zone>)
    requires AtRest(zs) && Marked(zs, ds) && Distinct(Actuals(zs))
    ensures Distinct(Actuals(CommitZones(ds)))
  {
    if zs != [] {
      var rest := CommitZones(ds[1..]);
      assert zs[0] in zs && forall z | z in zs[1..] :: z in zs;
      forall i, j | 0 <= i < j < |zs[1..]| ensures Actuals(zs[1..])[i] != Actuals(zs[1..])[j] {
        assert Actuals(zs)[i + 1] != Actuals(zs)[j + 1];
      }
      StayDistinct(zs[1..], ds[1..]);
      if !ds[0].IsDeletion() {
        StayKept(zs[1..], ds[1..], zs[0].actual);
        forall i | 0 <= i < |zs[1..]| ensures zs[1..][i].actual != zs[0].actual {
          assert Actuals(zs)[0] != Actuals(zs)[i + 1];
        }
        assert CommitZones(ds) == [ds[0].Commit()] + rest && ds[0].Commit().actual == zs[0].actual;
        FrontDistinct(zs[0].actual, Actuals(rest));
        assert Actuals([ds[0].Commit()] + rest) == [zs[0].actual] + Actuals(rest);
      }
    }
  }

  lemma FrontDistinct(a: Addr, s: seq<Addr>)
    requires Distinct(s) && a !in s
    ensures Distinct([a] + s)
  {
  }

  /** Of distinct children some stay and the others go. */
  lemma StayOrGo(s: Node, c: Choice)
    requires AtRest(s.zones) && ValidChoice(s, c) && Distinct(Actuals(s.zones))
    ensures
      var stay, go := Actuals(CommitZones(Detach(s.zones, c.moved))), Links(s, c.moved);
      && Distinct(stay) && Distinct(go)
      && (forall a :: a in stay || a in go <==> a in Actuals(s.zones)) && (forall a :: !(a in stay && a in go))
  {
    var zs, ds := s.zones, Detach(s.zones, c.moved);
    var stay, go := Actuals(CommitZones(ds)), Links(s, c.moved);
    StayDistinct(zs, ds);
    forall i, j | 0 <= i < j < |go| ensures go[i] != go[j] {
      assert go[i] == Actuals(zs)[c.moved[i]] && go[j] == Actuals(zs)[c.moved[j]];
      assert c.moved[i] < c.moved[j] || c.moved[j] < c.moved[i];
    }
    forall a ensures (a in stay || a in go <==> a in Actuals(zs)) && !(a in stay && a in go) {
      StayKept(zs, ds, a);
      GoesOrKept(s, c, a);
    }
  }

  lemma GoesOrKept(s: Node, c: Choice, a: Addr)
    requires AtRest(s.zones) && ValidChoice(s, c) && Distinct(Actuals(s.zones))
    ensures a in Links(s, c.moved) || Kept(s.zones, Detach(s.zones, c.moved), a) <==> a in Actuals(s.zones)
    ensures !(a in Links(s, c.moved) && Kept(s.zones, Detach(s.zones, c.moved), a))
  {
    var zs, ds, go := s.zones, Detach(s.zones, c.moved), Links(s, c.moved);
    if a in go { GoneIsDeleted(s, c, a); }
    if Kept(zs, ds, a) {
      var i :| 0 <= i < |zs| && zs[i].actual == a && !ds[i].IsDeletion();
      assert Actuals(zs)[i] == a;
    }
    if a in Actuals(zs) && a !in go {
      var i :| 0 <= i < |zs| && Actuals(zs)[i] == a;
      MovedGoes(s, c, i);
      assert zs[i] in zs && ds[i] == zs[i];
    }
  }

  lemma GoneIsDeleted(s: Node, c: Choice, a: Addr)
    requires AtRest(s.zones) && ValidChoice(s, c) && Distinct(Actuals(s.zones)) && a in Links(s, c.moved)
    ensures !Kept(s.zones, Detach(s.zones, c.moved), a) && a in Actuals(s.zones)
  {
    var zs, ds := s.zones, Detach(s.zones, c.moved);
    var k :| 0 <= k < |c.moved| && Links(s, c.moved)[k] == a;
    assert Actuals(zs)[c.moved[k]] == a;
    forall i | 0 <= i < |zs| && zs[i].actual == a ensures ds[i].IsDeletion() {
      assert Actuals(zs)[i] == a && zs[i] in zs;
      assert i == c.moved[k];
    }
  }

  lemma MovedGoes(s: Node, c: Choice, i: nat)
    requires ValidChoice(s, c) && i < |s.zones|
    ensures i in c.moved ==> s.zones[i].actual in Links(s, c.moved)
  {
    if i in c.moved {
      var k :| 0 <= k < |c.moved| && c.moved[k] == i;
      assert Links(s, c.moved)[k] == s.zones[i].actual;
    }
  }

  /** A resource node that was asked waits, and for what it was asked. */
  ghost predicate ResWaiting(w: World, x: Addr, s: Node, brother: Addr, c: Choice, a: Addr)
    requires ValidChoice(s, c)
  {
    var outs, r := Split(x, s, brother, c.moved).outs, w.rn(a);
    ResAsked(a, r, s.tx, outs) && ((exists o :: o in outs && o.to == RN(a)) ==> r.tx == s.tx)
  }

  ghost predicate AllWait(w: World, x: Addr, s: Node, brother: Addr, c: Choice)
    requires ValidChoice(s, c)
  {
    && (forall y :: Waiting(w, x, s, brother, c, y))
    && (forall a :: ResWaiting(w, x, s, brother, c, a))
  }

  lemma DriverPlace(w: World, x: Addr, s: Node, brother: Addr, c: Choice)
    requires Winning(w, x, s, brother, c)
    ensures Fa(w, SN(x)) == s.father && Ch(w, x) == Actuals(s.zones) && w.sn(x).level == s.level
  {
    forall z | z in s.zones ensures z.actual != NOBODY {}
    AllReal(s.zones);
    SameReals(s.zones, Detach(s.zones, c.moved));
  }

  lemma MoverIsLink(s: Node, c: Choice, p: Proc)
    requires ValidChoice(s, c)
    ensures p in Movers(s, c.moved) <==> p.a in Links(s, c.moved) && p == if s.level == 0 then RN(p.a) else SN(p.a)
    ensures p.a in Links(s, c.moved) ==> p.a in Actuals(s.zones)
  {
    if p in Movers(s, c.moved) {
      var k :| 0 <= k < |c.moved| && Movers(s, c.moved)[k] == p;
      assert Links(s, c.moved)[k] == p.a;
    }
    if p.a in Links(s, c.moved) {
      var k :| 0 <= k < |c.moved| && Links(s, c.moved)[k] == p.a;
      assert Movers(s, c.moved)[k] == if s.level == 0 then RN(p.a) else SN(p.a);
      assert Actuals(s.zones)[c.moved[k]] == p.a;
    }
  }

  /** The children that go are children now. */
  lemma GoersAreKids(w: World, x: Addr, s: Node, brother: Addr, c: Choice, p: Proc)
    requires Winning(w, x, s, brother, c)
    ensures p in Movers(s, c.moved) <==> p.a in Links(s, c.moved) && p == ShapeOf(w).Kid(x, p.a)
    ensures p in Movers(s, c.moved) ==> Fa(w, p) == x && (s.level > 0 ==> s.level == w.sn(p.a).level + 1)
  {
    DriverPlace(w, x, s, brother, c);
    MoverIsLink(s, c, p);
    assert ShapeOf(w).ChildOk(x, p.a);
  }

  /** The father of a node is not among its children: it is one level up. */
  lemma FatherStays(w: World, x: Addr, s: Node, brother: Addr, c: Choice)
    requires Winning(w, x, s, brother, c) && s.father != NOBODY
    ensures SN(s.father) !in Movers(s, c.moved)
  {
    DriverPlace(w, x, s, brother, c);
    GoersAreKids(w, x, s, brother, c, SN(s.father));
    assert ShapeOf(w).FatherOk(SN(x)) && ShapeOf(w).ChildOk(s.father, x);
  }

  lemma CutIsOk(w: World, x: Addr, s: Node, brother: Addr, c: Choice)
    requires Winning(w, x, s, brother, c) && AllWait(w, x, s, brother, c) && !Won(w, s.tx)
    ensures CutOk(ShapeOf(w), CutOf(x, s, brother, c))
  {
    DriverPlace(w, x, s, brother, c);
    assert Distinct(ShapeOf(w).ch(x));
    StayOrGo(s, c);
    assert Waiting(w, x, s, brother, c, brother) && Waiting(w, x, s, brother, c, Upper(s));
    BrotherWaits(w, x, s, brother, c);
    if s.father == NOBODY { TopWaits(w, x, s, brother, c); }
  }

  /** In this step `t`, driven by `x`, wins. */
  ghost predicate WinsStep(w: World, w': World, x: Addr, t: TxId, src: Proc) {
    && OnlySN(w, w', x, w'.sn(x)) && w'.sn(x) == Committed(x, Heard(w.sn(x), src)).n && w'.rn == w.rn
       && w'.split == w.split
    && (forall u {:trigger Won(w', u)} :: Won(w', u) <==> Won(w, u) || u == t)
  }

  lemma WonPlaces(w: World, w': World, x: Addr, t: TxId, src: Proc, y: Addr)
    requires WinsStep(w, w', x, t, src) && t in w.split && t != NO_TX && !Won(w, t) && y != x
    requires w.sn(y).tx == t ==> !Driving(w.sn(y))
    ensures Fa(w', SN(y)) == if w.sn(y).tx == t then NodeFa(w.sn(y), true) else Fa(w, SN(y))
    ensures Ch(w', y) == if w.sn(y).tx == t then NodeCh(w.sn(y), true) else Ch(w, y)
    ensures w.sn(y).tx == t ==> Fa(w, SN(y)) == NodeFa(w.sn(y), false) && Ch(w, y) == NodeCh(w.sn(y), false)
  {
  }

  lemma DriverWins(w: World, w': World, x: Addr, s: Node, brother: Addr, c: Choice, src: Proc)
    requires Winning(w, x, s, brother, c) && WinsStep(w, w', x, s.tx, src)
    ensures Fa(w', SN(x)) == Upper(s) && Ch(w', x) == Actuals(CommitZones(Detach(s.zones, c.moved)))
    ensures w'.sn(x).level == s.level
  {
    forall z | z in Detach(s.zones, c.moved) ensures ZoneOk(z) {
      var i :| 0 <= i < |s.zones| && Detach(s.zones, c.moved)[i] == z;
      assert s.zones[i] in s.zones;
    }
    CommitIsReal(Detach(s.zones, c.moved));
  }

  /** Where every process has its father after the win. */
  lemma FatherMoves(w: World, w': World, x: Addr, s: Node, brother: Addr, c: Choice, src: Proc, p: Proc)
    requires Winning(w, x, s, brother, c) && AllWait(w, x, s, brother, c) && WinsStep(w, w', x, s.tx, src)
    requires !Won(w, s.tx)
    ensures Fa(w', p) == if p == SN(x) || p == SN(brother) then Upper(s)
                         else if p in Movers(s, c.moved) then brother else Fa(w, p)
  {
    if p == SN(x) {
      DriverWins(w, w', x, s, brother, c, src);
    } else if p.SN? {
      StructureFatherMoves(w, w', x, s, brother, c, src, p.a);
    } else {
      ResourceFatherMoves(w, w', x, s, brother, c, src, p.a);
    }
  }

  lemma StructureFatherMoves(w: World, w': World, x: Addr, s: Node, brother: Addr, c: Choice, src: Proc, y: Addr)
    requires Winning(w, x, s, brother, c) && AllWait(w, x, s, brother, c) && WinsStep(w, w', x, s.tx, src)
    requires !Won(w, s.tx) && y != x
    ensures Fa(w', SN(y)) == if y == brother then Upper(s) else if SN(y) in Movers(s, c.moved)
        then brother else Fa(w, SN(y))
  {
    assert Waiting(w, x, s, brother, c, y) && Waiting(w, x, s, brother, c, brother)
      && Waiting(w, x, s, brother, c, Upper(s));
    WonPlaces(w, w', x, s.tx, src, y);
    if s.father != NOBODY { FatherStays(w, x, s, brother, c); }
    if y == brother {
      BrotherWaits(w, x, s, brother, c);
    } else if SN(y) in Movers(s, c.moved) {
      MoverWaits(w, x, s, brother, c, y);
    } else if w.sn(y).tx == s.tx {
      RoleOf(w, x, s, brother, c, y);
      if w.sn(y).phase == StartIn {
        FreshPlace(w.sn(y), true);
      } else if w.sn(y).phase == Init {
        TopWaits(w, x, s, brother, c);
      } else {
        FatherWaits(w, x, s, brother, c);
      }
    }
  }

  lemma ResourceFatherMoves(w: World, w': World, x: Addr, s: Node, brother: Addr, c: Choice, src: Proc, a: Addr)
    requires Winning(w, x, s, brother, c) && AllWait(w, x, s, brother, c) && WinsStep(w, w', x, s.tx, src)
    requires !Won(w, s.tx)
    ensures Fa(w', RN(a)) == if RN(a) in Movers(s, c.moved) then brother else Fa(w, RN(a))
  {
    assert ResWaiting(w, x, s, brother, c, a);
    AskedOut(x, s, brother, c);
    if w.rn(a).tx == s.tx {
      WhatIsAsked(x, s, brother, c, Out(RN(a), NewFather(s.tx, w.rn(a).newFather)));
    }
  }

  /** Where every node has its children after the win. */
  lemma ChildrenMove(w: World, w': World, x: Addr, s: Node, brother: Addr, c: Choice, src: Proc, y: Addr)
    requires Winning(w, x, s, brother, c) && AllWait(w, x, s, brother, c) && WinsStep(w, w', x, s.tx, src)
    requires !Won(w, s.tx)
    ensures
      var cut := CutOf(x, s, brother, c);
      Ch(w', y) == if y == x then cut.stay else if y == brother then cut.go
                   else if y != cut.top then Ch(w, y)
                   else if cut.root then [x, brother] else [brother] + Ch(w, y)
  {
    if y == x {
      DriverWins(w, w', x, s, brother, c, src);
    } else {
      assert Waiting(w, x, s, brother, c, y) && Waiting(w, x, s, brother, c, brother)
        && Waiting(w, x, s, brother, c, Upper(s));
      WonPlaces(w, w', x, s.tx, src, y);
      if s.father != NOBODY { FatherStays(w, x, s, brother, c); }
      if y == brother {
        BrotherWaits(w, x, s, brother, c);
      } else if y == Upper(s) {
        if s.father == NOBODY { TopWaits(w, x, s, brother, c); } else { FatherWaits(w, x, s, brother, c); }
      } else if w.sn(y).tx == s.tx {
        RoleOf(w, x, s, brother, c, y);
        if w.sn(y).phase == StartIn {
          FreshPlace(w.sn(y), true);
        } else {
          WholeIsReal(w.sn(y).zones);
        }
      }
    }
  }

  /** `p` has its father where the cut puts it. */
  ghost predicate FatherCut(s: Shape, s': Shape, c: Cut, p: Proc) {
    s'.fa(p) == if p == SN(c.x) || p == SN(c.brother) then c.top
                else if p.a in c.go && p == s.Kid(c.x, p.a) then c.brother else s.fa(p)
  }

  ghost predicate ChildrenCut(s: Shape, s': Shape, c: Cut, y: Addr) {
    && s'.ch(y) == (if y == c.x then c.stay else if y == c.brother then c.go
                    else if y != c.top then s.ch(y)
                    else if c.root then [c.x, c.brother] else [c.brother] + s.ch(y))
    && s'.lev(y) == s.lev(y)
  }

  lemma CutsAreMoves(s: Shape, s': Shape, c: Cut)
    requires (forall p :: FatherCut(s, s', c, p)) && forall y :: ChildrenCut(s, s', c, y)
    ensures Moves(s, s', c)
  {
    forall p ensures s'.fa(p) == if p == SN(c.x) || p == SN(c.brother) then c.top
                                 else if p.a in c.go && p == s.Kid(c.x, p.a) then c.brother else s.fa(p)
    {
      assert FatherCut(s, s', c, p);
    }
    forall y
      ensures s'.ch(y) == (if y == c.x then c.stay else if y == c.brother then c.go
                           else if y != c.top then s.ch(y)
                           else if c.root then [c.x, c.brother] else [c.brother] + s.ch(y))
      ensures s'.lev(y) == s.lev(y)
    {
      assert ChildrenCut(s, s', c, y);
    }
  }

  lemma WinFather(w: World, w': World, x: Addr, s: Node, brother: Addr, c: Choice, src: Proc, p: Proc)
    requires Winning(w, x, s, brother, c) && AllWait(w, x, s, brother, c) && WinsStep(w, w', x, s.tx, src)
    requires !Won(w, s.tx)
    ensures FatherCut(ShapeOf(w), ShapeOf(w'), CutOf(x, s, brother, c), p)
  {
    FatherMoves(w, w', x, s, brother, c, src, p);
    GoersAreKids(w, x, s, brother, c, p);
  }

  lemma WinChildren(w: World, w': World, x: Addr, s: Node, brother: Addr, c: Choice, src: Proc, y: Addr)
    requires Winning(w, x, s, brother, c) && AllWait(w, x, s, brother, c) && WinsStep(w, w', x, s.tx, src)
    requires !Won(w, s.tx)
    ensures ChildrenCut(ShapeOf(w), ShapeOf(w'), CutOf(x, s, brother, c), y)
  {
    ChildrenMove(w, w', x, s, brother, c, src, y);
    DriverWins(w, w', x, s, brother, c, src);
    DriverPlace(w, x, s, brother, c);
  }

  /** A split that wins leaves a tree. */
  lemma WinMoves(w: World, w': World, x: Addr, s: Node, brother: Addr, c: Choice, src: Proc)
    requires Winning(w, x, s, brother, c) && AllWait(w, x, s, brother, c) && WinsStep(w, w', x, s.tx, src)
    requires !Won(w, s.tx)
    ensures ShapeOf(w').IsTree()
    ensures forall m: nat | |s.zones| == 2 * m :: StaysFull(ShapeOf(w), ShapeOf(w'), m)
  {
    var cut := CutOf(x, s, brother, c);
    forall p ensures FatherCut(ShapeOf(w), ShapeOf(w'), cut, p) { WinFather(w, w', x, s, brother, c, src, p); }
    forall y ensures ChildrenCut(ShapeOf(w), ShapeOf(w'), cut, y) { WinChildren(w, w', x, s, brother, c, src, y); }
    CutIsOk(w, x, s, brother, c);
    CutsAreMoves(ShapeOf(w), ShapeOf(w'), cut);
    MovedTree(ShapeOf(w), ShapeOf(w'), cut);
    forall m: nat | |s.zones| == 2 * m ensures StaysFull(ShapeOf(w), ShapeOf(w'), m) {
      SplitDealsOut(s, c, NOBODY, m);
      MovedFull(ShapeOf(w), ShapeOf(w'), cut, m);
    }
  }

  // ---------------------------------------------------------------------------------------------
  // Steps in which no split wins
  // ---------------------------------------------------------------------------------------------

  ghost predicate NobodyWins(w: World, w': World) {
    forall t {:trigger Won(w', t)} :: Won(w', t) ==> Won(w, t)
  }

  lemma WinIsSeen(w: World, w': World, y: Addr, n: Node, c: Choice, r: Reply, src: Proc, msg: Msg)
    requires Records(w, w', y, n, r, msg) && NobodyWins(w, w') && DriverOk(w, y, n)
    ensures !WinsNow(n, msg, r.n)
  {
    if WinsNow(n, msg, r.n) { assert Won(w', n.tx); }
  }

  lemma TookQuietly(w: World, w': World, y: Addr, taken: bool, src: Proc, msg: Msg, n: Node, c: Choice, r: Reply)
    requires Inv(w) && InsertsOk(w) && Tidy(n) && NobodyWins(w, w')
    requires Took(w, w', y, taken, src, msg, n, r) && ValidChoice(n, c) && r == Handle(y, w.m, n, src, msg, c)
    ensures SameShape(ShapeOf(w), ShapeOf(w'))
  {
    ArrivalOk(w, y, taken, src, msg, n);
    WinIsSeen(w, w', y, n, c, r, src, msg);
    TookNoWin(w, w', y, n, c, r, src, msg);
    TookSame(w, w', y, taken, src, msg, n, c, r);
  }

  lemma DeliverTree(w: World, w': World, y: Addr, src: Proc, c: Choice)
    requires Inv(w) && InsertsOk(w) && Tidy(w.sn(y)) && NobodyWins(w, w') && Deliver(w, w', y, src, c)
    ensures SameShape(ShapeOf(w), ShapeOf(w'))
  {
    var n, msg := w.sn(y), w.net(src, SN(y))[0];
    DeliverTakes(w, w', y, src, c, n, msg);
    TookQuietly(w, w', y, true, src, msg, n, c, Handle(y, w.m, n, src, msg, c));
  }

  lemma ReplayTree(w: World, w': World, y: Addr, c: Choice)
    requires Inv(w) && InsertsOk(w) && Tidy(w.sn(y)) && NobodyWins(w, w') && Replay(w, w', y, c)
    ensures SameShape(ShapeOf(w), ShapeOf(w'))
  {
    var n := w.sn(y).(delayed := w.sn(y).delayed[1..]);
    var (src, msg) := w.sn(y).delayed[0];
    ReplayTakes(w, w', y, c, n, src, msg);
    TookQuietly(w, w', y, false, src, msg, n, c, Handle(y, w.m, n, src, msg, c));
  }

  lemma OfferTree(w: World, w': World, y: Addr, x: Addr, t: TxId)
    requires Inv(w) && Tidy(w.sn(y)) && Offer(w, w', y, x, t)
    ensures SameShape(ShapeOf(w), ShapeOf(w'))
  {
    OfferedTo(w, w', y, x, t);
    OfferSame(w, w', y, x, t);
  }

  lemma SearchTree(w: World, w': World)
    requires w' == w.(needed := w'.needed, armed := w'.armed)
    ensures SameShape(ShapeOf(w), ShapeOf(w'))
  {
    forall x ensures Bound(w', w'.sn(x)) == Bound(w, w.sn(x)) {}
    forall p: Proc ensures Fa(w', p) == Fa(w, p) {}
    forall x ensures Ch(w', x) == Ch(w, x) {}
  }

  lemma ResSendTree(w: World, w': World, a: Addr)
    requires ResSend(w, w', a)
    ensures SameShape(ShapeOf(w), ShapeOf(w'))
  {
    PlacedByRN(w, w', a);
  }

  lemma ResTookTree(w: World, w': World, a: Addr, taken: bool, src: Proc, msg: Msg, r: Res, r': ResReply)
    requires Inv(w) && InsertsOk(w) && AllTidy(w) && ShapeOf(w).IsTree()
    requires ResTook(w, w', a, taken, src, msg, r, r') && r' == HandleRes(r, src, msg)
    ensures ShapeOf(w').IsTree() && StaysFull(ShapeOf(w), ShapeOf(w'), w.m)
  {
    if msg.Ack? && msg.t == r.tx {
      ResArrivalOk(w, a, taken, src, msg, r);
      ResInserted(w, w', a, src, msg, r, r');
      InsertedTree(ShapeOf(w), ShapeOf(w'), src.a, a);
      InsertedFull(ShapeOf(w), ShapeOf(w'), src.a, a, w.m);
    } else {
      ResSame(w, w', a, taken, src, msg, r, r');
      SameTree(ShapeOf(w), ShapeOf(w'));
      SameFull(ShapeOf(w), ShapeOf(w'), w.m);
    }
  }

  lemma ResReplayTree(w: World, w': World, a: Addr)
    requires Inv(w) && InsertsOk(w) && AllTidy(w) && ShapeOf(w).IsTree() && ResReplay(w, w', a)
    ensures ShapeOf(w').IsTree() && StaysFull(ShapeOf(w), ShapeOf(w'), w.m)
  {
    var r := w.rn(a).(delayed := w.rn(a).delayed[1..]);
    var (src, msg) := w.rn(a).delayed[0];
    ResReplayTakes(w, w', a, r, src, msg);
    ResTookTree(w, w', a, false, src, msg, r, HandleRes(r, src, msg));
  }

  lemma ResDeliverTree(w: World, w': World, a: Addr, src: Proc)
    requires Inv(w) && InsertsOk(w) && AllTidy(w) && ShapeOf(w).IsTree() && ResDeliver(w, w', a, src)
    ensures ShapeOf(w').IsTree() && StaysFull(ShapeOf(w), ShapeOf(w'), w.m)
  {
    var msg := w.net(src, RN(a))[0];
    ResTookTree(w, w', a, true, src, msg, w.rn(a), HandleRes(w.rn(a), src, msg));
  }

  lemma SameShapeStep(w: World, w': World, act: Action)
    requires Inv(w) && InsertsOk(w) && AllTidy(w) && NobodyWins(w, w') && Does(w, w', act) && !act.AResDeliver?
    requires !act.AResReplay?
    ensures SameShape(ShapeOf(w), ShapeOf(w'))
  {
    match act
    case ADeliver(y, src, c) =>
      assert Tidy(w.sn(y));
      DeliverTree(w, w', y, src, c);
    case AReplay(y, c) =>
      assert Tidy(w.sn(y));
      ReplayTree(w, w', y, c);
    case AStartSplit(y, t) =>
      assert Tidy(w.sn(y));
      StartSplitSame(w, w', y, t);
    case ARepeat(_, _) => SearchTree(w, w');
    case ALose(_, _, _) => SearchTree(w, w');
    case AOffer(y, x, t) =>
      assert Tidy(w.sn(y));
      OfferTree(w, w', y, x, t);
    case AStartInsert(a, s) => StartInsertSame(w, w', a, s);
    case AAcceptInsert(y, a, s) => AcceptInsertSame(w, w', y, a, s);
    case AResSend(a) => ResSendTree(w, w', a);
  }

  lemma QuietTree(w: World, w': World, act: Action)
    requires Inv(w) && InsertsOk(w) && AllTidy(w) && ShapeOf(w).IsTree() && NobodyWins(w, w') && Does(w, w', act)
    ensures ShapeOf(w').IsTree() && StaysFull(ShapeOf(w), ShapeOf(w'), w.m)
  {
    if act.AResDeliver? {
      ResDeliverTree(w, w', act.a, act.src);
    } else if act.AResReplay? {
      ResReplayTree(w, w', act.a);
    } else {
      SameShapeStep(w, w', act);
      SameTree(ShapeOf(w), ShapeOf(w'));
      SameFull(ShapeOf(w), ShapeOf(w'), w.m);
    }
  }
}
