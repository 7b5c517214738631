/**
 The random tree of the simulator (src/oldsim/cases/structure.cpp): which nodes become branches, who is
 whose father, and which zone every branch is told to cover. A node has a leaf and a branch.
 */
module TreeBuilder {
  import opened Common

  datatype Zone = Zone(lo: nat, hi: nat)

  function Hull(a: Zone, b: Zone): Zone {
    Zone(if b.lo < a.lo then b.lo else a.lo, if b.hi > a.hi then b.hi else a.hi)
  }

  /** The leaf or the branch of a node. */
  datatype Ref = LeafOf(addr: nat) | BranchOf(addr: nat)

  /** The children of a branch and their zones. */
  datatype Links = Links(left: nat, right: nat, leftZone: Zone, rightZone: Zone)

  datatype Net = Net(father: map<Ref, nat>, branches: map<nat, Links>)

  datatype Tree = Leaf(addr: nat) | Branch(addr: nat, left: Tree, right: Tree)

  // ---------------------------------------------------------------------------------------------
  // Trees
  // ---------------------------------------------------------------------------------------------

  function Root(t: Tree): Ref {
    if t.Leaf? then LeafOf(t.addr) else BranchOf(t.addr)
  }

  function Leaves(t: Tree): seq<nat> {
    match t
    case Leaf(a) => [a]
    case Branch(_, l, r) => Leaves(l) + Leaves(r)
  }

  function Size(t: Tree): nat {
    match t
    case Leaf(_) => 1
    case Branch(_, l, r) => Size(l) + Size(r)
  }

  function ZoneOf(t: Tree): Zone {
    match t
    case Leaf(a) => Zone(a, a)
    case Branch(_, l, r) => Hull(ZoneOf(l), ZoneOf(r))
  }

  /** How often a leaf or a branch occurs. */
  function Uses(t: Tree, ref: Ref): nat {
    match t
    case Leaf(a) => One(ref == LeafOf(a))
    case Branch(b, l, r) => One(ref == BranchOf(b)) + Uses(l, ref) + Uses(r, ref)
  }

  /** The leaves are numbered one after another from `a`. */
  predicate InOrder(t: Tree, a: nat) {
    match t
    case Leaf(b) => b == a
    case Branch(_, l, r) => InOrder(l, a) && InOrder(r, a + Size(l))
  }

  /** All leaves are from `lo` to `hi` steps below the root. */
  predicate Depths(t: Tree, lo: int, hi: int) {
    match t
    case Leaf(_) => lo <= 0 <= hi
    case Branch(_, l, r) => Depths(l, lo - 1, hi - 1) && Depths(r, lo - 1, hi - 1)
  }

  /** The tree is what the nodes know. */
  ghost predicate Holds(net: Net, t: Tree) {
    match t
    case Leaf(_) => true
    case Branch(b, l, r) =>
      && b in net.branches && net.branches[b] == Links(l.addr, r.addr, ZoneOf(l), ZoneOf(r))
      && Root(l) in net.father && net.father[Root(l)] == b && Root(r) in net.father && net.father[Root(r)] == b
      && Holds(net, l) && Holds(net, r)
  }

  lemma {:induction false} SizePositive(t: Tree)
    ensures Size(t) >= 1 && (Size(t) == 1 <==> t.Leaf?)
  {
    if t.Branch? {
      SizePositive(t.left);
      SizePositive(t.right);
    }
  }

  lemma {:induction false} RootIsUsed(t: Tree)
    ensures Uses(t, Root(t)) >= 1
  {
  }

  /** The zone of a tree in order is exactly the interval of its leaves. */
  lemma {:induction false} ZoneIsInterval(t: Tree, a: nat)
    requires InOrder(t, a)
    ensures Size(t) >= 1 && ZoneOf(t) == Zone(a, a + Size(t) - 1)
    ensures Leaves(t) == seq(Size(t), i => a + i)
  {
    SizePositive(t);
    if t.Branch? {
      SizePositive(t.left);
      SizePositive(t.right);
      ZoneIsInterval(t.left, a);
      ZoneIsInterval(t.right, a + Size(t.left));
    }
  }

  lemma {:induction false} LeafUses(t: Tree, a: nat, x: nat)
    requires InOrder(t, a)
    ensures Uses(t, LeafOf(x)) == One(a <= x < a + Size(t))
  {
    SizePositive(t);
    if t.Branch? {
      LeafUses(t.left, a, x);
      LeafUses(t.right, a + Size(t.left), x);
    }
  }

  /** A tree is not concerned by what happens to others, nor by who becomes its father. */
  lemma {:induction false} Frame(net: Net, net': Net, t: Tree)
    requires Holds(net, t) && forall ref :: Uses(t, ref) <= 1
    requires forall ref | Uses(t, ref) > 0 && ref != Root(t) && ref in net.father ::
        ref in net'.father && net'.father[ref] == net.father[ref]
    requires forall b | Uses(t, BranchOf(b)) > 0 && b in net.branches ::
        b in net'.branches && net'.branches[b] == net.branches[b]
    ensures Holds(net', t)
  {
    match t
    case Leaf(_) =>
    case Branch(b, l, r) =>
      RootIsUsed(l);
      RootIsUsed(r);
      assert Uses(t, BranchOf(b)) <= 1;
      assert Uses(t, BranchOf(b)) == 1 + Uses(l, BranchOf(b)) + Uses(r, BranchOf(b));
      forall ref ensures Uses(l, ref) <= 1 && Uses(r, ref) <= 1 { assert Uses(t, ref) <= 1; }
      forall ref | Uses(l, ref) > 0 || Uses(r, ref) > 0 ensures Uses(t, ref) > 0 && ref != Root(t) {}
      Frame(net, net', l);
      Frame(net, net', r);
      assert Uses(t, Root(l)) > 0 && Uses(t, Root(r)) > 0 && Uses(t, BranchOf(b)) > 0;
  }

  // ---------------------------------------------------------------------------------------------
  // Forests
  // ---------------------------------------------------------------------------------------------

  function UsesAll(ts: seq<Tree>, ref: Ref): nat {
    if ts == [] then 0 else Uses(ts[0], ref) + UsesAll(ts[1..], ref)
  }

  function SizeAll(ts: seq<Tree>): nat {
    if ts == [] then 0 else Size(ts[0]) + SizeAll(ts[1..])
  }

  predicate InOrderAll(ts: seq<Tree>, a: nat) {
    ts == [] || (InOrder(ts[0], a) && InOrderAll(ts[1..], a + Size(ts[0])))
  }

  function Count(s: seq<nat>, b: nat): nat {
    if s == [] then 0 else One(s[0] == b) + Count(s[1..], b)
  }

  /** How often a branch is still to be had. */
  function Spare(avail: seq<nat>, ref: Ref): nat {
    if ref.BranchOf? then Count(avail, ref.addr) else 0
  }

  ghost predicate HoldsAll(net: Net, ts: seq<Tree>) {
    forall t {:trigger t in ts} | t in ts :: Holds(net, t)
  }

  /** Every leaf and every branch below `n` is in one place; nothing else is anywhere. */
  ghost predicate OneEach(ts: seq<Tree>, avail: seq<nat>, n: nat) {
    forall ref: Ref {:trigger UsesAll(ts, ref)} :: UsesAll(ts, ref) + Spare(avail, ref) == One(ref.addr < n)
  }

  /** The nodes know nothing but what is in the trees, and the roots have no father. */
  ghost predicate NothingElse(net: Net, ts: seq<Tree>) {
    && (forall b :: b in net.branches <==> UsesAll(ts, BranchOf(b)) > 0)
    && (forall ref {:trigger ref in net.father} | ref in net.father :: UsesAll(ts, ref) > 0)
    && (forall t {:trigger t in ts} | t in ts :: Root(t) !in net.father)
  }

  ghost predicate Forest(net: Net, ts: seq<Tree>, avail: seq<nat>, n: nat) {
    HoldsAll(net, ts) && OneEach(ts, avail, n) && NothingElse(net, ts) && InOrderAll(ts, 0) && SizeAll(ts) == n
  }

  lemma {:induction false} UsesAppend(a: seq<Tree>, b: seq<Tree>, ref: Ref)
    ensures UsesAll(a + b, ref) == UsesAll(a, ref) + UsesAll(b, ref)
  {
    if a == [] {
      assert a + b == b;
    } else {
      UsesAppend(a[1..], b, ref);
      assert (a + b)[1..] == a[1..] + b;
    }
  }

  lemma {:induction false} OrderAppend(a: seq<Tree>, b: seq<Tree>, x: nat)
    ensures SizeAll(a + b) == SizeAll(a) + SizeAll(b)
    ensures InOrderAll(a + b, x) <==> InOrderAll(a, x) && InOrderAll(b, x + SizeAll(a))
  {
    if a == [] {
      assert a + b == b;
    } else {
      OrderAppend(a[1..], b, x + Size(a[0]));
      assert (a + b)[1..] == a[1..] + b;
    }
  }

  lemma {:induction false} UsedInOne(ts: seq<Tree>, t: Tree, ref: Ref)
    requires t in ts
    ensures Uses(t, ref) <= UsesAll(ts, ref)
  {
    if t != ts[0] { UsedInOne(ts[1..], t, ref); }
  }

  /** `pre`, then two trees, then `post`. */
  function Around(pre: seq<Tree>, mid: seq<Tree>, post: seq<Tree>): seq<Tree> {
    pre + (mid + post)
  }

  lemma UsesAround(pre: seq<Tree>, l: Tree, r: Tree, post: seq<Tree>, ref: Ref)
    ensures UsesAll(Around(pre, [l, r], post), ref) == UsesAll(pre, ref) + Uses(l, ref) + Uses(r, ref) +
        UsesAll(post, ref)
    ensures UsesAll(Around(pre, [l], post), ref) == UsesAll(pre, ref) + Uses(l, ref) + UsesAll(post, ref)
  {
    UsesAppend(pre, [l, r] + post, ref);
    UsesAppend([l, r], post, ref);
    UsesAppend([l], [r], ref);
    assert [l] + [r] == [l, r];
    UsesAppend(pre, [l] + post, ref);
    UsesAppend([l], post, ref);
  }

  lemma OrderAround(pre: seq<Tree>, b: nat, l: Tree, r: Tree, post: seq<Tree>)
    ensures SizeAll(Around(pre, [Branch(b, l, r)], post)) == SizeAll(Around(pre, [l, r], post))
    ensures InOrderAll(Around(pre, [Branch(b, l, r)], post), 0) <==> InOrderAll(Around(pre, [l, r], post), 0)
  {
    var t := Branch(b, l, r);
    var a := SizeAll(pre);
    OrderAppend(pre, [l, r] + post, 0);
    OrderAppend([l, r], post, a);
    OrderAppend([l], [r], a);
    assert [l] + [r] == [l, r];
    OrderAppend(pre, [t] + post, 0);
    OrderAppend([t], post, a);
  }

  // ---------------------------------------------------------------------------------------------
  // A branch becomes the father of two trees
  // ---------------------------------------------------------------------------------------------

  function RefOf(addr: nat, isBranch: bool): Ref {
    if isBranch then BranchOf(addr) else LeafOf(addr)
  }

  /** The zone of a node's leaf or of its branch; a branch without children has an empty zone. */
  function ZoneAt(net: Net, addr: nat, isBranch: bool): Zone {
    if !isBranch then Zone(addr, addr)
    else if addr in net.branches then Hull(net.branches[addr].leftZone, net.branches[addr].rightZone) else Zone(0, 0)
  }

  function Joined(net: Net, b: nat, la: nat, lb: bool, ra: nat, rb: bool): Net {
    Net(net.father[RefOf(la, lb) := b][RefOf(ra, rb) := b],
        net.branches[b := Links(la, ra, ZoneAt(net, la, lb), ZoneAt(net, ra, rb))])
  }

  function Join(net: Net, b: nat, l: Tree, r: Tree): Net {
    Joined(net, b, l.addr, l.Branch?, r.addr, r.Branch?)
  }

  lemma OneOf(ts: seq<Tree>, avail: seq<nat>, n: nat, ref: Ref)
    requires OneEach(ts, avail, n)
    ensures UsesAll(ts, ref) + Spare(avail, ref) <= 1
  {
  }

  lemma FirstIsSpare(avail: seq<nat>, b: nat)
    requires avail != [] && b == avail[0]
    ensures Spare(avail, BranchOf(b)) >= 1
  {
  }

  /** What two trees use is not used in a third place, and the next spare branch is not used at all. */
  lemma Apart(pre: seq<Tree>, l: Tree, r: Tree, post: seq<Tree>, avail: seq<nat>, n: nat, ref: Ref)
    requires OneEach(Around(pre, [l, r], post), avail, n) && avail != []
    ensures Uses(l, ref) + Uses(r, ref) + UsesAll(pre, ref) + UsesAll(post, ref) <= One(ref != BranchOf(avail[0]))
  {
    OneOf(Around(pre, [l, r], post), avail, n, ref);
    FirstIsSpare(avail, avail[0]);
    ApartAt(pre, l, r, post, Spare(avail, ref), ref);
  }

  lemma ApartAt(pre: seq<Tree>, l: Tree, r: Tree, post: seq<Tree>, spare: nat, ref: Ref)
    requires UsesAll(Around(pre, [l, r], post), ref) + spare <= 1
    ensures Uses(l, ref) + Uses(r, ref) + UsesAll(pre, ref) + UsesAll(post, ref) + spare <= 1
  {
    UsesAround(pre, l, r, post, ref);
  }

  lemma OthersHold(net: Net, pre: seq<Tree>, l: Tree, r: Tree, post: seq<Tree>, avail: seq<nat>, n: nat, t: Tree)
    requires OneEach(Around(pre, [l, r], post), avail, n) && avail != [] && Holds(net, t) && (t in pre || t in post)
    ensures Holds(Join(net, avail[0], l, r), t)
  {
    forall ref ensures Uses(t, ref) <= 1
      && (Uses(t, ref) > 0 ==> ref != Root(l) && ref != Root(r) && ref != BranchOf(avail[0])) {
      Apart(pre, l, r, post, avail, n, ref);
      if t in pre { UsedInOne(pre, t, ref); } else { UsedInOne(post, t, ref); }
      RootIsUsed(l);
      RootIsUsed(r);
    }
    Frame(net, Join(net, avail[0], l, r), t);
  }

  lemma JoinHolds(net: Net, b: nat, l: Tree, r: Tree)
    requires Holds(net, l) && Holds(net, r)
    requires forall ref :: Uses(l, ref) + Uses(r, ref) <= One(ref != BranchOf(b))
    ensures Holds(Join(net, b, l, r), Branch(b, l, r))
  {
    SideHolds(net, Join(net, b, l, r), b, l, r);
    SideHolds(net, Join(net, b, l, r), b, r, l);
    RootIsUsed(l);
    RootIsUsed(r);
    assert Uses(l, Root(l)) + Uses(r, Root(l)) <= 1;
  }

  lemma SideHolds(net: Net, net': Net, b: nat, t: Tree, other: Tree)
    requires Holds(net, t) && forall ref :: Uses(t, ref) + Uses(other, ref) <= One(ref != BranchOf(b))
    requires forall ref | ref in net.father && ref != Root(t) && ref != Root(other) ::
        ref in net'.father && net'.father[ref] == net.father[ref]
    requires forall c | c in net.branches && c != b :: c in net'.branches && net'.branches[c] == net.branches[c]
    ensures Holds(net', t)
  {
    RootIsUsed(other);
    forall ref ensures Uses(t, ref) <= 1 && (Uses(t, ref) > 0 ==> ref != BranchOf(b) && ref != Root(other)) {
      assert Uses(t, ref) + Uses(other, ref) <= One(ref != BranchOf(b));
    }
    Frame(net, net', t);
  }

  lemma UsesJoined(pre: seq<Tree>, b: nat, l: Tree, r: Tree, post: seq<Tree>, ref: Ref)
    ensures UsesAll(Around(pre, [Branch(b, l, r)], post), ref) == UsesAll(Around(pre, [l, r], post), ref) +
        One(ref == BranchOf(b))
  {
    UsesAround(pre, l, r, post, ref);
    UsesAround(pre, Branch(b, l, r), r, post, ref);
  }

  lemma RootsApart(net: Net, pre: seq<Tree>, l: Tree, r: Tree, post: seq<Tree>, avail: seq<nat>, n: nat, u: Tree)
    requires OneEach(Around(pre, [l, r], post), avail, n) && avail != [] && (u in pre || u in post)
    ensures Root(u) != Root(l) && Root(u) != Root(r)
  {
    Apart(pre, l, r, post, avail, n, Root(u));
    RootIsUsed(u);
    RootIsUsed(l);
    RootIsUsed(r);
    if u in pre { UsedInOne(pre, u, Root(u)); } else { UsedInOne(post, u, Root(u)); }
  }

  lemma NewIsNew(was: seq<Tree>, avail: seq<nat>, n: nat)
    requires OneEach(was, avail, n) && avail != []
    ensures UsesAll(was, BranchOf(avail[0])) == 0
  {
    OneOf(was, avail, n, BranchOf(avail[0]));
    FirstIsSpare(avail, avail[0]);
  }

  lemma JoinRoots(net: Net, pre: seq<Tree>, l: Tree, r: Tree, post: seq<Tree>, avail: seq<nat>, n: nat)
    requires OneEach(Around(pre, [l, r], post), avail, n) && avail != [] && NothingElse(net, Around(pre, [l, r], post))
    ensures forall u | u in Around(pre, [Branch(avail[0], l, r)], post) :: Root(u) !in Join(net, avail[0], l, r).father
  {
    var b, was := avail[0], Around(pre, [l, r], post);
    forall u | u in Around(pre, [Branch(b, l, r)], post) ensures Root(u) !in Join(net, b, l, r).father {
      if u in pre || u in post {
        assert u in was;
        RootsApart(net, pre, l, r, post, avail, n, u);
      } else {
        NewIsNew(was, avail, n);
        BothUsed(pre, l, r, post);
      }
    }
  }

  lemma BothUsed(pre: seq<Tree>, l: Tree, r: Tree, post: seq<Tree>)
    ensures UsesAll(Around(pre, [l, r], post), Root(l)) > 0 && UsesAll(Around(pre, [l, r], post), Root(r)) > 0
  {
    RootIsUsed(l);
    RootIsUsed(r);
    UsesAround(pre, l, r, post, Root(l));
    UsesAround(pre, l, r, post, Root(r));
  }

  lemma JoinUsed(net: Net, was: seq<Tree>, now: seq<Tree>, l: Tree, r: Tree, b: nat)
    requires NothingElse(net, was) && UsesAll(was, Root(l)) > 0 && UsesAll(was, Root(r)) > 0
    requires forall ref :: UsesAll(now, ref) == UsesAll(was, ref) + One(ref == BranchOf(b))
    ensures forall c :: c in Join(net, b, l, r).branches <==> UsesAll(now, BranchOf(c)) > 0
    ensures forall ref | ref in Join(net, b, l, r).father :: UsesAll(now, ref) > 0
  {
  }

  lemma JoinNothingElse(net: Net, pre: seq<Tree>, l: Tree, r: Tree, post: seq<Tree>, avail: seq<nat>, n: nat)
    requires OneEach(Around(pre, [l, r], post), avail, n) && avail != [] && NothingElse(net, Around(pre, [l, r], post))
    ensures NothingElse(Join(net, avail[0], l, r), Around(pre, [Branch(avail[0], l, r)], post))
  {
    var b := avail[0];
    var was, now := Around(pre, [l, r], post), Around(pre, [Branch(b, l, r)], post);
    forall ref ensures UsesAll(now, ref) == UsesAll(was, ref) + One(ref == BranchOf(b)) {
      UsesJoined(pre, b, l, r, post, ref);
    }
    BothUsed(pre, l, r, post);
    JoinUsed(net, was, now, l, r, b);
    JoinRoots(net, pre, l, r, post, avail, n);
  }

  lemma JoinOneEach(pre: seq<Tree>, l: Tree, r: Tree, post: seq<Tree>, avail: seq<nat>, n: nat)
    requires OneEach(Around(pre, [l, r], post), avail, n) && avail != []
    ensures OneEach(Around(pre, [Branch(avail[0], l, r)], post), avail[1..], n)
  {
    var b, was, now := avail[0], Around(pre, [l, r], post), Around(pre, [Branch(avail[0], l, r)], post);
    forall ref: Ref ensures UsesAll(now, ref) + Spare(avail[1..], ref) == One(ref.addr < n) {
      UsesJoined(pre, b, l, r, post, ref);
      assert UsesAll(was, ref) + Spare(avail, ref) == One(ref.addr < n);
    }
  }

  lemma JoinHoldsAll(net: Net, pre: seq<Tree>, l: Tree, r: Tree, post: seq<Tree>, avail: seq<nat>, n: nat)
    requires OneEach(Around(pre, [l, r], post), avail, n) && avail != [] && HoldsAll(net, Around(pre, [l, r], post))
    ensures HoldsAll(Join(net, avail[0], l, r), Around(pre, [Branch(avail[0], l, r)], post))
  {
    var b, was, now := avail[0], Around(pre, [l, r], post), Around(pre, [Branch(avail[0], l, r)], post);
    forall u | u in now ensures Holds(Join(net, b, l, r), u) {
      if u in pre || u in post {
        assert u in was;
        OthersHold(net, pre, l, r, post, avail, n, u);
      } else {
        assert l in was && r in was by { assert [l, r][0] == l && [l, r][1] == r; }
        forall ref ensures Uses(l, ref) + Uses(r, ref) <= One(ref != BranchOf(b)) {
          Apart(pre, l, r, post, avail, n, ref);
        }
        JoinHolds(net, b, l, r);
      }
    }
  }

  /** A spare branch becomes the father of two neighbours: the forest is still one. */
  lemma JoinForest(net: Net, pre: seq<Tree>, l: Tree, r: Tree, post: seq<Tree>, avail: seq<nat>, n: nat)
    requires Forest(net, Around(pre, [l, r], post), avail, n) && avail != []
    ensures Forest(Join(net, avail[0], l, r), Around(pre, [Branch(avail[0], l, r)], post), avail[1..], n)
  {
    OrderAround(pre, avail[0], l, r, post);
    JoinNothingElse(net, pre, l, r, post, avail, n);
    JoinOneEach(pre, l, r, post, avail, n);
    JoinHoldsAll(net, pre, l, r, post, avail, n);
  }

  // ---------------------------------------------------------------------------------------------
  // The first slots
  // ---------------------------------------------------------------------------------------------

  function Trues(extra: seq<bool>, i: nat): nat
    requires i <= |extra|
  {
    if i == 0 then 0 else Trues(extra, i - 1) + One(extra[i - 1])
  }

  /** The first leaf of slot `i`. */
  function First(extra: seq<bool>, i: nat): nat
    requires i <= |extra|
  {
    i + Trues(extra, i)
  }

  /** A slot is a leaf, or two leaves below the branch of the first one. */
  function Slot(j: nat, pair: bool): Tree {
    if pair then Branch(j, Leaf(j), Leaf(j + 1)) else Leaf(j)
  }

  function Slots(extra: seq<bool>, i: nat): (ts: seq<Tree>)
    requires i <= |extra|
    ensures |ts| == i && forall k {:trigger ts[k]} | 0 <= k < i :: ts[k] == Slot(First(extra, k), extra[k])
  {
    if i == 0 then [] else Slots(extra, i - 1) + [Slot(First(extra, i - 1), extra[i - 1])]
  }

  /** The branch of the last leaf of every slot is spare. */
  function Avail(extra: seq<bool>, i: nat): (s: seq<nat>)
    requires i <= |extra|
    ensures |s| == i
  {
    if i == 0 then [] else Avail(extra, i - 1) + [First(extra, i) - 1]
  }

  lemma {:induction false} CountAppend(a: seq<nat>, b: seq<nat>, x: nat)
    ensures Count(a + b, x) == Count(a, x) + Count(b, x)
  {
    if a == [] {
      assert a + b == b;
    } else {
      CountAppend(a[1..], b, x);
      assert (a + b)[1..] == a[1..] + b;
    }
  }

  lemma {:induction false} CountIsMultiset(s: seq<nat>, x: nat)
    ensures Count(s, x) == multiset(s)[x]
  {
    if s != [] {
      CountIsMultiset(s[1..], x);
      assert s == [s[0]] + s[1..];
    }
  }

  lemma SlotUses(ts: seq<Tree>, avail: seq<nat>, n: nat, pair: bool)
    requires OneEach(ts, avail, n)
    ensures OneEach(ts + [Slot(n, pair)], avail + [n + One(pair)], n + 1 + One(pair))
  {
    forall ref: Ref
      ensures UsesAll(ts + [Slot(n, pair)], ref) + Spare(avail + [n + One(pair)], ref) ==
          One(ref.addr < n + 1 + One(pair))
    {
      SlotUsesOf(n, pair, ref);
      UsesAppend(ts, [Slot(n, pair)], ref);
      CountAppend(avail, [n + One(pair)], ref.addr);
      assert UsesAll(ts, ref) + Spare(avail, ref) == One(ref.addr < n);
    }
  }

  lemma SlotUsesIs(n: nat, pair: bool, ref: Ref)
    ensures Uses(Slot(n, pair), ref)
            == One(ref == LeafOf(n)) + if pair then One(ref == BranchOf(n)) + One(ref == LeafOf(n + 1)) else 0
  {
    var l, r := Leaf(n), Leaf(n + 1);
    assert Uses(l, ref) == One(ref == LeafOf(n)) && Uses(r, ref) == One(ref == LeafOf(n + 1));
    assert Uses(Branch(n, l, r), ref) == One(ref == BranchOf(n)) + Uses(l, ref) + Uses(r, ref);
  }

  lemma SlotUsesOf(n: nat, pair: bool, ref: Ref)
    ensures UsesAll([Slot(n, pair)], ref) + Spare([n + One(pair)], ref) == One(n <= ref.addr < n + 1 + One(pair))
  {
    SlotUsesIs(n, pair, ref);
    assert [Slot(n, pair)][1..] == [] && [n + One(pair)][1..] == [];
    assert UsesAll([Slot(n, pair)], ref) == Uses(Slot(n, pair), ref);
    assert Count([n + One(pair)], ref.addr) == One(n + One(pair) == ref.addr);
    assert pair ==> One(pair) == 1;
  }

  /** A leaf or a branch that is not below `n` is nowhere yet. */
  lemma Beyond(net: Net, ts: seq<Tree>, avail: seq<nat>, n: nat, ref: Ref)
    requires OneEach(ts, avail, n) && NothingElse(net, ts) && ref.addr >= n
    ensures ref !in net.father && (ref.BranchOf? ==> ref.addr !in net.branches)
    ensures forall t | t in ts :: Uses(t, ref) == 0
  {
    assert UsesAll(ts, ref) + Spare(avail, ref) == 0;
    forall t | t in ts ensures Uses(t, ref) == 0 { UsedInOne(ts, t, ref); }
  }

  lemma PairHolds(net: Net, ts: seq<Tree>, avail: seq<nat>, n: nat)
    requires HoldsAll(net, ts) && OneEach(ts, avail, n) && NothingElse(net, ts)
    ensures HoldsAll(Joined(net, n, n, false, n + 1, false), ts + [Slot(n, true)])
  {
    var net' := Joined(net, n, n, false, n + 1, false);
    forall t | t in ts ensures Holds(net', t) {
      forall ref ensures Uses(t, ref) <= 1 && (Uses(t, ref) > 0 ==> ref.addr < n) {
        OneOf(ts, avail, n, ref);
        UsedInOne(ts, t, ref);
        if ref.addr >= n { Beyond(net, ts, avail, n, ref); }
      }
      Frame(net, net', t);
    }
    PairIsHeld(net, n);
  }

  lemma PairIsHeld(net: Net, n: nat)
    ensures Holds(Joined(net, n, n, false, n + 1, false), Slot(n, true))
  {
    var net', l, r := Joined(net, n, n, false, n + 1, false), Leaf(n), Leaf(n + 1);
    assert Holds(net', l) && Holds(net', r);
    assert ZoneOf(l) == Zone(n, n) && ZoneOf(r) == Zone(n + 1, n + 1);
    assert Holds(net', Branch(n, l, r));
  }

  lemma SlotRoots(net: Net, ts: seq<Tree>, avail: seq<nat>, n: nat, pair: bool)
    requires OneEach(ts, avail, n) && NothingElse(net, ts)
    ensures forall t | t in ts + [Slot(n, pair)] ::
        Root(t) !in (if pair then Joined(net, n, n, false, n + 1, false) else net).father
  {
    Beyond(net, ts, avail, n, BranchOf(n));
    Beyond(net, ts, avail, n, LeafOf(n));
    forall t | t in ts ensures Root(t) != LeafOf(n) && Root(t) != LeafOf(n + 1) {
      RootIsUsed(t);
      Beyond(net, ts, avail, n, LeafOf(n + 1));
    }
  }

  lemma SlotNothingElse(net: Net, ts: seq<Tree>, avail: seq<nat>, n: nat, pair: bool)
    requires OneEach(ts, avail, n) && NothingElse(net, ts)
    ensures NothingElse(if pair then Joined(net, n, n, false, n + 1, false) else net, ts + [Slot(n, pair)])
  {
    SlotRoots(net, ts, avail, n, pair);
    forall ref ensures UsesAll(ts + [Slot(n, pair)], ref)
                       == UsesAll(ts, ref) + One(ref == LeafOf(n)) + if pair
                         then One(ref == BranchOf(n)) + One(ref == LeafOf(n + 1)) else 0 {
      UsesAppend(ts, [Slot(n, pair)], ref);
      SlotUsesIs(n, pair, ref);
      assert [Slot(n, pair)][1..] == [];
    }
  }

  lemma SlotInOrder(ts: seq<Tree>, n: nat, pair: bool)
    requires InOrderAll(ts, 0) && SizeAll(ts) == n
    ensures InOrderAll(ts + [Slot(n, pair)], 0) && SizeAll(ts + [Slot(n, pair)]) == n + 1 + One(pair)
  {
    OrderAppend(ts, [Slot(n, pair)], 0);
    assert [Slot(n, pair)][1..] == [];
    assert InOrder(Leaf(n), n) && InOrder(Leaf(n + 1), n + 1) && Size(Leaf(n)) == 1 && Size(Leaf(n + 1)) == 1;
    assert InOrder(Branch(n, Leaf(n), Leaf(n + 1)), n) && Size(Branch(n, Leaf(n), Leaf(n + 1))) == 2;
  }

  /** One more slot. */
  lemma SlotForest(net: Net, ts: seq<Tree>, avail: seq<nat>, n: nat, pair: bool)
    requires Forest(net, ts, avail, n)
    ensures Forest(if pair then Joined(net, n, n, false, n + 1, false) else net,
                   ts + [Slot(n, pair)], avail + [n + One(pair)], n + 1 + One(pair))
  {
    SlotUses(ts, avail, n, pair);
    SlotNothingElse(net, ts, avail, n, pair);
    if pair { PairHolds(net, ts, avail, n); }
    SlotInOrder(ts, n, pair);
  }

  lemma ShuffledForest(net: Net, ts: seq<Tree>, avail: seq<nat>, avail': seq<nat>, n: nat)
    requires Forest(net, ts, avail, n) && multiset(avail) == multiset(avail')
    ensures Forest(net, ts, avail', n)
  {
    forall ref: Ref ensures UsesAll(ts, ref) + Spare(avail', ref) == One(ref.addr < n) {
      CountIsMultiset(avail, ref.addr);
      CountIsMultiset(avail', ref.addr);
      assert UsesAll(ts, ref) + Spare(avail, ref) == One(ref.addr < n);
    }
  }

  // ---------------------------------------------------------------------------------------------
  // Levels
  // ---------------------------------------------------------------------------------------------

  function Pow(k: nat): nat {
    if k == 0 then 1 else 2 * Pow(k - 1)
  }

  /** The number of levels below the first one. */
  function Log2(n: nat): nat {
    if n <= 1 then 0 else 1 + Log2(n / 2)
  }

  /** It is the exponent of the largest power of 2 that is not above `n`. */
  lemma {:induction false} Log2IsLargest(n: nat)
    requires n >= 1
    ensures Pow(Log2(n)) <= n < 2 * Pow(Log2(n))
  {
    if n > 1 { Log2IsLargest(n / 2); }
  }

  ghost predicate DeepAll(ts: seq<Tree>, d: int) {
    forall t {:trigger t in ts} | t in ts :: Depths(t, d, d + 1)
  }

  /** What holds of the finished tree. */
  ghost predicate Built(net: Net, t: Tree, n: nat) {
    && Holds(net, t) && InOrder(t, 0) && Size(t) == n
    && (forall ref :: Uses(t, ref) <= One(ref.addr < n))
    && (forall b :: b in net.branches <==> Uses(t, BranchOf(b)) > 0)
    && (forall ref | ref in net.father :: Uses(t, ref) > 0 && ref != Root(t))
  }

  lemma OneTree(net: Net, t: Tree, avail: seq<nat>, n: nat)
    requires Forest(net, [t], avail, n)
    ensures Built(net, t, n)
  {
    assert t in [t] && [t][1..] == [];
    assert SizeAll([t]) == Size(t) && InOrderAll([t], 0) == InOrder(t, 0);
    forall ref ensures UsesAll([t], ref) == Uses(t, ref) {}
    forall ref ensures Uses(t, ref) <= One(ref.addr < n) {
      assert UsesAll([t], ref) + Spare(avail, ref) == One(ref.addr < n);
    }
  }

  // ---------------------------------------------------------------------------------------------
  // What the builder leaves
  // ---------------------------------------------------------------------------------------------

  const EMPTY := Net(map[], map[])

  /** After the first `i` slots. */
  function SlotNet(extra: seq<bool>, i: nat): Net
    requires i <= |extra|
  {
    if i == 0 then EMPTY
    else
      var j := First(extra, i - 1);
      if extra[i - 1] then Joined(SlotNet(extra, i - 1), j, j, false, j + 1, false) else SlotNet(extra, i - 1)
  }

  function Firsts(extra: seq<bool>, i: nat): (s: seq<nat>)
    requires i <= |extra|
    ensures |s| == i
  {
    if i == 0 then [] else Firsts(extra, i - 1) + [First(extra, i - 1)]
  }

  /** After `j` pairs of a level got the next spare branches as fathers. */
  function LevelNet(net: Net, level: seq<nat>, isBranch: seq<bool>, avail: seq<nat>, j: nat): Net
    requires 2 * j <= |level| == |isBranch| && j <= |avail|
  {
    if j == 0 then net
    else Joined(LevelNet(net, level, isBranch, avail, j - 1), avail[j - 1],
                level[2 * j - 2], isBranch[2 * j - 2], level[2 * j - 1], isBranch[2 * j - 1])
  }

  /** Above the first level there are only branches. */
  function AllBranches(n: nat): (s: seq<bool>)
    ensures |s| == n && forall i | 0 <= i < n :: s[i]
  {
    seq(n, _ => true)
  }

  /** The addresses and the kinds of some trees. */
  ghost predicate Names(level: seq<nat>, isBranch: seq<bool>, ts: seq<Tree>) {
    |level| == |isBranch| == |ts| && forall i {:trigger ts[i]} | 0 <= i < |ts| ::
      level[i] == ts[i].addr && isBranch[i] == ts[i].Branch?
  }

  lemma NextSlot(net: Net, net': Net, ts: seq<Tree>, ts': seq<Tree>, avail: seq<nat>, avail': seq<nat>, n: nat, n': nat,
                 pair: bool)
    requires Forest(net, ts, avail, n)
    requires net' == (if pair then Joined(net, n, n, false, n + 1, false) else net)
    requires ts' == ts + [Slot(n, pair)] && avail' == avail + [n + One(pair)] && n' == n + 1 + One(pair)
    ensures Forest(net', ts', avail', n')
  {
    SlotForest(net, ts, avail, n, pair);
  }

  lemma {:induction false} SlotsAreForest(extra: seq<bool>, i: nat)
    requires i <= |extra|
    ensures Forest(SlotNet(extra, i), Slots(extra, i), Avail(extra, i), First(extra, i))
  {
    if i == 0 {
      NoForest();
    } else {
      SlotsAreForest(extra, i - 1);
      NextSlot(SlotNet(extra, i - 1), SlotNet(extra, i), Slots(extra, i - 1), Slots(extra, i), Avail(extra, i - 1),
        Avail(extra, i),
               First(extra, i - 1), First(extra, i), extra[i - 1]);
    }
  }

  lemma NoForest()
    ensures Forest(EMPTY, [], [], 0)
  {
  }

  lemma {:induction false} SlotNames(extra: seq<bool>, i: nat)
    requires i <= |extra|
    ensures forall k | 0 <= k < i :: Firsts(extra, i)[k] == First(extra, k)
  {
    if i > 0 { SlotNames(extra, i - 1); }
  }

  lemma SlotsAreDeep(extra: seq<bool>, i: nat)
    requires i <= |extra|
    ensures DeepAll(Slots(extra, i), 0)
  {
    forall t | t in Slots(extra, i) ensures Depths(t, 0, 1) {
      var k :| 0 <= k < i && Slots(extra, i)[k] == t;
      var j := First(extra, k);
      assert Depths(Leaf(j), -1, 0) && Depths(Leaf(j + 1), -1, 0) && Depths(Leaf(j), 0, 1);
      assert Depths(Branch(j, Leaf(j), Leaf(j + 1)), 0, 1);
    }
  }

  /** The first `j` pairs of trees, joined. */
  function Pairs(ts: seq<Tree>, avail: seq<nat>, j: nat): (news: seq<Tree>)
    requires 2 * j <= |ts| && j <= |avail|
    ensures |news| == j
    ensures forall k {:trigger news[k]} | 0 <= k < j :: news[k] == Branch(avail[k], ts[2 * k], ts[2 * k + 1])
  {
    if j == 0 then [] else Pairs(ts, avail, j - 1) + [Branch(avail[j - 1], ts[2 * j - 2], ts[2 * j - 1])]
  }

  lemma NextPair(net: Net, net': Net, was: seq<Tree>, now: seq<Tree>, news: seq<Tree>, l: Tree, r: Tree,
                 post: seq<Tree>,
                 avail: seq<nat>, avail': seq<nat>, b: nat, n: nat)
    requires Forest(net, was, avail, n) && was == Around(news, [l, r], post) && avail == [b] + avail'
    requires net' == Join(net, b, l, r) && now == Around(news, [Branch(b, l, r)], post)
    ensures Forest(net', now, avail', n)
  {
    assert avail[1..] == avail';
    JoinForest(net, news, l, r, post, avail, n);
  }

  /** Halfway through a level. */
  function Mixed(ts: seq<Tree>, avail: seq<nat>, j: nat): seq<Tree>
    requires 2 * j <= |ts| && j <= |avail|
  {
    Pairs(ts, avail, j) + ts[2 * j..]
  }

  lemma MixedStep(ts: seq<Tree>, avail: seq<nat>, j: nat)
    requires 2 <= 2 * j <= |ts| && j <= |avail|
    ensures
      var news, l, r, post, b := Pairs(ts, avail, j - 1), ts[2 * j - 2], ts[2 * j - 1], ts[2 * j..], avail[j - 1];
      && Mixed(ts, avail, j - 1) == Around(news, [l, r], post)
         && Mixed(ts, avail, j) == Around(news, [Branch(b, l, r)], post)
      && avail[j - 1..] == [b] + avail[j..]
  {
    assert ts[2 * (j - 1)..] == [ts[2 * j - 2], ts[2 * j - 1]] + ts[2 * j..];
  }

  lemma {:induction false} LevelIsForest(net: Net, level: seq<nat>, isBranch: seq<bool>, ts: seq<Tree>, avail: seq<nat>,
                                         j: nat, n: nat)
    requires Names(level, isBranch, ts) && 2 * j <= |ts| && j <= |avail| && Forest(net, ts, avail, n)
    ensures Forest(LevelNet(net, level, isBranch, avail, j), Mixed(ts, avail, j), avail[j..], n)
  {
    if j == 0 {
      assert Mixed(ts, avail, 0) == ts && avail[0..] == avail;
    } else {
      LevelIsForest(net, level, isBranch, ts, avail, j - 1, n);
      MixedStep(ts, avail, j);
      NextPair(LevelNet(net, level, isBranch, avail, j - 1), LevelNet(net, level, isBranch, avail, j),
        Mixed(ts, avail, j - 1),
               Mixed(ts, avail, j), Pairs(ts, avail, j - 1), ts[2 * j - 2], ts[2 * j - 1], ts[2 * j..], avail[j - 1..],
                 avail[j..],
               avail[j - 1], n);
    }
  }

  lemma PairsAreDeeper(ts: seq<Tree>, avail: seq<nat>, j: nat, d: int)
    requires 2 * j <= |ts| && j <= |avail| && DeepAll(ts, d)
    ensures DeepAll(Pairs(ts, avail, j), d + 1)
  {
    forall t | t in Pairs(ts, avail, j) ensures Depths(t, d + 1, d + 2) {
      var i :| 0 <= i < j && Pairs(ts, avail, j)[i] == t;
      assert ts[2 * i] in ts && ts[2 * i + 1] in ts;
    }
  }

  lemma {:induction false} PowPositive(k: nat)
    ensures Pow(k) >= 1
  {
    if k > 0 { PowPositive(k - 1); }
  }

  /** A level of the builder: its addresses and kinds, the spare branches, and the trees behind the addresses. */
  datatype Stage = Stage(net: Net, level: seq<nat>, isBranch: seq<bool>, avail: seq<nat>, trees: seq<Tree>)

  predicate Sized(x: Stage, k: nat) {
    |x.level| == |x.isBranch| == |x.avail| == |x.trees| == Pow(k)
  }

  function Higher(x: Stage, h: nat): Stage
    requires |x.level| == |x.isBranch| == |x.avail| == |x.trees| == 2 * h
  {
    Stage(LevelNet(x.net, x.level, x.isBranch, x.avail, h), x.avail[..h], AllBranches(h), x.avail[h..],
      Pairs(x.trees, x.avail, h))
  }

  ghost predicate StageOk(x: Stage, n: nat) {
    Names(x.level, x.isBranch, x.trees) && Forest(x.net, x.trees, x.avail, n)
  }

  lemma HigherIsOk(x: Stage, n: nat, h: nat)
    requires StageOk(x, n) && |x.level| == |x.isBranch| == |x.avail| == |x.trees| == 2 * h
    ensures StageOk(Higher(x, h), n)
  {
    LevelIsForest(x.net, x.level, x.isBranch, x.trees, x.avail, h, n);
    assert Mixed(x.trees, x.avail, h) == Pairs(x.trees, x.avail, h);
  }

  lemma LastIsBuilt(x: Stage, n: nat)
    requires StageOk(x, n) && |x.trees| == 1
    ensures Built(x.net, x.trees[0], n)
  {
    assert x.trees == [x.trees[0]];
    OneTree(x.net, x.trees[0], x.avail, n);
  }

  /** The last stage above one of `k` levels more. */
  function Top(x: Stage, k: nat): (r: Stage)
    requires Sized(x, k)
    ensures |r.trees| == 1
    decreases k
  {
    if k == 0 then x else Top(Higher(x, Pow(k - 1)), k - 1)
  }

  /** The next stage above one of `k` levels more, which has `l` levels more. */
  lemma TopStep(x: Stage, k: nat) returns (h: nat, l: nat, y: Stage)
    requires Sized(x, k) && |x.trees| > 1
    ensures |x.trees| == 2 * h && y == Higher(x, h) && l < k && Sized(y, l) && Top(x, k) == Top(y, l)
  {
    l, h := k - 1, Pow(k - 1);
    y := Higher(x, h);
  }

  lemma {:induction false} TopIsOk(x: Stage, n: nat, k: nat)
    requires StageOk(x, n) && Sized(x, k)
    ensures StageOk(Top(x, k), n)
    decreases k
  {
    if k > 0 {
      PowPositive(k - 1);
      var h, l, y := TopStep(x, k);
      HigherIsOk(x, n, h);
      TopIsOk(y, n, l);
    }
  }

  lemma HigherIsDeeper(x: Stage, d: nat, h: nat)
    requires |x.level| == |x.isBranch| == |x.avail| == |x.trees| == 2 * h && DeepAll(x.trees, d)
    ensures DeepAll(Higher(x, h).trees, d + 1)
  {
    PairsAreDeeper(x.trees, x.avail, h, d);
  }

  lemma {:induction false} TopIsDeep(x: Stage, d: nat, k: nat)
    requires Sized(x, k) && DeepAll(x.trees, d)
    ensures DeepAll(Top(x, k).trees, d + k)
    decreases k
  {
    if k > 0 {
      HigherIsDeeper(x, d, Pow(k - 1));
      TopIsDeep(Higher(x, Pow(k - 1)), d + 1, k - 1);
    }
  }

  /** Which slots get two leaves, and the order of their spare branches. */
  ghost predicate Random(n: nat, extra: seq<bool>, shuffled: seq<nat>) {
    && n >= 2 && |extra| == Pow(Log2(n)) && Trues(extra, |extra|) == n - |extra|
    && |shuffled| == |extra| && multiset(shuffled) == multiset(Avail(extra, |extra|))
  }

  function FirstStage(extra: seq<bool>, shuffled: seq<nat>): Stage {
    Stage(SlotNet(extra, |extra|), Firsts(extra, |extra|), extra, shuffled, Slots(extra, |extra|))
  }

  /** What the builder leaves, for slots and spare branches in any order. */
  ghost function TreeNet(n: nat, extra: seq<bool>, shuffled: seq<nat>): Net
    requires Random(n, extra, shuffled)
  {
    Top(FirstStage(extra, shuffled), Log2(n)).net
  }

  /** The tree it has built. */
  ghost function TreeOf(n: nat, extra: seq<bool>, shuffled: seq<nat>): Tree
    requires Random(n, extra, shuffled)
  {
    Top(FirstStage(extra, shuffled), Log2(n)).trees[0]
  }

  lemma FirstIsOk(n: nat, extra: seq<bool>, shuffled: seq<nat>)
    requires Random(n, extra, shuffled)
    ensures StageOk(FirstStage(extra, shuffled), n)
  {
    SlotsAreForest(extra, |extra|);
    ShuffledForest(SlotNet(extra, |extra|), Slots(extra, |extra|), Avail(extra, |extra|), shuffled, n);
    SlotNames(extra, |extra|);
  }

  /** However it is shuffled, a proper tree of all leaves comes out. */
  lemma TreeIsBuilt(n: nat, extra: seq<bool>, shuffled: seq<nat>)
    requires Random(n, extra, shuffled)
    ensures Built(TreeNet(n, extra, shuffled), TreeOf(n, extra, shuffled), n)
  {
    FirstIsOk(n, extra, shuffled);
    TopIsOk(FirstStage(extra, shuffled), n, Log2(n));
    LastIsBuilt(Top(FirstStage(extra, shuffled), Log2(n)), n);
  }

  lemma SlotsTopIsDeep(x: Stage, extra: seq<bool>, k: nat)
    requires Sized(x, k) && x.trees == Slots(extra, |extra|)
    ensures Depths(Top(x, k).trees[0], k, k + 1)
  {
    SlotsAreDeep(extra, |extra|);
    TopIsDeep(x, 0, k);
    FirstIsDeep(Top(x, k).trees, k);
  }

  lemma FirstIsDeep(ts: seq<Tree>, d: int)
    requires |ts| >= 1 && DeepAll(ts, d)
    ensures Depths(ts[0], d, d + 1)
  {
    assert ts[0] in ts;
  }

  /** Its leaves are on two levels at most. */
  lemma TreeIsLevel(n: nat, extra: seq<bool>, shuffled: seq<nat>)
    requires Random(n, extra, shuffled)
    ensures Depths(TreeOf(n, extra, shuffled), Log2(n), Log2(n) + 1)
  {
    SlotsTopIsDeep(FirstStage(extra, shuffled), extra, Log2(n));
  }

  // ---------------------------------------------------------------------------------------------
  // What a proper tree is good for
  // ---------------------------------------------------------------------------------------------

  /** A child of a branch as the branch sees it: a zone of one address is a leaf. */
  function Child(net: Net, f: nat, right: bool): Ref
    requires f in net.branches
  {
    var x := net.branches[f];
    if right then RefOf(x.right, x.rightZone.lo != x.rightZone.hi) else RefOf(x.left, x.leftZone.lo != x.leftZone.hi)
  }

  lemma {:induction false} ChildIsRoot(t: Tree, a: nat)
    requires InOrder(t, a)
    ensures RefOf(t.addr, ZoneOf(t).lo != ZoneOf(t).hi) == Root(t)
  {
    ZoneIsInterval(t, a);
    SizePositive(t);
  }

  /** The children of a used branch are below it, and know it. */
  lemma {:induction false} ChildrenKnow(net: Net, t: Tree, a: nat, f: nat, right: bool)
    requires Holds(net, t) && InOrder(t, a) && Uses(t, BranchOf(f)) > 0
    ensures f in net.branches && Child(net, f, right) in net.father && net.father[Child(net, f, right)] == f
    ensures Uses(t, Child(net, f, right)) > 0
  {
    match t
    case Leaf(_) =>
    case Branch(b, l, r) =>
      if f == b {
        ChildIsRoot(l, a);
        ChildIsRoot(r, a + Size(l));
        RootIsUsed(l);
        RootIsUsed(r);
      } else if Uses(l, BranchOf(f)) > 0 {
        ChildrenKnow(net, l, a, f, right);
      } else {
        ChildrenKnow(net, r, a + Size(l), f, right);
      }
  }

  /** What is used but not the root has a father that knows it. */
  lemma {:induction false} FatherKnows(net: Net, t: Tree, a: nat, ref: Ref)
    requires Holds(net, t) && InOrder(t, a) && Uses(t, ref) > 0 && ref != Root(t)
    ensures ref in net.father && net.father[ref] in net.branches
    ensures ref == Child(net, net.father[ref], false) || ref == Child(net, net.father[ref], true)
  {
    match t
    case Leaf(_) =>
    case Branch(b, l, r) =>
      if ref == Root(l) || ref == Root(r) {
        ChildIsRoot(l, a);
        ChildIsRoot(r, a + Size(l));
      } else if Uses(l, ref) > 0 {
        FatherKnows(net, l, a, ref);
      } else {
        FatherKnows(net, r, a + Size(l), ref);
      }
  }

  /** Father links invert child links. */
  lemma LinksInvert(net: Net, t: Tree, n: nat, ref: Ref, f: nat)
    requires Built(net, t, n)
    ensures (ref in net.father && net.father[ref] == f)
            <==> f in net.branches && (ref == Child(net, f, false) || ref == Child(net, f, true))
  {
    if f in net.branches {
      ChildrenKnow(net, t, 0, f, false);
      ChildrenKnow(net, t, 0, f, true);
    }
    if ref in net.father { FatherKnows(net, t, 0, ref); }
  }

  /** All but the root have a father: every leaf below `n`, and every branch in use. */
  lemma WhoHasAFather(net: Net, t: Tree, n: nat, ref: Ref)
    requires Built(net, t, n)
    ensures ref in net.father <==> ref != Root(t) && if ref.LeafOf? then ref.addr < n else ref.addr in net.branches
  {
    if ref.LeafOf? { LeafUses(t, 0, ref.addr); }
    if Uses(t, ref) > 0 && ref != Root(t) { FatherKnows(net, t, 0, ref); }
  }

  /** From `ref` one comes to `to` in at most `k` steps from child to father. */
  ghost predicate Climbs(net: Net, ref: Ref, to: Ref, k: nat)
    decreases k
  {
    ref == to || (k > 0 && ref in net.father && Climbs(net, BranchOf(net.father[ref]), to, k - 1))
  }

  ghost predicate Below(net: Net, ref: Ref, to: Ref) {
    exists k: nat :: Climbs(net, ref, to, k)
  }

  lemma {:induction false} ClimbsFurther(net: Net, ref: Ref, via: Ref, f: nat, k: nat)
    requires Climbs(net, ref, via, k) && via in net.father && net.father[via] == f
    ensures Climbs(net, ref, BranchOf(f), k + 1)
    decreases k
  {
    if ref != via { ClimbsFurther(net, BranchOf(net.father[ref]), via, f, k - 1); }
  }

  lemma {:induction false} ClimbsToRoot(net: Net, t: Tree, ref: Ref) returns (k: nat)
    requires Holds(net, t) && Uses(t, ref) > 0
    ensures Climbs(net, ref, Root(t), k)
  {
    if ref == Root(t) { return 0; }
    var s := if Uses(t.left, ref) > 0 then t.left else t.right;
    k := ClimbsToRoot(net, s, ref);
    ClimbsFurther(net, ref, Root(s), t.addr, k);
    k := k + 1;
  }

  /** What climbs to the root of a part of the tree is in that part. */
  lemma {:induction false} ClimbsInside(net: Net, t: Tree, n: nat, s: Tree, a: nat, ref: Ref, k: nat)
    requires Built(net, t, n) && Holds(net, s) && InOrder(s, a) && Climbs(net, ref, Root(s), k)
    ensures Uses(s, ref) > 0
    decreases k
  {
    RootIsUsed(s);
    if ref != Root(s) {
      var f := net.father[ref];
      ClimbsInside(net, t, n, s, a, BranchOf(f), k - 1);
      LinksInvert(net, t, n, ref, f);
      ChildrenKnow(net, s, a, f, false);
      ChildrenKnow(net, s, a, f, true);
    }
  }

  /** The part of a tree below one of its branches, and the number of its first leaf. */
  lemma {:induction false} PartOf(net: Net, t: Tree, a: nat, f: nat) returns (s: Tree, from: nat)
    requires Holds(net, t) && InOrder(t, a) && Uses(t, BranchOf(f)) > 0
    ensures s.Branch? && s.addr == f && Holds(net, s) && InOrder(s, from)
  {
    match t
    case Leaf(_) => s, from := t, a;
    case Branch(b, l, r) =>
      if b == f {
        s, from := t, a;
      } else if Uses(l, BranchOf(f)) > 0 {
        s, from := PartOf(net, l, a, f);
      } else {
        s, from := PartOf(net, r, a + Size(l), f);
      }
  }

  /** A leaf climbs to the root of a part if and only if it is in the zone of that part. */
  lemma ZoneIsBelow(net: Net, t: Tree, n: nat, s: Tree, from: nat, a: nat)
    requires Built(net, t, n) && Holds(net, s) && InOrder(s, from)
    ensures ZoneOf(s).lo <= a <= ZoneOf(s).hi <==> Below(net, LeafOf(a), Root(s))
  {
    ZoneIsInterval(s, from);
    LeafUses(s, from, a);
    if Uses(s, LeafOf(a)) > 0 {
      var k := ClimbsToRoot(net, s, LeafOf(a));
    }
    if Below(net, LeafOf(a), Root(s)) {
      var k: nat :| Climbs(net, LeafOf(a), Root(s), k);
      ClimbsInside(net, t, n, s, from, LeafOf(a), k);
    }
  }

  /** The same for a child, as a branch knows it. */
  lemma ZoneOfChild(net: Net, t: Tree, n: nat, s: Tree, from: nat, a: nat, child: Ref)
    requires Built(net, t, n) && Holds(net, s) && InOrder(s, from)
    requires child == RefOf(s.addr, ZoneOf(s).lo != ZoneOf(s).hi)
    ensures ZoneOf(s).lo <= a <= ZoneOf(s).hi <==> Below(net, LeafOf(a), child)
  {
    ChildIsRoot(s, from);
    ZoneIsBelow(net, t, n, s, from, a);
  }

  lemma ZoneOfSide(net: Net, t: Tree, n: nat, s: Tree, from: nat, a: nat, right: bool)
    requires Built(net, t, n) && s.Branch? && Holds(net, s) && InOrder(s, from)
    ensures
      var x := net.branches[s.addr];
      var z := if right then x.rightZone else x.leftZone;
      z.lo <= a <= z.hi <==> Below(net, LeafOf(a), Child(net, s.addr, right))
  {
    var (child, first) := if right then (s.right, from + Size(s.left)) else (s.left, from);
    ZoneOfChild(net, t, n, child, first, a, Child(net, s.addr, right));
  }

  lemma ZonesMeet(net: Net, s: Tree, from: nat)
    requires s.Branch? && Holds(net, s) && InOrder(s, from)
    ensures net.branches[s.addr].leftZone.hi + 1 == net.branches[s.addr].rightZone.lo
  {
    ZoneIsInterval(s.left, from);
    ZoneIsInterval(s.right, from + Size(s.left));
  }

  /** The zone that a branch keeps for a child is exactly the interval of the leaves that climb to that child. */
  lemma ZonesAreExact(net: Net, t: Tree, n: nat, f: nat, a: nat)
    requires Built(net, t, n) && f in net.branches
    ensures
      var x := net.branches[f];
      && (x.leftZone.lo <= a <= x.leftZone.hi <==> Below(net, LeafOf(a), Child(net, f, false)))
      && (x.rightZone.lo <= a <= x.rightZone.hi <==> Below(net, LeafOf(a), Child(net, f, true)))
      && x.leftZone.hi + 1 == x.rightZone.lo
  {
    var s, from := PartOf(net, t, 0, f);
    ZonesMeet(net, s, from);
    ZoneOfSide(net, t, n, s, from, a, false);
    ZoneOfSide(net, t, n, s, from, a, true);
  }

  /** The branches of a tree, each as often as it occurs: one less than it has leaves. */
  lemma {:induction false} BranchesOf(t: Tree) returns (bs: seq<nat>)
    ensures |bs| == Size(t) - 1 && forall b :: Count(bs, b) == Uses(t, BranchOf(b))
  {
    match t
    case Leaf(_) =>
      bs := [];
    case Branch(c, l, r) =>
      var x := BranchesOf(l);
      var y := BranchesOf(r);
      bs := [c] + (x + y);
      forall b ensures Count(bs, b) == Uses(t, BranchOf(b)) {
        CountAppend(x, y, b);
        CountAppend([c], x + y, b);
        assert [c][1..] == [];
      }
  }

  function Members(bs: seq<nat>): set<nat> {
    if bs == [] then {} else {bs[0]} + Members(bs[1..])
  }

  lemma {:induction false} MembersCount(bs: seq<nat>, b: nat)
    ensures b in Members(bs) <==> Count(bs, b) > 0
  {
    if bs != [] { MembersCount(bs[1..], b); }
  }

  lemma {:induction false} MembersSize(bs: seq<nat>)
    requires forall b :: Count(bs, b) <= 1
    ensures |Members(bs)| == |bs|
  {
    if bs != [] {
      forall b ensures Count(bs[1..], b) <= 1 { assert Count(bs, b) <= 1; }
      MembersSize(bs[1..]);
      MembersCount(bs[1..], bs[0]);
      assert Count(bs, bs[0]) <= 1;
    }
  }

  function UpTo(n: nat): (s: set<nat>)
    ensures |s| == n && forall i: nat :: i in s <==> i < n
  {
    if n == 0 then {} else UpTo(n - 1) + {n - 1}
  }

  /** Of `n` numbers all but one are in a set of `n - 1` of them. */
  lemma OneMissing(used: set<nat>, n: nat) returns (spare: nat)
    requires |used| == n - 1 && forall b | b in used :: b < n
    ensures spare < n && spare !in used && forall b: nat | b < n && b != spare :: b in used
  {
    var free := UpTo(n) - used;
    assert used <= UpTo(n) && |free| == 1;
    spare :| spare in free;
    forall b: nat | b < n && b != spare ensures b in used {
      if b in free { SubsetSize({b, spare}, free); }
    }
  }

  /** Of the branches of all nodes exactly one is left over. */
  lemma OneIsLeftOver(net: Net, t: Tree, n: nat) returns (spare: nat)
    requires Built(net, t, n)
    ensures spare < n && spare !in net.branches
    ensures forall b: nat | b < n && b != spare :: b in net.branches
  {
    var bs := BranchesOf(t);
    forall b: nat ensures Count(bs, b) <= One(b < n) && (b in Members(bs) <==> b in net.branches) {
      assert Uses(t, BranchOf(b)) <= One(BranchOf(b).addr < n);
      MembersCount(bs, b);
    }
    MembersSize(bs);
    forall b | b in Members(bs) ensures b < n { MembersCount(bs, b); }
    spare := OneMissing(Members(bs), n);
  }

  lemma SubsetSize(a: set<nat>, b: set<nat>)
    requires a <= b
    ensures |a| <= |b|
  {
    assert b == a + (b - a);
  }

  // ---------------------------------------------------------------------------------------------
  // The builder
  // ---------------------------------------------------------------------------------------------

  class Simulation {
    var father: map<Ref, nat>
    var branches: map<nat, Links>

    function Abs(): Net
      reads this
    {
      Net(father, branches)
    }

    constructor ()
      ensures Abs() == EMPTY
    {
      father, branches := map[], map[];
    }

    method SetFatherAddress(ref: Ref, addr: nat)
      modifies this`father
      ensures father == old(father)[ref := addr]
    {
      father := father[ref := addr];
    }

    method Build(b: nat, l: nat, lb: bool, r: nat, rb: bool)
      modifies this`branches
      ensures branches == old(branches)[b := Links(l, r, ZoneAt(old(Abs()), l, lb), ZoneAt(old(Abs()), r, rb))]
    {
      branches := branches[b := Links(l, r, ZoneAt(Abs(), l, lb), ZoneAt(Abs(), r, rb))];
    }

    method JoinTwo(fatherAddr: nat, leftAddr: nat, lb: bool, rightAddr: nat, rb: bool)
      modifies this
      ensures Abs() == Joined(old(Abs()), fatherAddr, leftAddr, lb, rightAddr, rb)
    {
      SetFatherAddress(RefOf(leftAddr, lb), fatherAddr);
      SetFatherAddress(RefOf(rightAddr, rb), fatherAddr);
      Build(fatherAddr, leftAddr, lb, rightAddr, rb);
    }

    /** The first leaves, and pairs of them below the branch of the first. */
    method FirstSlots(additionalLevel: seq<bool>) returns (currentLevel: array<nat>, availBranches: seq<nat>)
      requires Abs() == EMPTY
      modifies this
      ensures fresh(currentLevel) && currentLevel[..] == Firsts(additionalLevel, |additionalLevel|)
      ensures Abs() == SlotNet(additionalLevel, |additionalLevel|)
      ensures availBranches == Avail(additionalLevel, |additionalLevel|)
    {
      currentLevel, availBranches := new nat[|additionalLevel|], [];
      var j := 0;
      for i := 0 to |additionalLevel|
        invariant j == First(additionalLevel, i) && Abs() == SlotNet(additionalLevel, i)
        invariant currentLevel[..i] == Firsts(additionalLevel, i) && availBranches == Avail(additionalLevel, i)
      {
        currentLevel[i] := j;
        if additionalLevel[i] {
          JoinTwo(j, j, false, j + 1, false);
          j := j + 1;
        }
        availBranches := availBranches + [j];
        j := j + 1;
      }
    }

    /** A spare branch for every two neighbours; the new level overwrites the old one. */
    method NextLevel(currentLevel: array<nat>, p2: nat, isBranch: seq<bool>, avail: seq<nat>, ghost h: nat)
      returns (nextAvail: nat)
      requires p2 == |isBranch| == 2 * h <= currentLevel.Length && h <= |avail|
      modifies this, currentLevel
      ensures nextAvail == h && currentLevel[..h] == avail[..h]
      ensures Abs() == LevelNet(old(Abs()), old(currentLevel[..p2]), isBranch, avail, h)
    {
      ghost var net, level := Abs(), currentLevel[..p2];
      nextAvail := 0;
      var i, j := 0, 0;
      while i < p2
        invariant i == 2 * j <= p2 && nextAvail == j
        invariant forall k | 0 <= k < j :: currentLevel[k] == avail[k]
        invariant forall k | i <= k < p2 :: currentLevel[k] == level[k]
        invariant Abs() == LevelNet(net, level, isBranch, avail, j)
      {
        var leftAddr, rightAddr, fatherAddr := currentLevel[i], currentLevel[i + 1], avail[nextAvail];
        nextAvail := nextAvail + 1;
        currentLevel[j] := fatherAddr;
        JoinTwo(fatherAddr, leftAddr, isBranch[i], rightAddr, isBranch[i + 1]);
        i, j := i + 2, j + 1;
      }
    }

    /** Any slots can get the additional leaves, and the spare branches can be shuffled in any way. */
    method PreStart(numNodes: nat, additionalLevel: seq<bool>, shuffled: seq<nat>)
      requires Random(numNodes, additionalLevel, shuffled) && Abs() == EMPTY
      modifies this
      ensures Abs() == TreeNet(numNodes, additionalLevel, shuffled)
    {
      var p2 := LargestPower(numNodes);
      var currentLevel, availBranches := FirstSlots(additionalLevel);
      availBranches := shuffled;
      assert currentLevel[..p2] == Firsts(additionalLevel, p2);
      NextLevels(currentLevel, p2, additionalLevel, availBranches, Slots(additionalLevel, p2), Log2(numNodes));
    }

    /** One level more. */
    method Raise(currentLevel: array<nat>, p2: nat, isBranch: seq<bool>, avail: seq<nat>, ghost x: Stage, ghost k: nat)
      returns (half: nat, isBranch': seq<bool>, avail': seq<nat>, ghost y: Stage, ghost l: nat)
      requires 1 < p2 == |x.trees| <= currentLevel.Length && Sized(x, k)
      requires x.net == Abs() && x.level == currentLevel[..p2] && x.isBranch == isBranch && x.avail == avail
      modifies this, currentLevel
      ensures 1 <= half < p2 && l < k && half == |y.trees| && Sized(y, l) && Top(y, l) == Top(x, k)
      ensures y.net == Abs() && y.level == currentLevel[..half] && y.isBranch == isBranch' && y.avail == avail'
    {
      ghost var h;
      h, l, y := TopStep(x, k);
      var nextAvail := NextLevel(currentLevel, p2, isBranch, avail, h);
      half := Half(p2, h);
      isBranch', avail' := AllBranches(half), avail[nextAvail..];
    }

    /** Level by level up to the root. */
    method NextLevels(currentLevel: array<nat>, numTrees: nat, firstLevel: seq<bool>, availBranches: seq<nat>,
                      ghost trees: seq<Tree>, ghost levels: nat)
      requires numTrees == |firstLevel| == |availBranches| == |trees| == Pow(levels) <= currentLevel.Length
      modifies this, currentLevel
      ensures Abs() == Top(Stage(old(Abs()), old(currentLevel[..numTrees]), firstLevel, availBranches, trees),
          levels).net
    {
      var p2, isBranch, avail := numTrees, firstLevel, availBranches;
      ghost var k, x := levels, Stage(Abs(), currentLevel[..p2], isBranch, avail, trees);
      ghost var top := Top(x, k);
      PowPositive(k);
      while p2 > 1
        invariant 1 <= p2 <= currentLevel.Length && x.net == Abs() && x.level == currentLevel[..p2]
        invariant x.isBranch == isBranch && x.avail == avail
        invariant Sized(x, k) && |x.trees| == p2 && Top(x, k) == top
        decreases k
      {
        p2, isBranch, avail, x, k := Raise(currentLevel, p2, isBranch, avail, x, k);
      }
    }
  }

  method Half(p2: nat, ghost h: nat) returns (half: nat)
    requires p2 == 2 * h
    ensures half == h
  {
    half := p2 / 2;
  }

  lemma PowerStep(p: nat, h: nat)
    ensures p * (2 * h) == (p * 2) * h
  {
  }

  method LargestPower(n: nat) returns (p2: nat)
    requires n >= 1
    ensures p2 == Pow(Log2(n))
  {
    p2 := 1;
    var i := n;
    while i > 1
      invariant i >= 1 && p2 * Pow(Log2(i)) == Pow(Log2(n))
    {
      assert Pow(Log2(i)) == 2 * Pow(Log2(i / 2));
      PowerStep(p2, Pow(Log2(i / 2)));
      i, p2 := i / 2, p2 * 2;
    }
  }
}
