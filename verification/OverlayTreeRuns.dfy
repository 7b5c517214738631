/** The tree of the overlay nodes over whole runs. */
module OverlayTreeRuns {
  import opened Overlay
  import opened OverlayProtocol
  import opened OverlayPairs
  import opened OverlayInvariant
  import opened OverlaySafety
  import opened OverlaySteps
  import opened OverlayNodes
  import opened OverlayRuns
  import opened OverlayTheorems
  import opened OverlayLinks
  import opened OverlayPlans
  import opened OverlayTree

  // ---------------------------------------------------------------------------------------------
  // The step in which a node splits
  // ---------------------------------------------------------------------------------------------

  /** Everybody who is asked is enlisted. */
  ghost predicate Listed(w: World, t: TxId, outs: seq<Out>) {
    forall o | o in outs :: o.to in Enlisted(w, t)
  }

  lemma BrotherIsNew(w: World, w': World, x: Addr, t: TxId, brother: Addr, c: Choice)
    requires Inv(w) && SplitsOff(w, w', x, t, brother, c)
    ensures brother != x && brother != NOBODY && SN(brother) !in Enlisted(w, t) && !Settled(w, brother)
    ensures t !in w.decided && t in w.split
  {
    assert NodeOk(w, x, w.sn(x)) && Arrives(w, x, true, SN(brother), NewStrNode(t), w.sn(x));
    OfferIsFresh(w, x, true, SN(brother), NewStrNode(t), w.sn(x), t);
  }

  lemma UpperIsKnown(w: World, x: Addr, t: TxId)
    requires NodeOk(w, x, w.sn(x)) && FutureFather(w, x) && w.sn(x).tx == t && w.sn(x).phase == WaitStr
    requires Upper(w.sn(x)) != NOBODY
    ensures
      var n := w.sn(x);
      && Upper(n) != x && n.noAck == (if n.father == NOBODY then [SN(n.newFather)] else [])
      && (if n.father == NOBODY then SN(n.newFather) in Enlisted(w, t)
         && !Settled(w, n.newFather) else Settled(w, n.father))
  {
    var n := w.sn(x);
    if n.father == NOBODY { assert n.noAck[0] == SN(n.newFather); }
  }

  lemma PlanHolds(w: World, w': World, x: Addr, t: TxId, brother: Addr, c: Choice)
    requires Inv(w) && FutureFather(w, x) && SplitsOff(w, w', x, t, brother, c)
    ensures PlanOk(x, w.sn(x), brother, c)
  {
    var n := w.sn(x);
    assert NodeOk(w, x, n);
    SplitterFacts(w, w', x, t, brother, c);
    BrotherIsNew(w, w', x, t, brother, c);
    UpperIsKnown(w, x, t);
    if SN(brother) in Movers(n, c.moved) { MoversPlaced(w, x, n, c, SN(brother)); }
    if SN(Upper(n)) in Movers(n, c.moved) { MoversPlaced(w, x, n, c, SN(Upper(n))); }
    forall z | z in n.zones ensures ZoneOk(z) && z.actual != NOBODY && !z.IsDeletion() { assert LinkOk(w, x, n, z); }
  }

  lemma SplitIsListed(w: World, w': World, x: Addr, t: TxId, brother: Addr, c: Choice)
    requires Inv(w) && FutureFather(w, x) && SplitsOff(w, w', x, t, brother, c)
    ensures Listed(w', t, Split(x, w.sn(x), brother, c.moved).outs)
  {
    var n := w.sn(x);
    var r := Split(x, n, brother, c.moved);
    assert NodeOk(w, x, n);
    UpperIsKnown(w, x, t);
    assert Handle(x, w.m, n, SN(brother), NewStrNode(t), c) == r;
    forall o | o in r.outs ensures o.to in Enlisted(w', t) {
      AskedMustAcknowledge(x, n, brother, c, o.to);
    }
  }

  lemma StepEnlists(w: World, w': World, act: Action, t: TxId)
    requires SplitsOk(w) && Does(w, w', act)
    ensures Enlisted(w, t) <= Enlisted(w', t)
  {
    if act.ADeliver? || act.AReplay? {
      HandledEnlists(w, w', act, t);
    } else if act.AStartSplit? {
      assert w'.enlisted == w.enlisted[act.t := {}];
    } else {
      OthersEnlistNobody(w, w', act);
    }
  }

  lemma HandledEnlists(w: World, w': World, act: Action, t: TxId)
    requires Does(w, w', act) && (act.ADeliver? || act.AReplay?)
    ensures Enlisted(w, t) <= Enlisted(w', t)
  {
  }

  lemma OthersEnlistNobody(w: World, w': World, act: Action)
    requires Does(w, w', act) && !act.ADeliver? && !act.AReplay? && !act.AStartSplit?
    ensures w'.enlisted == w.enlisted
  {
  }

  lemma RunEnlistsNext(ws: seq<World>, k: nat, w: World, w': World, t: TxId)
    requires Run(ws) && k + 1 < |ws| && w == ws[k] && w' == ws[k + 1]
    ensures Enlisted(w, t) <= Enlisted(w', t)
  {
    RunStep(ws, k, w, w');
    var act :| Does(w, w', act);
    StepEnlists(w, w', act, t);
  }

  lemma RunEnlists(ws: seq<World>, j: nat, k: nat, t: TxId)
    requires Run(ws) && j <= k < |ws|
    ensures Enlisted(ws[j], t) <= Enlisted(ws[k], t)
  {
    var good := w => Enlisted(ws[j], t) <= Enlisted(w, t);
    forall i: nat | j <= i < |ws| - 1 && good(ws[i]) ensures good(ws[i + 1]) {
      RunEnlistsNext(ws, i, ws[i], ws[i + 1], t);
    }
    EverAfter(ws, good, j, k);
  }

  // ---------------------------------------------------------------------------------------------
  // The step in which a split wins
  // ---------------------------------------------------------------------------------------------

  lemma WaitingHolds(w: World, x: Addr, s: Node, brother: Addr, c: Choice, y: Addr)
    requires ValidChoice(s, c) && NodeOk(w, y, w.sn(y)) && Tidy(w.sn(y)) && SplitOf(w, x, s.tx)
    requires NodeAsked(y, w.sn(y), x, s.tx, Split(x, s, brother, c.moved).outs)
    requires (exists o :: o in Split(x, s, brother, c.moved).outs && o.to == SN(y)) ==> Waits(w, s.tx, SN(y))
    ensures Waiting(w, x, s, brother, c, y)
  {
    var n := w.sn(y);
    PlainHolds(w, y, n);
    if n.phase == ChangeFather {
      forall k | 0 <= k < |n.zones|
        ensures n.zones[k].actual != NOBODY && (n.zones[k].changing ==> n.zones[k].next == n.zones[k].actual)
      {
        assert n.zones[k] in n.zones && LinkOk(w, y, n, n.zones[k]);
      }
    }
  }

  lemma EverybodyWaits(w: World, x: Addr, s: Node, brother: Addr, c: Choice)
    requires ValidChoice(s, c) && NodesOk(w) && AllTidy(w) && SplitOf(w, x, s.tx)
    requires Asked(w, x, s.tx, Split(x, s, brother, c.moved).outs)
    requires forall o | o in Split(x, s, brother, c.moved).outs :: Waits(w, s.tx, o.to)
    ensures AllWait(w, x, s, brother, c)
  {
    var outs := Split(x, s, brother, c.moved).outs;
    forall y ensures Waiting(w, x, s, brother, c, y) {
      assert NodeOk(w, y, w.sn(y)) && Tidy(w.sn(y)) && NodeAsked(y, w.sn(y), x, s.tx, outs);
      WaitingHolds(w, x, s, brother, c, y);
    }
    forall a ensures ResWaiting(w, x, s, brother, c, a) {
      assert ResAsked(a, w.rn(a), s.tx, outs);
    }
  }

  lemma WinIsStep(w: World, w': World, act: Action, t: TxId)
    requires Base(w) && AllCoherent(w) && Does(w, w', act) && Won(w', t) && !Won(w, t)
    ensures act.ADeliver? && SplitOf(w, act.x, t) && SplittingFor(w, act.x, t) && WinsStep(w, w', act.x, t, act.src)
    ensures t !in w.decided
  {
    StepWins(w, w', act, t);
    WinDecides(w, w', act.x, act.src, act.c, t);
  }

  lemma WinDecides(w: World, w': World, x: Addr, src: Proc, c: Choice, t: TxId)
    requires Base(w) && Deliver(w, w', x, src, c) && SplittingFor(w, x, t) && Won(w', t) && !Won(w, t)
    requires w'.sn(x) == Committed(x, Heard(w.sn(x), src)).n
    ensures WinsStep(w, w', x, t, src) && t !in w.decided
  {
    assert NodeOk(w, x, w.sn(x));
  }

  lemma WinLeavesTree(w: World, w': World, x: Addr, s: Node, brother: Addr, c: Choice, t: TxId)
    requires Inv(w) && AllTidy(w) && ShapeOf(w).IsTree() && Next(w, w') && Won(w', t) && !Won(w, t)
    requires PlanOk(x, s, brother, c) && s.tx == t && SplittingFor(w, x, t)
    requires var r := Split(x, s, brother, c.moved); Planned(w, x, t, r.n, r.outs)
    requires forall o | o in Split(x, s, brother, c.moved).outs :: Waits(w, t, o.to)
    ensures ShapeOf(w').IsTree() && (|s.zones| == 2 * w.m ==> StaysFull(ShapeOf(w), ShapeOf(w'), w.m))
  {
    var act :| Does(w, w', act);
    WinIsStep(w, w', act, t);
    EverybodyWaits(w, x, s, brother, c);
    WinMoves(w, w', x, s, brother, c, act.src);
  }

  // ---------------------------------------------------------------------------------------------
  // Whole runs
  // ---------------------------------------------------------------------------------------------

  ghost predicate AllFuture(w: World) {
    forall x :: FutureFather(w, x)
  }

  lemma InitialIsTree(w: World)
    requires Initial(w)
    ensures InsertsOk(w) && AllFuture(w) && ShapeOf(w).IsTree()
  {
    assert forall p: Proc :: Fa(w, p) == NOBODY;
    assert forall x :: Ch(w, x) == [];
  }

  lemma AllFutureStays(w: World, w': World, act: Action)
    requires Inv(w) && AllTidy(w) && AllFuture(w) && Does(w, w', act)
    ensures AllFuture(w')
  {
    forall x ensures FutureFather(w', x) {
      assert Tidy(w.sn(x)) && FutureFather(w, x);
      StepFuture(w, w', act, x);
    }
  }

  /** The step in which a split begins, for a split that is about to win. */
  lemma SplitStepFacts(ws: seq<World>, j: nat, w: World, w': World, x: Addr, t: TxId, brother: Addr, c: Choice)
    requires Run(ws) && j + 1 < |ws| && w == ws[j] && w' == ws[j + 1] && SplitsOff(w, w', x, t, brother, c)
    requires FutureFather(w, x)
    ensures PlanOk(x, w.sn(x), brother, c) && |w.sn(x).zones| == 2 * w.m
    ensures var r := Split(x, w.sn(x), brother, c.moved); Planned(w', x, t, r.n, r.outs) && Listed(w', t, r.outs)
  {
    RunStep(ws, j, w, w');
    assert NodeOk(w, x, w.sn(x));
    PlanHolds(w, w', x, t, brother, c);
    SplitIsListed(w, w', x, t, brother, c);
    SplitIsPlanned(w, w', x, t, brother, c);
  }

  lemma MembersWait(ws: seq<World>, j: nat, k: nat, w: World, t: TxId, outs: seq<Out>)
    requires Run(ws) && j <= k && k + 1 < |ws| && w == ws[k] && Listed(ws[j], t, outs)
    requires t in w.split && Open(w, t) && Won(ws[k + 1], t)
    ensures forall o | o in outs :: Waits(w, t, o.to)
  {
    RunEnlists(ws, j, k, t);
    forall o | o in outs ensures Waits(w, t, o.to) {
      assert o.to in Enlisted(ws[j], t);
      WinsOnlyWithAll(ws, k, t, o.to);
    }
  }

  lemma WinOpens(w: World, w': World, t: TxId)
    requires Inv(w) && Next(w, w') && Won(w', t) && !Won(w, t)
    ensures Open(w, t)
  {
    var act :| Does(w, w', act);
    WinIsStep(w, w', act, t);
  }

  lemma RunWinOpens(ws: seq<World>, k: nat, w: World, w': World, t: TxId)
    requires Run(ws) && k + 1 < |ws| && w == ws[k] && w' == ws[k + 1] && Won(w', t) && !Won(w, t)
    ensures Open(w, t)
  {
    RunStep(ws, k, w, w');
    WinOpens(w, w', t);
  }

  lemma StepWidth(w: World, w': World, act: Action)
    requires Does(w, w', act)
    ensures w'.m == w.m
  {
  }

  lemma RunWidthNext(ws: seq<World>, k: nat, w: World, w': World)
    requires Run(ws) && k + 1 < |ws| && w == ws[k] && w' == ws[k + 1]
    ensures w'.m == w.m
  {
    RunStep(ws, k, w, w');
    var act :| Does(w, w', act);
    StepWidth(w, w', act);
  }

  lemma SameWidth(ws: seq<World>, j: nat, k: nat)
    requires Run(ws) && j <= k < |ws|
    ensures ws[k].m == ws[j].m
  {
    var good := (w: World) => w.m == ws[j].m;
    forall i: nat | j <= i < |ws| - 1 && good(ws[i]) ensures good(ws[i + 1]) {
      RunWidthNext(ws, i, ws[i], ws[i + 1]);
    }
    EverAfter(ws, good, j, k);
  }

  lemma WinKeepsTree(ws: seq<World>, k: nat, t: TxId)
    requires Run(ws) && k + 1 < |ws| && Won(ws[k + 1], t) && !Won(ws[k], t) && ShapeOf(ws[k]).IsTree()
    requires forall j, x | 0 <= j <= k :: FutureFather(ws[j], x)
    ensures ShapeOf(ws[k + 1]).IsTree() && StaysFull(ShapeOf(ws[k]), ShapeOf(ws[k + 1]), ws[k].m)
  {
    var x := RunWins(ws, k, ws[k], ws[k + 1], t);
    RunWinOpens(ws, k, ws[k], ws[k + 1], t);
    NotSplittingAtFirst(ws[0], x, t);
    var j := FirstSplitting(ws, k, x, t);
    var brother, c := RunStarts(ws, j, ws[j], ws[j + 1], x, t);
    assert FutureFather(ws[j], x);
    SplitStepFacts(ws, j, ws[j], ws[j + 1], x, t, brother, c);
    var r := Split(x, ws[j].sn(x), brother, c.moved);
    SameWidth(ws, j, k);
    MembersWait(ws, j + 1, k, ws[k], t, r.outs);
    RunPlanned(ws, j + 1, k, x, t, r.n, r.outs);
    RunWinLeavesTree(ws, k, ws[k], ws[k + 1], x, ws[j].sn(x), brother, c, t);
  }

  lemma RunWinLeavesTree(ws: seq<World>, k: nat, w: World, w': World, x: Addr, s: Node, brother: Addr, c: Choice,
                         t: TxId)
    requires Run(ws) && k + 1 < |ws| && w == ws[k] && w' == ws[k + 1] && ShapeOf(w).IsTree() && Won(w', t) && !Won(w, t)
    requires PlanOk(x, s, brother, c) && s.tx == t && SplittingFor(w, x, t)
    requires var r := Split(x, s, brother, c.moved); Planned(w, x, t, r.n, r.outs)
    requires forall o | o in Split(x, s, brother, c.moved).outs :: Waits(w, t, o.to)
    ensures ShapeOf(w').IsTree() && (|s.zones| == 2 * w.m ==> StaysFull(ShapeOf(w), ShapeOf(w'), w.m))
  {
    RunStep(ws, k, w, w');
    RunTidy(ws, k);
    WinLeavesTree(w, w', x, s, brother, c, t);
  }

  lemma RunInsertsNext(ws: seq<World>, k: nat, w: World, w': World)
    requires Run(ws) && k + 1 < |ws| && w == ws[k] && w' == ws[k + 1] && InsertsOk(w)
    ensures InsertsOk(w')
  {
    RunStep(ws, k, w, w');
    var act :| Does(w, w', act);
    StepInserts(w, w', act);
  }

  lemma RunFutureNext(ws: seq<World>, k: nat, w: World, w': World)
    requires Run(ws) && k + 1 < |ws| && w == ws[k] && w' == ws[k + 1] && AllFuture(w)
    ensures AllFuture(w')
  {
    RunStep(ws, k, w, w');
    RunTidy(ws, k);
    var act :| Does(w, w', act);
    AllFutureStays(w, w', act);
  }

  lemma RunInserts(ws: seq<World>, k: nat)
    requires Run(ws) && k < |ws|
    ensures InsertsOk(ws[k])
  {
    var good := w => InsertsOk(w);
    InitialIsTree(ws[0]);
    forall i: nat | i < |ws| - 1 && good(ws[i]) ensures good(ws[i + 1]) { RunInsertsNext(ws, i, ws[i], ws[i + 1]); }
    EverAfter(ws, good, 0, k);
  }

  lemma RunFuture(ws: seq<World>, k: nat)
    requires Run(ws) && k < |ws|
    ensures AllFuture(ws[k])
  {
    var good := w => AllFuture(w);
    InitialIsTree(ws[0]);
    forall i: nat | i < |ws| - 1 && good(ws[i]) ensures good(ws[i + 1]) { RunFutureNext(ws, i, ws[i], ws[i + 1]); }
    EverAfter(ws, good, 0, k);
  }

  lemma QuietStepKeepsTree(ws: seq<World>, k: nat, w: World, w': World)
    requires Run(ws) && k + 1 < |ws| && w == ws[k] && w' == ws[k + 1] && InsertsOk(w) && ShapeOf(w).IsTree()
    requires NobodyWins(w, w')
    ensures ShapeOf(w').IsTree() && StaysFull(ShapeOf(w), ShapeOf(w'), w.m)
  {
    RunStep(ws, k, w, w');
    RunTidy(ws, k);
    var act :| Does(w, w', act);
    QuietTree(w, w', act);
  }

  lemma StepKeepsTree(ws: seq<World>, k: nat)
    requires Run(ws) && k + 1 < |ws| && ShapeOf(ws[k]).IsTree()
    ensures ShapeOf(ws[k + 1]).IsTree() && StaysFull(ShapeOf(ws[k]), ShapeOf(ws[k + 1]), ws[k].m)
  {
    if NobodyWins(ws[k], ws[k + 1]) {
      RunInserts(ws, k);
      QuietStepKeepsTree(ws, k, ws[k], ws[k + 1]);
    } else {
      var t :| Won(ws[k + 1], t) && !Won(ws[k], t);
      forall j, x | 0 <= j <= k ensures FutureFather(ws[j], x) {
        RunFuture(ws, j);
      }
      WinKeepsTree(ws, k, t);
    }
  }

  /**
   In every reachable world the overlay is a tree, when a node that waits for a decided transaction counts as having
   done it: `c` is among the children of `x` if and only if the father of `c` is `x`, nobody is there twice, and the
   father is one level above. So a split takes effect on all its members at once, in the step in which its driver
   decides.
   */
  lemma RunIsTree(ws: seq<World>, k: nat)
    requires Run(ws) && k < |ws|
    ensures ShapeOf(ws[k]).IsTree()
  {
    var good := w => ShapeOf(w).IsTree();
    InitialIsTree(ws[0]);
    forall i: nat | i < |ws| - 1 && good(ws[i]) ensures good(ws[i + 1]) { StepKeepsTree(ws, i); }
    EverAfter(ws, good, 0, k);
  }

  lemma InitialIsFull(w: World)
    requires Initial(w)
    ensures ShapeOf(w).Full(w.m)
  {
    assert forall p: Proc :: Fa(w, p) == NOBODY;
  }

  lemma RunIsFull(ws: seq<World>, k: nat)
    requires Run(ws) && k < |ws|
    ensures ShapeOf(ws[k]).Full(ws[k].m)
  {
    var good := (w: World) => ShapeOf(w).Full(w.m);
    InitialIsFull(ws[0]);
    forall i: nat | i < |ws| - 1 && good(ws[i]) ensures good(ws[i + 1]) {
      RunIsTree(ws, i);
      StepKeepsTree(ws, i);
      SameWidth(ws, i, i + 1);
    }
    EverAfter(ws, good, 0, k);
  }

  /** Between transactions, a structure node that has a father has at least `m` children. */
  lemma FanoutAtLeast(ws: seq<World>, k: nat, x: Addr)
    requires Run(ws) && k < |ws| && ws[k].sn(x).tx == NO_TX && ws[k].sn(x).father != NOBODY
    ensures ws[k].m <= |Actuals(ws[k].sn(x).zones)| == |ws[k].sn(x).zones|
  {
    RunIsFull(ws, k);
    AtRestReal(ws, k, ws[k], x);
    assert ShapeOf(ws[k]).EnoughAt(x, ws[k].m);
  }

  /** The process that an address names among the children of `x`. */
  ghost function ChildOf(w: World, x: Addr, c: Addr): Proc {
    if w.sn(x).level == 0 then RN(c) else SN(c)
  }

  /** Between transactions the links themselves agree. */
  lemma LinksAgree(ws: seq<World>, k: nat, x: Addr, p: Proc)
    requires Run(ws) && k < |ws| && x != NOBODY && ws[k].sn(x).tx == NO_TX && TxOf(ws[k], p) == NO_TX
    ensures
      var w := ws[k];
      FatherOf(w, p) == x <==> p == ChildOf(w, x, p.a) && p.a in Actuals(w.sn(x).zones)
  {
    var w := ws[k];
    RunIsTree(ws, k);
    AtRestReal(ws, k, w, x);
    assert ShapeOf(w).FatherOk(p) && ShapeOf(w).ChildOk(x, p.a);
  }

  lemma AtRestReal(ws: seq<World>, k: nat, w: World, x: Addr)
    requires Run(ws) && k < |ws| && w == ws[k] && w.sn(x).tx == NO_TX
    ensures Ch(w, x) == Actuals(w.sn(x).zones)
  {
    RunKeeps(ws, k);
    assert NodeOk(w, x, w.sn(x));
    PlainZonesHold(w, x, w.sn(x));
    WholeIsReal(w.sn(x).zones);
  }

  /** The father of a structure node is one level above it, so nobody is above itself. */
  lemma FatherIsAbove(ws: seq<World>, k: nat, a: Addr)
    requires Run(ws) && k < |ws| && Fa(ws[k], SN(a)) != NOBODY
    ensures ws[k].sn(Fa(ws[k], SN(a))).level == ws[k].sn(a).level + 1
  {
    RunIsTree(ws, k);
    var s := ShapeOf(ws[k]);
    assert s.FatherOk(SN(a)) && s.ChildOk(s.fa(SN(a)), a);
  }
}
