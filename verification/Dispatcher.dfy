/**
 The links of a dispatcher and its cached branch summary (include/Dispatcher.hpp). `T` is a summary of
 availability; summaries are joined on the way up and reduced before they are sent.
 */
module Dispatcher {
  import opened Common

  type Addr = nat

  const NOBODY: Addr := 0

  /** Joining and reducing summaries, the size of a message, and how many bytes a second updates may take (0: any). */
  datatype Ops<!T> = Ops(join: (T, T) -> T, reduce: T -> T, size: Info<T> -> nat, bandwidth: real)

  /** A summary with its sequence number; `fromSch` tells those of schedulers from those of dispatchers. */
  datatype Info<T> = Info(content: T, seqNum: nat, fromSch: bool)

  datatype Link<T> = Link(
    addr: Addr, availInfo: Option<Info<T>>, waitingInfo: Option<Info<T>>, notifiedInfo: Option<Info<T>>,
      hasNewInformation: bool)

  function NewLink<T>(addr: Addr): Link<T> {
    Link(addr, None, None, None, true)
  }

  function UpdateSequenceNumber<T>(l: Link<T>): Link<T> {
    if l.waitingInfo.Some?
    then l.(waitingInfo := Some(l.waitingInfo.value.(seqNum := if l.notifiedInfo.Some?
         then l.notifiedInfo.value.seqNum + 1 else 1)))
    else l
  }

  /** There is something to tell that was not told yet. */
  predicate Untold<T(==)>(l: Link<T>) {
    l.waitingInfo.Some? && !(l.notifiedInfo.Some? && l.notifiedInfo.value.content == l.waitingInfo.value.content)
  }

  /** The link after an update, and the message sent, if any. */
  function SendUpdate<T(==)>(ops: Ops<T>, l: Link<T>): (Link<T>, Option<Info<T>>) {
    if Untold(l) then
      var told := UpdateSequenceNumber(l).waitingInfo.value.(fromSch := false);
      (l.(notifiedInfo := Some(told), waitingInfo := None), Some(told.(content := ops.reduce(told.content))))
    else (l, None)
  }

  /** A message from `src` reaches the link; older information is discarded. */
  function Update<T>(l: Link<T>, src: Addr, msg: Info<T>): (Link<T>, bool) {
    if l.addr != src then (l, false)
    else if l.availInfo.Some? && l.availInfo.value.seqNum >= msg.seqNum then (l, true)
    else (l.(availInfo := Some(msg), hasNewInformation := true), true)
  }

  // ---------------------------------------------------------------------------------------------
  // One link, over a network that reorders and repeats
  // ---------------------------------------------------------------------------------------------

  /** The sending end, all that was sent, the receiving end, and which messages have arrived so far. */
  datatype Wire<T> = Wire(sender: Link<T>, sent: seq<Info<T>>, receiver: Link<T>, arrived: set<nat>)

  datatype WireStep<T> =
    | Learn(info: Info<T>)    // the sender has a new summary to tell
    | Forget                  // the sender has nothing to tell any more
    | Tell                    // the sender may send an update
    | Arrive(i: nat)          // any message, sent at any time, arrives, maybe not for the first time

  predicate WireEnabled<T>(w: Wire<T>, s: WireStep<T>) {
    s.Arrive? ==> s.i < |w.sent|
  }

  function WireDoes<T(==)>(ops: Ops<T>, w: Wire<T>, s: WireStep<T>, from: Addr): Wire<T>
    requires WireEnabled(w, s)
  {
    match s
    case Learn(info) => w.(sender := UpdateSequenceNumber(w.sender.(waitingInfo := Some(info))))
    case Forget => w.(sender := w.sender.(waitingInfo := None))
    case Tell =>
      var (l, m) := SendUpdate(ops, w.sender);
      w.(sender := l, sent := if m.Some? then w.sent + [m.value] else w.sent)
    case Arrive(i) => w.(receiver := Update(w.receiver, from, w.sent[i]).0, arrived := w.arrived + {i})
  }

  ghost predicate WireNext<T(!new)>(ops: Ops<T>, w: Wire<T>, w': Wire<T>, from: Addr) {
    exists s :: WireEnabled(w, s) && w' == WireDoes(ops, w, s, from)
  }

  ghost predicate WireRun<T(!new)>(ops: Ops<T>, ws: seq<Wire<T>>, from: Addr, to: Addr) {
    && |ws| > 0 && ws[0] == Wire(NewLink(to), [], NewLink(from), {})
    && forall k | 0 <= k < |ws| - 1 :: WireNext(ops, ws[k], ws[k + 1], from)
  }

  ghost predicate IsNewest(arrived: set<nat>, i: nat) {
    i in arrived && forall j | j in arrived :: j <= i
  }

  ghost predicate WireOk<T>(ops: Ops<T>, w: Wire<T>, from: Addr) {
    && w.receiver.addr == from
    && (forall i | 0 <= i < |w.sent| :: w.sent[i].seqNum == i + 1)
    && (forall i | i in w.arrived :: i < |w.sent|)
    && (w.sender.notifiedInfo.Some? <==> w.sent != [])
    && (w.sent != [] ==>
          && w.sender.notifiedInfo.value.seqNum == |w.sent|
          && w.sent[|w.sent| - 1] == w.sender.notifiedInfo.value.(content :=
             ops.reduce(w.sender.notifiedInfo.value.content)))
    && (if w.receiver.availInfo.None? then w.arrived == {}
        else exists i: nat :: IsNewest(w.arrived, i) && w.receiver.availInfo == Some(w.sent[i]))
  }

  lemma WireStepOk<T>(ops: Ops<T>, w: Wire<T>, s: WireStep<T>, from: Addr)
    requires WireOk(ops, w, from) && WireEnabled(w, s)
    ensures WireOk(ops, WireDoes(ops, w, s, from), from)
  {
    var w' := WireDoes(ops, w, s, from);
    if w.receiver.availInfo.Some? {
      var i: nat :| IsNewest(w.arrived, i) && w.receiver.availInfo == Some(w.sent[i]);
      if s.Arrive? && s.i > i {
        assert IsNewest(w'.arrived, s.i) && w'.receiver.availInfo == Some(w'.sent[s.i]);
      } else {
        assert IsNewest(w'.arrived, i) && w'.receiver.availInfo == Some(w'.sent[i]);
      }
    } else if s.Arrive? {
      assert IsNewest(w'.arrived, s.i);
    }
  }

  lemma {:induction false} WireRunOk<T(!new)>(ops: Ops<T>, ws: seq<Wire<T>>, from: Addr, to: Addr, k: nat)
    requires WireRun(ops, ws, from, to) && k < |ws|
    ensures WireOk(ops, ws[k], from)
  {
    if k > 0 {
      WireRunOk(ops, ws, from, to, k - 1);
      assert WireNext(ops, ws[k - 1], ws[k - 1 + 1], from);
      var s :| WireEnabled(ws[k - 1], s) && ws[k] == WireDoes(ops, ws[k - 1], s, from);
      WireStepOk(ops, ws[k - 1], s, from);
    }
  }

  /**
   Whatever the network does, the numbers sent on a link grow one by one, the receiver holds the newest message that
   has arrived, and once the last one sent has arrived it holds what the sender told last, reduced.
   */
  lemma LinkConverges<T(!new)>(ops: Ops<T>, ws: seq<Wire<T>>, from: Addr, to: Addr, k: nat)
    requires WireRun(ops, ws, from, to) && k < |ws|
    ensures forall i, j | 0 <= i < j < |ws[k].sent| :: ws[k].sent[i].seqNum < ws[k].sent[j].seqNum
    ensures forall i: nat | IsNewest(ws[k].arrived, i) ::
        i < |ws[k].sent| && ws[k].receiver.availInfo == Some(ws[k].sent[i])
    ensures |ws[k].sent| > 0 && |ws[k].sent| - 1 in ws[k].arrived ==>
              && ws[k].sender.notifiedInfo.Some? && ws[k].receiver.availInfo.Some?
              && ws[k].receiver.availInfo.value.content == ops.reduce(ws[k].sender.notifiedInfo.value.content)
  {
    WireRunOk(ops, ws, from, to, k);
    var w := ws[k];
    if |w.sent| > 0 && |w.sent| - 1 in w.arrived { assert IsNewest(w.arrived, |w.sent| - 1); }
  }

  lemma StepNeverGoesBack<T>(ops: Ops<T>, w: Wire<T>, s: WireStep<T>, from: Addr)
    requires WireEnabled(w, s) && w.receiver.availInfo.Some?
    ensures var w' := WireDoes(ops, w, s, from);
            w'.receiver.availInfo.Some? && w.receiver.availInfo.value.seqNum <= w'.receiver.availInfo.value.seqNum
  {
  }

  /** The receiver never goes back to an older message. */
  lemma {:induction false} NeverGoesBack<T(!new)>(ops: Ops<T>, ws: seq<Wire<T>>, from: Addr, to: Addr, j: nat, k: nat)
    requires WireRun(ops, ws, from, to) && j <= k < |ws| && ws[j].receiver.availInfo.Some?
    ensures ws[k].receiver.availInfo.Some?
    ensures ws[j].receiver.availInfo.value.seqNum <= ws[k].receiver.availInfo.value.seqNum
  {
    if j < k {
      NeverGoesBack(ops, ws, from, to, j, k - 1);
      assert WireNext(ops, ws[k - 1], ws[k - 1 + 1], from);
      var s :| WireEnabled(ws[k - 1], s) && ws[k] == WireDoes(ops, ws[k - 1], s, from);
      StepNeverGoesBack(ops, ws[k - 1], s, from);
    }
  }

  // ---------------------------------------------------------------------------------------------
  // A dispatcher
  // ---------------------------------------------------------------------------------------------

  datatype State<T> = State(
    father: Link<T>, child0: Link<T>, child1: Link<T>, delayed: seq<(Addr, Info<T>)>,
    timer: bool, nextUpdate: int, inChange: bool, now: int)

  function BranchInfo<T>(d: State<T>): Option<Info<T>> {
    if d.father.waitingInfo.Some? then d.father.waitingInfo else d.father.notifiedInfo
  }

  /** The join of what the children have told. */
  function ChildrenInfo<T>(ops: Ops<T>, d: State<T>): Option<T> {
    if d.child0.availInfo.Some? then
      Some(if d.child1.availInfo.Some? then ops.join(d.child0.availInfo.value.content, d.child1.availInfo.value.content)
           else d.child0.availInfo.value.content)
    else if d.child1.availInfo.Some? then Some(d.child1.availInfo.value.content)
    else None
  }

  function RecomputeFather<T>(ops: Ops<T>, d: State<T>): State<T> {
    if !(d.child0.hasNewInformation || d.child1.hasNewInformation) then d
    else if ChildrenInfo(ops, d).None? then d.(father := d.father.(waitingInfo := None))
    else
      var base := if d.child0.availInfo.Some? then d.child0.availInfo.value else d.child1.availInfo.value;
      d.(father := UpdateSequenceNumber(d.father.(waitingInfo := Some(base.(content := ChildrenInfo(ops, d).value)))))
  }

  function RecomputeInfo<T>(ops: Ops<T>, d: State<T>): State<T> {
    var d' := RecomputeFather(ops, d);
    d'.(father := d'.father.(hasNewInformation := false), child0 := d'.child0.(hasNewInformation := false),
        child1 := d'.child1.(hasNewInformation := false))
  }

  /** How long, in microseconds, `size` bytes take at the given bandwidth, rounded down. */
  function Micros(size: nat, bandwidth: real): (t: nat)
    ensures bandwidth > 0.0 ==> size as real * 1000000.0 < bandwidth * (t as real + 1.0)
  {
    if bandwidth > 0.0 then Floored(size as real * 1000000.0, bandwidth) else 0
  }

  function Floored(x: real, y: real): (t: nat)
    requires x >= 0.0 && y > 0.0
    ensures x < y * (t as real + 1.0)
  {
    FloorBounds(x, y);
    (x / y).Floor
  }

  lemma FloorBounds(x: real, y: real)
    requires x >= 0.0 && y > 0.0
    ensures (x / y).Floor >= 0 && x < y * ((x / y).Floor as real + 1.0)
  {
    var q := x / y;
    var next := q.Floor as real + 1.0;
    assert q * y == x && q >= 0.0;
    LessTimes(q, next, y, x);
  }

  lemma LessTimes(a: real, b: real, y: real, x: real)
    requires a < b && y > 0.0 && a * y == x
    ensures x < y * b
  {
    assert 0.0 < (b - a) * y;
  }

  /** What is sent to the father when the time has come. */
  function Says<T(==)>(ops: Ops<T>, d: State<T>): seq<Info<T>> {
    if d.nextUpdate > d.now || d.timer || d.inChange || d.father.addr == NOBODY then []
    else match SendUpdate(ops, d.father).1 case None => [] case Some(m) => [m]
  }

  /** How long to wait after that. */
  function PauseAfter<T>(ops: Ops<T>, said: seq<Info<T>>): nat {
    if said == [] then 0 else Micros(ops.size(said[0]), ops.bandwidth)
  }

  /** Sends an update or, when it is too early for one, makes sure that the timer is set. */
  function Notify<T(==)>(ops: Ops<T>, d: State<T>): State<T> {
    if d.nextUpdate > d.now || d.timer then d.(timer := true)
    else d.(father := if !d.inChange && d.father.addr != NOBODY then SendUpdate(ops, d.father).0 else d.father,
            nextUpdate := d.now + PauseAfter(ops, Says(ops, d)))
  }

  /** The three links are offered the message, one after another, until one takes it. */
  function TakeUpdate<T>(d: State<T>, src: Addr, msg: Info<T>): (State<T>, bool) {
    var (f, ok) := Update(d.father, src, msg);
    if !msg.fromSch && ok then (d.(father := f), true)
    else
      var (l, ok0) := Update(d.child0, src, msg);
      if ok0 then (d.(child0 := l), true)
      else var (r, ok1) := Update(d.child1, src, msg); (d.(child1 := r), ok1)
  }

  function OnInfo<T(==)>(ops: Ops<T>, d: State<T>, src: Addr, msg: Info<T>): State<T> {
    if d.inChange then d.(delayed := d.delayed + [(src, msg)])
    else
      var (d', known) := TakeUpdate(d, src, msg);
      if known then Notify(ops, RecomputeInfo(ops, d')) else d'
  }

  function OnTimer<T(==)>(ops: Ops<T>, d: State<T>): State<T> {
    Notify(ops, d.(timer := false))
  }

  function OnStart<T>(d: State<T>): State<T> {
    d.(inChange := true)
  }

  function TakeAll<T>(d: State<T>, delayed: seq<(Addr, Info<T>)>): State<T>
    decreases |delayed|
  {
    if delayed == [] then d else TakeAll(TakeUpdate(d, delayed[0].0, delayed[0].1).0, delayed[1..])
  }

  /** Which links a commit replaces, and where they lead then. */
  datatype Changes = Changes(father: bool, left: bool, right: bool, fatherAddr: Addr, leftAddr: Addr, rightAddr: Addr)

  function Replaced<T>(d: State<T>, c: Changes): State<T> {
    d.(inChange := false,
       father := if c.father then NewLink(c.fatherAddr) else d.father,
       child0 := if c.left then NewLink(c.leftAddr) else d.child0,
       child1 := if c.right then NewLink(c.rightAddr) else d.child1)
  }

  function OnCommit<T(==)>(ops: Ops<T>, d: State<T>, c: Changes): State<T> {
    Notify(ops, RecomputeInfo(ops, TakeAll(Replaced(d, c), d.delayed).(delayed := [])))
  }

  // ---------------------------------------------------------------------------------------------
  // The branch summary
  // ---------------------------------------------------------------------------------------------

  /** If any child has reported, the branch summary is the join of the latest reports. */
  predicate Coherent<T(==)>(ops: Ops<T>, d: State<T>) {
    ChildrenInfo(ops, d).Some? ==> BranchInfo(d).Some? && BranchInfo(d).value.content == ChildrenInfo(ops, d).value
  }

  /** Outside a change, what the father was not told is going to be told when the timer fires. */
  predicate NothingLost<T(==)>(d: State<T>) {
    !d.inChange && d.father.addr != NOBODY && Untold(d.father) ==> d.timer
  }

  predicate Settled<T>(d: State<T>) {
    !d.child0.hasNewInformation && !d.child1.hasNewInformation
  }

  predicate Good<T(==)>(ops: Ops<T>, d: State<T>) {
    Coherent(ops, d) && NothingLost(d)
  }

  lemma NotifyIsGood<T>(ops: Ops<T>, d: State<T>)
    requires Coherent(ops, d)
    ensures Good(ops, Notify(ops, d))
  {
  }

  lemma RecomputeIsCoherent<T>(ops: Ops<T>, d: State<T>)
    requires Settled(d) ==> Coherent(ops, d)
    ensures Settled(RecomputeInfo(ops, d)) && Coherent(ops, RecomputeInfo(ops, d))
  {
  }

  /** A link that takes an update either has something new or is as before. */
  lemma TakeKeeps<T>(ops: Ops<T>, d: State<T>, src: Addr, msg: Info<T>)
    requires Settled(d) ==> Coherent(ops, d)
    ensures var d' := TakeUpdate(d, src, msg).0;
            && (Settled(d') ==> Coherent(ops, d') && Settled(d))
            && d'.inChange == d.inChange && d'.father.addr == d.father.addr
            && d'.father.waitingInfo == d.father.waitingInfo && d'.father.notifiedInfo == d.father.notifiedInfo
               && d'.timer == d.timer
  {
  }

  lemma {:induction false} TakeAllKeeps<T>(ops: Ops<T>, d: State<T>, delayed: seq<(Addr, Info<T>)>)
    requires Settled(d) ==> Coherent(ops, d)
    ensures Settled(TakeAll(d, delayed)) ==> Coherent(ops, TakeAll(d, delayed))
    decreases |delayed|
  {
    if delayed != [] {
      TakeKeeps(ops, d, delayed[0].0, delayed[0].1);
      TakeAllKeeps(ops, TakeUpdate(d, delayed[0].0, delayed[0].1).0, delayed[1..]);
    }
  }

  datatype Step<T> =
    | Receive(src: Addr, msg: Info<T>)
    | Timer
    | Start
    | Commit(changes: Changes)
    | Tick(dt: nat)

  /** A commit that replaces the father's link replaces a child's too, as structure nodes do. */
  predicate Enabled<T>(d: State<T>, s: Step<T>) {
    match s
    case Timer => d.timer
    case Commit(c) => c.father ==> c.left || c.right
    case _ => true
  }

  function Does<T(==)>(ops: Ops<T>, d: State<T>, s: Step<T>): State<T> {
    match s
    case Receive(src, msg) => OnInfo(ops, d, src, msg)
    case Timer => OnTimer(ops, d)
    case Start => OnStart(d)
    case Commit(c) => OnCommit(ops, d, c)
    case Tick(dt) => d.(now := d.now + dt)
  }

  /** A dispatcher that has just been created. */
  ghost predicate Initial<T>(d: State<T>) {
    && d.father == NewLink(d.father.addr) && d.child0 == NewLink(d.child0.addr) && d.child1 == NewLink(d.child1.addr)
    && d.delayed == [] && !d.timer && !d.inChange
  }

  ghost predicate Next<T(!new)>(ops: Ops<T>, d: State<T>, d': State<T>) {
    exists s :: Enabled(d, s) && d' == Does(ops, d, s)
  }

  ghost predicate Run<T(!new)>(ops: Ops<T>, ds: seq<State<T>>) {
    && |ds| > 0 && Initial(ds[0])
    && forall k | 0 <= k < |ds| - 1 :: Next(ops, ds[k], ds[k + 1])
  }

  lemma StepIsGood<T>(ops: Ops<T>, d: State<T>, s: Step<T>)
    requires Good(ops, d) && Enabled(d, s)
    ensures Good(ops, Does(ops, d, s))
  {
    match s
    case Receive(src, msg) =>
      if !d.inChange {
        TakeKeeps(ops, d, src, msg);
        var (d', known) := TakeUpdate(d, src, msg);
        if known {
          RecomputeIsCoherent(ops, d');
          NotifyIsGood(ops, RecomputeInfo(ops, d'));
        }
      }
    case Timer => NotifyIsGood(ops, d.(timer := false));
    case Start =>
    case Commit(c) =>
      TakeAllKeeps(ops, Replaced(d, c), d.delayed);
      var d' := TakeAll(Replaced(d, c), d.delayed).(delayed := []);
      RecomputeIsCoherent(ops, d');
      NotifyIsGood(ops, RecomputeInfo(ops, d'));
    case Tick(dt) =>
  }

  /**
   In every reachable state the branch summary is the join of the children's latest reports, and outside a change no
   update for the father is lost: either he was told an equal summary or the update timer is set.
   */
  lemma {:induction false} BranchStaysCoherent<T(!new)>(ops: Ops<T>, ds: seq<State<T>>, k: nat)
    requires Run(ops, ds) && k < |ds|
    ensures Good(ops, ds[k])
  {
    if k > 0 {
      BranchStaysCoherent(ops, ds, k - 1);
      assert Next(ops, ds[k - 1], ds[k - 1 + 1]);
      var s :| Enabled(ds[k - 1], s) && ds[k] == Does(ops, ds[k - 1], s);
      StepIsGood(ops, ds[k - 1], s);
    }
  }

  /**
   What the assumption on commits is for: after a commit the summary is right exactly if the father's link was kept, or
   no child has reported, or a child's link was replaced or brought something new.
   */
  lemma CommitIsCoherentWhen<T>(ops: Ops<T>, d: State<T>, c: Changes)
    requires Good(ops, d)
    ensures
      var d' := TakeAll(Replaced(d, c), d.delayed);
      Coherent(ops, OnCommit(ops, d, c)) <==>
        !c.father || ChildrenInfo(ops, d').None? || !Settled(d')
  {
    var d' := TakeAll(Replaced(d, c), d.delayed).(delayed := []);
    TakeAllFather(Replaced(d, c), d.delayed);
    if !c.father || ChildrenInfo(ops, d').None? || !Settled(d') {
      if Settled(d') && !c.father { TakeAllKeeps(ops, Replaced(d, c), d.delayed); }
      RecomputeIsCoherent(ops, d');
      NotifyIsGood(ops, RecomputeInfo(ops, d'));
    }
  }

  /**
   A commit that breaks the condition: whoever has just started and has heard of its left child alone, and then gets
   another father while its children stay, no longer knows its branch.
   */
  lemma OnlyFatherForgets<T>(ops: Ops<T>, d: State<T>, msg: Info<T>, fatherAddr: Addr)
    requires Initial(d) && msg.fromSch
    ensures
      var d1 := Does(ops, d, Receive(d.child0.addr, msg));
      var c := Changes(true, false, false, fatherAddr, d.child0.addr, d.child1.addr);
      && Good(ops, d1) && ChildrenInfo(ops, d1) == Some(msg.content)
      && BranchInfo(OnCommit(ops, d1, c)).None? && !Coherent(ops, OnCommit(ops, d1, c))
  {
    StepIsGood(ops, d, Receive(d.child0.addr, msg));
    var d1 := Does(ops, d, Receive(d.child0.addr, msg));
    assert d1.delayed == [];
  }

  lemma {:induction false} TakeAllFather<T>(d: State<T>, delayed: seq<(Addr, Info<T>)>)
    ensures var d' := TakeAll(d, delayed);
            d'.father.waitingInfo == d.father.waitingInfo && d'.father.notifiedInfo == d.father.notifiedInfo
    decreases |delayed|
  {
    if delayed != [] { TakeAllFather(TakeUpdate(d, delayed[0].0, delayed[0].1).0, delayed[1..]); }
  }

  // ---------------------------------------------------------------------------------------------
  // A dispatcher and its father
  // ---------------------------------------------------------------------------------------------

  /**
   A dispatcher, all its updates so far, how many of them belong to earlier numberings, its father's link to it, which
   of the updates have reached that link since it was replaced last, in this order, and which one the link holds.
   */
  datatype Edge<T> = Edge(
    child: State<T>, sent: seq<Info<T>>, first: nat, up: Link<T>, arrived: seq<nat>, held: Option<nat>)

  datatype EdgeStep<T> =
    | ChildDoes(s: Step<T>)
    | Arrives(i: nat)   // any update, at any time, maybe not for the first time
    | Renews            // the father commits or rolls back, and replaces its link to a child that stays

  /** As long as the child keeps its father, though maybe not its link to it. */
  predicate EdgeEnabled<T>(e: Edge<T>, s: EdgeStep<T>) {
    match s
    case ChildDoes(s) => Enabled(e.child, s) && (Restarts(s) ==> s.changes.fatherAddr == e.child.father.addr)
    case Arrives(i) => i < |e.sent|
    case Renews => true
  }

  /** The child replaces its link to the father, so that its updates are numbered from 1 again. */
  predicate Restarts<T>(s: Step<T>) {
    s.Commit? && s.changes.father
  }

  function EdgeDoes<T(==)>(ops: Ops<T>, e: Edge<T>, s: EdgeStep<T>, from: Addr): Edge<T>
    requires EdgeEnabled(e, s)
  {
    match s
    case ChildDoes(s) =>
      e.(child := Does(ops, e.child, s), sent := e.sent + Told(ops, e.child, s),
         first := if Restarts(s) then |e.sent| else e.first)
    case Arrives(i) =>
      var up := Update(e.up, from, e.sent[i]).0;
      e.(up := up, arrived := e.arrived + [i], held := if up == e.up then e.held else Some(i))
    case Renews => e.(up := NewLink(from), arrived := [], held := None)
  }

  /** The end of a link that has told these updates, those from `first` on with the present numbering. */
  predicate Speaks<T(==)>(ops: Ops<T>, told: Option<Info<T>>, sent: seq<Info<T>>, first: nat) {
    && first <= |sent|
    && (forall i | first <= i < |sent| :: sent[i].seqNum == i - first + 1)
    && (told.Some? <==> |sent| > first)
    && (told.Some? ==>
          && told.value.seqNum == |sent| - first
          && sent[|sent| - 1] == told.value.(content := ops.reduce(told.value.content)))
  }

  /** Of the updates that have arrived, number `p` was the first with the highest number. */
  ghost predicate Stays<T>(sent: seq<Info<T>>, arrived: seq<nat>, p: nat)
    requires forall q | 0 <= q < |arrived| :: arrived[q] < |sent|
  {
    && p < |arrived|
    && (forall q | 0 <= q < p :: sent[arrived[q]].seqNum < sent[arrived[p]].seqNum)
    && (forall q | p < q < |arrived| :: sent[arrived[q]].seqNum <= sent[arrived[p]].seqNum)
  }

  /** The father's end holds the update that came first among those with the highest number. */
  ghost predicate Hears<T>(e: Edge<T>) {
    && (forall q | 0 <= q < |e.arrived| :: e.arrived[q] < |e.sent|)
    && (e.held.None? <==> e.arrived == [])
    && (e.held.None? ==> e.up.availInfo.None?)
    && (e.held.Some? ==>
          && e.held.value < |e.sent| && e.up.availInfo == Some(e.sent[e.held.value])
          && exists p: nat :: Stays(e.sent, e.arrived, p) && e.arrived[p] == e.held.value)
  }

  ghost predicate EdgeOk<T(!new)>(ops: Ops<T>, e: Edge<T>, from: Addr) {
    && Good(ops, e.child) && e.up.addr == from
    && Speaks(ops, e.child.father.notifiedInfo, e.sent, e.first) && Hears(e)
  }

  /** Both ends are new: the child has told its father at most its first update, and nothing has arrived. */
  ghost predicate Begins<T(!new)>(ops: Ops<T>, e: Edge<T>, from: Addr) {
    EdgeOk(ops, e, from) && e.first == 0 && e.up == NewLink(from) && e.arrived == [] && e.held == None
  }

  ghost predicate EdgeNext<T(!new)>(ops: Ops<T>, e: Edge<T>, e': Edge<T>, from: Addr) {
    exists s :: EdgeEnabled(e, s) && e' == EdgeDoes(ops, e, s, from)
  }

  ghost predicate EdgeRun<T(!new)>(ops: Ops<T>, es: seq<Edge<T>>, from: Addr) {
    && |es| > 0 && Begins(ops, es[0], from)
    && forall k | 0 <= k < |es| - 1 :: EdgeNext(ops, es[k], es[k + 1], from)
  }

  /** The link learns something, which gets the next number, or forgets it, or neither. */
  predicate LearnsOrForgets<T(==)>(l: Link<T>, m: Link<T>) {
    && m.addr == l.addr && m.notifiedInfo == l.notifiedInfo
    && (m.waitingInfo == l.waitingInfo || m.waitingInfo.None?
        || m.waitingInfo == UpdateSequenceNumber(l.(waitingInfo := m.waitingInfo)).waitingInfo)
  }

  lemma RecomputeIsWire<T>(ops: Ops<T>, d: State<T>)
    ensures LearnsOrForgets(d.father, RecomputeInfo(ops, d).father)
  {
  }

  /**
   The wire steps of a dispatcher's step: its link to the father learns something, or forgets it, or neither, and then
   may tell it.
   */
  lemma NotifyingIsWire<T>(ops: Ops<T>, d: State<T>, s: Step<T>)
    requires Enabled(d, s) && (s.Commit? ==> !s.changes.father) && Notifying(ops, d, s).Some?
    ensures LearnsOrForgets(d.father, Notifying(ops, d, s).value.father)
  {
    match s
    case Receive(src, msg) =>
      var d' := TakeUpdate(d, src, msg).0;
      RecomputeIsWire(ops, d');
    case Commit(c) =>
      var d' := TakeAll(Replaced(d, c), d.delayed).(delayed := []);
      TakeAllFather(Replaced(d, c), d.delayed);
      TakeAllAddr(Replaced(d, c), d.delayed);
      RecomputeIsWire(ops, d');
    case _ =>
  }

  lemma {:induction false} TakeAllAddr<T>(d: State<T>, delayed: seq<(Addr, Info<T>)>)
    ensures TakeAll(d, delayed).father.addr == d.father.addr
    decreases |delayed|
  {
    if delayed != [] { TakeAllAddr(TakeUpdate(d, delayed[0].0, delayed[0].1).0, delayed[1..]); }
  }

  /** Saying an update gives it the next number. */
  lemma SaysNext<T>(ops: Ops<T>, d: State<T>, sent: seq<Info<T>>, first: nat)
    requires Speaks(ops, d.father.notifiedInfo, sent, first)
    ensures Speaks(ops, Notify(ops, d).father.notifiedInfo, sent + Says(ops, d), first)
  {
  }

  /** What the father was told last when a step decides whether to say more. */
  lemma NotifyingKeepsTold<T>(ops: Ops<T>, d: State<T>, s: Step<T>)
    requires Enabled(d, s) && Notifying(ops, d, s).Some?
    ensures Notifying(ops, d, s).value.father.notifiedInfo == if Restarts(s) then None else d.father.notifiedInfo
    ensures Does(ops, d, s) == Notify(ops, Notifying(ops, d, s).value)
  {
    if s.Commit? {
      TakeAllFather(Replaced(d, s.changes), d.delayed);
    }
  }

  lemma SilentKeepsTold<T>(ops: Ops<T>, d: State<T>, s: Step<T>)
    requires Enabled(d, s) && Notifying(ops, d, s).None?
    ensures Does(ops, d, s).father.notifiedInfo == d.father.notifiedInfo && !Restarts(s)
  {
  }

  lemma ChildSpeaks<T>(ops: Ops<T>, d: State<T>, s: Step<T>, sent: seq<Info<T>>, first: nat)
    requires Enabled(d, s) && Speaks(ops, d.father.notifiedInfo, sent, first)
    ensures
      var first' := if Restarts(s) then |sent| else first;
      Speaks(ops, Does(ops, d, s).father.notifiedInfo, sent + Told(ops, d, s), first')
  {
    if Notifying(ops, d, s).Some? {
      NotifyingKeepsTold(ops, d, s);
      SaysNext(ops, Notifying(ops, d, s).value, sent, if Restarts(s) then |sent| else first);
    } else {
      SilentKeepsTold(ops, d, s);
      assert sent + Told(ops, d, s) == sent;
    }
  }

  /** More updates change nothing about those that have arrived. */
  lemma StillHears<T>(e: Edge<T>, e': Edge<T>)
    requires Hears(e) && e.sent <= e'.sent && e'.up == e.up && e'.arrived == e.arrived && e'.held == e.held
    ensures Hears(e')
  {
    if e.held.Some? {
      var p: nat :| Stays(e.sent, e.arrived, p) && e.arrived[p] == e.held.value;
      assert Stays(e'.sent, e'.arrived, p);
    }
  }

  lemma ArrivalIsHeard<T>(ops: Ops<T>, e: Edge<T>, i: nat, from: Addr)
    requires Hears(e) && e.up.addr == from && i < |e.sent|
    ensures Hears(EdgeDoes(ops, e, Arrives(i), from))
  {
    var e' := EdgeDoes(ops, e, Arrives(i), from);
    if e.held.None? {
      assert Stays(e'.sent, e'.arrived, 0);
    } else {
      var p: nat :| Stays(e.sent, e.arrived, p) && e.arrived[p] == e.held.value;
      if e.up.availInfo.value.seqNum >= e.sent[i].seqNum {
        assert Stays(e'.sent, e'.arrived, p);
      } else {
        forall q | 0 <= q < |e.arrived| ensures e.sent[e.arrived[q]].seqNum <= e.sent[e.held.value].seqNum {}
        assert Stays(e'.sent, e'.arrived, |e.arrived|);
      }
    }
  }

  lemma EdgeStepOk<T(!new)>(ops: Ops<T>, e: Edge<T>, s: EdgeStep<T>, from: Addr)
    requires EdgeOk(ops, e, from) && EdgeEnabled(e, s)
    ensures EdgeOk(ops, EdgeDoes(ops, e, s, from), from)
  {
    var e' := EdgeDoes(ops, e, s, from);
    match s
    case ChildDoes(s) =>
      StepIsGood(ops, e.child, s);
      ChildSpeaks(ops, e.child, s, e.sent, e.first);
      StillHears(e, e');
    case Arrives(i) => ArrivalIsHeard(ops, e, i, from);
    case Renews =>
  }

  lemma {:induction false} EdgeRunOk<T(!new)>(ops: Ops<T>, es: seq<Edge<T>>, from: Addr, k: nat)
    requires EdgeRun(ops, es, from) && k < |es|
    ensures EdgeOk(ops, es[k], from)
  {
    if k > 0 {
      EdgeRunOk(ops, es, from, k - 1);
      assert EdgeNext(ops, es[k - 1], es[k - 1 + 1], from);
      var s :| EdgeEnabled(es[k - 1], s) && es[k] == EdgeDoes(ops, es[k - 1], s, from);
      EdgeStepOk(ops, es[k - 1], s, from);
    }
  }

  /** The child has something to say, and no update of it is due. */
  predicate AtRest<T>(ops: Ops<T>, e: Edge<T>) {
    !e.child.inChange && !e.child.timer && e.child.father.addr != NOBODY && ChildrenInfo(ops, e.child).Some?
  }

  /** The father's summary of the child is the reduced join of the latest reports of that child's own children. */
  predicate Knows<T(==)>(ops: Ops<T>, e: Edge<T>) {
    && ChildrenInfo(ops, e.child).Some? && e.up.availInfo.Some?
    && e.up.availInfo.value.content == ops.reduce(ChildrenInfo(ops, e.child).value)
  }

  /**
   Since the father replaced its link, the last update has arrived: after updates with lower numbers only, and before
   updates with higher numbers, if any of an earlier numbering came late.
   */
  ghost predicate LastIsHeard<T>(e: Edge<T>)
    requires forall q | 0 <= q < |e.arrived| :: e.arrived[q] < |e.sent|
  {
    exists p: nat :: p < |e.arrived| && e.arrived[p] == |e.sent| - 1 && Stays(e.sent, e.arrived, p)
  }

  /** Only one update can be the first with the highest number. */
  lemma StaysOnce<T>(sent: seq<Info<T>>, arrived: seq<nat>, p: nat, q: nat)
    requires forall q | 0 <= q < |arrived| :: arrived[q] < |sent|
    requires Stays(sent, arrived, p) && Stays(sent, arrived, q)
    ensures p == q
  {
    var m, n := sent[arrived[p]].seqNum, sent[arrived[q]].seqNum;
    assert p < q ==> m < n && n <= m;
    assert q < p ==> n < m && m <= n;
  }

  lemma HoldsLastIff<T>(e: Edge<T>)
    requires Hears(e) && e.sent != []
    ensures e.held == Some(|e.sent| - 1) <==> LastIsHeard(e)
  {
    if e.held.Some? {
      var p: nat :| Stays(e.sent, e.arrived, p) && e.arrived[p] == e.held.value;
      if LastIsHeard(e) {
        var q: nat :| q < |e.arrived| && e.arrived[q] == |e.sent| - 1 && Stays(e.sent, e.arrived, q);
        StaysOnce(e.sent, e.arrived, p, q);
      }
    }
  }

  /** With one numbering it is enough that the last update has arrived. */
  lemma OneNumbering<T(!new)>(ops: Ops<T>, e: Edge<T>, from: Addr)
    requires EdgeOk(ops, e, from) && e.sent != [] && forall q | 0 <= q < |e.arrived| :: e.first <= e.arrived[q]
    ensures LastIsHeard(e) <==> |e.sent| - 1 in e.arrived
  {
    if |e.sent| - 1 in e.arrived {
      assert e.held.Some?;
      var p: nat :| Stays(e.sent, e.arrived, p) && e.arrived[p] == e.held.value;
      var q: nat :| q < |e.arrived| && e.arrived[q] == |e.sent| - 1;
      assert e.sent[e.arrived[q]].seqNum == |e.sent| - e.first;
      assert e.sent[e.arrived[p]].seqNum == e.arrived[p] - e.first + 1;
    }
  }

  /** At rest the last update says what the child's branch has. */
  lemma LastSaysBranch<T(!new)>(ops: Ops<T>, e: Edge<T>, from: Addr)
    requires EdgeOk(ops, e, from) && AtRest(ops, e)
    ensures |e.sent| > e.first
    ensures e.sent[|e.sent| - 1].content == ops.reduce(ChildrenInfo(ops, e.child).value)
  {
    assert e.child.father.notifiedInfo.Some?;
  }

  /**
   At rest the father holds the child's last update, and so knows its branch, if and only if that update has been heard
   since the father replaced its link; with one numbering, if and only if it has arrived since. Otherwise the father
   holds another update or none, and knows the branch only if that one happens to say the same.
   */
  lemma FatherKnowsBranch<T(!new)>(ops: Ops<T>, es: seq<Edge<T>>, from: Addr, k: nat)
    requires EdgeRun(ops, es, from) && k < |es| && AtRest(ops, es[k])
    ensures
      var e := es[k];
      && e.sent != [] && Hears(e)
      && (e.held == Some(|e.sent| - 1) <==> LastIsHeard(e))
      && ((forall q | 0 <= q < |e.arrived| :: e.first <= e.arrived[q]) ==>
            (e.held == Some(|e.sent| - 1) <==> |e.sent| - 1 in e.arrived))
      && (Knows(ops, e) <==> e.held.Some? && e.sent[e.held.value].content == e.sent[|e.sent| - 1].content)
  {
    EdgeRunOk(ops, es, from, k);
    LastSaysBranch(ops, es[k], from);
    HoldsLastIff(es[k]);
    if forall q | 0 <= q < |es[k].arrived| :: es[k].first <= es[k].arrived[q] { OneNumbering(ops, es[k], from); }
  }

  /**
   A dispatcher that has just got another father, with at least one other child, begins such a run with what it says at
   once.
   */
  lemma CommitBegins<T(!new)>(ops: Ops<T>, d: State<T>, c: Changes, from: Addr)
    requires Good(ops, d) && Enabled(d, Commit(c)) && c.father
    ensures Begins(ops, Edge(Does(ops, d, Commit(c)), Told(ops, d, Commit(c)), 0, NewLink(from), [], None), from)
  {
    StepIsGood(ops, d, Commit(c));
    NotifyingKeepsTold(ops, d, Commit(c));
    SaysNext(ops, Notifying(ops, d, Commit(c)).value, [], 0);
    assert [] + Told(ops, d, Commit(c)) == Told(ops, d, Commit(c));
  }

  // ---------------------------------------------------------------------------------------------
  // What is lost between a dispatcher and its father
  // ---------------------------------------------------------------------------------------------

  /**
   Whenever the father replaces its link to a child at rest, it knows nothing of the child any more, and the child has
   nothing to tell until its summary changes.
   */
  lemma RenewalForgets<T(!new)>(ops: Ops<T>, es: seq<Edge<T>>, from: Addr, k: nat)
    requires EdgeRun(ops, es, from) && k < |es| && AtRest(ops, es[k])
    ensures
      var e := EdgeDoes(ops, es[k], Renews, from);
      && EdgeRun(ops, es[..k + 1] + [e], from) && AtRest(ops, e)
      && e.up.availInfo.None? && !Knows(ops, e) && !Untold(e.child.father)
      && forall dt :: Does(ops, e.child, Tick(dt)).father == e.child.father && Told(ops, e.child, Tick(dt)) == []
  {
    EdgeRunOk(ops, es, from, k);
    OneMoreEdge(ops, es[..k + 1], Renews, from);
  }

  lemma OneMoreEdge<T(!new)>(ops: Ops<T>, es: seq<Edge<T>>, s: EdgeStep<T>, from: Addr)
    requires EdgeRun(ops, es, from) && EdgeEnabled(es[|es| - 1], s)
    ensures EdgeRun(ops, es + [EdgeDoes(ops, es[|es| - 1], s, from)], from)
  {
    var longer := es + [EdgeDoes(ops, es[|es| - 1], s, from)];
    forall k | 0 <= k < |longer| - 1 ensures EdgeNext(ops, longer[k], longer[k + 1], from) {
      if k < |es| - 1 {
        assert EdgeNext(ops, es[k], es[k + 1], from);
      } else {
        assert longer[k + 1] == EdgeDoes(ops, longer[k], s, from);
      }
    }
  }

  /** A new dispatcher hears of its left child, and its first update reaches the father, who knows the branch then. */
  lemma FirstIsHeard<T(!new)>(ops: Ops<T>, d: State<T>, msg: Info<T>, from: Addr) returns (es: seq<Edge<T>>)
    requires Initial(d) && d.father.addr != NOBODY && d.nextUpdate <= d.now && msg.fromSch
    ensures EdgeRun(ops, es, from) && |es| == 3 && AtRest(ops, es[2]) && Knows(ops, es[2])
    ensures
      var e := es[2];
      && |e.sent| == 1 && e.arrived == [0] && e.up.availInfo == Some(e.sent[0]) && e.sent[0].seqNum == 1
      && e.sent[0].content == ops.reduce(msg.content)
      && e.child.child0.addr == d.child0.addr && e.child.father.addr == d.father.addr && e.child.delayed == []
  {
    var e := Edge(d, [], 0, NewLink(from), [], None);
    var s := ChildDoes(Receive(d.child0.addr, msg));
    assert Begins(ops, e, from);
    es := [e];
    OneMoreEdge(ops, es, s, from);
    es := es + [EdgeDoes(ops, e, s, from)];
    assert es[1].sent == [Info(ops.reduce(msg.content), 1, false)];
    OneMoreEdge(ops, es, Arrives(0), from);
    es := es + [EdgeDoes(ops, es[1], Arrives(0), from)];
  }

  /**
   The run goes on: the dispatcher commits and so replaces all its links, hears something else of the same child, and
   tells its father, under number 1 again. The father, who has got a number 1 before, ignores it.
   */
  lemma RestartIsIgnored<T(!new)>(ops: Ops<T>, d: State<T>, msg: Info<T>, other: Info<T>, from: Addr)
    returns (es: seq<Edge<T>>)
    requires Initial(d) && d.father.addr != NOBODY && d.nextUpdate <= d.now && msg.fromSch && other.fromSch
    requires ops.reduce(other.content) != ops.reduce(msg.content)
    ensures EdgeRun(ops, es, from)
    ensures
      var e := es[|es| - 1];
      && AtRest(ops, e) && |e.sent| - 1 in e.arrived && !Knows(ops, e)
      && ChildrenInfo(ops, e.child) == Some(other.content)
      && e.up.availInfo.Some? && e.up.availInfo.value.content == ops.reduce(msg.content)
  {
    es := FirstIsHeard(ops, d, msg, from);
    var e := es[2];
    es := RestartsAndTells(ops, es, other, from);
    var f := es[|es| - 1];
    OneMoreEdge(ops, es, Arrives(1), from);
    es := es + [EdgeDoes(ops, f, Arrives(1), from)];
    assert es[|es| - 1].arrived == [0, 1] && es[|es| - 1].up == e.up;
  }

  /** A dispatcher waits until it may tell, commits, and hears something from its left child. */
  lemma RestartsAndTells<T(!new)>(ops: Ops<T>, es: seq<Edge<T>>, other: Info<T>, from: Addr)
    returns (es': seq<Edge<T>>)
    requires EdgeRun(ops, es, from) && AtRest(ops, es[|es| - 1]) && es[|es| - 1].child.delayed == [] && other.fromSch
    ensures EdgeRun(ops, es', from)
    ensures
      var e, e' := es[|es| - 1], es'[|es'| - 1];
      && e'.sent == e.sent + [Info(ops.reduce(other.content), 1, false)] && e'.first == |e.sent|
      && e'.up == e.up && e'.arrived == e.arrived
      && AtRest(ops, e') && ChildrenInfo(ops, e'.child) == Some(other.content)
  {
    var c := es[|es| - 1].child;
    es' := ThenDoes(ops, es, Tick(if c.nextUpdate <= c.now then 0 else c.nextUpdate - c.now), from);
    var all := Changes(true, true, true, c.father.addr, c.child0.addr, c.child1.addr);
    es' := ThenDoes(ops, es', Commit(all), from);
    var anew := es'[|es'| - 1].child;
    assert anew.father == NewLink(c.father.addr).(hasNewInformation := false);
    es' := ThenDoes(ops, es', Receive(c.child0.addr, other), from);
  }

  lemma ThenDoes<T(!new)>(ops: Ops<T>, es: seq<Edge<T>>, s: Step<T>, from: Addr) returns (es': seq<Edge<T>>)
    requires EdgeRun(ops, es, from) && EdgeEnabled(es[|es| - 1], ChildDoes(s))
    ensures EdgeRun(ops, es', from) && es' == es + [EdgeDoes(ops, es[|es| - 1], ChildDoes(s), from)]
  {
    OneMoreEdge(ops, es, ChildDoes(s), from);
    es' := es + [EdgeDoes(ops, es[|es| - 1], ChildDoes(s), from)];
  }

  // ---------------------------------------------------------------------------------------------
  // Pace
  // ---------------------------------------------------------------------------------------------

  /** The state in which a step decides whether to send an update, if it comes to that. */
  function Notifying<T>(ops: Ops<T>, d: State<T>, s: Step<T>): Option<State<T>> {
    match s
    case Receive(src, msg) =>
      if !d.inChange && TakeUpdate(d, src, msg).1 then Some(RecomputeInfo(ops, TakeUpdate(d, src, msg).0)) else None
    case Timer => Some(d.(timer := false))
    case Commit(c) => Some(RecomputeInfo(ops, TakeAll(Replaced(d, c), d.delayed).(delayed := [])))
    case _ => None
  }

  /** The updates for the father that a step sends. */
  function Told<T(==)>(ops: Ops<T>, d: State<T>, s: Step<T>): seq<Info<T>> {
    if Notifying(ops, d, s).Some? then Says(ops, Notifying(ops, d, s).value) else []
  }

  lemma {:induction false} TakeAllKeepsClock<T>(d: State<T>, delayed: seq<(Addr, Info<T>)>)
    ensures TakeAll(d, delayed).now == d.now && TakeAll(d, delayed).nextUpdate == d.nextUpdate
    decreases |delayed|
  {
    if delayed != [] { TakeAllKeepsClock(TakeUpdate(d, delayed[0].0, delayed[0].1).0, delayed[1..]); }
  }

  lemma StepKeepsPace<T>(ops: Ops<T>, d: State<T>, s: Step<T>)
    ensures Does(ops, d, s).nextUpdate >= d.nextUpdate && Does(ops, d, s).now >= d.now
    ensures Told(ops, d, s) != [] ==>
              d.nextUpdate <= d.now && Does(ops, d, s).nextUpdate == d.now + PauseAfter(ops, Told(ops, d, s))
  {
    if s.Commit? { TakeAllKeepsClock(Replaced(d, s.changes), d.delayed); }
  }

  lemma {:induction false} NextUpdateGrows<T(!new)>(ops: Ops<T>, ds: seq<State<T>>, j: nat, k: nat)
    requires Run(ops, ds) && j <= k < |ds|
    ensures ds[j].nextUpdate <= ds[k].nextUpdate
  {
    if j < k {
      NextUpdateGrows(ops, ds, j, k - 1);
      assert Next(ops, ds[k - 1], ds[k - 1 + 1]);
      var s :| Enabled(ds[k - 1], s) && ds[k] == Does(ops, ds[k - 1], s);
      StepKeepsPace(ops, ds[k - 1], s);
    }
  }

  lemma UpdatesArePaused<T(!new)>(ops: Ops<T>, ds: seq<State<T>>, j: nat, s: Step<T>, k: nat, s': Step<T>)
    requires Run(ops, ds) && j < k && k + 1 < |ds|
    requires ds[j + 1] == Does(ops, ds[j], s) && Told(ops, ds[j], s) != []
    requires ds[k + 1] == Does(ops, ds[k], s') && Told(ops, ds[k], s') != []
    ensures ds[k].now - ds[j].now >= PauseAfter(ops, Told(ops, ds[j], s))
  {
    StepKeepsPace(ops, ds[j], s);
    StepKeepsPace(ops, ds[k], s');
    NextUpdateGrows(ops, ds, j + 1, k);
  }

  /**
   Two updates for the father are never closer than the first one takes at the configured bandwidth: what is sent in
   between stays below it, up to the rounding of one microsecond.
   */
  lemma UpdatesArePaced<T(!new)>(ops: Ops<T>, ds: seq<State<T>>, j: nat, s: Step<T>, k: nat, s': Step<T>, size: nat,
                          elapsed: int)
    requires Run(ops, ds) && j < k && k + 1 < |ds|
    requires ds[j + 1] == Does(ops, ds[j], s) && Told(ops, ds[j], s) != [] && size == ops.size(Told(ops, ds[j], s)[0])
    requires ds[k + 1] == Does(ops, ds[k], s') && Told(ops, ds[k], s') != [] && elapsed == ds[k].now - ds[j].now
    ensures elapsed >= 0 && Within(size, elapsed, ops.bandwidth)
  {
    UpdatesArePaused(ops, ds, j, s, k, s');
    WithinBandwidth(size, elapsed, ops.bandwidth);
  }

  /** That many bytes in so many microseconds, and less than one more, stay below the bandwidth, if it is limited. */
  predicate Within(size: nat, elapsed: int, bandwidth: real) {
    bandwidth > 0.0 ==> size as real * 1000000.0 < bandwidth * (elapsed as real + 1.0)
  }

  lemma WithinBandwidth(size: nat, elapsed: int, bandwidth: real)
    requires elapsed >= Micros(size, bandwidth)
    ensures Within(size, elapsed, bandwidth)
  {
    if bandwidth > 0.0 { LessOrEqualTimes(Micros(size, bandwidth) as real + 1.0, elapsed as real + 1.0, bandwidth); }
  }

  lemma LessOrEqualTimes(a: real, b: real, y: real)
    requires a <= b && y > 0.0
    ensures y * a <= y * b
  {
  }

  // ---------------------------------------------------------------------------------------------
  // The object
  // ---------------------------------------------------------------------------------------------

  class Dispatcher<T(==)> {
    const ops: Ops<T>
    var father: Link<T>
    var child0: Link<T>
    var child1: Link<T>
    var delayedUpdates: seq<(Addr, Info<T>)>
    var updateTimer: bool
    var nextUpdate: int
    var inChange: bool
    var now: int
    var sent: seq<Info<T>>

    constructor (ops: Ops<T>, fatherAddr: Addr, leftAddr: Addr, rightAddr: Addr, now: int)
      ensures this.ops == ops && Initial(Now()) && sent == [] && this.now == now
      ensures father.addr == fatherAddr && child0.addr == leftAddr && child1.addr == rightAddr
    {
      this.ops := ops;
      father, child0, child1 := NewLink(fatherAddr), NewLink(leftAddr), NewLink(rightAddr);
      delayedUpdates, updateTimer, nextUpdate, inChange, sent := [], false, 0, false, [];
      this.now := now;
    }

    function Now(): State<T>
      reads this
    {
      State(father, child0, child1, delayedUpdates, updateTimer, nextUpdate, inChange, now)
    }

    method RecomputeFatherInfo()
      modifies this`father
      ensures Now() == RecomputeFather(ops, old(Now()))
    {
      if child0.hasNewInformation || child1.hasNewInformation {
        if child0.availInfo.Some? {
          var info := child0.availInfo.value;
          if child1.availInfo.Some? {
            info := info.(content := ops.join(info.content, child1.availInfo.value.content));
          }
          father := UpdateSequenceNumber(father.(waitingInfo := Some(info)));
        } else if child1.availInfo.Some? {
          father := UpdateSequenceNumber(father.(waitingInfo := child1.availInfo));
        } else {
          father := father.(waitingInfo := None);
        }
      }
    }

    method Recompute()
      modifies this`father, this`child0, this`child1
      ensures Now() == RecomputeInfo(ops, old(Now()))
    {
      RecomputeFatherInfo();
      father := father.(hasNewInformation := false);
      child0 := child0.(hasNewInformation := false);
      child1 := child1.(hasNewInformation := false);
    }

    method DoNotify()
      modifies this`updateTimer, this`father, this`nextUpdate, this`sent
      ensures Now() == Notify(ops, old(Now())) && sent == old(sent) + Says(ops, old(Now()))
    {
      if nextUpdate > now || updateTimer {
        if !updateTimer { updateTimer := true; }
      } else {
        var sentSize := 0;
        if !inChange && father.addr != NOBODY {
          var (l, m) := SendUpdate(ops, father);
          father := l;
          if m.Some? {
            sent := sent + [m.value];
            sentSize := ops.size(m.value);
          }
        }
        nextUpdate := now + Micros(sentSize, ops.bandwidth);
      }
    }

    method Take(src: Addr, msg: Info<T>) returns (known: bool)
      modifies this`father, this`child0, this`child1
      ensures (Now(), known) == TakeUpdate(old(Now()), src, msg)
    {
      known := false;
      if !msg.fromSch {
        var (l, ok) := Update(father, src, msg);
        father, known := l, ok;
      }
      if !known {
        var (l, ok) := Update(child0, src, msg);
        child0, known := l, ok;
      }
      if !known {
        var (l, ok) := Update(child1, src, msg);
        child1, known := l, ok;
      }
    }

    method HandleInfo(src: Addr, msg: Info<T>)
      modifies this
      ensures Now() == OnInfo(ops, old(Now()), src, msg)
    {
      if inChange {
        delayedUpdates := delayedUpdates + [(src, msg)];
      } else {
        var known := Take(src, msg);
        if known {
          Recompute();
          DoNotify();
        }
      }
    }

    method HandleUpdateTimer()
      modifies this
      ensures Now() == OnTimer(ops, old(Now()))
    {
      updateTimer := false;
      DoNotify();
    }

    method StartChanges()
      modifies this`inChange
      ensures Now() == OnStart(old(Now()))
    {
      inChange := true;
    }

    method CommitChanges(c: Changes)
      modifies this
      ensures Now() == OnCommit(ops, old(Now()), c)
    {
      inChange := false;
      if c.father { father := NewLink(c.fatherAddr); }
      if c.left { child0 := NewLink(c.leftAddr); }
      if c.right { child1 := NewLink(c.rightAddr); }
      ghost var replaced := Now();
      var i := 0;
      while i < |delayedUpdates|
        invariant i <= |delayedUpdates| && delayedUpdates == old(delayedUpdates) && replaced == Replaced(old(Now()), c)
        invariant TakeAll(Now(), delayedUpdates[i..]) == TakeAll(replaced, delayedUpdates)
        invariant updateTimer == old(updateTimer) && nextUpdate == old(nextUpdate) && !inChange && now == old(now)
      {
        var _ := Take(delayedUpdates[i].0, delayedUpdates[i].1);
        assert delayedUpdates[i..][1..] == delayedUpdates[i + 1..];
        i := i + 1;
      }
      delayedUpdates := [];
      Recompute();
      DoNotify();
    }
  }
}
