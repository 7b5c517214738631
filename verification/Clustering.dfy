/**
 The agglomerative clustering that bounds the size of an availability summary
 (include/ClusteringList.hpp). Clusters are merged pairwise through a lazily updated heap of
 cached pair sums. The cluster type stays abstract: it is any type with the operations of `Ops`.
 */
module Clustering {

  /** A non-NaN double: either a finite distance or positive infinity. */
  datatype Dist = Fin(r: real) | Inf

  predicate Less(a: Dist, b: Dist) {
    a.Fin? && (b.Inf? || a.r < b.r)
  }

  /** What `ClusteringList` asks of its element type; `clear` is the assignment `value = 0`. */
  datatype Ops<!T> = Ops(value: T -> nat, clear: T -> T, agg: (T, T) -> T,
                         dist: (T, T) -> Dist, far: (T, T) -> bool)

  ghost predicate Lawful<T(!new)>(o: Ops<T>) {
    && (forall a, b :: o.value(o.agg(a, b)) == o.value(a) + o.value(b))
    && (forall a :: o.value(o.clear(a)) == 0)
  }

  ghost predicate NeverFar<T(!new)>(o: Ops<T>) {
    forall a, b :: !o.far(a, b)
  }

  ghost predicate AllFinite<T(!new)>(o: Ops<T>) {
    forall a, b :: o.dist(a, b).Fin?
  }

  // ---------------------------------------------------------------------------------------------
  // What a list of clusters stands for
  // ---------------------------------------------------------------------------------------------

  /** The history of one cluster: which input clusters it was merged from, and in what shape. */
  datatype Tree = Leaf(i: nat) | Merge(left: Tree, right: Tree)

  ghost predicate InRange(t: Tree, n: nat) {
    match t
    case Leaf(i) => i < n
    case Merge(l, r) => InRange(l, n) && InRange(r, n)
  }

  ghost function Eval<T>(o: Ops<T>, inputs: seq<T>, t: Tree): T
    requires InRange(t, |inputs|)
  {
    match t
    case Leaf(i) => inputs[i]
    case Merge(l, r) => o.agg(Eval(o, inputs, l), Eval(o, inputs, r))
  }

  /** How often input `p` occurs in a tree. */
  ghost function Occurs(t: Tree, p: nat): nat {
    match t
    case Leaf(i) => if i == p then 1 else 0
    case Merge(l, r) => Occurs(l, p) + Occurs(r, p)
  }

  ghost function HeldBy<T>(o: Ops<T>, c: T, t: Tree, p: nat): nat {
    if o.value(c) == 0 then 0 else Occurs(t, p)
  }

  /** How often input `p` occurs behind the clusters that are still alive. */
  ghost function Held<T>(o: Ops<T>, cs: seq<T>, ts: seq<Tree>, p: nat): nat
    requires |cs| == |ts|
  {
    if cs == [] then 0 else HeldBy(o, cs[0], ts[0], p) + Held(o, cs[1..], ts[1..], p)
  }

  ghost function Singletons(n: nat): seq<Tree> {
    seq(n, i requires 0 <= i => Leaf(i))
  }

  ghost function Sum<T>(f: T -> nat, cs: seq<T>): nat {
    if cs == [] then 0 else f(cs[0]) + Sum(f, cs[1..])
  }

  ghost function Total<T>(o: Ops<T>, cs: seq<T>): nat {
    Sum(o.value, cs)
  }

  ghost function LiveMark<T>(o: Ops<T>): T -> nat {
    c => if o.value(c) == 0 then 0 else 1
  }

  ghost function LiveCount<T>(o: Ops<T>, cs: seq<T>): nat {
    Sum(LiveMark(o), cs)
  }

  ghost predicate AllLive<T>(o: Ops<T>, cs: seq<T>) {
    forall k | 0 <= k < |cs| :: o.value(cs[k]) > 0
  }

  /**
   `cs` is a summary of `inputs`: every live cluster is the aggregate of the inputs in its tree,
   every live input is in exactly one live cluster, and the total value is that of the inputs.
   */
  ghost predicate Faithful<T>(o: Ops<T>, inputs: seq<T>, cs: seq<T>, ts: seq<Tree>) {
    && |cs| == |ts|
    && (forall k | 0 <= k < |ts| :: InRange(ts[k], |inputs|))
    && (forall k | 0 <= k < |ts| && o.value(cs[k]) > 0 :: cs[k] == Eval(o, inputs, ts[k]))
    && (forall p: nat :: Held(o, cs, ts, p) == if p < |inputs| && o.value(inputs[p]) > 0 then 1 else 0)
    && Total(o, cs) == Total(o, inputs)
  }

  lemma {:induction false} SumConcat<T>(f: T -> nat, a: seq<T>, b: seq<T>)
    ensures Sum(f, a + b) == Sum(f, a) + Sum(f, b)
  {
    if a == [] {
      assert a + b == b;
    } else {
      SumConcat(f, a[1..], b);
      assert (a + b)[1..] == a[1..] + b;
    }
  }

  lemma {:induction false} SumSplit<T>(f: T -> nat, cs: seq<T>, i: nat)
    requires i < |cs|
    ensures Sum(f, cs) == Sum(f, cs[..i]) + f(cs[i]) + Sum(f, cs[i + 1..])
  {
    if i > 0 {
      SumSplit(f, cs[1..], i - 1);
      assert cs[1..][..i - 1] == cs[..i][1..] && cs[1..][i..] == cs[i + 1..];
    }
  }

  lemma SumUpdate<T>(f: T -> nat, cs: seq<T>, i: nat, c: T)
    requires i < |cs|
    ensures Sum(f, cs[i := c]) + f(cs[i]) == Sum(f, cs) + f(c)
  {
    SumSplit(f, cs, i);
    SumSplit(f, cs[i := c], i);
    assert cs[i := c][..i] == cs[..i] && cs[i := c][i + 1..] == cs[i + 1..];
  }

  lemma SumErase<T>(f: T -> nat, cs: seq<T>, i: nat)
    requires i < |cs|
    ensures Sum(f, cs[..i] + cs[i + 1..]) + f(cs[i]) == Sum(f, cs)
  {
    SumSplit(f, cs, i);
    SumConcat(f, cs[..i], cs[i + 1..]);
  }

  lemma {:induction false} HeldConcat<T>(o: Ops<T>, a: seq<T>, ta: seq<Tree>, b: seq<T>, tb: seq<Tree>, p: nat)
    requires |a| == |ta| && |b| == |tb|
    ensures Held(o, a + b, ta + tb, p) == Held(o, a, ta, p) + Held(o, b, tb, p)
  {
    if a == [] {
      assert a + b == b && ta + tb == tb;
    } else {
      HeldConcat(o, a[1..], ta[1..], b, tb, p);
      assert (a + b)[1..] == a[1..] + b && (ta + tb)[1..] == ta[1..] + tb;
    }
  }

  lemma {:induction false} HeldSplit<T>(o: Ops<T>, cs: seq<T>, ts: seq<Tree>, i: nat, p: nat)
    requires i < |cs| == |ts|
    ensures Held(o, cs, ts, p) == Held(o, cs[..i], ts[..i], p) + HeldBy(o, cs[i], ts[i], p) +
        Held(o, cs[i + 1..], ts[i + 1..], p)
  {
    if i > 0 {
      HeldSplit(o, cs[1..], ts[1..], i - 1, p);
      assert cs[1..][..i - 1] == cs[..i][1..] && cs[1..][i..] == cs[i + 1..];
      assert ts[1..][..i - 1] == ts[..i][1..] && ts[1..][i..] == ts[i + 1..];
    }
  }

  lemma HeldUpdate<T>(o: Ops<T>, cs: seq<T>, ts: seq<Tree>, i: nat, c: T, t: Tree, p: nat)
    requires i < |cs| == |ts|
    ensures Held(o, cs[i := c], ts[i := t], p) + HeldBy(o, cs[i], ts[i], p) == Held(o, cs, ts, p) + HeldBy(o, c, t, p)
  {
    HeldSplit(o, cs, ts, i, p);
    HeldSplit(o, cs[i := c], ts[i := t], i, p);
    assert cs[i := c][..i] == cs[..i] && cs[i := c][i + 1..] == cs[i + 1..];
    assert ts[i := t][..i] == ts[..i] && ts[i := t][i + 1..] == ts[i + 1..];
  }

  lemma HeldErase<T>(o: Ops<T>, cs: seq<T>, ts: seq<Tree>, i: nat, p: nat)
    requires i < |cs| == |ts| && o.value(cs[i]) == 0
    ensures Held(o, cs[..i] + cs[i + 1..], ts[..i] + ts[i + 1..], p) == Held(o, cs, ts, p)
  {
    HeldSplit(o, cs, ts, i, p);
    HeldConcat(o, cs[..i], ts[..i], cs[i + 1..], ts[i + 1..], p);
  }

  /** Erasing a dead cluster costs nothing. */
  lemma DeadErased<T>(o: Ops<T>, inputs: seq<T>, cs: seq<T>, ts: seq<Tree>, i: nat)
    requires Faithful(o, inputs, cs, ts) && i < |cs| && o.value(cs[i]) == 0
    ensures Faithful(o, inputs, cs[..i] + cs[i + 1..], ts[..i] + ts[i + 1..])
    ensures LiveCount(o, cs[..i] + cs[i + 1..]) == LiveCount(o, cs)
  {
    forall p: nat ensures Held(o, cs[..i] + cs[i + 1..], ts[..i] + ts[i + 1..], p) == Held(o, cs, ts, p) {
      HeldErase(o, cs, ts, i, p);
    }
    SumErase(o.value, cs, i);
    SumErase(LiveMark(o), cs, i);
    var cs', ts' := cs[..i] + cs[i + 1..], ts[..i] + ts[i + 1..];
    forall k | 0 <= k < |ts'| ensures InRange(ts'[k], |inputs|)
      && (o.value(cs'[k]) > 0 ==> cs'[k] == Eval(o, inputs, ts'[k])) {
      assert if k < i then ts'[k] == ts[k] && cs'[k] == cs[k] else ts'[k] == ts[k + 1] && cs'[k] == cs[k + 1];
    }
  }

  lemma {:induction false} HeldOfInputs<T>(o: Ops<T>, cs: seq<T>, p: nat)
    ensures Held(o, cs, Singletons(|cs|), p) == if p < |cs| && o.value(cs[p]) > 0 then 1 else 0
  {
    var n := |cs|;
    if n > 0 {
      HeldOfInputs(o, cs[..n - 1], p);
      assert cs == cs[..n - 1] + [cs[n - 1]] && Singletons(n) == Singletons(n - 1) + [Leaf(n - 1)];
      HeldConcat(o, cs[..n - 1], Singletons(n - 1), [cs[n - 1]], [Leaf(n - 1)], p);
    }
  }

  lemma InitiallyFaithful<T>(o: Ops<T>, cs: seq<T>)
    ensures Faithful(o, cs, cs, Singletons(|cs|))
  {
    forall p: nat {
      HeldOfInputs(o, cs, p);
    }
  }

  ghost function Joined<T>(o: Ops<T>, cs: seq<T>, i: nat, j: nat): seq<T>
    requires i < |cs| && j < |cs|
  {
    cs[i := o.agg(cs[i], cs[j])][j := o.clear(cs[j])]
  }

  /** Merging live cluster `j` into live cluster `i` keeps the summary faithful. */
  lemma JoinKeepsFaithful<T(!new)>(o: Ops<T>, inputs: seq<T>, cs: seq<T>, ts: seq<Tree>, i: nat, j: nat)
    requires Lawful(o) && Faithful(o, inputs, cs, ts)
    requires i < |cs| && j < |cs| && i != j && o.value(cs[i]) > 0 && o.value(cs[j]) > 0
    ensures Faithful(o, inputs, Joined(o, cs, i, j), ts[i := Merge(ts[i], ts[j])])
    ensures LiveCount(o, Joined(o, cs, i, j)) == LiveCount(o, cs) - 1
  {
    var c, t := o.agg(cs[i], cs[j]), Merge(ts[i], ts[j]);
    var ds, us := cs[i := c], ts[i := t];
    assert us[j := us[j]] == us;
    forall p: nat
      ensures Held(o, Joined(o, cs, i, j), us, p) == Held(o, cs, ts, p)
    {
      HeldUpdate(o, cs, ts, i, c, t, p);
      HeldUpdate(o, ds, us, j, o.clear(cs[j]), us[j], p);
    }
    SumUpdate(o.value, cs, i, c);
    SumUpdate(o.value, ds, j, o.clear(cs[j]));
    SumUpdate(LiveMark(o), cs, i, c);
    SumUpdate(LiveMark(o), ds, j, o.clear(cs[j]));
  }

  /** Faithfulness in plain words: a live input is behind exactly one live cluster of the summary, once. */
  lemma FaithfulMeansPartition<T>(o: Ops<T>, inputs: seq<T>, cs: seq<T>, ts: seq<Tree>, p: nat)
    requires Faithful(o, inputs, cs, ts) && p < |inputs| && o.value(inputs[p]) > 0
    ensures exists k :: 0 <= k < |cs| && HeldBy(o, cs[k], ts[k], p) == 1
                        && forall k' :: 0 <= k' < |cs| && k' != k ==> HeldBy(o, cs[k'], ts[k'], p) == 0
  {
    var k := FindHolder(o, cs, ts, p);
  }

  lemma {:induction false} FindHolder<T>(o: Ops<T>, cs: seq<T>, ts: seq<Tree>, p: nat) returns (k: nat)
    requires |cs| == |ts| && Held(o, cs, ts, p) == 1
    ensures k < |cs| && HeldBy(o, cs[k], ts[k], p) == 1
    ensures forall k' :: 0 <= k' < |cs| && k' != k ==> HeldBy(o, cs[k'], ts[k'], p) == 0
  {
    if HeldBy(o, cs[0], ts[0], p) == 1 {
      k := 0;
      NoHolder(o, cs[1..], ts[1..], p);
    } else {
      var j := FindHolder(o, cs[1..], ts[1..], p);
      k := j + 1;
    }
    assert forall k' :: 1 <= k' < |cs| ==> cs[k'] == cs[1..][k' - 1] && ts[k'] == ts[1..][k' - 1];
  }

  lemma {:induction false} NoHolder<T>(o: Ops<T>, cs: seq<T>, ts: seq<Tree>, p: nat)
    requires |cs| == |ts| && Held(o, cs, ts, p) == 0
    ensures forall k :: 0 <= k < |cs| ==> HeldBy(o, cs[k], ts[k], p) == 0
  {
    if cs != [] {
      NoHolder(o, cs[1..], ts[1..], p);
      assert forall k' :: 1 <= k' < |cs| ==> cs[k'] == cs[1..][k' - 1] && ts[k'] == ts[1..][k' - 1];
    }
  }

  // ---------------------------------------------------------------------------------------------
  // Distance lists
  // ---------------------------------------------------------------------------------------------

  /** One cached pair: distance `d` to the cluster at `to`, whose value was `v`; `sum` is a pool slot. */
  datatype DistanceTo = DistanceTo(d: Dist, v: nat, to: nat, sum: nat)

  /** The candidates of cluster `src`; `dst` is the offset of the current one. */
  datatype DistanceList = DistanceList(src: nat, dsts: seq<DistanceTo>, dst: nat, dirty: bool) {
    predicate Empty() { dst == |dsts| }
  }

  ghost predicate Ascending(ds: seq<DistanceTo>) {
    forall a, b | 0 <= a < b < |ds| :: !Less(ds[b].d, ds[a].d)
  }

  /** `e` stands at `p` in `r`; around it are the first entries of `ds`, in their order. */
  ghost predicate InsertedAt(ds: seq<DistanceTo>, r: seq<DistanceTo>, e: DistanceTo, p: nat) {
    && p < |r| <= |ds| + 1 && r[p] == e
    && (forall k | 0 <= k < p :: r[k] == ds[k])
    && (forall k | p < k < |r| :: r[k] == ds[k - 1])
  }

  /** The in-place shift of `add`: moves the larger ones of the first `i` entries up to make place for `e`. */
  method Shift(ds: seq<DistanceTo>, i: nat, e: DistanceTo) returns (r: seq<DistanceTo>, p: nat)
    requires |ds| == i + 1
    ensures |r| == |ds| && InsertedAt(ds[..i], r, e, p)
    ensures p > 0 ==> !Less(e.d, ds[p - 1].d)
    ensures forall k | p <= k < i :: Less(e.d, ds[k].d)
  {
    r, p := ds, i;
    while p > 0 && Less(e.d, r[p - 1].d)
      invariant 0 <= p <= i && |r| == |ds|
      invariant forall k | 0 <= k < p :: r[k] == ds[k]
      invariant forall k | p < k < |ds| :: r[k] == ds[k - 1]
      invariant forall k | p <= k < i :: Less(e.d, ds[k].d)
    {
      r := r[p := r[p - 1]];
      p := p - 1;
    }
    r := r[p := e];
  }

  lemma ShiftKeepsAscending(ds: seq<DistanceTo>, r: seq<DistanceTo>, e: DistanceTo, p: nat)
    requires Ascending(ds) && InsertedAt(ds, r, e, p)
    requires p > 0 ==> !Less(e.d, ds[p - 1].d)
    requires forall k | p <= k < |ds| :: Less(e.d, ds[k].d)
    ensures Ascending(r)
  {
    forall a, b | 0 <= a < b < |r|
      ensures !Less(r[b].d, r[a].d)
    {
      assert a == p || r[a] == ds[if a < p then a else a - 1];
      assert b == p || r[b] == ds[if b < p then b else b - 1];
      assert p > 0 && a < p - 1 ==> !Less(ds[p - 1].d, ds[a].d);
    }
  }

  ghost predicate Inserted(l: DistanceList, l': DistanceList, K: nat, e: DistanceTo, p: nat) {
    && l' == l.(dsts := l'.dsts) && InsertedAt(l.dsts, l'.dsts, e, p)
    && |l'.dsts| == if |l.dsts| < K then |l.dsts| + 1 else K
  }

  /**
   Inserts a candidate in distance order, keeping at most `K`. `sum` is the slot that holds its pair
   sum, `top` the first slot never used; `free` is where the next pair sum may be computed.
   */
  method Add(l: DistanceList, K: nat, d: Dist, v: nat, to: nat, sum: nat, top: nat)
    returns (l': DistanceList, free: nat, top': nat, inserted: bool, ghost p: nat)
    requires 1 <= K && |l.dsts| <= K
    ensures inserted <==> |l.dsts| < K || Less(d, l.dsts[K - 1].d)
    ensures !inserted ==> l' == l && free == sum && top' == top
    ensures inserted ==> Inserted(l, l', K, DistanceTo(d, v, to, sum), p)
    ensures inserted ==> top' == (if top == sum then top + 1 else top)
    ensures inserted ==> free == (if |l.dsts| < K then top' else l.dsts[K - 1].sum)
    ensures Ascending(l.dsts) ==> Ascending(l'.dsts)
  {
    l', free, top', inserted, p := l, sum, top, false, 0;
    if |l.dsts| < K || Less(d, l.dsts[|l.dsts| - 1].d) {
      if top == sum {
        top' := top + 1;
      }
      var e, i, ds := DistanceTo(d, v, to, sum), 0, l.dsts;
      if |ds| < K {
        i := |ds|;
        ds := ds + [e];
        free := top';
      } else {
        i := K - 1;
        free := ds[i].sum;
      }
      ds, p := Shift(ds, i, e);
      if Ascending(l.dsts) {
        ShiftKeepsAscending(l.dsts[..i], ds, e, p);
      }
      l' := l.(dsts := ds);
      inserted := true;
    }
  }

  // ---------------------------------------------------------------------------------------------
  // Cached pair sums
  // ---------------------------------------------------------------------------------------------

  /** The cached distance and the cached sum are those of the two clusters as they are now. */
  ghost predicate Accurate<T>(o: Ops<T>, items: seq<T>, pool: seq<T>, i: nat, e: DistanceTo)
    requires i < |items| && e.to < |items| && e.sum < |pool|
  {
    e.d == o.dist(items[i], items[e.to]) && pool[e.sum] == o.agg(items[i], items[e.to])
  }

  ghost predicate Linked(l: DistanceList, n: nat, slots: nat) {
    && l.dst <= |l.dsts| && l.src < n
    && (forall k | 0 <= k < |l.dsts| :: l.src < l.dsts[k].to < n && l.dsts[k].sum < slots)
    && (forall j, k | 0 <= j < k < |l.dsts| :: l.dsts[j].sum != l.dsts[k].sum)
  }

  /** No pool slot is shared between two lists. */
  ghost predicate Apart(a: DistanceList, b: DistanceList) {
    forall j, k | 0 <= j < |a.dsts| && 0 <= k < |b.dsts| :: a.dsts[j].sum != b.dsts[k].sum
  }

  /** What makes `v` a valid stamp: a target only grows, or drops to zero. */
  ghost predicate Growing<T>(o: Ops<T>, items: seq<T>, l: DistanceList)
    requires forall k | 0 <= k < |l.dsts| :: l.dsts[k].to < |items|
  {
    forall k | 0 <= k < |l.dsts| ::
      o.value(items[l.dsts[k].to]) == 0 || l.dsts[k].v <= o.value(items[l.dsts[k].to])
  }

  /** If the source is alive, an entry whose stamp matches its live target is accurate. */
  ghost predicate Trusted<T>(o: Ops<T>, items: seq<T>, pool: seq<T>, l: DistanceList)
    requires Linked(l, |items|, |pool|)
  {
    o.value(items[l.src]) > 0 ==>
      forall k | l.dst <= k < |l.dsts| && (l.dirty ==> k == l.dst) ::
        l.dsts[k].v == o.value(items[l.dsts[k].to]) > 0 ==> Accurate(o, items, pool, l.src, l.dsts[k])
  }

  ghost predicate SameSlots(l: DistanceList, l': DistanceList) {
    && l'.src == l.src && |l'.dsts| == |l.dsts|
    && forall k | 0 <= k < |l.dsts| :: l'.dsts[k].to == l.dsts[k].to && l'.dsts[k].sum == l.dsts[k].sum
  }

  /** `updateDistance`: the current entry takes the present distance and target value. */
  function Updated<T>(o: Ops<T>, items: seq<T>, l: DistanceList): DistanceList
    requires l.dst < |l.dsts| && l.src < |items| && l.dsts[l.dst].to < |items|
  {
    var e := l.dsts[l.dst];
    l.(dsts := l.dsts[l.dst := e.(d := o.dist(items[l.src], items[e.to]), v := o.value(items[e.to]))])
  }

  /** A merge of `j` into `i` leaves every other list trusted: stale entries are told by their stamp. */
  lemma JoinKeepsTrusted<T(!new)>(o: Ops<T>, items: seq<T>, pool: seq<T>, l: DistanceList, i: nat, j: nat)
    requires Lawful(o) && Linked(l, |items|, |pool|) && Growing(o, items, l)
    requires i < |items| && j < |items| && i != j && o.value(items[i]) > 0 && o.value(items[j]) > 0
    ensures Growing(o, Joined(o, items, i, j), l)
    ensures l.src != i && Trusted(o, items, pool, l) ==> Trusted(o, Joined(o, items, i, j), pool, l)
  {
    var after := Joined(o, items, i, j);
    assert o.value(after[i]) > o.value(items[i]) && o.value(after[j]) == 0;
    forall k | 0 <= k < |l.dsts|
      ensures o.value(after[l.dsts[k].to]) == 0 || l.dsts[k].v <= o.value(after[l.dsts[k].to])
    {
      var t := l.dsts[k].to;
      assert t == i || t == j || after[t] == items[t];
    }
  }

  lemma UpdateKeepsOthersTrusted<T>(o: Ops<T>, items: seq<T>, pool: seq<T>, l: DistanceList, b: DistanceList, slot: nat,
                                    c: T)
    requires Linked(l, |items|, |pool|) && Linked(b, |items|, |pool|) && Apart(l, b)
    requires b.dst < |b.dsts| && slot == b.dsts[b.dst].sum
    requires Trusted(o, items, pool, l)
    ensures Trusted(o, items, pool[slot := c], l)
  {
  }

  lemma UpdateMakesTrusted<T>(o: Ops<T>, items: seq<T>, pool: seq<T>, l: DistanceList)
    requires Linked(l, |items|, |pool|) && l.dst < |l.dsts|
    requires l.dirty || Trusted(o, items, pool, l)
    ensures var l', e := Updated(o, items, l), l.dsts[l.dst];
            && SameSlots(l, l') && Linked(l', |items|, |pool|)
            && Trusted(o, items, pool[e.sum := o.agg(items[l.src], items[e.to])], l')
            && (Growing(o, items, l) ==> Growing(o, items, l'))
  {
  }

  // ---------------------------------------------------------------------------------------------
  // The heap of distance lists
  // ---------------------------------------------------------------------------------------------

  ghost predicate InHeap(lists: seq<DistanceList>, heap: seq<nat>) {
    forall x | x in heap :: x < |lists| && !lists[x].Empty() && lists[x].dst < |lists[x].dsts|
  }

  function Head(l: DistanceList): DistanceTo
    requires l.dst < |l.dsts|
  {
    l.dsts[l.dst]
  }

  /** The order `compDL` gives the front of the heap: no other current distance is smaller. */
  ghost predicate FrontIsNearest(lists: seq<DistanceList>, heap: seq<nat>)
    requires InHeap(lists, heap)
  {
    |heap| > 0 ==> heap[0] in heap && forall x | x in heap :: !Less(Head(lists[x]).d, Head(lists[heap[0]]).d)
  }

  /**
   What the standard heap algorithms guarantee: the same elements, with a nearest one in front.
   The order of the rest, and the choice among equals, is left to the implementation.
   */
  method MakeHeap(lists: seq<DistanceList>, h: seq<nat>) returns (r: seq<nat>)
    requires InHeap(lists, h)
    ensures multiset(r) == multiset(h) && InHeap(lists, r) && FrontIsNearest(lists, r)
  {
    r := h;
    assert forall k | 0 <= k < |h| :: h[k] in h;
    if |h| > 0 {
      var m := 0;
      for i := 1 to |h|
        invariant 0 <= m < |h|
        invariant forall k | 0 <= k < i :: !Less(Head(lists[h[k]]).d, Head(lists[h[m]]).d)
      {
        if Less(Head(lists[h[i]]).d, Head(lists[h[m]]).d) {
          m := i;
        }
      }
      r := h[0 := h[m]][m := h[0]];
      assert multiset(r) == multiset(h);
      forall x | x in r
        ensures x in h
      {
        assert x in multiset(r);
      }
    }
  }

  ghost predicate Distinct(h: seq<nat>) {
    forall x :: multiset(h)[x] <= 1
  }

  /** Candidate pairs still to be looked at in a round. */
  ghost function Remaining(lists: seq<DistanceList>, heap: seq<nat>): set<(nat, nat)> {
    set i, k | i in heap && 0 <= i < |lists| && lists[i].dst <= k < |lists[i].dsts| :: (i, k)
  }

  /** Heap members whose current entry carries an outdated stamp. */
  ghost function Stale<T>(o: Ops<T>, items: seq<T>, lists: seq<DistanceList>, heap: seq<nat>): set<nat> {
    set i | i in heap && i < |lists| && lists[i].dst < |lists[i].dsts| && Head(lists[i]).to < |items|
            && Head(lists[i]).v != o.value(items[Head(lists[i]).to])
  }

  /** Links, slots and stamps of all lists are in order, whatever the heap holds. */
  ghost predicate Core<T>(o: Ops<T>, items: seq<T>, lists: seq<DistanceList>, slots: nat) {
    && |lists| == |items|
    && (forall i | 0 <= i < |lists| ::
          lists[i].src == i && Linked(lists[i], |items|, slots) && Growing(o, items, lists[i]))
    && (forall i, j | 0 <= i < |lists| && 0 <= j < |lists| && i != j :: Apart(lists[i], lists[j]))
  }

  ghost predicate Consistent<T>(o: Ops<T>, items: seq<T>, lists: seq<DistanceList>, heap: seq<nat>, pool: seq<T>) {
    && Core(o, items, lists, |pool|)
    && InHeap(lists, heap) && Distinct(heap) && FrontIsNearest(lists, heap)
    && (forall i | i in heap :: Trusted(o, items, pool, lists[i]))
  }

  lemma PopFront(lists: seq<DistanceList>, heap: seq<nat>)
    requires |heap| > 0 && InHeap(lists, heap) && Distinct(heap)
    ensures InHeap(lists, heap[1..]) && Distinct(heap[1..])
    ensures forall x :: x in heap[1..] <==> x in heap && x != heap[0]
  {
    assert heap == [heap[0]] + heap[1..];
    assert multiset(heap) == multiset{heap[0]} + multiset(heap[1..]);
    assert forall x :: x in heap <==> x in multiset(heap);
    assert forall x :: x in heap[1..] <==> x in multiset(heap[1..]);
    assert forall x :: multiset(heap)[x] == multiset{heap[0]}[x] + multiset(heap[1..])[x];
  }

  lemma SameMembers(h: seq<nat>, r: seq<nat>)
    requires multiset(h) == multiset(r)
    ensures (forall x :: x in h <==> x in r) && (Distinct(h) ==> Distinct(r))
  {
    assert forall x :: x in h <==> x in multiset(h);
    assert forall x :: x in r <==> x in multiset(r);
  }

  lemma PushBack(rest: seq<nat>, b: nat)
    requires Distinct(rest) && b !in rest
    ensures Distinct(rest + [b]) && forall x :: x in rest + [b] <==> x in rest || x == b
  {
    assert b !in multiset(rest);
  }

  /** Replacing list `b` by one with the same slots keeps the core. */
  lemma CoreReplace<T>(o: Ops<T>, items: seq<T>, lists: seq<DistanceList>, slots: nat, b: nat, l: DistanceList)
    requires Core(o, items, lists, slots) && b < |lists|
    requires SameSlots(lists[b], l) && l.dst <= |l.dsts| && Growing(o, items, l)
    ensures Core(o, items, lists[b := l], slots)
  {
    var ls := lists[b := l];
    forall i, j | 0 <= i < |ls| && 0 <= j < |ls| && i != j
      ensures Apart(ls[i], ls[j])
    {
      assert Apart(lists[i], lists[j]);
    }
  }

  lemma CoreJoin<T(!new)>(o: Ops<T>, items: seq<T>, lists: seq<DistanceList>, pool: seq<T>, i: nat, j: nat)
    requires Lawful(o) && Core(o, items, lists, |pool|)
    requires i < |items| && j < |items| && i != j && o.value(items[i]) > 0 && o.value(items[j]) > 0
    ensures Core(o, Joined(o, items, i, j), lists, |pool|)
    ensures forall x | 0 <= x < |lists| && x != i && Trusted(o, items, pool, lists[x]) ::
              Trusted(o, Joined(o, items, i, j), pool, lists[x])
  {
    forall x | 0 <= x < |lists|
      ensures Growing(o, Joined(o, items, i, j), lists[x])
      ensures x != i && Trusted(o, items, pool, lists[x]) ==> Trusted(o, Joined(o, items, i, j), pool, lists[x])
    {
      JoinKeepsTrusted(o, items, pool, lists[x], i, j);
    }
  }

  /** Updating the current entry of list `b`, and its pool slot, leaves `b` and all the others trusted. */
  lemma CoreUpdate<T>(o: Ops<T>, items: seq<T>, lists: seq<DistanceList>, pool: seq<T>, b: nat)
    requires Core(o, items, lists, |pool|) && b < |lists| && lists[b].dst < |lists[b].dsts|
    requires lists[b].dirty || Trusted(o, items, pool, lists[b])
    ensures var e := Head(lists[b]);
            var ls, after := lists[b := Updated(o, items, lists[b])], pool[e.sum := o.agg(items[b], items[e.to])];
            && SameSlots(lists[b], ls[b])
            && Core(o, items, ls, |pool|) && Trusted(o, items, after, ls[b])
            && (forall x | 0 <= x < |lists| && x != b && Trusted(o, items, pool, lists[x]) ::
                  Trusted(o, items, after, ls[x]))
  {
    var e := Head(lists[b]);
    var c := o.agg(items[b], items[e.to]);
    UpdateMakesTrusted(o, items, pool, lists[b]);
    CoreReplace(o, items, lists, |pool|, b, Updated(o, items, lists[b]));
    forall x | 0 <= x < |lists| && x != b && Trusted(o, items, pool, lists[x])
      ensures Trusted(o, items, pool[e.sum := c], lists[x])
    {
      UpdateKeepsOthersTrusted(o, items, pool, lists[x], lists[b], e.sum, c);
    }
  }

  class ClusteringList<T(0,!new)> {
    const ops: Ops<T>
    /// Maximum length of a distance list
    const K: nat
    var items: seq<T>

    constructor (ops: Ops<T>, K: nat, items: seq<T>)
      ensures this.ops == ops && this.K == K && this.items == items
    {
      this.ops, this.K, this.items := ops, K, items;
    }

    /** Erases the clusters whose value is zero. */
    method Purge(ghost inputs: seq<T>, ghost ts: seq<Tree>) returns (ghost ts': seq<Tree>)
      requires Faithful(ops, inputs, items, ts)
      modifies `items
      ensures Faithful(ops, inputs, items, ts') && AllLive(ops, items)
      ensures |items| == LiveCount(ops, items) == old(LiveCount(ops, items))
    {
      ts' := ts;
      var i := 0;
      while i < |items|
        invariant 0 <= i <= |items| && Faithful(ops, inputs, items, ts')
        invariant forall k | 0 <= k < i :: ops.value(items[k]) > 0
        invariant LiveCount(ops, items) == old(LiveCount(ops, items))
        decreases |items| - i
      {
        if ops.value(items[i]) == 0 {
          DeadErased(ops, inputs, items, ts', i);
          items, ts' := items[..i] + items[i + 1..], ts'[..i] + ts'[i + 1..];
        } else {
          i := i + 1;
        }
      }
      AllLiveCount(ops, items);
    }

    /** One round of `cluster`: at most `|items| - limit` true merges, the nearest candidates first. */
    method Round(vod: VectorOfDistances<T>, limit: nat, ghost inputs: seq<T>, ghost ts: seq<Tree>)
      returns (joined: nat, ghost ts': seq<Tree>)
      requires vod.source == this && Lawful(ops) && 1 <= K && limit < |items|
      requires Faithful(ops, inputs, items, ts)
      requires vod.pool == [] || |items| * K < |vod.pool|
      modifies `items, vod
      ensures Faithful(ops, inputs, items, ts') && |items| == |old(items)| && |items| * K < |vod.pool|
      ensures joined <= |items| - limit && LiveCount(ops, items) == old(LiveCount(ops, items)) - joined
      ensures joined == 0 ==> items == old(items)
      ensures old(AllLive(ops, items)) && 2 <= |items| && NeverFar(ops) && AllFinite(ops) ==> 1 <= joined
    {
      vod.Populate();
      var numClusters := |items| - limit;
      joined, ts' := 0, ts;
      ghost var certain := AllLive(ops, items) && 2 <= |items| && NeverFar(ops) && AllFinite(ops);
      if certain {
        assert Listed(vod.lists[0], 1) || |vod.lists[0].dsts| == K;
        assert 0 in vod.heap;
      }
      while |vod.heap| > 0 && joined < numClusters && Head(vod.lists[vod.heap[0]]).d != Inf
        invariant vod.Ready() && |vod.pool| > |items| * K && |items| == |old(items)|
        invariant Faithful(ops, inputs, items, ts') && joined <= numClusters
        invariant LiveCount(ops, items) == old(LiveCount(ops, items)) - joined
        invariant joined == 0 ==> items == old(items)
        invariant certain && joined == 0 ==>
                    |vod.heap| > 0 && Head(vod.lists[vod.heap[0]]).d.Fin?
                      && Stale(ops, items, vod.lists, vod.heap) == {}
        decreases Remaining(vod.lists, vod.heap), Stale(ops, items, vod.lists, vod.heap)
      {
        var j;
        ghost var a, b;
        j, a, b, ts' := vod.Iterate(inputs, ts');
        if j {
          joined := joined + 1;
        }
      }
    }

    /** A round and, if it merged anything, the purge after it. */
    method RoundAndPurge(vod: VectorOfDistances<T>, limit: nat, ghost inputs: seq<T>, ghost ts: seq<Tree>)
      returns (joined: nat, ghost ts': seq<Tree>)
      requires vod.source == this && Lawful(ops) && 1 <= K && limit < |items|
      requires Faithful(ops, inputs, items, ts)
      requires vod.pool == [] || |items| * K < |vod.pool|
      modifies `items, vod
      ensures Faithful(ops, inputs, items, ts')
      ensures joined == 0 ==> items == old(items)
      ensures joined > 0 ==> AllLive(ops, items) && |items| < |old(items)| && |items| * K < |vod.pool|
      ensures joined > 0 ==> limit <= |items| + (|old(items)| - LiveCount(ops, old(items)))
      ensures AllLive(ops, old(items)) && 2 <= |old(items)| && NeverFar(ops) && AllFinite(ops) ==> 1 <= joined
    {
      AllLiveCount(ops, items);
      joined, ts' := Round(vod, limit, inputs, ts);
      if joined > 0 {
        var n := |items|;
        ts' := Purge(inputs, ts');
        FewerSlots(|items|, n, K);
      }
    }

    /**
     Reduces the list towards `limit` clusters. The result is always a faithful summary; it has at
     least `limit` clusters (counting those that were empty from the start), and exactly the wanted
     number when no two clusters are far and no distance is infinite.
     */
    method Cluster(limit: nat) returns (ghost ts: seq<Tree>)
      requires Lawful(ops) && 1 <= K
      modifies `items
      ensures Faithful(ops, old(items), items, ts)
      ensures |old(items)| <= limit ==> items == old(items)
      ensures |old(items)| > limit ==>
          limit <= |items| + (|old(items)| - LiveCount(ops, old(items))) && |items| <= |old(items)|
      ensures AllLive(ops, old(items)) ==>
          AllLive(ops, items) && |items| >= if |old(items)| < limit then |old(items)| else limit
      ensures AllLive(ops, old(items)) && NeverFar(ops) && AllFinite(ops) && 1 <= limit ==>
                |items| == if |old(items)| < limit then |old(items)| else limit
    {
      var vod := new VectorOfDistances(this);
      ts := Singletons(|items|);
      InitiallyFaithful(ops, items);
      AllLiveCount(ops, items);
      ghost var dead := |items| - LiveCount(ops, items);
      while |items| > limit
        invariant fresh(vod) && vod.source == this
        invariant Faithful(ops, old(items), items, ts) && |items| <= |old(items)|
        invariant vod.pool == [] || |items| * K < |vod.pool|
        invariant |old(items)| <= limit ==> items == old(items)
        invariant AllLive(ops, items) || items == old(items)
        invariant |old(items)| > limit ==> limit <= |items| + dead
        decreases |items|
      {
        AllLiveCount(ops, items);
        var joined;
        joined, ts := RoundAndPurge(vod, limit, old(items), ts);
        if joined == 0 {
          break;
        }
      }
    }
  }

  class VectorOfDistances<T(0,!new)> {
    const source: ClusteringList<T>
    var useFar: bool
    var lists: seq<DistanceList>
    var heap: seq<nat>
    var pool: seq<T>

    constructor (source: ClusteringList<T>)
      ensures this.source == source && !useFar && lists == [] && heap == [] && pool == []
    {
      this.source := source;
      useFar, lists, heap, pool := false, [], [], [];
    }

    ghost predicate Ready()
      reads this, source
    {
      Lawful(source.ops) && Consistent(source.ops, source.items, lists, heap, pool)
    }

    /** Skips the targets that have been merged away. */
    method Advance(b: nat)
      requires b < |lists| && Linked(lists[b], |source.items|, |pool|)
      modifies `lists
      ensures exists q ::
          old(lists[b]).dst <= q <= |old(lists[b]).dsts| && lists == old(lists)[b := old(lists[b]).(dst := q)]
      ensures lists[b].Empty() || source.ops.value(source.items[Head(lists[b]).to]) > 0
      ensures !old(lists[b]).Empty() && source.ops.value(source.items[Head(old(lists[b])).to]) == 0
              ==> lists[b].dst > old(lists[b]).dst
    {
      var l := lists[b];
      var q := l.dst;
      while q < |l.dsts| && source.ops.value(source.items[l.dsts[q].to]) == 0
        invariant l.dst <= q <= |l.dsts|
      {
        q := q + 1;
      }
      lists := lists[b := l.(dst := q)];
      assert lists == old(lists)[b := old(lists[b]).(dst := q)];
    }

    method UpdateDistance(b: nat)
      requires Core(source.ops, source.items, lists, |pool|) && b < |lists| && lists[b].dst < |lists[b].dsts|
      modifies `lists, `pool
      ensures lists == old(lists)[b := Updated(source.ops, source.items, old(lists[b]))]
      ensures pool == old(pool)[Head(old(lists[b])).sum :=
          source.ops.agg(source.items[b], source.items[Head(old(lists[b])).to])]
    {
      var o, l := source.ops, lists[b];
      var e := Head(l);
      pool := pool[e.sum := o.agg(source.items[l.src], source.items[e.to])];
      lists := lists[b := l.(dsts := l.dsts[l.dst :=
        e.(d := o.dist(source.items[l.src], source.items[e.to]), v := o.value(source.items[e.to]))])];
    }

    method Push(rest: seq<nat>, best: nat)
      requires InHeap(lists, rest) && Distinct(rest) && best !in rest
      requires best < |lists| && lists[best].dst < |lists[best].dsts|
      modifies `heap
      ensures InHeap(lists, heap) && Distinct(heap) && FrontIsNearest(lists, heap)
      ensures forall x :: x in heap <==> x in rest || x == best
    {
      PushBack(rest, best);
      assert InHeap(lists, rest + [best]);
      heap := MakeHeap(lists, rest + [best]);
      SameMembers(rest + [best], heap);
    }

    /** Joins the current target of list `best` into its source, by moving the cached sum. */
    method Join(best: nat)
      requires Lawful(source.ops) && Core(source.ops, source.items, lists, |pool|)
      requires best < |lists| && lists[best].dst < |lists[best].dsts|
      requires Trusted(source.ops, source.items, pool, lists[best])
      requires source.ops.value(source.items[best]) > 0
      requires Head(lists[best]).v == source.ops.value(source.items[Head(lists[best]).to]) > 0
      modifies `lists, source`items
      ensures source.items == Joined(source.ops, old(source.items), best, Head(old(lists)[best]).to)
      ensures lists == old(lists)[best := old(lists)[best].(dirty := true)]
      ensures Core(source.ops, source.items, lists, |pool|)
      ensures forall x | 0 <= x < |lists| && x != best && Trusted(source.ops, old(source.items), pool, old(lists)[x]) ::
                Trusted(source.ops, source.items, pool, lists[x])
      ensures Head(old(lists)[best]).d ==
          source.ops.dist(old(source.items)[best], old(source.items)[Head(old(lists)[best]).to])
    {
      var o, l := source.ops, lists[best];
      var e := Head(l);
      CoreJoin(o, source.items, lists, pool, best, e.to);
      source.items := source.items[l.src := pool[e.sum]];
      source.items := source.items[e.to := o.clear(source.items[e.to])];
      assert source.items == Joined(o, old(source.items), best, e.to);
      CoreReplace(o, source.items, lists, |pool|, best, l.(dirty := true));
      lists := lists[best := l.(dirty := true)];
    }

    /** Moves list `best` to its next live target and makes sure that entry is up to date. */
    method MoveOn(best: nat)
      requires Core(source.ops, source.items, lists, |pool|)
      requires best < |lists| && lists[best].dst < |lists[best].dsts|
      requires lists[best].dirty || Trusted(source.ops, source.items, pool, lists[best])
      requires source.ops.value(source.items[Head(lists[best]).to]) == 0
      modifies `lists, `pool
      ensures |pool| == |old(pool)| && Core(source.ops, source.items, lists, |pool|)
      ensures forall x | 0 <= x < |lists| && x != best :: lists[x] == old(lists)[x]
      ensures forall x | 0 <= x < |lists| && x != best && Trusted(source.ops, source.items, old(pool), lists[x]) ::
                Trusted(source.ops, source.items, pool, lists[x])
      ensures lists[best].dst > old(lists)[best].dst && |lists[best].dsts| == |old(lists)[best].dsts|
      ensures lists[best].dst < |lists[best].dsts| ==> Trusted(source.ops, source.items, pool, lists[best])
    {
      var o := source.ops;
      Advance(best);
      CoreReplace(o, source.items, old(lists), |pool|, best, lists[best]);
      if !lists[best].Empty()
         && (lists[best].dirty || Head(lists[best]).v != o.value(source.items[Head(lists[best]).to])) {
        CoreUpdate(o, source.items, lists, pool, best);
        UpdateDistance(best);
      }
    }

    /** The state between `pop_heap` of list `best` and the next change of the heap. */
    ghost predicate Popped(best: nat, rest: seq<nat>)
      reads this, source
    {
      && Lawful(source.ops) && Core(source.ops, source.items, lists, |pool|)
      && InHeap(lists, heap) && best in heap && (forall x :: x in rest <==> x in heap && x != best)
      && InHeap(lists, rest) && Distinct(rest) && FrontIsNearest(lists, rest)
      && (forall x | x in heap :: Trusted(source.ops, source.items, pool, lists[x]))
    }

    /** The popped list had an outdated entry: recompute it and push the list back. */
    method Refresh(best: nat, rest: seq<nat>)
      requires Popped(best, rest)
      requires Head(lists[best]).v != source.ops.value(source.items[Head(lists[best]).to])
      modifies `lists, `heap, `pool
      ensures Ready() && |pool| == old(|pool|)
      ensures Remaining(lists, heap) == old(Remaining(lists, heap))
      ensures Stale(source.ops, source.items, lists, heap) < old(Stale(source.ops, source.items, lists, heap))
    {
      CoreUpdate(source.ops, source.items, lists, pool, best);
      UpdateDistance(best);
      Push(rest, best);
      RefreshesHead(source.ops, source.items, old(lists), old(heap), lists, heap, best);
    }

    /** The current target of the popped list is gone: go on with the next one, or drop the list. */
    method Proceed(best: nat, rest: seq<nat>)
      requires Lawful(source.ops) && Core(source.ops, source.items, lists, |pool|)
      requires best < |lists| && lists[best].dst < |lists[best].dsts|
      requires InHeap(lists, rest) && Distinct(rest) && FrontIsNearest(lists, rest)
      requires InHeap(lists, heap) && best in heap && forall x :: x in rest <==> x in heap && x != best
      requires forall x | x in rest :: Trusted(source.ops, source.items, pool, lists[x])
      requires lists[best].dirty || Trusted(source.ops, source.items, pool, lists[best])
      requires source.ops.value(source.items[Head(lists[best]).to]) == 0
      modifies `lists, `heap, `pool
      ensures Ready() && |pool| == old(|pool|) && Remaining(lists, heap) < old(Remaining(lists, heap))
    {
      MoveOn(best);
      if !lists[best].Empty() {
        Push(rest, best);
        AdvancesList(old(lists), old(heap), lists, heap, best);
      } else {
        heap := rest;
        DropsList(old(lists), old(heap), lists, heap, best);
      }
    }

    /** A live target with a matching stamp is joined; in any case the list leaves this target behind. */
    method Take(best: nat, rest: seq<nat>) returns (joined: bool)
      requires Popped(best, rest) && source.ops.value(source.items[best]) > 0
      requires source.ops.value(source.items[Head(lists[best]).to]) > 0
               ==> Head(lists[best]).v == source.ops.value(source.items[Head(lists[best]).to])
      modifies `lists, `heap, `pool, source`items
      ensures Ready() && |pool| == old(|pool|) && Remaining(lists, heap) < old(Remaining(lists, heap))
      ensures joined <==> source.ops.value(old(source.items)[Head(old(lists)[best]).to]) > 0
      ensures !joined ==> source.items == old(source.items)
      ensures joined ==> source.items == Joined(source.ops, old(source.items), best, Head(old(lists)[best]).to)
      ensures joined ==>
          Head(old(lists)[best]).d == source.ops.dist(old(source.items)[best],
            old(source.items)[Head(old(lists)[best]).to])
    {
      joined := source.ops.value(source.items[Head(lists[best]).to]) > 0;
      if joined {
        Join(best);
        assert Remaining(lists, heap) == old(Remaining(lists, heap));
      }
      Proceed(best, rest);
    }

    /**
     One turn of the inner loop of `cluster`. When it joins, it joins two live clusters into their
     true present sum, and no current candidate distance was smaller than their true distance.
     */
    method Iterate(ghost inputs: seq<T>, ghost ts: seq<Tree>)
      returns (joined: bool, ghost i: nat, ghost j: nat, ghost ts': seq<Tree>)
      requires Ready() && |heap| > 0 && Faithful(source.ops, inputs, source.items, ts)
      modifies `lists, `heap, `pool, source`items
      ensures Ready() && Faithful(source.ops, inputs, source.items, ts')
      ensures |pool| == old(|pool|) && |source.items| == old(|source.items|)
      ensures !joined ==> source.items == old(source.items)
      ensures joined ==>
                && i < j < |old(source.items)|
                && source.ops.value(old(source.items)[i]) > 0 && source.ops.value(old(source.items)[j]) > 0
                && source.items == Joined(source.ops, old(source.items), i, j)
                && LiveCount(source.ops, source.items) == old(LiveCount(source.ops, source.items)) - 1
                && forall x | x in old(heap) ::
                   !Less(Head(old(lists)[x]).d, source.ops.dist(old(source.items)[i], old(source.items)[j]))
      ensures old(AllLive(source.ops, source.items) && Stale(source.ops, source.items, lists, heap) == {}) ==> joined
      ensures Remaining(lists, heap) < old(Remaining(lists, heap))
              || (Remaining(lists, heap) == old(Remaining(lists, heap))
                  && Stale(source.ops, source.items, lists, heap) < old(Stale(source.ops, source.items, lists, heap)))
    {
      joined, i, j, ts' := false, 0, 0, ts;
      var best := heap[0];
      PopFront(lists, heap);
      var rest := MakeHeap(lists, heap[1..]);
      SameMembers(heap[1..], rest);
      assert best in heap;
      var e := Head(lists[best]);
      if source.ops.value(source.items[lists[best].src]) == 0 {
        heap := rest;
        DropsList(old(lists), old(heap), lists, heap, best);
      } else if source.ops.value(source.items[e.to]) > 0 && e.v != source.ops.value(source.items[e.to]) {
        assert best in Stale(source.ops, source.items, lists, heap);
        Refresh(best, rest);
      } else {
        joined := Take(best, rest);
        if joined {
          i, j := best, e.to;
          JoinKeepsFaithful(source.ops, inputs, old(source.items), ts, i, j);
          ts' := ts[i := Merge(ts[i], ts[j])];
        }
      }
    }

    /** Offers cluster `j` to list `l` of an earlier cluster, computing their sum in the free slot. */
    method Offer(l: DistanceList, j: nat, free: nat, top: nat, ghost others: seq<DistanceList>)
      returns (l': DistanceList, free': nat, top': nat)
      requires 1 <= source.K && l.src < j < |source.items| && free < |pool| && free <= top
      requires Filled(source.ops, source.items, pool, l, j, useFar, source.K, free, top)
      requires forall x | 0 <= x < |others| ::
          Complete(source.ops, source.items, pool, others[x], useFar, source.K, free, top) && Apart(others[x], l)
      modifies `pool
      ensures |pool| == |old(pool)| && l'.src == l.src && free' <= top'
      ensures Filled(source.ops, source.items, pool, l', j + 1, useFar, source.K, free', top')
      ensures forall x | 0 <= x < |others| ::
          Complete(source.ops, source.items, pool, others[x], useFar, source.K, free', top') && Apart(others[x], l')
      ensures top - (if free == top then 0 else 1) - |l.dsts| == top' - (if free' == top' then 0 else 1) - |l'.dsts|
    {
      l', free', top' := l, free, top;
      var o, c, t := source.ops, source.items[l.src], source.items[j];
      if useFar || !o.far(c, t) {
        OthersKeepSums(o, source.items, pool, others, useFar, source.K, free, top, o.agg(c, t));
        assert Exact(o, source.items, pool[free := o.agg(c, t)], l);
        pool := pool[free := o.agg(c, t)];
        var d, inserted := o.dist(c, t), false;
        ghost var p;
        l', free', top', inserted, p := Add(l, source.K, d, o.value(t), j, free, top);
        OfferFills(o, source.items, pool, l, l', j, useFar, source.K, free, top, free', top', inserted, p);
        if inserted {
          OthersStayApart(o, source.items, pool, others, l, l', useFar, source.K, DistanceTo(d, o.value(t), j, free), p,
            free, top);
        }
      }
    }

    /** The distance list of cluster `i`, from all the clusters after it. */
    method Fill(i: nat, free: nat, top: nat, ghost others: seq<DistanceList>)
      returns (l: DistanceList, free': nat, top': nat)
      requires 1 <= source.K && i < |source.items| && free <= top
      requires top <= i * source.K + (if free == top then 0 else 1) && |source.items| * source.K < |pool|
      requires forall x | 0 <= x < |others| ::
          Complete(source.ops, source.items, pool, others[x], useFar, source.K, free, top)
      modifies `pool
      ensures |pool| == |old(pool)| && l.src == i && free' <= top'
      ensures Complete(source.ops, source.items, pool, l, useFar, source.K, free', top')
      ensures forall x | 0 <= x < |others| ::
          Complete(source.ops, source.items, pool, others[x], useFar, source.K, free', top') && Apart(others[x], l)
      ensures top' <= (i + 1) * source.K + (if free' == top' then 0 else 1)
    {
      l, free', top' := DistanceList(i, [], 0, false), free, top;
      var j := i + 1;
      Room(i, |source.items|, source.K);
      while j < |source.items|
        invariant i < j <= |source.items| && l.src == i && free' <= top' && |pool| == |old(pool)|
        invariant top' <= i * source.K + |l.dsts| + (if free' == top' then 0 else 1)
        invariant Filled(source.ops, source.items, pool, l, j, useFar, source.K, free', top')
        invariant forall x | 0 <= x < |others| ::
            Complete(source.ops, source.items, pool, others[x], useFar, source.K, free', top') && Apart(others[x], l)
      {
        l, free', top' := Offer(l, j, free', top', others);
        j := j + 1;
      }
    }

    /** The lists of all the clusters, and the indices of those that are not empty. */
    method FillAll() returns (ls: seq<DistanceList>, h: seq<nat>, ghost free: nat, ghost top: nat)
      requires 1 <= source.K && |source.items| * source.K < |pool|
      modifies `pool
      ensures |pool| == |old(pool)| && |ls| == |source.items|
      ensures forall x | 0 <= x < |ls| ::
          ls[x].src == x && Complete(source.ops, source.items, pool, ls[x], useFar, source.K, free, top)
      ensures forall x, y | 0 <= x < y < |ls| :: Apart(ls[x], ls[y])
      ensures InHeap(ls, h) && Distinct(h) && forall x | 0 <= x < |ls| :: x in h <==> ls[x].dsts != []
    {
      var t: nat, f: nat, i: nat := 0, 0, 0;
      ls, h := [], [];
      while i < |source.items|
        invariant 0 <= i <= |source.items| && |ls| == i && f <= t && |pool| == |old(pool)|
        invariant t <= i * source.K + (if f == t then 0 else 1)
        invariant forall x | 0 <= x < i ::
            ls[x].src == x && Complete(source.ops, source.items, pool, ls[x], useFar, source.K, f, t)
        invariant forall x, y | 0 <= x < y < i :: Apart(ls[x], ls[y])
        invariant InHeap(ls, h) && Distinct(h) && forall x | 0 <= x < i :: x in h <==> ls[x].dsts != []
      {
        var l;
        l, f, t := Fill(i, f, t, ls);
        ls := ls + [l];
        if !l.Empty() {
          PushBack(h, i);
          h := h + [i];
        }
        i := i + 1;
      }
      free, top := f, t;
    }

    /** All the lists of a round, and the heap of those that are not empty. */
    method MakeLists()
      requires Lawful(source.ops) && 1 <= source.K && |source.items| * source.K < |pool|
      modifies `lists, `heap, `pool
      ensures Ready() && |pool| == |old(pool)|
      ensures Stale(source.ops, source.items, lists, heap) == {}
      ensures forall i | 0 <= i < |lists| :: i in heap <==> lists[i].dsts != []
      ensures forall i | 0 <= i < |lists| ::
                lists[i].dst == 0 && NearestFirst(source.ops, source.items, lists[i], |source.items|, useFar, source.K)
      ensures ClosestFirst(source.ops, source.items, lists, heap, useFar)
    {
      var ls, h;
      ghost var free, top;
      ls, h, free, top := FillAll();
      PopulatedCore(source.ops, source.items, pool, ls, useFar, source.K, free, top);
      lists := ls;
      heap := MakeHeap(ls, h);
      SameMembers(h, heap);
      ClosestInFront(source.ops, source.items, pool, ls, heap, useFar, source.K, free, top);
    }

    /**
     Builds the distance lists of a round: every cluster gets its nearest later clusters, every entry
     its own pool slot, and the heap is made of the lists that are not empty, the closest pair first.
     */
    method Populate()
      requires Lawful(source.ops) && 1 <= source.K
      requires pool == [] || |source.items| * source.K < |pool|
      modifies this
      ensures Ready() && |source.items| * source.K < |pool|
      ensures Stale(source.ops, source.items, lists, heap) == {}
      ensures forall i | 0 <= i < |lists| :: i in heap <==> lists[i].dsts != []
      ensures forall i | 0 <= i < |lists| ::
                lists[i].dst == 0 && NearestFirst(source.ops, source.items, lists[i], |source.items|, old(useFar),
                  source.K)
      ensures ClosestFirst(source.ops, source.items, lists, heap, old(useFar))
      ensures useFar == (old(useFar) || TooFew(lists, source.K))
    {
      if pool == [] {
        var slots := new T[|source.items| * source.K + 1];
        pool := slots[..];
      }
      MakeLists();
      if !useFar {
        useFar := TooFew(lists, source.K);
      }
    }
  }

  /** No pair of clusters that is not ruled out is closer than the candidate in front of the heap. */
  ghost predicate ClosestFirst<T>(o: Ops<T>, items: seq<T>, lists: seq<DistanceList>, heap: seq<nat>, useFar: bool)
    requires InHeap(lists, heap)
  {
    forall a, b | 0 <= a < b < |items| && (useFar || !o.far(items[a], items[b])) ::
      |heap| > 0 && heap[0] in heap && !Less(o.dist(items[a], items[b]), Head(lists[heap[0]]).d)
  }

  /** Number of candidates in all the lists. */
  function Additions(ls: seq<DistanceList>): nat {
    if ls == [] then 0 else |ls[0].dsts| + Additions(ls[1..])
  }

  /** `checkNumAdditions`: unsigned 32-bit counters against an unsigned 64-bit difference. */
  predicate TooFew(ls: seq<DistanceList>, K: nat) {
    var missing := (K + 1) * K % 0x1_0000_0000 / 2;
    Additions(ls) % 0x1_0000_0000 < (|ls| * K - missing) % 0x1_0000_0000_0000_0000
  }

  lemma FewerSlots(m: nat, n: nat, K: nat)
    requires m <= n
    ensures m * K <= n * K
  {
  }

  lemma Room(i: nat, n: nat, K: nat)
    requires i < n
    ensures i * K + K == (i + 1) * K <= n * K
  {
    calc <= {
      (i + 1) * K;
      (i + 1) * K + (n - i - 1) * K;
      n * K;
    }
  }

  lemma ClosestInFront<T>(o: Ops<T>, items: seq<T>, pool: seq<T>, ls: seq<DistanceList>, heap: seq<nat>, useFar: bool,
                          K: nat,
                          free: nat, top: nat)
    requires 1 <= K && |ls| == |items|
    requires forall x | 0 <= x < |ls| :: ls[x].src == x && Complete(o, items, pool, ls[x], useFar, K, free, top)
    requires InHeap(ls, heap) && FrontIsNearest(ls, heap)
    requires forall x | 0 <= x < |ls| :: x in heap <==> ls[x].dsts != []
    ensures ClosestFirst(o, items, ls, heap, useFar)
  {
    forall a, b | 0 <= a < b < |items| && (useFar || !o.far(items[a], items[b]))
      ensures |heap| > 0 && heap[0] in heap && !Less(o.dist(items[a], items[b]), Head(ls[heap[0]]).d)
    {
      var l := ls[a];
      assert Listed(l, b) || |l.dsts| == K;
      var k: nat;
      if Listed(l, b) {
        k :| 0 <= k < |l.dsts| && l.dsts[k].to == b;
      } else {
        k := K - 1;
      }
      assert k == 0 || !Less(l.dsts[k].d, l.dsts[0].d);
      assert a in heap;
    }
  }

  lemma PopulatedCore<T>(o: Ops<T>, items: seq<T>, pool: seq<T>, ls: seq<DistanceList>, useFar: bool, K: nat, free: nat,
                         top: nat)
    requires |ls| == |items|
    requires forall x | 0 <= x < |ls| :: ls[x].src == x && Complete(o, items, pool, ls[x], useFar, K, free, top)
    requires forall x, y | 0 <= x < y < |ls| :: Apart(ls[x], ls[y])
    ensures Core(o, items, ls, |pool|)
    ensures forall x | 0 <= x < |ls| :: Trusted(o, items, pool, ls[x])
  {
    forall x, y | 0 <= x < |ls| && 0 <= y < |ls| && x != y
      ensures Apart(ls[x], ls[y])
    {
      assert x < y || Apart(ls[y], ls[x]);
    }
  }

  ghost predicate Listed(l: DistanceList, t: nat) {
    exists k :: 0 <= k < |l.dsts| && l.dsts[k].to == t
  }

  /** The list is sorted and holds the `K` nearest of the candidates in `(src, upto)` that are not ruled out. */
  ghost predicate NearestFirst<T>(o: Ops<T>, items: seq<T>, l: DistanceList, upto: nat, useFar: bool, K: nat)
    requires l.src < upto <= |items|
  {
    && Ascending(l.dsts) && |l.dsts| <= K
    && forall t | l.src < t < upto && (useFar || !o.far(items[l.src], items[t])) ::
         Listed(l, t) || (|l.dsts| == K > 0 && !Less(o.dist(items[l.src], items[t]), l.dsts[K - 1].d))
  }

  ghost predicate Slotted(l: DistanceList, free: nat, top: nat) {
    forall k | 0 <= k < |l.dsts| :: l.dsts[k].sum < top && l.dsts[k].sum != free
  }

  /** A list under construction, all of whose entries are exact and own their slots. */
  ghost predicate Filled<T>(o: Ops<T>, items: seq<T>, pool: seq<T>, l: DistanceList, upto: nat, useFar: bool, K: nat,
                            free: nat, top: nat) {
    && l.dst == 0 && !l.dirty && l.src < upto <= |items|
    && Linked(l, upto, |pool|) && Slotted(l, free, top) && NearestFirst(o, items, l, upto, useFar, K)
    && Exact(o, items, pool, l)
  }

  ghost predicate Complete<T>(o: Ops<T>, items: seq<T>, pool: seq<T>, l: DistanceList, useFar: bool, K: nat, free: nat,
                              top: nat) {
    Filled(o, items, pool, l, |items|, useFar, K, free, top)
  }

  /** Writing the free slot disturbs no list. */
  lemma OthersKeepSums<T>(o: Ops<T>, items: seq<T>, pool: seq<T>, others: seq<DistanceList>, useFar: bool, K: nat,
                          free: nat, top: nat, c: T)
    requires free < |pool|
    requires forall x | 0 <= x < |others| :: Complete(o, items, pool, others[x], useFar, K, free, top)
    ensures forall x | 0 <= x < |others| :: Complete(o, items, pool[free := c], others[x], useFar, K, free, top)
  {
    forall x | 0 <= x < |others|
      ensures Complete(o, items, pool[free := c], others[x], useFar, K, free, top)
    {
      assert Exact(o, items, pool, others[x]);
    }
  }

  lemma OthersStayApart<T>(o: Ops<T>, items: seq<T>, pool: seq<T>, others: seq<DistanceList>, l: DistanceList,
                           l': DistanceList,
                           useFar: bool, K: nat, e: DistanceTo, p: nat, free: nat, top: nat)
    requires 1 <= K && |l.dsts| <= K && Inserted(l, l', K, e, p) && e.sum == free <= top
    requires forall x | 0 <= x < |others| ::
        Complete(o, items, pool, others[x], useFar, K, free, top) && Apart(others[x], l)
    ensures var top' := if top == free then top + 1 else top;
            var free' := if |l.dsts| < K then top' else l.dsts[K - 1].sum;
            forall x | 0 <= x < |others| ::
              Complete(o, items, pool, others[x], useFar, K, free', top') && Apart(others[x], l')
  {
    forall x | 0 <= x < |others| {
      StillApart(others[x], l, l', K, e, p, free, top);
    }
  }

  lemma StillApart(x: DistanceList, l: DistanceList, l': DistanceList, K: nat, e: DistanceTo, p: nat, free: nat,
                   top: nat)
    requires 1 <= K && |l.dsts| <= K && Inserted(l, l', K, e, p) && e.sum == free <= top
    requires Apart(x, l) && Slotted(x, free, top)
    ensures Apart(x, l')
    ensures var top' := if top == free then top + 1 else top;
            Slotted(x, if |l.dsts| < K then top' else l.dsts[K - 1].sum, top')
  {
  }

  lemma OfferLinks(l: DistanceList, l': DistanceList, K: nat, e: DistanceTo, p: nat, slots: nat, free: nat, top: nat)
    requires 1 <= K && |l.dsts| <= K && l.dst == 0 && Inserted(l, l', K, e, p)
    requires l.src < e.to && e.sum == free < slots && free <= top
    requires Linked(l, e.to, slots) && Slotted(l, free, top)
    ensures Linked(l', e.to + 1, slots)
    ensures var top' := if top == free then top + 1 else top;
            var free' := if |l.dsts| < K then top' else l.dsts[K - 1].sum;
            Slotted(l', free', top') && free' <= top'
  {
    forall j, k | 0 <= j < k < |l'.dsts|
      ensures l'.dsts[j].sum != l'.dsts[k].sum
    {
      var j', k' := if j < p then j else j - 1, if k < p then k else k - 1;
      assert j == p || l'.dsts[j] == l.dsts[j'];
      assert k == p || l'.dsts[k] == l.dsts[k'];
    }
  }

  lemma OfferNearest<T>(o: Ops<T>, items: seq<T>, l: DistanceList, l': DistanceList, useFar: bool, K: nat,
                        e: DistanceTo, p: nat)
    requires 1 <= K && l.src < e.to < |items| && e.d == o.dist(items[l.src], items[e.to])
    requires NearestFirst(o, items, l, e.to, useFar, K)
    requires forall k | 0 <= k < |l.dsts| ::
        l.dsts[k].to < |items| && l.dsts[k].d == o.dist(items[l.src], items[l.dsts[k].to])
    requires Inserted(l, l', K, e, p) && Ascending(l'.dsts)
    requires |l.dsts| < K || Less(e.d, l.dsts[K - 1].d)
    ensures NearestFirst(o, items, l', e.to + 1, useFar, K)
  {
    forall t | l.src < t < e.to + 1 && (useFar || !o.far(items[l.src], items[t]))
      ensures Listed(l', t) || (|l'.dsts| == K > 0 && !Less(o.dist(items[l.src], items[t]), l'.dsts[K - 1].d))
    {
      if t == e.to {
        assert l'.dsts[p].to == t;
      } else if Listed(l, t) {
        var k :| 0 <= k < |l.dsts| && l.dsts[k].to == t;
        var k' := if k < p then k else k + 1;
        assert k' < |l'.dsts| ==> l'.dsts[k'].to == t;
      }
    }
  }

  ghost predicate Exact<T>(o: Ops<T>, items: seq<T>, pool: seq<T>, l: DistanceList)
    requires Linked(l, |items|, |pool|)
  {
    forall k | 0 <= k < |l.dsts| ::
      l.dsts[k].v == o.value(items[l.dsts[k].to]) && Accurate(o, items, pool, l.src, l.dsts[k])
  }

  lemma OfferFills<T>(o: Ops<T>, items: seq<T>, pool: seq<T>, l: DistanceList, l': DistanceList, j: nat, useFar: bool,
                      K: nat,
                      free: nat, top: nat, free': nat, top': nat, inserted: bool, p: nat)
    requires 1 <= K && l.src < j < |items| && free < |pool| && free <= top
    requires Filled(o, items, pool, l, j, useFar, K, free, top)
    requires pool[free] == o.agg(items[l.src], items[j])
    requires var d := o.dist(items[l.src], items[j]);
             && (inserted <==> |l.dsts| < K || Less(d, l.dsts[K - 1].d))
             && (!inserted ==> l' == l && free' == free && top' == top)
             && (inserted ==> && Inserted(l, l', K, DistanceTo(d, o.value(items[j]), j, free), p)
                              && top' == (if top == free then top + 1 else top)
                              && free' == (if |l.dsts| < K then top' else l.dsts[K - 1].sum))
    requires Ascending(l'.dsts)
    ensures Filled(o, items, pool, l', j + 1, useFar, K, free', top') && free' <= top'
  {
    if inserted {
      var e := DistanceTo(o.dist(items[l.src], items[j]), o.value(items[j]), j, free);
      OfferLinks(l, l', K, e, p, |pool|, free, top);
      OfferNearest(o, items, l, l', useFar, K, e, p);
    }
  }

  lemma DropsList(lists: seq<DistanceList>, heap: seq<nat>, ls: seq<DistanceList>, h: seq<nat>, b: nat)
    requires InHeap(lists, heap) && b in heap && |ls| == |lists|
    requires forall x :: x in h <==> x in heap && x != b
    requires forall x | 0 <= x < |lists| && x != b :: ls[x] == lists[x]
    ensures Remaining(ls, h) < Remaining(lists, heap)
  {
    assert (b, lists[b].dst) in Remaining(lists, heap) && (b, lists[b].dst) !in Remaining(ls, h);
  }

  lemma AdvancesList(lists: seq<DistanceList>, heap: seq<nat>, ls: seq<DistanceList>, h: seq<nat>, b: nat)
    requires InHeap(lists, heap) && b in heap && |ls| == |lists|
    requires forall x :: x in h <==> x in heap
    requires forall x | 0 <= x < |lists| && x != b :: ls[x] == lists[x]
    requires ls[b].dst > lists[b].dst && |ls[b].dsts| == |lists[b].dsts|
    ensures Remaining(ls, h) < Remaining(lists, heap)
  {
    assert (b, lists[b].dst) in Remaining(lists, heap) && (b, lists[b].dst) !in Remaining(ls, h);
  }

  lemma RefreshesHead<T>(o: Ops<T>, items: seq<T>, lists: seq<DistanceList>, heap: seq<nat>, ls: seq<DistanceList>,
                         h: seq<nat>, b: nat)
    requires InHeap(lists, heap) && b in heap && lists[b].src < |items| && Head(lists[b]).to < |items|
    requires forall x :: x in h <==> x in heap
    requires ls == lists[b := Updated(o, items, lists[b])]
    requires Head(lists[b]).v != o.value(items[Head(lists[b]).to])
    ensures Remaining(ls, h) == Remaining(lists, heap)
    ensures Stale(o, items, ls, h) < Stale(o, items, lists, heap)
  {
    assert b in Stale(o, items, lists, heap) && b !in Stale(o, items, ls, h);
  }

  lemma {:induction false} AllLiveCount<T>(o: Ops<T>, cs: seq<T>)
    ensures LiveCount(o, cs) <= |cs|
    ensures AllLive(o, cs) <==> LiveCount(o, cs) == |cs|
  {
    if cs != [] {
      AllLiveCount(o, cs[1..]);
      if AllLive(o, cs[1..]) && o.value(cs[0]) > 0 {
        assert forall k | 0 <= k < |cs| :: k == 0 || cs[k] == cs[1..][k - 1];
      }
      if AllLive(o, cs) {
        assert forall k | 0 <= k < |cs[1..]| :: cs[1..][k] == cs[k + 1];
      }
    }
  }
}
