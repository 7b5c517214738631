/**
 The memory/disk availability summary of a branch (include/IBPAvailabilityInformation.hpp) and the
 scalar parameters its clusters carry (include/ScalarParameter.hpp, include/Interval.hpp).
 */
module Availability {
  import C = Clustering

  const TWO_64: int := 0x1_0000_0000_0000_0000

  /** A memory or disk figure: the non-negative part of a signed 32-bit integer. */
  type Amount = x: int | 0 <= x < 0x8000_0000

  /** Conversion to a signed 64-bit integer, as the unsigned arithmetic of `aggregate` ends up in one. */
  function Wrap64(x: int): int {
    (x + TWO_64 / 2) % TWO_64 - TWO_64 / 2
  }

  // ---------------------------------------------------------------------------------------------
  // Scalar parameters
  // ---------------------------------------------------------------------------------------------

  datatype Interval = Interval(min: Amount, max: Amount) {
    predicate Empty() { min == max }

    function Extent(): int { max - min }

    function ExtendTo(x: Amount): Interval {
      Interval(if min > x then x else min, if max < x then x else max)
    }

    function Extend(r: Interval): Interval {
      Interval(if min > r.min then r.min else min, if max < r.max then r.max else max)
    }
  }

  /** A minimum, with the sum of squared errors and the sum of errors of the values it stands for. */
  datatype MinParameter = MinParameter(parameter: Amount, mse: int, linearTerm: int) {
    function Aggregate(count: nat, r: MinParameter, rcount: nat): MinParameter {
      var p: Amount := if parameter < r.parameter then parameter else r.parameter;
      var d, rd := p - parameter, p - r.parameter;
      MinParameter(p,
                   Wrap64(mse + count * d * d + 2 * d * linearTerm + r.mse + rcount * rd * rd + 2 * rd * r.linearTerm),
                   Wrap64(linearTerm + count * d + r.linearTerm + rcount * rd))
    }

    /** A sum of two dead clusters would divide by zero; it is never merged, and here counts as infinitely far. */
    function Norm(range: Interval, count: nat): C.Dist {
      if range.Empty() then C.Fin(0.0)
      else if count == 0 then C.Inf
      else C.Fin(mse as real / (count as real * range.Extent() as real * range.Extent() as real))
    }

    /** Which of the equal pieces of the range the value falls in. */
    function Piece(range: Interval, pieces: nat): int
      requires !range.Empty()
    {
      (parameter - range.min) * pieces / range.Extent()
    }

    predicate Far(r: MinParameter, range: Interval, pieces: nat) {
      !range.Empty() && Piece(range, pieces) != r.Piece(range, pieces)
    }
  }

  function Min(xs: seq<Amount>): (m: Amount)
    requires xs != []
    ensures m in xs && forall x | x in xs :: m <= x
  {
    if |xs| == 1 then xs[0]
    else
      assert forall x | x in xs :: x == xs[0] || x in xs[1..];
      var m := Min(xs[1..]); if xs[0] < m then xs[0] else m
  }

  /** Sum of the differences between `m` and each value. */
  function Errors(xs: seq<Amount>, m: int): int {
    if xs == [] then 0 else (m - xs[0]) + Errors(xs[1..], m)
  }

  function SquaredErrors(xs: seq<Amount>, m: int): int {
    if xs == [] then 0 else (m - xs[0]) * (m - xs[0]) + SquaredErrors(xs[1..], m)
  }

  /** The parameter stands exactly for these values: minimum, sum of squares and sum of differences. */
  ghost predicate Describes(p: MinParameter, xs: seq<Amount>) {
    && xs != [] && p.parameter == Min(xs)
    && p.mse == Wrap64(SquaredErrors(xs, Min(xs)))
    && p.linearTerm == Wrap64(Errors(xs, Min(xs)))
  }

  /** The binomial behind the shift of one more squared error. */
  lemma ShiftStep(a: int, d: int, e: int, k: int)
    ensures (a + d) * (a + d) + 2 * d * e + k * d * d == a * a + 2 * d * (a + e) + (k + 1) * d * d
  {
    assert (a + d) * (a + d) == a * a + 2 * d * a + d * d;
    assert 2 * d * (a + e) == 2 * d * a + 2 * d * e;
    assert (k + 1) * d * d == k * d * d + d * d;
  }

  lemma {:induction false} ErrorsShift(xs: seq<Amount>, m: int, n: int)
    ensures Errors(xs, n) == Errors(xs, m) + |xs| * (n - m)
  {
    if xs != [] {
      ErrorsShift(xs[1..], m, n);
      TimesMore(|xs[1..]|, n - m);
    }
  }

  lemma TimesMore(k: int, d: int)
    ensures (k + 1) * d == k * d + d
  {
  }

  /** What is left of one more squared error. */
  lemma ShiftMore(a: int, d: int, e: int, k: int, s: int, more: int)
    requires more == s + 2 * d * e + k * d * d
    ensures (a + d) * (a + d) + more == a * a + s + 2 * d * (a + e) + (k + 1) * d * d
  {
    ShiftStep(a, d, e, k);
  }

  lemma {:induction false} SquaredErrorsShift(xs: seq<Amount>, m: int, n: int)
    ensures SquaredErrors(xs, n) == SquaredErrors(xs, m) + 2 * (n - m) * Errors(xs, m) + |xs| * (n - m) * (n - m)
  {
    if xs != [] {
      var rest := xs[1..];
      SquaredErrorsShift(rest, m, n);
      ShiftMore(m - xs[0], n - m, Errors(rest, m), |rest|, SquaredErrors(rest, m), SquaredErrors(rest, n));
    }
  }

  lemma {:induction false} ErrorsConcat(a: seq<Amount>, b: seq<Amount>, m: int)
    ensures Errors(a + b, m) == Errors(a, m) + Errors(b, m)
    ensures SquaredErrors(a + b, m) == SquaredErrors(a, m) + SquaredErrors(b, m)
  {
    if a == [] {
      assert a + b == b;
    } else {
      ErrorsConcat(a[1..], b, m);
      assert (a + b)[1..] == a[1..] + b;
    }
  }

  lemma MinConcat(a: seq<Amount>, b: seq<Amount>)
    requires a != [] && b != []
    ensures Min(a + b) == if Min(a) < Min(b) then Min(a) else Min(b)
  {
    assert Min(a) in a + b && Min(b) in a + b;
    assert Min(a + b) in a || Min(a + b) in b;
  }

  /** A wrapped term is off by a multiple of the modulus. */
  lemma WrapQuotient(x: int) returns (q: int)
    ensures Wrap64(x) == x + q * TWO_64
  {
    q := -((x + TWO_64 / 2) / TWO_64);
  }

  lemma WrapShift(x: int, q: int)
    ensures Wrap64(x + q * TWO_64) == Wrap64(x)
  {
    ModShift(x + TWO_64 / 2, q, TWO_64);
  }

  lemma ModShift(x: int, q: int, m: int)
    requires m > 0
    ensures (x + q * m) % m == x % m
  {
    var y := x + q * m;
    assert y == m * (y / m) + y % m && x == m * (x / m) + x % m;
    assert y % m - x % m == m * (q + x / m - y / m);
    MultipleWithin(q + x / m - y / m, m);
  }

  lemma MultipleWithin(k: int, m: int)
    requires m > 0 && -m < m * k < m
    ensures k == 0
  {
  }

  /** Wrapping the terms before a sum, or a multiple of one, does not change the wrapped result. */
  lemma WrapSum(t: int, d: int, rd: int, s: int, e: int, rs: int, re: int)
    ensures Wrap64(t + Wrap64(s) + 2 * d * Wrap64(e) + Wrap64(rs) + 2 * rd * Wrap64(re))
            == Wrap64(t + s + 2 * d * e + rs + 2 * rd * re)
  {
    var q1 := WrapQuotient(s);
    var q2 := WrapQuotient(e);
    var q3 := WrapQuotient(rs);
    var q4 := WrapQuotient(re);
    var x := t + s + 2 * d * e + rs + 2 * rd * re;
    var q := q1 + 2 * d * q2 + q3 + 2 * rd * q4;
    WrapTerm(d, e, q2);
    WrapTerm(rd, re, q4);
    assert q * TWO_64 == q1 * TWO_64 + 2 * d * q2 * TWO_64 + q3 * TWO_64 + 2 * rd * q4 * TWO_64;
    WrapShift(x, q);
  }

  lemma WrapTerm(d: int, e: int, q: int)
    ensures 2 * d * (e + q * TWO_64) == 2 * d * e + 2 * d * q * TWO_64
  {
  }

  lemma WrapSumLinear(t: int, e: int, re: int)
    ensures Wrap64(t + Wrap64(e) + Wrap64(re)) == Wrap64(t + e + re)
  {
    var q2 := WrapQuotient(e);
    var q4 := WrapQuotient(re);
    WrapShift(t + e + re, q2 + q4);
  }

  lemma ErrorsOfBoth(xs: seq<Amount>, a: int, ys: seq<Amount>, b: int, m: int)
    ensures Errors(xs + ys, m) == |xs| * (m - a) + |ys| * (m - b) + Errors(xs, a) + Errors(ys, b)
    ensures SquaredErrors(xs + ys, m) ==
            |xs| * (m - a) * (m - a) + |ys| * (m - b) * (m - b)
            + SquaredErrors(xs, a) + 2 * (m - a) * Errors(xs, a) + SquaredErrors(ys, b) + 2 * (m - b) * Errors(ys, b)
  {
    ErrorsShift(xs, a, m);
    ErrorsShift(ys, b, m);
    SquaredErrorsShift(xs, a, m);
    SquaredErrorsShift(ys, b, m);
    ErrorsConcat(xs, ys, m);
  }

  lemma AggregateWraps(p: MinParameter, n: nat, r: MinParameter, k: nat, m: int, se: int, e: int, rse: int, re: int)
    requires p.mse == Wrap64(se) && p.linearTerm == Wrap64(e) && r.mse == Wrap64(rse) && r.linearTerm == Wrap64(re)
    requires m == if p.parameter < r.parameter then p.parameter else r.parameter
    ensures var d, rd, sum := m - p.parameter, m - r.parameter, p.Aggregate(n, r, k);
            && sum.parameter == m
            && sum.linearTerm == Wrap64(n * d + k * rd + e + re)
            && sum.mse == Wrap64(n * d * d + k * rd * rd + se + 2 * d * e + rse + 2 * rd * re)
  {
    var d, rd := m - p.parameter, m - r.parameter;
    var t, u := n * d, k * rd;
    WrapSumLinear(t + u, e, re);
    WrapSum(t * d + u * rd, d, rd, se, e, rse, re);
  }

  /** `aggregate` is exact: the result stands for the values of both sides. */
  lemma AggregateDescribes(p: MinParameter, xs: seq<Amount>, r: MinParameter, ys: seq<Amount>)
    requires Describes(p, xs) && Describes(r, ys)
    ensures Describes(p.Aggregate(|xs|, r, |ys|), xs + ys)
  {
    var a: int, b: int, m: int := Min(xs), Min(ys), Min(xs + ys);
    MinConcat(xs, ys);
    ErrorsOfBoth(xs, a, ys, b, m);
    AggregateWraps(p, |xs|, r, |ys|, m, SquaredErrors(xs, a), Errors(xs, a), SquaredErrors(ys, b), Errors(ys, b));
  }

  // ---------------------------------------------------------------------------------------------
  // Memory/disk clusters
  // ---------------------------------------------------------------------------------------------

  datatype Node = Node(mem: Amount, disk: Amount)

  datatype Requirement = Requirement(mem: nat, disk: nat)

  predicate CanRun(n: Node, req: Requirement) {
    n.mem >= req.mem && n.disk >= req.disk
  }

  datatype MDCluster = MDCluster(value: nat, minM: MinParameter, minD: MinParameter) {
    function Aggregate(r: MDCluster): MDCluster {
      MDCluster(value + r.value, minM.Aggregate(value, r.minM, r.value), minD.Aggregate(value, r.minD, r.value))
    }

    predicate Fulfills(req: Requirement) {
      minM.parameter >= req.mem && minD.parameter >= req.disk
    }
  }

  function Single(n: Node): MDCluster {
    MDCluster(1, MinParameter(n.mem, 0, 0), MinParameter(n.disk, 0, 0))
  }

  function Plus(a: C.Dist, b: C.Dist): C.Dist {
    if a.Fin? && b.Fin? then C.Fin(a.r + b.r) else C.Inf
  }

  /** The cluster operations, for the value ranges of the summary the clusters refer to. */
  function MDOps(memRange: Interval, diskRange: Interval, pieces: nat): C.Ops<MDCluster> {
    C.Ops(
      (c: MDCluster) => c.value,
      (c: MDCluster) => c.(value := 0),
      (a: MDCluster, b: MDCluster) => a.Aggregate(b),
      (a: MDCluster, b: MDCluster) =>
        var sum := a.Aggregate(b);
        Plus(sum.minM.Norm(memRange, sum.value), sum.minD.Norm(diskRange, sum.value)),
      (a: MDCluster, b: MDCluster) => a.minM.Far(b.minM, memRange, pieces) || a.minD.Far(b.minD, diskRange, pieces))
  }

  function Mems(ns: seq<Node>): (r: seq<Amount>)
    ensures |r| == |ns| && forall i | 0 <= i < |ns| :: r[i] == ns[i].mem
  {
    seq(|ns|, i requires 0 <= i < |ns| => ns[i].mem)
  }

  function Disks(ns: seq<Node>): (r: seq<Amount>)
    ensures |r| == |ns| && forall i | 0 <= i < |ns| :: r[i] == ns[i].disk
  {
    seq(|ns|, i requires 0 <= i < |ns| => ns[i].disk)
  }

  /** The cluster is exactly the aggregate of these nodes. */
  ghost predicate Exactly(c: MDCluster, ns: seq<Node>) {
    c.value == |ns| && Describes(c.minM, Mems(ns)) && Describes(c.minD, Disks(ns))
  }

  lemma SingleIsExact(n: Node)
    ensures Exactly(Single(n), [n])
  {
    assert Mems([n]) == [n.mem] && Disks([n]) == [n.disk];
  }

  lemma AggregateIsExact(a: MDCluster, ns: seq<Node>, b: MDCluster, ms: seq<Node>)
    requires Exactly(a, ns) && Exactly(b, ms)
    ensures Exactly(a.Aggregate(b), ns + ms)
  {
    AggregateDescribes(a.minM, Mems(ns), b.minM, Mems(ms));
    AggregateDescribes(a.minD, Disks(ns), b.minD, Disks(ms));
    assert Mems(ns + ms) == Mems(ns) + Mems(ms) && Disks(ns + ms) == Disks(ns) + Disks(ms);
  }

  /** The nodes behind a merge tree over clusters that stand for the given groups. */
  ghost function NodesOf(groups: seq<seq<Node>>, t: C.Tree): seq<Node>
    requires C.InRange(t, |groups|)
  {
    match t
    case Leaf(i) => groups[i]
    case Merge(l, r) => NodesOf(groups, l) + NodesOf(groups, r)
  }

  lemma {:induction false} EvalIsExact(o: C.Ops<MDCluster>, cs: seq<MDCluster>, groups: seq<seq<Node>>, t: C.Tree)
    requires |cs| == |groups| && C.InRange(t, |cs|)
    requires forall a, b :: o.agg(a, b) == a.Aggregate(b)
    requires forall k | 0 <= k < |cs| :: Exactly(cs[k], groups[k])
    ensures Exactly(C.Eval(o, cs, t), NodesOf(groups, t))
  {
    match t
    case Leaf(i) =>
    case Merge(l, r) =>
      EvalIsExact(o, cs, groups, l);
      EvalIsExact(o, cs, groups, r);
      AggregateIsExact(C.Eval(o, cs, l), NodesOf(groups, l), C.Eval(o, cs, r), NodesOf(groups, r));
  }

  // ---------------------------------------------------------------------------------------------
  // Counting nodes
  // ---------------------------------------------------------------------------------------------

  ghost function Count(ns: seq<Node>, p: Node -> bool): nat {
    if ns == [] then 0 else (if p(ns[0]) then 1 else 0) + Count(ns[1..], p)
  }

  lemma {:induction false} CountConcat(a: seq<Node>, b: seq<Node>, p: Node -> bool)
    ensures Count(a + b, p) == Count(a, p) + Count(b, p)
  {
    if a == [] {
      assert a + b == b;
    } else {
      CountConcat(a[1..], b, p);
      assert (a + b)[1..] == a[1..] + b;
    }
  }

  ghost function CountAll(groups: seq<seq<Node>>, p: Node -> bool): nat {
    if groups == [] then 0 else Count(groups[0], p) + CountAll(groups[1..], p)
  }

  lemma {:induction false} CountAllConcat(a: seq<seq<Node>>, b: seq<seq<Node>>, p: Node -> bool)
    ensures CountAll(a + b, p) == CountAll(a, p) + CountAll(b, p)
  {
    if a == [] {
      assert a + b == b;
    } else {
      CountAllConcat(a[1..], b, p);
      assert (a + b)[1..] == a[1..] + b;
    }
  }

  /** Each of the first `n` groups, counted as often as `times` says. */
  ghost function Weighted(groups: seq<seq<Node>>, times: nat -> nat, n: nat, p: Node -> bool): nat
    requires n <= |groups|
  {
    if n == 0 then 0 else Weighted(groups, times, n - 1, p) + times(n - 1) * Count(groups[n - 1], p)
  }

  lemma {:induction false} WeightedSum(groups: seq<seq<Node>>, f: nat -> nat, g: nat -> nat, h: nat -> nat, n: nat,
                                       p: Node -> bool)
    requires n <= |groups| && forall i: nat | i < n :: h(i) == f(i) + g(i)
    ensures Weighted(groups, h, n, p) == Weighted(groups, f, n, p) + Weighted(groups, g, n, p)
  {
    if n > 0 {
      WeightedSum(groups, f, g, h, n - 1, p);
      var c := Count(groups[n - 1], p);
      assert (f(n - 1) + g(n - 1)) * c == f(n - 1) * c + g(n - 1) * c;
    }
  }

  ghost function OccursIn(t: C.Tree): nat -> nat {
    q => C.Occurs(t, q)
  }

  lemma {:induction false} WeightedOne(groups: seq<seq<Node>>, i: nat, n: nat, p: Node -> bool)
    requires n <= |groups|
    ensures Weighted(groups, OccursIn(C.Leaf(i)), n, p) == if i < n then Count(groups[i], p) else 0
  {
    if n > 0 {
      WeightedOne(groups, i, n - 1, p);
    }
  }

  lemma {:induction false} CountOfTree(groups: seq<seq<Node>>, t: C.Tree, p: Node -> bool)
    requires C.InRange(t, |groups|)
    ensures Count(NodesOf(groups, t), p) == Weighted(groups, OccursIn(t), |groups|, p)
  {
    match t
    case Leaf(i) =>
      WeightedOne(groups, i, |groups|, p);
    case Merge(l, r) =>
      CountOfTree(groups, l, p);
      CountOfTree(groups, r, p);
      CountConcat(NodesOf(groups, l), NodesOf(groups, r), p);
      WeightedSum(groups, OccursIn(l), OccursIn(r), OccursIn(t), |groups|, p);
  }

  ghost function HeldIn(o: C.Ops<MDCluster>, cs: seq<MDCluster>, ts: seq<C.Tree>): nat -> nat
    requires |cs| == |ts|
  {
    q => C.Held(o, cs, ts, q)
  }

  ghost function Groups(groups: seq<seq<Node>>, ts: seq<C.Tree>): seq<seq<Node>>
    requires forall k | 0 <= k < |ts| :: C.InRange(ts[k], |groups|)
  {
    seq(|ts|, k requires 0 <= k < |ts| => NodesOf(groups, ts[k]))
  }

  lemma {:induction false} WeightedZero(groups: seq<seq<Node>>, f: nat -> nat, n: nat, p: Node -> bool)
    requires n <= |groups| && forall i: nat | i < n :: f(i) == 0
    ensures Weighted(groups, f, n, p) == 0
  {
    if n > 0 {
      WeightedZero(groups, f, n - 1, p);
    }
  }

  lemma {:induction false} CountOfTrees(o: C.Ops<MDCluster>, groups: seq<seq<Node>>, cs: seq<MDCluster>,
                                        ts: seq<C.Tree>, p: Node -> bool)
    requires |cs| == |ts| && C.AllLive(o, cs)
    requires forall k | 0 <= k < |ts| :: C.InRange(ts[k], |groups|)
    ensures CountAll(Groups(groups, ts), p) == Weighted(groups, HeldIn(o, cs, ts), |groups|, p)
  {
    var n := |groups|;
    if ts == [] {
      WeightedZero(groups, HeldIn(o, cs, ts), n, p);
    } else {
      assert C.AllLive(o, cs[1..]);
      CountOfTrees(o, groups, cs[1..], ts[1..], p);
      CountOfTree(groups, ts[0], p);
      assert Groups(groups, ts)[1..] == Groups(groups, ts[1..]);
      assert o.value(cs[0]) > 0;
      WeightedSum(groups, OccursIn(ts[0]), HeldIn(o, cs[1..], ts[1..]), HeldIn(o, cs, ts), n, p);
    }
  }

  lemma {:induction false} WeightedAll(groups: seq<seq<Node>>, f: nat -> nat, n: nat, p: Node -> bool)
    requires n <= |groups| && forall i: nat | i < n :: f(i) == 1
    ensures Weighted(groups, f, n, p) == CountAll(groups[..n], p)
  {
    if n > 0 {
      WeightedAll(groups, f, n - 1, p);
      assert groups[..n] == groups[..n - 1] + [groups[n - 1]];
      CountAllConcat(groups[..n - 1], [groups[n - 1]], p);
      assert [groups[n - 1]][1..] == [];
    }
  }

  // ---------------------------------------------------------------------------------------------
  // Branch summaries
  // ---------------------------------------------------------------------------------------------

  datatype Summary = Summary(clusters: seq<MDCluster>, memRange: Interval, diskRange: Interval)

  const EMPTY: Summary := Summary([], Interval(0, 0), Interval(0, 0))

  function WithNode(s: Summary, n: Node): Summary {
    if s.clusters == [] then
      Summary([Single(n)], Interval(n.mem, n.mem), Interval(n.disk, n.disk))
    else
      Summary(s.clusters + [Single(n)], s.memRange.ExtendTo(n.mem), s.diskRange.ExtendTo(n.disk))
  }

  function JoinedWith(s: Summary, r: Summary): Summary {
    if r.clusters == [] then s
    else if s.clusters == [] then r
    else Summary(s.clusters + r.clusters, s.memRange.Extend(r.memRange), s.diskRange.Extend(r.diskRange))
  }

  /** `r` is one of the summaries that clustering `s` may end in; ties in the heap leave a choice. */
  ghost predicate ReducesTo(s: Summary, r: Summary, pieces: nat) {
    var o := MDOps(s.memRange, s.diskRange, pieces);
    && r.memRange == s.memRange && r.diskRange == s.diskRange
    && (C.AllLive(o, s.clusters) ==> C.AllLive(o, r.clusters))
    && exists ts :: C.Faithful(o, s.clusters, r.clusters, ts)
  }

  /** The clusters divide the nodes among them, and each is the exact aggregate of its own. */
  ghost predicate Divides(groups: seq<seq<Node>>, s: Summary, ns: seq<Node>) {
    && |groups| == |s.clusters|
    && (forall k | 0 <= k < |groups| :: Exactly(s.clusters[k], groups[k]))
    && (forall p: Node -> bool :: CountAll(groups, p) == Count(ns, p))
  }

  ghost predicate Represents(s: Summary, ns: seq<Node>) {
    exists groups :: Divides(groups, s, ns)
  }

  lemma AddKeepsRepresents(s: Summary, ns: seq<Node>, n: Node)
    requires Represents(s, ns)
    ensures Represents(WithNode(s, n), ns + [n])
  {
    var groups :| Divides(groups, s, ns);
    var gs := groups + [[n]];
    SingleIsExact(n);
    forall p: Node -> bool
      ensures CountAll(gs, p) == Count(ns + [n], p)
    {
      CountAllConcat(groups, [[n]], p);
      CountConcat(ns, [n], p);
      assert [[n]][1..] == [];
    }
    assert Divides(gs, WithNode(s, n), ns + [n]);
  }

  lemma JoinKeepsRepresents(s: Summary, ns: seq<Node>, r: Summary, ms: seq<Node>)
    requires Represents(s, ns) && Represents(r, ms)
    ensures Represents(JoinedWith(s, r), ns + ms)
  {
    var gs :| Divides(gs, s, ns);
    var hs :| Divides(hs, r, ms);
    forall p: Node -> bool ensures CountAll(gs + hs, p) == Count(ns + ms, p) {
      assert CountAll(gs, p) == Count(ns, p) && CountAll(hs, p) == Count(ms, p);
      CountAllConcat(gs, hs, p);
      CountConcat(ns, ms, p);
    }
    JoinIsExact(s, gs, r, hs);
    assert Divides(gs + hs, JoinedWith(s, r), ns + ms);
  }

  lemma JoinIsExact(s: Summary, gs: seq<seq<Node>>, r: Summary, hs: seq<seq<Node>>)
    requires |gs| == |s.clusters| && forall k | 0 <= k < |gs| :: Exactly(s.clusters[k], gs[k])
    requires |hs| == |r.clusters| && forall k | 0 <= k < |hs| :: Exactly(r.clusters[k], hs[k])
    ensures
      var cs := JoinedWith(s, r).clusters;
      |gs + hs| == |cs| && forall k | 0 <= k < |cs| :: Exactly(cs[k], (gs + hs)[k])
  {
    assert JoinedWith(s, r).clusters == s.clusters + r.clusters;
  }

  lemma GroupsAreExact(o: C.Ops<MDCluster>, cs: seq<MDCluster>, groups: seq<seq<Node>>, rs: seq<MDCluster>,
                       ts: seq<C.Tree>)
    requires |cs| == |groups| && C.Faithful(o, cs, rs, ts) && C.AllLive(o, rs)
    requires forall a, b :: o.agg(a, b) == a.Aggregate(b)
    requires forall k | 0 <= k < |cs| :: Exactly(cs[k], groups[k])
    ensures forall k | 0 <= k < |rs| :: Exactly(rs[k], Groups(groups, ts)[k])
  {
    forall k | 0 <= k < |rs|
      ensures Exactly(rs[k], Groups(groups, ts)[k])
    {
      assert o.value(rs[k]) > 0;
      EvalIsExact(o, cs, groups, ts[k]);
    }
  }

  lemma GroupsKeepCount(o: C.Ops<MDCluster>, cs: seq<MDCluster>, groups: seq<seq<Node>>, rs: seq<MDCluster>,
                        ts: seq<C.Tree>, p: Node -> bool)
    requires |cs| == |groups| && C.Faithful(o, cs, rs, ts) && C.AllLive(o, rs) && C.AllLive(o, cs)
    ensures CountAll(Groups(groups, ts), p) == CountAll(groups, p)
  {
    CountOfTrees(o, groups, rs, ts, p);
    WeightedAll(groups, HeldIn(o, rs, ts), |groups|, p);
    assert groups[..|groups|] == groups;
  }

  lemma ReduceKeepsRepresents(s: Summary, r: Summary, pieces: nat, ns: seq<Node>)
    requires Represents(s, ns) && ReducesTo(s, r, pieces)
    ensures Represents(r, ns)
  {
    var o := MDOps(s.memRange, s.diskRange, pieces);
    var groups :| Divides(groups, s, ns);
    var ts :| C.Faithful(o, s.clusters, r.clusters, ts);
    assert C.AllLive(o, s.clusters) by {
      assert forall k | 0 <= k < |groups| :: Exactly(s.clusters[k], groups[k]);
    }
    GroupsAreExact(o, s.clusters, groups, r.clusters, ts);
    forall p: Node -> bool
      ensures CountAll(Groups(groups, ts), p) == Count(ns, p)
    {
      GroupsKeepCount(o, s.clusters, groups, r.clusters, ts, p);
    }
    assert Divides(Groups(groups, ts), r, ns);
  }

  /** Number of nodes the summary offers for a requirement. */
  ghost function Offered(cs: seq<MDCluster>, req: Requirement): nat {
    if cs == [] then 0 else (if cs[0].Fulfills(req) then cs[0].value else 0) + Offered(cs[1..], req)
  }

  ghost function Runner(req: Requirement): Node -> bool {
    n => CanRun(n, req)
  }

  lemma {:induction false} AllRun(ns: seq<Node>, req: Requirement)
    requires forall i | 0 <= i < |ns| :: CanRun(ns[i], req)
    ensures Count(ns, Runner(req)) == |ns|
  {
    if ns != [] {
      AllRun(ns[1..], req);
    }
  }

  lemma {:induction false} OfferedWithin(cs: seq<MDCluster>, groups: seq<seq<Node>>, req: Requirement)
    requires |cs| == |groups| && forall k | 0 <= k < |cs| :: Exactly(cs[k], groups[k])
    ensures Offered(cs, req) <= CountAll(groups, Runner(req))
    ensures req == Requirement(0, 0) ==> Offered(cs, req) == CountAll(groups, Runner(req))
  {
    if cs != [] {
      OfferedWithin(cs[1..], groups[1..], req);
      if cs[0].Fulfills(req) {
        var g := groups[0];
        forall i | 0 <= i < |g|
          ensures CanRun(g[i], req)
        {
          assert Mems(g)[i] in Mems(g) && Disks(g)[i] in Disks(g);
        }
        AllRun(g, req);
      }
    }
  }

  // ---------------------------------------------------------------------------------------------
  // Any aggregation tree
  // ---------------------------------------------------------------------------------------------

  /** How a summary came about: nodes added, summaries joined, reductions anywhere in between. */
  datatype History =
    | Blank
    | Added(h: History, n: Node)
    | Joined(h: History, r: History)
    | Reduced(h: History)

  ghost function AllNodes(h: History): seq<Node> {
    match h
    case Blank => []
    case Added(h0, n) => AllNodes(h0) + [n]
    case Joined(h0, r) => AllNodes(h0) + AllNodes(r)
    case Reduced(h0) => AllNodes(h0)
  }

  ghost predicate Produces(h: History, s: Summary, pieces: nat) {
    match h
    case Blank => s == EMPTY
    case Added(h0, n) => exists s0 :: Produces(h0, s0, pieces) && s == WithNode(s0, n)
    case Joined(h0, r) => exists s0, r0 ::
      Produces(h0, s0, pieces) && Produces(r, r0, pieces) && s == JoinedWith(s0, r0)
    case Reduced(h0) => exists s0 :: Produces(h0, s0, pieces) && ReducesTo(s0, s, pieces)
  }

  /** Whatever the tree, the summary divides exactly the nodes that were put into it. */
  lemma {:induction false} SummariesRepresent(h: History, s: Summary, pieces: nat)
    requires Produces(h, s, pieces)
    ensures Represents(s, AllNodes(h))
  {
    match h
    case Blank =>
      assert Divides([], s, []);
    case Added(h0, n) =>
      var s0 :| Produces(h0, s0, pieces) && s == WithNode(s0, n);
      SummariesRepresent(h0, s0, pieces);
      AddKeepsRepresents(s0, AllNodes(h0), n);
    case Joined(h0, r) =>
      var s0, r0 :| Produces(h0, s0, pieces) && Produces(r, r0, pieces) && s == JoinedWith(s0, r0);
      SummariesRepresent(h0, s0, pieces);
      SummariesRepresent(r, r0, pieces);
      JoinKeepsRepresents(s0, AllNodes(h0), r0, AllNodes(r));
    case Reduced(h0) =>
      var s0 :| Produces(h0, s0, pieces) && ReducesTo(s0, s, pieces);
      SummariesRepresent(h0, s0, pieces);
      ReduceKeepsRepresents(s0, s, pieces, AllNodes(h0));
  }

  /**
   A branch never offers more nodes for a requirement than there are below it that meet it; and
   without requirements it offers exactly all of them.
   */
  lemma NeverOverstates(h: History, s: Summary, pieces: nat, req: Requirement)
    requires Produces(h, s, pieces)
    ensures Offered(s.clusters, req) <= Count(AllNodes(h), Runner(req))
    ensures req == Requirement(0, 0) ==> Offered(s.clusters, req) == |AllNodes(h)|
  {
    SummariesRepresent(h, s, pieces);
    var groups :| Divides(groups, s, AllNodes(h));
    OfferedWithin(s.clusters, groups, req);
    if req == Requirement(0, 0) {
      AllRun(AllNodes(h), req);
    }
  }

  // ---------------------------------------------------------------------------------------------
  // The message class
  // ---------------------------------------------------------------------------------------------

  class IBPAvailabilityInformation {
    const numClusters: nat
    const numIntervals: nat
    /// Maximum length of a distance list while clustering
    const K: nat
    var summary: seq<MDCluster>
    var memoryRange: Interval
    var diskRange: Interval

    ghost function View(): Summary
      reads this
    {
      Summary(summary, memoryRange, diskRange)
    }

    constructor (numClusters: nat, numIntervals: nat, K: nat)
      ensures View() == EMPTY
      ensures this.numClusters == numClusters && this.numIntervals == numIntervals && this.K == K
    {
      this.numClusters, this.numIntervals, this.K := numClusters, numIntervals, K;
      summary, memoryRange, diskRange := [], Interval(0, 0), Interval(0, 0);
    }

    method AddNode(mem: Amount, disk: Amount)
      modifies this
      ensures View() == WithNode(old(View()), Node(mem, disk))
    {
      if summary == [] {
        memoryRange, diskRange := Interval(mem, mem), Interval(disk, disk);
      } else {
        memoryRange, diskRange := memoryRange.ExtendTo(mem), diskRange.ExtendTo(disk);
      }
      summary := summary + [MDCluster(1, MinParameter(mem, 0, 0), MinParameter(disk, 0, 0))];
    }

    method Join(r: IBPAvailabilityInformation)
      modifies this
      ensures View() == JoinedWith(old(View()), old(r.View()))
    {
      if r.summary != [] {
        if summary == [] {
          memoryRange, diskRange := r.memoryRange, r.diskRange;
        } else {
          memoryRange, diskRange := memoryRange.Extend(r.memoryRange), diskRange.Extend(r.diskRange);
        }
        summary := summary + r.summary;
      }
    }

    /** Bounds the summary, without losing or duplicating any node; it never gets below the bound by merging. */
    method Reduce()
      requires 1 <= K
      modifies this
      ensures ReducesTo(old(View()), View(), numIntervals)
      ensures |old(summary)| <= numClusters ==> View() == old(View())
      ensures (forall k | 0 <= k < |old(summary)| :: old(summary)[k].value > 0) && |old(summary)| > numClusters
              ==> numClusters <= |summary| <= |old(summary)|
    {
      var o := MDOps(memoryRange, diskRange, numIntervals);
      var list := new C.ClusteringList(o, K, summary);
      ghost var ts := list.Cluster(numClusters);
      C.AllLiveCount(o, summary);
      summary := list.items;
      assert C.Faithful(o, old(summary), summary, ts);
    }

    /** The clusters whose nodes can all run the task. */
    method GetAvailability(req: Requirement) returns (clusters: seq<nat>)
      ensures forall k: nat :: k in clusters <==> k < |summary| && summary[k].Fulfills(req)
      ensures forall i, j | 0 <= i < j < |clusters| :: clusters[i] < clusters[j]
    {
      clusters := [];
      for i := 0 to |summary|
        invariant forall k: nat :: k in clusters <==> k < i && summary[k].Fulfills(req)
        invariant forall i, j | 0 <= i < j < |clusters| :: clusters[i] < clusters[j]
        invariant forall j | 0 <= j < |clusters| :: clusters[j] in clusters
      {
        if summary[i].Fulfills(req) {
          clusters := clusters + [i];
        }
      }
    }
  }
}
