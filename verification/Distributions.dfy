/**
 The distributions that the simulator draws from (src/oldsim/Distributions.cpp): a table of bins and
 cumulative probabilities, its inverse, and the table without superfluous points.
 */
module Distributions {

  datatype Point = Point(bin: real, prob: real)

  /** Probabilities never decrease. */
  ghost predicate Sorted(t: seq<Point>) {
    forall i, j | 0 <= i < j < |t| :: t[i].prob <= t[j].prob
  }

  /** Neither do bins. */
  ghost predicate BinsSorted(t: seq<Point>) {
    forall i, j | 0 <= i < j < |t| :: t[i].bin <= t[j].bin
  }

  /** On the line from one point to another, where the probability is `x`. */
  function Between(a: Point, b: Point, x: real): real
    requires a.prob < b.prob
  {
    a.bin + (x - a.prob) * ((b.bin - a.bin) / (b.prob - a.prob))
  }

  /** The first point whose probability is at least `x`. */
  function Reach(t: seq<Point>, x: real): (i: nat)
    requires t != [] && x < t[|t| - 1].prob
    ensures i < |t| && x <= t[i].prob && forall j | 0 <= j < i :: t[j].prob < x
  {
    if x <= t[0].prob then 0 else 1 + Reach(t[1..], x)
  }

  /** A single value, or one on the line between two points. */
  datatype Place = Bin(bin: real) | Line(a: Point, b: Point)

  /** Where the probability becomes `x`. */
  function Locate(t: seq<Point>, x: real): Place {
    if t == [] then Bin(0.0)
    else if x <= t[0].prob then Bin(t[0].bin)
    else if x >= t[|t| - 1].prob then Bin(t[|t| - 1].bin)
    else var i := Reach(t, x); Line(t[i - 1], t[i])
  }

  function ValueAt(p: Place, x: real): real {
    match p
    case Bin(b) => b
    case Line(a, b) => if a.prob < b.prob then Between(a, b, x) else a.bin
  }

  /** What the inverse means: the value at which the probability becomes `x`. */
  function Value(t: seq<Point>, x: real): real {
    ValueAt(Locate(t, x), x)
  }

  /** The probability passes `x` from point `i - 1` to point `i`. */
  ghost predicate Passes(t: seq<Point>, x: real, i: nat) {
    0 < i < |t| && t[i - 1].prob < x <= t[i].prob
  }

  /** In a sorted table there is one place where a probability is passed. */
  lemma PassesOnce(t: seq<Point>, x: real, i: nat)
    requires Sorted(t) && Passes(t, x, i) && x < t[|t| - 1].prob
    ensures Locate(t, x) == Line(t[i - 1], t[i])
  {
    var j := Reach(t, x);
    assert t[0].prob <= t[i - 1].prob;
  }

  // ---------------------------------------------------------------------------------------------
  // The inverse is monotone, and inverts
  // ---------------------------------------------------------------------------------------------

  lemma Share(d: real, h: real, w: real)
    requires 0.0 <= d <= w && 0.0 < w && 0.0 <= h
    ensures 0.0 <= d * (h / w) <= h
  {
    var m := h / w;
    assert m >= 0.0;
    assert d * m <= w * m;
    assert w * m == h;
  }

  lemma Slope(d: real, e: real, m: real)
    requires d <= e && 0.0 <= m
    ensures d * m <= e * m
  {
  }

  lemma BetweenBounds(a: Point, b: Point, x: real)
    requires a.prob < b.prob && a.bin <= b.bin && a.prob <= x <= b.prob
    ensures a.bin <= Between(a, b, x) <= b.bin
  {
    Share(x - a.prob, b.bin - a.bin, b.prob - a.prob);
  }

  lemma BetweenMonotone(a: Point, b: Point, x: real, y: real)
    requires a.prob < b.prob && a.bin <= b.bin && x <= y
    ensures Between(a, b, x) <= Between(a, b, y)
  {
    var m := (b.bin - a.bin) / (b.prob - a.prob);
    assert m >= 0.0;
    Slope(x - a.prob, y - a.prob, m);
  }

  lemma BinsUpTo(t: seq<Point>, i: nat, j: nat)
    requires BinsSorted(t) && i <= j < |t|
    ensures t[i].bin <= t[j].bin
  {
  }

  lemma ValueBounds(t: seq<Point>, x: real)
    requires t != [] && Sorted(t) && BinsSorted(t)
    ensures t[0].bin <= Value(t, x) <= t[|t| - 1].bin
  {
    BinsUpTo(t, 0, |t| - 1);
    if t[0].prob < x < t[|t| - 1].prob {
      var i := Reach(t, x);
      BetweenBounds(t[i - 1], t[i], x);
      BinsUpTo(t, 0, i - 1);
      BinsUpTo(t, i, |t| - 1);
    }
  }

  /** A higher probability never gives a lower value. */
  lemma ValueMonotone(t: seq<Point>, x: real, y: real)
    requires Sorted(t) && BinsSorted(t) && x <= y
    ensures Value(t, x) <= Value(t, y)
  {
    if t != [] {
      ValueBounds(t, x);
      ValueBounds(t, y);
      if t[0].prob < x && y < t[|t| - 1].prob { InsideMonotone(t, x, y); }
    }
  }

  lemma InsideMonotone(t: seq<Point>, x: real, y: real)
    requires |t| > 0 && Sorted(t) && BinsSorted(t) && t[0].prob < x <= y < t[|t| - 1].prob
    ensures Value(t, x) <= Value(t, y)
  {
    var i, j := Reach(t, x), Reach(t, y);
    if i == j {
      BetweenMonotone(t[i - 1], t[i], x, y);
    } else {
      BetweenBounds(t[i - 1], t[i], x);
      BetweenBounds(t[j - 1], t[j], y);
      BinsUpTo(t, i, j - 1);
    }
  }

  /** The probability at a value between two points. */
  function ProbBetween(a: Point, b: Point, v: real): real
    requires a.bin < b.bin
  {
    a.prob + (v - a.bin) * ((b.prob - a.prob) / (b.bin - a.bin))
  }

  /** The cumulative probability at a value. */
  function Prob(t: seq<Point>, v: real): real
    requires t != [] && forall i | 0 < i < |t| :: t[i - 1].bin < t[i].bin
  {
    if |t| == 1 || v <= t[0].bin then t[0].prob
    else if v <= t[1].bin then ProbBetween(t[0], t[1], v)
    else Prob(t[1..], v)
  }

  lemma ThereAndBack(a: Point, b: Point, x: real)
    requires a.prob < b.prob && a.bin < b.bin
    ensures ProbBetween(a, b, Between(a, b, x)) == x
  {
    var w, h, d := b.bin - a.bin, b.prob - a.prob, x - a.prob;
    assert (w / h) * (h / w) == 1.0;
    assert (d * (w / h)) * (h / w) == d * ((w / h) * (h / w));
  }

  lemma StrictlyInside(a: Point, b: Point, x: real)
    requires a.prob < x <= b.prob && a.bin < b.bin
    ensures a.bin < Between(a, b, x) <= b.bin
  {
    BetweenBounds(a, b, x);
    var m := (b.bin - a.bin) / (b.prob - a.prob);
    assert m > 0.0;
    assert (x - a.prob) * m > 0.0;
  }

  lemma {:induction false} ProbAt(t: seq<Point>, i: nat, v: real)
    requires forall k | 0 < k < |t| :: t[k - 1].bin < t[k].bin
    requires 0 < i < |t| && t[i - 1].bin < v <= t[i].bin
    ensures Prob(t, v) == ProbBetween(t[i - 1], t[i], v)
  {
    if i > 1 {
      BinsRise(t, 1, i - 1);
      assert t[1..][i - 2] == t[i - 1] && t[1..][i - 1] == t[i];
      ProbAt(t[1..], i - 1, v);
    }
  }

  lemma {:induction false} BinsRise(t: seq<Point>, i: nat, j: nat)
    requires (forall k | 0 < k < |t| :: t[k - 1].bin < t[k].bin) && i <= j < |t|
    ensures t[i].bin <= t[j].bin
  {
    if i < j { BinsRise(t, i, j - 1); }
  }

  /** The inverse inverts: the probability at the value is the one that was asked for. */
  lemma InverseInverts(t: seq<Point>, x: real)
    requires t != [] && forall k | 0 < k < |t| :: t[k - 1].bin < t[k].bin
    requires t[0].prob < x < t[|t| - 1].prob
    ensures Prob(t, Value(t, x)) == x
  {
    var i := Reach(t, x);
    StrictlyInside(t[i - 1], t[i], x);
    ProbAt(t, i, Value(t, x));
    ThereAndBack(t[i - 1], t[i], x);
  }

  // ---------------------------------------------------------------------------------------------
  // The optimized table
  // ---------------------------------------------------------------------------------------------

  datatype Scan = Scan(result: seq<Point>, inSequence: bool)

  /** After the first `k` points. */
  function Scanned(t: seq<Point>, k: nat): Scan
    requires 1 <= k <= |t|
  {
    if k == 1 then Scan([t[0]], false)
    else
      var s, last, it := Scanned(t, k - 1), t[k - 2], t[k - 1];
      if it.prob == last.prob then Scan(s.result, true)
      else Scan(s.result + (if s.inSequence then [last] else []) + [it], false)
  }

  function Optimized(t: seq<Point>): seq<Point>
    requires t != []
  {
    Scanned(t, |t|).result
  }

  /** The first point of the run of equal probabilities that ends with point `k`. */
  function RunStart(t: seq<Point>, k: nat): (i: nat)
    requires k < |t|
    ensures i <= k && t[i].prob == t[k].prob
  {
    if k > 0 && t[k - 1].prob == t[k].prob then RunStart(t, k - 1) else k
  }

  lemma {:induction false} ScanEnds(t: seq<Point>, k: nat)
    requires 1 <= k <= |t|
    ensures
      var s := Scanned(t, k);
      && |s.result| >= 1 && s.result[0] == t[0] && s.result[|s.result| - 1] == t[RunStart(t, k - 1)]
      && (!s.inSequence ==> RunStart(t, k - 1) == k - 1)
  {
    if k > 1 { ScanEnds(t, k - 1); }
  }

  lemma {:induction false} ScanSorted(t: seq<Point>, k: nat)
    requires 1 <= k <= |t| && Sorted(t)
    ensures Sorted(Scanned(t, k).result) && forall p | p in Scanned(t, k).result :: p.prob <= t[k - 1].prob
  {
    if k > 1 { ScanSorted(t, k - 1); }
  }

  /** Wherever the table passes a probability, the scan has the same two points next to each other. */
  lemma {:induction false} ScanPasses(t: seq<Point>, k: nat, x: real, i: nat) returns (j: nat)
    requires 1 <= k <= |t| && 0 < i < k && Passes(t, x, i)
    ensures Passes(Scanned(t, k).result, x, j) && Scanned(t, k).result[j - 1] == t[i - 1]
    ensures Scanned(t, k).result[j] == t[i]
  {
    ScanEnds(t, k - 1);
    var s := Scanned(t, k - 1);
    if i == k - 1 {
      j := |Scanned(t, k).result| - 1;
    } else {
      j := ScanPasses(t, k - 1, x, i);
    }
  }

  /** Of every run at most its first and last points are left. */
  lemma {:induction false} NoInnerPoints(t: seq<Point>, k: nat)
    requires 1 <= k <= |t|
    ensures
      var r := Scanned(t, k).result;
      && (forall i | 0 <= i < |r| - 2 :: !(r[i].prob == r[i + 1].prob == r[i + 2].prob))
      && (|r| >= 2 ==> r[|r| - 2].prob != r[|r| - 1].prob)
  {
    if k > 1 {
      NoInnerPoints(t, k - 1);
      ScanEnds(t, k - 1);
    }
  }

  lemma OptimizedPasses(t: seq<Point>, x: real, i: nat)
    requires t != [] && Sorted(t) && x < t[|t| - 1].prob && Passes(t, x, i)
    ensures Locate(Optimized(t), x) == Line(t[i - 1], t[i])
  {
    ScanEnds(t, |t|);
    ScanSorted(t, |t|);
    var j := ScanPasses(t, |t|, x, i);
    PassesOnce(Optimized(t), x, j);
  }

  lemma FirstStays(t: seq<Point>)
    requires t != []
    ensures Optimized(t) != [] && Optimized(t)[0] == t[0]
  {
    ScanEnds(t, |t|);
  }

  lemma OptimizeKeepsPlace(t: seq<Point>, x: real)
    requires t != [] && Sorted(t) && x < t[|t| - 1].prob
    ensures Locate(Optimized(t), x) == Locate(t, x)
  {
    FirstStays(t);
    if x > t[0].prob { OptimizedPasses(t, x, Reach(t, x)); }
  }

  /** Below the last probability, the optimized table has the same inverse. */
  lemma OptimizeKeepsInverse(t: seq<Point>, x: real)
    requires t != [] && Sorted(t) && x < t[|t| - 1].prob
    ensures Value(Optimized(t), x) == Value(t, x)
  {
    OptimizeKeepsPlace(t, x);
  }

  /** It is the end of the table where they can differ. */
  lemma OptimizedEnds(t: seq<Point>, x: real)
    requires t != [] && Sorted(t) && x >= t[|t| - 1].prob
    ensures Locate(t, x) == Bin(if x <= t[0].prob then t[0].bin else t[|t| - 1].bin)
    ensures Locate(Optimized(t), x) == Bin(if x <= t[0].prob then t[0].bin else t[RunStart(t, |t| - 1)].bin)
  {
    ScanEnds(t, |t|);
  }

  /**
   It has the same inverse everywhere if and only if the last run of equal probabilities starts and ends in the same
   bin.
   */
  lemma OptimizeKeepsAllWhen(t: seq<Point>)
    requires t != [] && Sorted(t)
    ensures (forall x :: Value(Optimized(t), x) == Value(t, x)) <==> t[RunStart(t, |t| - 1)].bin == t[|t| - 1].bin
  {
    var last := t[|t| - 1];
    FirstIsLowest(t);
    OptimizedEnds(t, last.prob + 1.0);
    if t[RunStart(t, |t| - 1)].bin == last.bin {
      forall x ensures Value(Optimized(t), x) == Value(t, x) {
        if x < last.prob { OptimizeKeepsInverse(t, x); } else { OptimizedEnds(t, x); }
      }
    } else {
      assert Value(Optimized(t), last.prob + 1.0) != Value(t, last.prob + 1.0);
    }
  }

  lemma FirstIsLowest(t: seq<Point>)
    requires t != [] && Sorted(t)
    ensures t[0].prob <= t[|t| - 1].prob
  {
  }

  // ---------------------------------------------------------------------------------------------
  // Histograms
  // ---------------------------------------------------------------------------------------------

  /**
   `counts[i]` values lie in the bin that starts at `first + i * resolution`; without a resolution there is one bin.
   */
  datatype Bins = Bins(first: real, resolution: real, counts: seq<nat>, samples: nat)

  function Total(counts: seq<nat>): nat {
    if counts == [] then 0 else Total(counts[..|counts| - 1]) + counts[|counts| - 1]
  }

  function Zeros(n: nat): (zs: seq<nat>)
    ensures |zs| == n && forall i | 0 <= i < n :: zs[i] == 0
  {
    if n == 0 then [] else Zeros(n - 1) + [0]
  }

  function EdgeAt(first: real, resolution: real, i: int): real {
    first + i as real * resolution
  }

  function Edge(h: Bins, i: int): real {
    EdgeAt(h.first, h.resolution, i)
  }

  function BinAt(first: real, resolution: real, v: real): int
    requires resolution >= 0.0
  {
    if resolution > 0.0 then ((v - first) / resolution).Floor else 0
  }

  function StartFor(resolution: real, v: real): real
    requires resolution >= 0.0
  {
    if resolution > 0.0 then (v / resolution).Floor as real * resolution else 0.0
  }

  /** The bin of a value, which may be one that the histogram does not have yet. */
  function BinOf(h: Bins, v: real): int
    requires h.resolution >= 0.0
  {
    BinAt(h.first, h.resolution, v)
  }

  /** The first value decides where the bins start. */
  function Placed(h: Bins, v: real): Bins
    requires h.resolution >= 0.0
  {
    if h.samples > 0 then h
    else h.(first := StartFor(h.resolution, v))
  }

  /** One more value; bins are added at either end as needed. */
  function Added(h: Bins, v: real): Bins
    requires h.resolution >= 0.0
  {
    var p := Placed(h, v);
    var i := BinOf(p, v);
    var p' := p.(samples := h.samples + 1);
    if i >= |h.counts| then p'.(counts := h.counts + Zeros(i - |h.counts|) + [1])
    else if i < 0 then p'.(first := Edge(p, i), counts := [1] + Zeros(-i - 1) + h.counts)
    else p'.(counts := h.counts[i := h.counts[i] + 1])
  }

  /** How many values lie in bin `i`. */
  function InBin(h: Bins, values: seq<real>, i: int): nat
    requires h.resolution >= 0.0
  {
    if values == [] then 0
    else InBin(h, values[..|values| - 1], i) + if BinOf(h, values[|values| - 1]) == i then 1 else 0
  }

  /** Every value is counted in its bin, and the bins at both ends are not empty. */
  ghost predicate Describes(h: Bins, values: seq<real>) {
    && h.resolution >= 0.0 && h.samples == |values|
    && (forall i: int {:trigger InBin(h, values, i)} ::
          InBin(h, values, i) == if 0 <= i < |h.counts| then h.counts[i] else 0)
    && (|h.counts| == 0 <==> values == [])
    && (h.counts != [] ==> h.counts[0] > 0 && h.counts[|h.counts| - 1] > 0)
  }

  lemma FloorShift(x: real, k: int)
    ensures (x - k as real).Floor == x.Floor - k
  {
  }

  lemma QuotientIs(x: real, r: real, q: real)
    requires r > 0.0 && x == q * r
    ensures x / r == q
  {
  }

  lemma LessBins(d: real, r: real, k: real)
    requires r > 0.0
    ensures (d - k * r) / r == d / r - k
  {
    var q := d / r;
    DivideTimes(d, r);
    TimesMinus(q, k, r);
    QuotientIs(d - k * r, r, q - k);
  }

  /** Moving the start by whole bins moves every value by as many. */
  lemma BinMoves(h: Bins, k: int, v: real)
    requires h.resolution > 0.0
    ensures BinOf(h.(first := Edge(h, k)), v) == BinOf(h, v) - k
  {
    var d, r := v - h.first, h.resolution;
    LessBins(d, r, k as real);
    FloorShift(d / r, k);
    assert v - Edge(h, k) == d - k as real * r;
  }

  lemma {:induction false} BinsMove(h: Bins, h': Bins, values: seq<real>, k: int, i: int)
    requires h.resolution > 0.0 && h'.first == Edge(h, k) && h'.resolution == h.resolution
    ensures InBin(h', values, i) == InBin(h, values, i + k)
  {
    if values != [] {
      BinsMove(h, h', values[..|values| - 1], k, i);
      BinMoves(h, k, values[|values| - 1]);
    }
  }

  lemma {:induction false} SameBins(h: Bins, h': Bins, values: seq<real>, i: int)
    requires h.resolution >= 0.0 && h'.first == h.first && h'.resolution == h.resolution
    ensures InBin(h', values, i) == InBin(h, values, i)
  {
    if values != [] { SameBins(h, h', values[..|values| - 1], i); }
  }

  lemma InBinSnoc(h: Bins, values: seq<real>, v: real, i: int)
    requires h.resolution >= 0.0
    ensures InBin(h, values + [v], i) == InBin(h, values, i) + if BinOf(h, v) == i then 1 else 0
  {
    assert (values + [v])[..|values|] == values;
  }

  /** A histogram describes the values that were added to it. */
  lemma AddedDescribes(h: Bins, values: seq<real>, v: real)
    requires Describes(h, values)
    ensures Describes(Added(h, v), values + [v])
  {
    var p, h' := Placed(h, v), Added(h, v);
    var i := BinOf(p, v);
    forall j: int ensures InBin(h', values + [v], j) == if 0 <= j < |h'.counts| then h'.counts[j] else 0 {
      InBinSnoc(h', values, v, j);
      if values != [] {
        if i < 0 {
          BinsMove(h, h', values, i, j);
          BinMoves(h, i, v);
          assert InBin(h, values, j + i) == if 0 <= j + i < |h.counts| then h.counts[j + i] else 0;
        } else {
          SameBins(h, h', values, j);
          assert InBin(h, values, j) == if 0 <= j < |h.counts| then h.counts[j] else 0;
        }
      } else {
        FirstIsPlaced(h, v);
      }
    }
    if values == [] { FirstIsPlaced(h, v); }
  }

  lemma FirstIsPlaced(h: Bins, v: real)
    requires h.resolution >= 0.0 && h.samples == 0
    ensures BinOf(Placed(h, v), v) == 0
  {
    if h.resolution > 0.0 {
      var r := h.resolution;
      var x := v / r;
      var k := x.Floor as real;
      LessBins(v, r, k);
      FloorShift(x, x.Floor);
      assert Placed(h, v).first == k * r;
      assert BinOf(Placed(h, v), v) == ((v - k * r) / r).Floor;
      assert (v - k * r) / r == x - k;
    }
  }

  /** The bins after all values were added to an empty histogram. */
  function Filled(resolution: real, values: seq<real>): (h: Bins)
    requires resolution >= 0.0
    ensures h.resolution == resolution
  {
    if values == [] then Bins(0.0, resolution, [], 0)
    else Added(Filled(resolution, values[..|values| - 1]), values[|values| - 1])
  }

  lemma {:induction false} FilledDescribes(resolution: real, values: seq<real>)
    requires resolution >= 0.0
    ensures Describes(Filled(resolution, values), values)
  {
    if values != [] {
      var most := values[..|values| - 1];
      FilledDescribes(resolution, most);
      AddedDescribes(Filled(resolution, most), most, values[|values| - 1]);
      assert most + [values[|values| - 1]] == values;
    }
  }

  class Histogram {
    var first: real
    var resolution: real
    var histogram: seq<nat>
    var samples: nat

    function Now(): Bins reads this {
      Bins(first, resolution, histogram, samples)
    }

    constructor (res: real)
      requires res >= 0.0
      ensures Now() == Bins(0.0, res, [], 0)
    {
      first, resolution, histogram, samples := 0.0, res, [], 0;
    }

    method AddValue(value: real)
      requires resolution >= 0.0
      modifies this
      ensures Now() == Added(old(Now()), value)
    {
      if samples == 0 { first := StartFor(resolution, value); }
      var i := BinAt(first, resolution, value);
      if i >= |histogram| {
        histogram := histogram + Zeros(i - |histogram|) + [0];
      } else if i < 0 {
        histogram := [0] + Zeros(-i - 1) + histogram;
        first := EdgeAt(first, resolution, i);
        i := 0;
      }
      histogram := histogram[i := histogram[i] + 1];
      samples := samples + 1;
    }
  }

  // ---------------------------------------------------------------------------------------------
  // The table of a histogram
  // ---------------------------------------------------------------------------------------------

  function ShareOf(part: nat, all: nat): real
    requires all > 0
  {
    part as real / all as real
  }

  /** Each bin with the share of the values up to its end, and one more point for the end of the last bin. */
  function TableOf(h: Bins): (t: seq<Point>)
    requires h.counts != [] ==> h.samples > 0
    ensures |t| == |h.counts| + 1 && t[|h.counts|] == Point(Edge(h, |h.counts|), 1.0)
    ensures forall i | 0 <= i < |h.counts| :: t[i] == Point(Edge(h, i), ShareOf(Total(h.counts[..i + 1]), h.samples))
  {
    seq(|h.counts|, i requires 0 <= i < |h.counts| => Point(Edge(h, i), ShareOf(Total(h.counts[..i + 1]), h.samples)))
    + [Point(Edge(h, |h.counts|), 1.0)]
  }

  lemma {:induction false} TotalGrows(counts: seq<nat>, i: nat, j: nat)
    requires i <= j <= |counts|
    ensures Total(counts[..i]) <= Total(counts[..j])
  {
    if i < j {
      TotalGrows(counts, i, j - 1);
      assert counts[..j][..j - 1] == counts[..j - 1];
    }
  }

  lemma {:induction false} TotalInBins(h: Bins, values: seq<real>)
    requires Describes(h, values)
    ensures Total(h.counts) == h.samples
  {
    TotalUpTo(h, values, |h.counts|);
    assert h.counts[..|h.counts|] == h.counts;
    AllBelow(h, values, |values|);
    assert values[..|values|] == values;
  }

  /** How many values lie in the first `n` bins. */
  function Below(h: Bins, values: seq<real>, n: nat): nat
    requires h.resolution >= 0.0
  {
    if values == [] then 0
    else Below(h, values[..|values| - 1], n) + if 0 <= BinOf(h, values[|values| - 1]) < n then 1 else 0
  }

  lemma {:induction false} BelowNext(h: Bins, values: seq<real>, n: nat)
    requires h.resolution >= 0.0
    ensures Below(h, values, n + 1) == Below(h, values, n) + InBin(h, values, n)
  {
    if values != [] { BelowNext(h, values[..|values| - 1], n); }
  }

  lemma {:induction false} BelowNone(h: Bins, values: seq<real>)
    requires h.resolution >= 0.0
    ensures Below(h, values, 0) == 0
  {
    if values != [] { BelowNone(h, values[..|values| - 1]); }
  }

  lemma {:induction false} TotalUpTo(h: Bins, values: seq<real>, n: nat)
    requires Describes(h, values) && n <= |h.counts|
    ensures Total(h.counts[..n]) == Below(h, values, n)
  {
    if n == 0 {
      BelowNone(h, values);
    } else {
      TotalUpTo(h, values, n - 1);
      BelowNext(h, values, n - 1);
      assert h.counts[..n][..n - 1] == h.counts[..n - 1];
      assert InBin(h, values, n - 1) == h.counts[n - 1];
    }
  }

  lemma {:induction false} SomeInBin(h: Bins, values: seq<real>, k: nat)
    requires h.resolution >= 0.0 && k < |values|
    ensures InBin(h, values, BinOf(h, values[k])) > 0
  {
    if k < |values| - 1 { SomeInBin(h, values[..|values| - 1], k); }
  }

  lemma {:induction false} AllBelow(h: Bins, values: seq<real>, k: nat)
    requires Describes(h, values) && k <= |values|
    ensures Below(h, values[..k], |h.counts|) == k
  {
    if k > 0 {
      AllBelow(h, values, k - 1);
      SomeInBin(h, values, k - 1);
      assert InBin(h, values, BinOf(h, values[k - 1])) > 0;
      assert values[..k][..k - 1] == values[..k - 1];
    }
  }

  lemma SharesOrdered(a: nat, b: nat, all: nat)
    requires all > 0
    ensures a <= b <==> ShareOf(a, all) <= ShareOf(b, all)
    ensures a == all <==> ShareOf(a, all) == 1.0
  {
    var w, p, q := all as real, ShareOf(a, all), ShareOf(b, all);
    DivideTimes(a as real, w);
    DivideTimes(b as real, w);
    TimesOrder(p, q, w);
    TimesOrder(p, 1.0, w);
    TimesOrder(1.0, p, w);
    assert 1.0 * w == all as real;
  }

  lemma DivideTimes(x: real, w: real)
    requires w > 0.0
    ensures x / w * w == x
  {
  }

  lemma TimesPositive(x: real, w: real)
    requires x > 0.0 && w > 0.0
    ensures x * w > 0.0
  {
  }

  /** Products with the same positive factor are ordered as the other factors. */
  lemma TimesOrder(p: real, q: real, w: real)
    requires w > 0.0
    ensures p <= q <==> p * w <= q * w
  {
    if p < q {
      TimesPositive(q - p, w);
      TimesMinus(q, p, w);
    } else if q < p {
      TimesPositive(p - q, w);
      TimesMinus(p, q, w);
    }
  }

  lemma TimesMinus(p: real, q: real, w: real)
    ensures (p - q) * w == p * w - q * w
  {
  }

  lemma PointBelow(h: Bins, i: nat, j: nat)
    requires h.counts != [] && h.samples > 0 && i <= j < |h.counts|
    ensures TableOf(h)[i].prob <= TableOf(h)[j].prob
  {
    TotalGrows(h.counts, i + 1, j + 1);
    SharesOrdered(Total(h.counts[..i + 1]), Total(h.counts[..j + 1]), h.samples);
  }

  lemma LastPoint(h: Bins)
    requires h.counts != [] && h.samples > 0 && Total(h.counts) == h.samples
    ensures TableOf(h)[|h.counts| - 1].prob == 1.0
  {
    assert h.counts[..|h.counts|] == h.counts;
    SharesOrdered(h.samples, h.samples, h.samples);
  }

  lemma InnerPoint(h: Bins, i: nat)
    requires h.counts != [] && h.samples > 0 && Total(h.counts) == h.samples && h.counts[|h.counts| - 1] > 0
    requires i < |h.counts| - 1
    ensures TableOf(h)[i].prob < 1.0
  {
    var part := Total(h.counts[..i + 1]);
    TotalGrows(h.counts, i + 1, |h.counts| - 1);
    assert part < h.samples;
    LastPoint(h);
    PointBelow(h, i, |h.counts| - 1);
    SharesOrdered(part, part, h.samples);
  }

  /** The table is sorted, and ends with probability 1 twice and no more often. */
  lemma TableShape(h: Bins, values: seq<real>)
    requires Describes(h, values) && values != []
    ensures
      var t, n := TableOf(h), |h.counts|;
      && Sorted(t) && t[n].prob == t[n - 1].prob == 1.0
      && forall i | 0 <= i < n - 1 :: t[i].prob < 1.0
  {
    var t, n := TableOf(h), |h.counts|;
    TotalInBins(h, values);
    LastPoint(h);
    forall i, j | 0 <= i < j < n ensures t[i].prob <= t[j].prob { PointBelow(h, i, j); }
    forall i | 0 <= i < n ensures t[i].prob <= 1.0 { PointBelow(h, i, n - 1); }
    forall i | 0 <= i < n - 1 ensures t[i].prob < 1.0 { InnerPoint(h, i); }
  }

  /** The run of probability 1 starts at the last bin, or at the first one if there is no other. */
  lemma RunOfOne(t: seq<Point>, n: nat)
    requires |t| == n + 1 && n >= 1 && t[n].prob == t[n - 1].prob == 1.0 && forall i | 0 <= i < n - 1 :: t[i].prob < 1.0
    ensures RunStart(t, n) == n - 1
  {
    assert RunStart(t, n) == RunStart(t, n - 1);
  }

  /**
   The table that is made from a histogram of any values: its largest value is the end of the last bin, and after the
   optimization the start of that bin. At probability 1 the value stays if and only if there is one bin, or bins have no
   width; beyond, if and only if bins have no width.
   */
  lemma HistogramLosesLastBin(h: Bins, values: seq<real>)
    requires Describes(h, values) && values != []
    ensures
      var t, n := TableOf(h), |h.counts|;
      && Value(t, 2.0) == Edge(h, n) && Value(Optimized(t), 2.0) == Edge(h, n - 1)
      && (Value(Optimized(t), 1.0) == Value(t, 1.0) <==> n == 1 || h.resolution == 0.0)
      && ((forall x :: Value(Optimized(t), x) == Value(t, x)) <==> h.resolution == 0.0)
  {
    var t, n := TableOf(h), |h.counts|;
    TableShape(h, values);
    RunOfOne(t, n);
    OptimizedEnds(t, 1.0);
    OptimizedEnds(t, 2.0);
    OptimizeKeepsAllWhen(t);
    EdgesApart(h, n - 1);
  }

  lemma EdgesApart(h: Bins, i: int)
    requires h.resolution >= 0.0
    ensures Edge(h, i) == Edge(h, i + 1) <==> h.resolution == 0.0
  {
    assert Edge(h, i + 1) == Edge(h, i) + h.resolution;
  }

  /** The slope is only computed between points of different probabilities. */
  method Interpolate(a: Point, b: Point, x: real) returns (v: real)
    requires a.prob < b.prob
    ensures v == Between(a, b, x)
  {
    var m := (b.bin - a.bin) / (b.prob - a.prob);
    v := a.bin + (x - a.prob) * m;
  }

  class CDF {
    var cdf: seq<Point>

    constructor (points: seq<Point>)
      ensures cdf == points
    {
      cdf := points;
    }

    /** A binary search; whatever the table, it never divides by zero, and on a sorted one it finds the value. */
    method Inverse(x: real) returns (v: real)
      ensures cdf == [] ==> v == 0.0
      ensures cdf != [] && x <= cdf[0].prob ==> v == cdf[0].bin
      ensures cdf != [] && x > cdf[0].prob && x >= cdf[|cdf| - 1].prob ==> v == cdf[|cdf| - 1].bin
      ensures cdf != [] && cdf[0].prob < x < cdf[|cdf| - 1].prob ==>
          exists i: nat :: Passes(cdf, x, i) && v == Between(cdf[i - 1], cdf[i], x)
      ensures Sorted(cdf) ==> v == Value(cdf, x)
    {
      if |cdf| == 0 { return 0.0; }
      if x <= cdf[0].prob { return cdf[0].bin; }
      if x >= cdf[|cdf| - 1].prob { return cdf[|cdf| - 1].bin; }
      var min, max := 0, |cdf| - 1;
      while min + 1 < max
        invariant 0 <= min < max < |cdf| && cdf[min].prob < x <= cdf[max].prob
      {
        var med := (max + min) / 2;
        if cdf[med].prob < x { min := med; } else { max := med; }
      }
      assert Passes(cdf, x, max);
      if Sorted(cdf) { PassesOnce(cdf, x, max); }
      v := Interpolate(cdf[min], cdf[max], x);
    }

    /** The table of the shares of all bins, optimized. */
    method LoadFrom(h: Histogram)
      requires h.resolution >= 0.0 && (h.histogram != [] ==> h.samples > 0)
      modifies this
      ensures cdf == Optimized(TableOf(h.Now()))
    {
      var table: seq<Point>, value, i := [], 0, 0;
      while i < |h.histogram|
        invariant 0 <= i <= |h.histogram| && |table| == i && value == Total(h.histogram[..i])
        invariant forall j | 0 <= j < i :: table[j] == TableOf(h.Now())[j]
      {
        value := value + h.histogram[i];
        assert h.histogram[..i + 1][..i] == h.histogram[..i];
        table := table + [Point(EdgeAt(h.first, h.resolution, i), ShareOf(value, h.samples))];
        i := i + 1;
      }
      cdf := table + [Point(EdgeAt(h.first, h.resolution, i), 1.0)];
      assert cdf == TableOf(h.Now());
      Optimize();
    }

    /** Removes the inner points of runs of equal probabilities. */
    method Optimize()
      requires cdf != []
      modifies this
      ensures cdf == Optimized(old(cdf))
    {
      var inSequence, result := false, [cdf[0]];
      var it, last := 1, 0;
      while it < |cdf|
        invariant 1 <= it <= |cdf| && last == it - 1 && cdf == old(cdf)
        invariant Scanned(cdf, it) == Scan(result, inSequence)
      {
        if cdf[it].prob != cdf[last].prob {
          if inSequence { result := result + [cdf[last]]; }
          result := result + [cdf[it]];
          inSequence := false;
        } else {
          inSequence := true;
        }
        last, it := it, it + 1;
      }
      cdf := result;
    }
  }
}
