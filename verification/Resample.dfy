/** The icon resampler (`crates/client/examples/make_icons.rs`): the weights
    by which pixels of one size are mixed into pixels of another, and what adding
    them up gives.  Floats are reals here, so the sums are exact. */
module Resample {
  import opened Sums

  function Min(a: real, b: real): real { if a < b then a else b }
  function Max(a: real, b: real): real { if a < b then b else a }
  function Ceil(r: real): int { -((-r).Floor) }

  // ----- Weights along one axis -----

  /** Where target pixel `t` of `m` begins, in source pixels of `n`. */
  function Edge(n: nat, m: nat, t: int): real
    requires m > 0
  {
    t as real * (n as real / m as real)
  }

  /** How much of the unit cell `s` the interval covers. */
  function Overlap(lo: real, hi: real, s: int): real {
    Max(Min(hi, s as real + 1.0) - Max(lo, s as real), 0.0)
  }

  function Weight(n: nat, m: nat, t: int, s: int): real
    requires m > 0
  {
    Overlap(Edge(n, m, t), Edge(n, m, t + 1), s)
  }

  /** The source pixels the loop visits for target pixel `t`. */
  function First(n: nat, m: nat, t: int): int
    requires m > 0
  {
    Edge(n, m, t).Floor
  }

  function Past(n: nat, m: nat, t: int): int
    requires m > 0
  {
    var c := Ceil(Edge(n, m, t + 1));
    if c < n then c else n
  }

  lemma EdgesGrow(n: nat, m: nat, t: int)
    requires m > 0
    ensures Edge(n, m, 0) == 0.0 && Edge(n, m, m) == n as real
    ensures Edge(n, m, t + 1) == Edge(n, m, t) + n as real / m as real
    ensures Edge(n, m, t) <= Edge(n, m, t + 1)
  {
    var scale := n as real / m as real;
    assert scale * m as real == n as real;
    assert (t + 1) as real == t as real + 1.0;
    assert (t as real + 1.0) * scale == t as real * scale + scale;
  }

  lemma EdgeInside(n: nat, m: nat, t: int)
    requires m > 0 && 0 <= t <= m
    ensures 0.0 <= Edge(n, m, t) <= n as real
  {
    var scale := n as real / m as real;
    assert scale * m as real == n as real;
    assert t as real <= m as real;
    assert (m as real - t as real) * scale >= 0.0;
    assert (m as real - t as real) * scale == m as real * scale - t as real * scale;
  }

  lemma CeilBounds(r: real)
    ensures Ceil(r) as real - 1.0 < r <= Ceil(r) as real
  {
    var f := (-r).Floor;
    assert f as real <= -r < f as real + 1.0;
  }

  /** Every index visited is a source pixel, and there is at least one. */
  lemma VisitsInBounds(n: nat, m: nat, t: int)
    requires n > 0 && m > 0 && 0 <= t < m
    ensures 0 <= First(n, m, t) < Past(n, m, t) <= n
    ensures Past(n, m, t) == Ceil(Edge(n, m, t + 1))
    ensures First(n, m, t) as real <= Edge(n, m, t) < Edge(n, m, t + 1) <= Past(n, m, t) as real
  {
    EdgeInside(n, m, t);
    EdgeInside(n, m, t + 1);
    EdgesGrow(n, m, t);
    assert n as real / m as real > 0.0;
    CeilBounds(Edge(n, m, t + 1));
    var c := Ceil(Edge(n, m, t + 1));
    assert c as real - 1.0 < n as real;
    assert c <= n;
  }

  /** What is left out by the loop's bounds weighs nothing. */
  lemma OutsideWeighsNothing(n: nat, m: nat, t: int, s: int)
    requires n > 0 && m > 0 && 0 <= t < m && !(First(n, m, t) <= s < Past(n, m, t))
    ensures Weight(n, m, t, s) == 0.0
  {
    VisitsInBounds(n, m, t);
    if s < First(n, m, t) {
      assert s as real + 1.0 <= First(n, m, t) as real;
    } else {
      assert s as real >= Past(n, m, t) as real;
    }
  }

  /** The part of `lo..hi` below `k`, cell by cell from below. */
  lemma {:induction false} CellsBelow(lo: real, hi: real, a: int, k: int)
    requires a as real <= lo <= hi && a <= k
    ensures Sum(a, k, s => Overlap(lo, hi, s)) == Max(Min(hi, k as real) - lo, 0.0)
    decreases k - a
  {
    if a < k {
      CellsBelow(lo, hi, a, k - 1);
      assert (k - 1) as real + 1.0 == k as real;
    }
  }

  /** A target pixel's weights along an axis add up to its width. */
  lemma TargetWeights(n: nat, m: nat, t: int)
    requires n > 0 && m > 0 && 0 <= t < m
    ensures Sum(First(n, m, t), Past(n, m, t), s => Weight(n, m, t, s)) == n as real / m as real
  {
    VisitsInBounds(n, m, t);
    EdgesGrow(n, m, t);
    var lo, hi := Edge(n, m, t), Edge(n, m, t + 1);
    CellsBelow(lo, hi, First(n, m, t), Past(n, m, t));
    SumEqual(First(n, m, t), Past(n, m, t), s => Weight(n, m, t, s), s => Overlap(lo, hi, s));
  }

  /** The part of cell `s` covered by the first `k` target pixels. */
  lemma {:induction false} TargetsBelow(n: nat, m: nat, s: int, k: nat)
    requires m > 0 && 0 <= s
    ensures Sum(0, k, t => Weight(n, m, t, s)) == Max(Min(Edge(n, m, k), s as real + 1.0) - s as real, 0.0)
    decreases k
  {
    EdgesGrow(n, m, 0);
    if k > 0 {
      TargetsBelow(n, m, s, k - 1);
      EdgesGrow(n, m, k - 1);
    }
  }

  /** Every source pixel is shared out whole. */
  lemma SourceWeights(n: nat, m: nat, s: int)
    requires m > 0 && 0 <= s < n
    ensures Sum(0, m, t => Weight(n, m, t, s)) == 1.0
  {
    TargetsBelow(n, m, s, m);
    EdgesGrow(n, m, 0);
    assert s as real + 1.0 <= n as real;
  }

  // ----- Whole pictures -----

  /** Sharing `n` source pixels out over `m` targets along an axis: which source
      pixels each target visits and with what weight. */
  datatype Axis = Axis(n: nat, m: nat, first: int -> int, past: int -> int, weight: Table)
  {
    /** In bounds, nothing left out, and each source pixel shared out whole. */
    ghost predicate Fair() {
      && (forall t :: 0 <= t < m ==> 0 <= first(t) <= past(t) <= n)
      && (forall t, s :: 0 <= t < m && 0 <= s < n && !(first(t) <= s < past(t)) ==> weight(t, s) == 0.0)
      && (forall s :: 0 <= s < n ==> Sum(0, m, ColumnOf(weight, s)) == 1.0)
    }

    ghost function Shared(q: int -> real): Table {
      (t, s) => q(s) * weight(t, s)
    }

    /** A line of values as target `t` gathers it. */
    ghost function Gather(q: int -> real, t: int): real {
      Sum(first(t), past(t), RowOf(Shared(q), t))
    }

    ghost function Gathered(q: int -> real): int -> real {
      t => Gather(q, t)
    }
  }

  function AxisOf(n: nat, m: nat): Axis
    requires m > 0
  {
    Axis(n, m, t => First(n, m, t), t => Past(n, m, t), (t, s) => Weight(n, m, t, s))
  }

  lemma AxisFair(n: nat, m: nat)
    requires n > 0 && m > 0
    ensures AxisOf(n, m).Fair()
  {
    var axis := AxisOf(n, m);
    forall t | 0 <= t < m ensures 0 <= axis.first(t) <= axis.past(t) <= n {
      VisitsInBounds(n, m, t);
    }
    forall t, s | 0 <= t < m && 0 <= s < n && !(axis.first(t) <= s < axis.past(t)) ensures axis.weight(t, s) == 0.0 {
      OutsideWeighsNothing(n, m, t, s);
    }
    forall s | 0 <= s < n ensures Sum(0, m, ColumnOf(axis.weight, s)) == 1.0 {
      SourceWeights(n, m, s);
      SumEqual(0, m, ColumnOf(axis.weight, s), t => Weight(n, m, t, s));
    }
  }

  /** Leaving out what weighs nothing changes no gathering. */
  lemma GatherWhole(axis: Axis, q: int -> real, t: int)
    requires axis.Fair() && 0 <= t < axis.m
    ensures axis.Gather(q, t) == Sum(0, axis.n, RowOf(axis.Shared(q), t))
  {
    SumWithin(0, axis.first(t), axis.past(t), axis.n, RowOf(axis.Shared(q), t));
  }

  /** A source value is shared out whole. */
  lemma SharedWhole(axis: Axis, q: int -> real, s: int)
    requires axis.Fair() && 0 <= s < axis.n
    ensures Sum(0, axis.m, ColumnOf(axis.Shared(q), s)) == q(s)
  {
    SumScaled(0, axis.m, ColumnOf(axis.weight, s), ColumnOf(axis.Shared(q), s), q(s));
  }

  /** Sharing a line of values out over the targets loses none of it. */
  lemma LineConserved(axis: Axis, q: int -> real)
    requires axis.Fair()
    ensures Sum(0, axis.m, axis.Gathered(q)) == Sum(0, axis.n, q)
  {
    var f := axis.Shared(q);
    forall t | 0 <= t < axis.m ensures axis.Gathered(q)(t) == RowSums(f, 0, axis.n)(t) {
      GatherWhole(axis, q, t);
    }
    SumEqual(0, axis.m, axis.Gathered(q), RowSums(f, 0, axis.n));
    SumExchange(0, axis.m, 0, axis.n, f);
    forall s | 0 <= s < axis.n ensures ColumnSums(f, 0, axis.m)(s) == q(s) {
      SharedWhole(axis, q, s);
    }
    SumEqual(0, axis.n, ColumnSums(f, 0, axis.m), q);
  }

  /** Each row of the picture, gathered for target column `tx`. */
  ghost function RowsGathered(axis: Axis, p: Table, tx: int): int -> real {
    sy => axis.Gather(RowOf(p, sy), tx)
  }

  /** What the loops leave in `acc` for one channel of target pixel `(ty, tx)`. */
  ghost function Acc(axis: Axis, p: Table, ty: int, tx: int): real {
    axis.Gather(RowsGathered(axis, p, tx), ty)
  }

  ghost function Target(axis: Axis, p: Table): Table {
    (ty, tx) => Acc(axis, p, ty, tx)
  }

  ghost function Total(n: int, p: Table): real {
    Sum(0, n, RowSums(p, 0, n))
  }

  /** What row `sy` of the source gives each target of row `ty`. */
  ghost function Part(axis: Axis, p: Table, ty: int): Table {
    (tx, sy) => axis.Gather(RowOf(p, sy), tx) * axis.weight(ty, sy)
  }

  lemma PartRows(axis: Axis, p: Table, ty: int, tx: int)
    ensures Acc(axis, p, ty, tx) == Sum(axis.first(ty), axis.past(ty), RowOf(Part(axis, p, ty), tx))
  {
    SumEqual(axis.first(ty), axis.past(ty), RowOf(axis.Shared(RowsGathered(axis, p, tx)), ty), RowOf(Part(axis, p, ty), tx));
  }

  lemma PartColumns(axis: Axis, p: Table, ty: int, sy: int)
    requires axis.Fair()
    ensures Sum(0, axis.m, ColumnOf(Part(axis, p, ty), sy)) == RowSums(p, 0, axis.n)(sy) * axis.weight(ty, sy)
  {
    var q, column, w := RowOf(p, sy), ColumnOf(Part(axis, p, ty), sy), axis.weight(ty, sy);
    assert forall t :: column(t) == axis.Gather(q, t) * w;
    LineConservedScaled(axis, q, column, w);
  }

  lemma LineConservedScaled(axis: Axis, q: int -> real, column: int -> real, w: real)
    requires axis.Fair() && forall t :: column(t) == axis.Gather(q, t) * w
    ensures Sum(0, axis.m, column) == Sum(0, axis.n, q) * w
  {
    LineConserved(axis, q);
    SumScaled(0, axis.m, axis.Gathered(q), column, w);
  }

  /** A row of targets together gathers what the rows of the source hold. */
  lemma TargetRow(axis: Axis, p: Table, ty: int)
    requires axis.Fair()
    ensures Sum(0, axis.m, RowOf(Target(axis, p), ty)) == axis.Gather(RowSums(p, 0, axis.n), ty)
  {
    var a, b, part := axis.first(ty), axis.past(ty), Part(axis, p, ty);
    forall tx ensures RowOf(Target(axis, p), ty)(tx) == RowSums(part, a, b)(tx) {
      PartRows(axis, p, ty, tx);
    }
    SumEqual(0, axis.m, RowOf(Target(axis, p), ty), RowSums(part, a, b));
    SumExchange(0, axis.m, a, b, part);
    forall sy ensures ColumnSums(part, 0, axis.m)(sy) == RowOf(axis.Shared(RowSums(p, 0, axis.n)), ty)(sy) {
      PartColumns(axis, p, ty, sy);
    }
    SumEqual(a, b, ColumnSums(part, 0, axis.m), RowOf(axis.Shared(RowSums(p, 0, axis.n)), ty));
  }

  /** The total of any channel over all target pixels, before the division by
      area, is its total over the source: premultiplied colour is conserved. */
  lemma PictureConserved(n: nat, m: nat, p: Table)
    requires n > 0 && m > 0
    ensures Total(m, Target(AxisOf(n, m), p)) == Total(n, p)
  {
    var axis := AxisOf(n, m);
    AxisFair(n, m);
    TotalConserved(axis, p);
  }

  lemma TotalConserved(axis: Axis, p: Table)
    requires axis.Fair()
    ensures Total(axis.m, Target(axis, p)) == Total(axis.n, p)
  {
    var rows := RowSums(p, 0, axis.n);
    forall ty | 0 <= ty < axis.m ensures RowSums(Target(axis, p), 0, axis.m)(ty) == axis.Gathered(rows)(ty) {
      TargetRow(axis, p, ty);
    }
    SumEqual(0, axis.m, RowSums(Target(axis, p), 0, axis.m), axis.Gathered(rows));
    LineConserved(axis, rows);
  }

  // ----- Areas, and what the division leaves -----

  ghost function Flat(v: real): Table {
    (y, x) => v
  }

  lemma GatherConstant(axis: Axis, t: int, q: int -> real, v: real, width: real)
    requires forall s :: axis.first(t) <= s < axis.past(t) ==> q(s) == v
    requires Sum(axis.first(t), axis.past(t), RowOf(axis.weight, t)) == width
    ensures axis.Gather(q, t) == width * v
  {
    SumScaled(axis.first(t), axis.past(t), RowOf(axis.weight, t), RowOf(axis.Shared(q), t), v);
  }

  lemma AxisWidth(n: nat, m: nat, t: int, width: real)
    requires n > 0 && m > 0 && 0 <= t < m && width * m as real == n as real
    ensures var axis := AxisOf(n, m); Sum(axis.first(t), axis.past(t), RowOf(axis.weight, t)) == width
  {
    TargetWeights(n, m, t);
    SumEqual(First(n, m, t), Past(n, m, t), RowOf(AxisOf(n, m).weight, t), s => Weight(n, m, t, s));
    Quotient(n as real, m as real, width);
  }

  lemma Quotient(a: real, b: real, q: real)
    requires b > 0.0 && q * b == a
    ensures a / b == q
  {
  }

  /** The weights along each axis multiply. */
  lemma OnesArea(axis: Axis, ty: int, tx: int, width: real)
    requires Sum(axis.first(ty), axis.past(ty), RowOf(axis.weight, ty)) == width
    requires Sum(axis.first(tx), axis.past(tx), RowOf(axis.weight, tx)) == width
    ensures Acc(axis, Flat(1.0), ty, tx) == width * width
  {
    forall sy ensures RowsGathered(axis, Flat(1.0), tx)(sy) == width {
      GatherConstant(axis, tx, RowOf(Flat(1.0), sy), 1.0, width);
    }
    GatherConstant(axis, ty, RowsGathered(axis, Flat(1.0), tx), width, width);
  }

  /** The weights of one target pixel add up to its area: the square of the
      width `n / m` it has in source pixels. */
  lemma WeightsSumToArea(n: nat, m: nat, ty: int, tx: int, width: real)
    requires n > 0 && m > 0 && 0 <= ty < m && 0 <= tx < m && width * m as real == n as real
    ensures Acc(AxisOf(n, m), Flat(1.0), ty, tx) == width * width
  {
    AxisWidth(n, m, tx, width);
    AxisWidth(n, m, ty, width);
    OnesArea(AxisOf(n, m), ty, tx, width);
  }

  /** Gathering keeps order: weights are never negative. */
  lemma GatherAtMost(axis: Axis, q: int -> real, r: int -> real, t: int)
    requires forall s :: axis.weight(t, s) >= 0.0
    requires forall s :: axis.first(t) <= s < axis.past(t) ==> q(s) <= r(s)
    ensures axis.Gather(q, t) <= axis.Gather(r, t)
  {
    var f, g := RowOf(axis.Shared(q), t), RowOf(axis.Shared(r), t);
    forall s | axis.first(t) <= s < axis.past(t) ensures f(s) <= g(s) {
      ScaledAtMost(q(s), r(s), axis.weight(t, s));
    }
    SumAtMost(axis.first(t), axis.past(t), f, g);
  }

  lemma ScaledAtMost(a: real, b: real, k: real)
    requires a <= b && k >= 0.0
    ensures a * k <= b * k
  {
    assert (b - a) * k >= 0.0;
  }

  lemma WeightsNotNegative(n: nat, m: nat)
    requires m > 0
    ensures forall t, s :: AxisOf(n, m).weight(t, s) >= 0.0
  {
  }

  /** Fair, never negative, and every target pixel has an area. */
  ghost predicate Sound(axis: Axis) {
    && axis.Fair() && (forall t, s :: axis.weight(t, s) >= 0.0)
    && (forall ty, tx :: 0 <= ty < axis.m && 0 <= tx < axis.m ==> Acc(axis, Flat(1.0), ty, tx) > 0.0)
  }

  lemma AxisSound(n: nat, m: nat)
    requires n > 0 && m > 0
    ensures Sound(AxisOf(n, m))
  {
    AxisFair(n, m);
    WeightsNotNegative(n, m);
    forall ty, tx | 0 <= ty < m && 0 <= tx < m ensures Acc(AxisOf(n, m), Flat(1.0), ty, tx) > 0.0 {
      AreaPositive(n, m, ty, tx);
    }
  }

  lemma AreaPositive(n: nat, m: nat, ty: int, tx: int)
    requires n > 0 && m > 0 && 0 <= ty < m && 0 <= tx < m
    ensures Acc(AxisOf(n, m), Flat(1.0), ty, tx) > 0.0
  {
    var width := n as real / m as real;
    WeightsSumToArea(n, m, ty, tx, width);
    ProductPositive(width, width, Acc(AxisOf(n, m), Flat(1.0), ty, tx));
  }

  lemma ProductPositive(a: real, b: real, area: real)
    requires a > 0.0 && b > 0.0 && area == a * b
    ensures area > 0.0
  {
  }

  /** A channel nowhere above another gathers to no more than it. */
  lemma AccOrdered(axis: Axis, p: Table, q: Table, ty: int, tx: int)
    requires axis.Fair() && 0 <= ty < axis.m && 0 <= tx < axis.m
    requires forall t, s :: axis.weight(t, s) >= 0.0
    requires forall y, x :: 0 <= y < axis.n && 0 <= x < axis.n ==> p(y, x) <= q(y, x)
    ensures Acc(axis, p, ty, tx) <= Acc(axis, q, ty, tx)
  {
    forall sy | axis.first(ty) <= sy < axis.past(ty)
      ensures RowsGathered(axis, p, tx)(sy) <= RowsGathered(axis, q, tx)(sy)
    {
      GatherAtMost(axis, RowOf(p, sy), RowOf(q, sy), tx);
    }
    GatherAtMost(axis, RowsGathered(axis, p, tx), RowsGathered(axis, q, tx), ty);
  }

  /** A channel that is a multiple of another gathers to that multiple of it. */
  lemma AccScaled(axis: Axis, p: Table, q: Table, k: real, ty: int, tx: int)
    requires axis.Fair() && 0 <= ty < axis.m && 0 <= tx < axis.m
    requires forall y, x :: 0 <= y < axis.n && 0 <= x < axis.n ==> q(y, x) == p(y, x) * k
    ensures Acc(axis, q, ty, tx) == Acc(axis, p, ty, tx) * k
  {
    forall sy | axis.first(ty) <= sy < axis.past(ty)
      ensures RowsGathered(axis, q, tx)(sy) == RowsGathered(axis, p, tx)(sy) * k
    {
      GatherScaled(axis, RowOf(p, sy), RowOf(q, sy), k, tx);
    }
    GatherScaled(axis, RowsGathered(axis, p, tx), RowsGathered(axis, q, tx), k, ty);
  }

  lemma GatherScaled(axis: Axis, q: int -> real, r: int -> real, k: real, t: int)
    requires forall s :: axis.first(t) <= s < axis.past(t) ==> r(s) == q(s) * k
    ensures axis.Gather(r, t) == axis.Gather(q, t) * k
  {
    var f, g := RowOf(axis.Shared(q), t), RowOf(axis.Shared(r), t);
    forall s | axis.first(t) <= s < axis.past(t) ensures g(s) == f(s) * k {
      Reordered(q(s), k, axis.weight(t, s));
    }
    SumScaled(axis.first(t), axis.past(t), f, g, k);
  }

  lemma Reordered(a: real, k: real, w: real)
    ensures (a * k) * w == (a * w) * k
  {
  }

  // ----- Where the weights lie -----

  /** Shrinking by a whole number, each target pixel takes its own run of source
      pixels, whole. */
  lemma ShrinkWeights(m: nat, k: nat, t: nat, s: nat)
    requires m > 0 && k > 0 && t < m
    ensures Weight(k * m, m, t, s) == if k * t <= s < k * t + k then 1.0 else 0.0
  {
    EdgeWhole(m, k, t);
    EdgeWhole(m, k, t + 1);
    assert k * (t + 1) == k * t + k;
  }

  lemma EdgeWhole(m: nat, k: nat, t: nat)
    requires m > 0
    ensures Edge(k * m, m, t) == (k * t) as real
  {
    assert (k * m) as real == k as real * m as real;
    assert k as real * m as real / m as real == k as real;
    assert (k * t) as real == t as real * k as real;
  }

  /** Growing by a whole number, each source pixel is spread over its own run of
      target pixels, evenly. */
  lemma GrowWeights(n: nat, k: nat, t: nat, s: nat)
    requires n > 0 && k > 0 && t < k * n
    ensures Weight(n, k * n, t, s) == if k * s <= t < k * s + k then 1.0 / k as real else 0.0
  {
    EdgePart(n, k, t);
    EdgePart(n, k, t + 1);
    var unit := 1.0 / k as real;
    Multiples(k, s, t);
    Multiples(k, s + 1, t);
    Multiples(k, s, t + 1);
    Multiples(k, s + 1, t + 1);
    assert k * (s + 1) == k * s + k;
    assert (t + 1) as real * unit == t as real * unit + unit;
  }

  lemma EdgePart(n: nat, k: nat, t: nat)
    requires n > 0 && k > 0
    ensures Edge(n, k * n, t) == t as real * (1.0 / k as real)
  {
    assert (k * n) as real == k as real * n as real;
    assert n as real / (k as real * n as real) == 1.0 / k as real;
  }

  /** `t` parts of which `k` make a whole, against `s` wholes. */
  lemma Multiples(k: nat, s: nat, t: nat)
    requires k > 0
    ensures t as real * (1.0 / k as real) >= s as real <==> t >= k * s
    ensures t as real * (1.0 / k as real) <= s as real <==> t <= k * s
  {
    var unit, d := 1.0 / k as real, t - k * s;
    assert unit > 0.0 && k as real * unit == 1.0;
    assert (k * s) as real * unit == s as real * (k as real * unit);
    assert t as real * unit - s as real == d as real * unit;
    if d > 0 { assert d as real * unit > 0.0; }
    if d < 0 { assert (-d) as real * unit > 0.0; }
  }

  /** At its own size a picture is what it was, pixel by pixel: nothing is moved,
      mirrored or turned. */
  lemma SameSize(n: nat, p: Table, ty: nat, tx: nat)
    requires ty < n && tx < n
    ensures Acc(AxisOf(n, n), p, ty, tx) == p(ty, tx)
  {
    var axis := AxisOf(n, n);
    LineSame(n, RowOf(p, ty), tx);
    LineSame(n, RowsGathered(axis, p, tx), ty);
  }

  lemma LineSame(n: nat, q: int -> real, t: nat)
    requires t < n
    ensures AxisOf(n, n).Gather(q, t) == q(t)
  {
    var axis := AxisOf(n, n);
    EdgeWhole(n, 1, t);
    EdgeWhole(n, 1, t + 1);
    assert axis.first(t) == t && axis.past(t) == t + 1;
    ShrinkWeights(n, 1, t, t);
    var f := RowOf(axis.Shared(q), t);
    assert f(t) == q(t) * 1.0;
    assert Sum(t, t + 1, f) == Sum(t, t, f) + f(t);
  }
}
