/** Lines of sight against boxes (`crates/client/src/app.rs`): `keeps_lock`,
    which decides whether a dig stays on its block, and `ray_box`.  Both are slab
    tests; both are held to one meaning, that some point of the ray lies in the
    box.  Floats are reals. */
module Sight {

  datatype Option<+T> = None | Some(value: T)

  datatype Vector = Vector(x: real, y: real, z: real)
  {
    function At(axis: int): real
      requires 0 <= axis < 3
    {
      if axis == 0 then x else if axis == 1 then y else z
    }
  }

  /** Half a block, in cells. */
  const HALF: real := 1.5
  const EPSILON: real := 1.0 / 8388608.0

  function Abs(r: real): real { if r < 0.0 then -r else r }
  function Min(a: real, b: real): real { if a < b then a else b }
  function Max(a: real, b: real): real { if a < b then b else a }

  /** Whether a coordinate lies between two bounds, given in either order. */
  predicate Between(v: real, a: real, b: real) {
    Min(a, b) <= v <= Max(a, b)
  }

  /** Along one axis, the ray is between the box's faces at `t`. */
  predicate InSlab(origin: Vector, direction: Vector, min: Vector, max: Vector, axis: int, t: real)
    requires 0 <= axis < 3
  {
    Between(origin.At(axis) + t * direction.At(axis), min.At(axis), max.At(axis))
  }

  /** The point at `t >= 0` of the ray is inside as far as the first `n` axes go. */
  predicate InSlabs(origin: Vector, direction: Vector, min: Vector, max: Vector, n: int, t: real)
    requires 0 <= n <= 3
  {
    t >= 0.0 && forall axis :: 0 <= axis < n ==> InSlab(origin, direction, min, max, axis, t)
  }

  predicate Hits(origin: Vector, direction: Vector, min: Vector, max: Vector, t: real) {
    InSlabs(origin, direction, min, max, 3, t)
  }

  ghost predicate Meets(origin: Vector, direction: Vector, min: Vector, max: Vector) {
    exists t :: Hits(origin, direction, min, max, t)
  }

  // ----- One axis -----

  lemma AtMostQuotient(t: real, d: real, x: real)
    requires d != 0.0
    ensures d > 0.0 ==> (t * d <= x <==> t <= x / d)
    ensures d < 0.0 ==> (t * d <= x <==> t >= x / d)
  {
    var q := x / d;
    assert q * d == x;
    assert t * d - x == (t - q) * d;
  }

  /** The times a moving coordinate is between two bounds are the times between
      the two crossings. */
  lemma Crossings(o: real, d: real, a: real, b: real, t: real)
    requires d != 0.0
    ensures Between(o + t * d, a, b) <==> Between(t, (a - o) / d, (b - o) / d)
  {
    AtMostQuotient(t, d, a - o);
    AtMostQuotient(t, d, b - o);
    AtMostQuotient(-t, d, o - a);
    AtMostQuotient(-t, d, o - b);
    Negated(t, d, a - o);
    Negated(t, d, b - o);
  }

  lemma Negated(t: real, d: real, x: real)
    requires d != 0.0
    ensures -t * d == -(t * d) && (-x) / d == -(x / d)
  {
  }

  // ----- The running interval -----

  /** An interval whose ends may be infinite. */
  datatype Span = Span(near: Option<real>, far: Option<real>)

  predicate Within(s: Span, t: real) {
    (s.near.Some? ==> s.near.value <= t) && (s.far.Some? ==> t <= s.far.value)
  }

  function Narrowed(s: Span, a: real, b: real): Span {
    Span(Some(if s.near.None? then Min(a, b) else Max(s.near.value, Min(a, b))),
         Some(if s.far.None? then Max(a, b) else Min(s.far.value, Max(a, b))))
  }

  lemma NarrowedMeans(s: Span, a: real, b: real, t: real)
    ensures Within(Narrowed(s, a, b), t) <==> Within(s, t) && Between(t, a, b)
  {
  }

  // ----- Infinities -----

  /** A float that may have overflowed: what a division by zero and a product
      with it give. */
  datatype Float = Undefined | Low | Finite(value: real) | High

  function Inverse(d: real, negative: bool): Float {
    if d != 0.0 then Finite(1.0 / d) else if negative then Low else High
  }

  function Times(a: real, f: Float): Float {
    match f
    case Undefined => Undefined
    case Finite(v) => Finite(a * v)
    case High => if a > 0.0 then High else if a < 0.0 then Low else Undefined
    case Low => if a > 0.0 then Low else if a < 0.0 then High else Undefined
  }

  predicate AtMost(a: Float, b: Float) {
    match a
    case Undefined => false
    case Low => !b.Undefined?
    case Finite(v) => b.High? || (b.Finite? && v <= b.value)
    case High => b.High?
  }

  /** The library's `min` and `max` pass over what is undefined. */
  function Lesser(a: Float, b: Float): Float {
    if a.Undefined? then b else if b.Undefined? || AtMost(a, b) then a else b
  }

  function Greater(a: Float, b: Float): Float {
    if a.Undefined? then b else if b.Undefined? || AtMost(b, a) then a else b
  }

  predicate WithinFloats(near: Float, far: Float, t: real) {
    AtMost(near, Finite(t)) && AtMost(Finite(t), far)
  }

  /** Along an axis the ray does not move on, it must be strictly between the
      faces, or in a box with no thickness there. */
  predicate Abreast(o: real, a: real, b: real) {
    Min(a, b) < o < Max(a, b) || a == o == b
  }

  predicate PassesAt(o: real, d: real, a: real, b: real, t: real) {
    if d == 0.0 then Abreast(o, a, b) else Between(o + t * d, a, b)
  }

  predicate Passes(origin: Vector, direction: Vector, min: Vector, max: Vector, axis: int, t: real)
    requires 0 <= axis < 3
  {
    PassesAt(origin.At(axis), direction.At(axis), min.At(axis), max.At(axis), t)
  }

  predicate PassesAll(origin: Vector, direction: Vector, min: Vector, max: Vector, n: int, t: real)
    requires 0 <= n <= 3
  {
    t >= 0.0 && forall axis :: 0 <= axis < n ==> Passes(origin, direction, min, max, axis, t)
  }

  predicate Still(direction: Vector) {
    direction == Vector(0.0, 0.0, 0.0)
  }

  /** One axis of the slab test. */
  function Narrowing(near: Float, far: Float, first: Float, second: Float): (Float, Float) {
    (Greater(near, Lesser(first, second)), Lesser(far, Greater(first, second)))
  }

  lemma FiniteAxis(near: Float, far: Float, x: real, y: real, t: real)
    requires !near.Undefined? && !far.Undefined?
    ensures var n := Narrowing(near, far, Finite(x), Finite(y));
      && !n.0.Undefined? && !n.1.Undefined? && n.1 != High
      && (WithinFloats(n.0, n.1, t) <==> WithinFloats(near, far, t) && Between(t, x, y))
  {
  }

  lemma MovingAxis(o: real, d: real, a: real, b: real, near: Float, far: Float, t: real)
    requires d != 0.0 && !near.Undefined? && !far.Undefined?
    ensures var n := Narrowing(near, far, Times(a - o, Inverse(d, false)), Times(b - o, Inverse(d, false)));
      && !n.0.Undefined? && !n.1.Undefined? && n.1 != High
      && (WithinFloats(n.0, n.1, t) <==> WithinFloats(near, far, t) && Between(o + t * d, a, b))
  {
    Reciprocal(a - o, d);
    Reciprocal(b - o, d);
    var x, y := (a - o) / d, (b - o) / d;
    assert Times(a - o, Inverse(d, false)) == Finite(x) && Times(b - o, Inverse(d, false)) == Finite(y);
    Crossings(o, d, a, b, t);
    FiniteAxis(near, far, x, y, t);
  }

  lemma Reciprocal(x: real, d: real)
    requires d != 0.0
    ensures x * (1.0 / d) == x / d
  {
    var inverse := 1.0 / d;
    assert inverse * d == 1.0;
    assert (x * inverse) * d == x;
  }

  lemma StillAxis(o: real, a: real, b: real, negative: bool, near: Float, far: Float, t: real)
    requires !near.Undefined? && !far.Undefined?
    ensures var n := Narrowing(near, far, Times(a - o, Inverse(0.0, negative)), Times(b - o, Inverse(0.0, negative)));
      && !n.0.Undefined? && !n.1.Undefined? && (far != High ==> n.1 != High)
      && (n.0 == near || n.0 == High) && (n.1 == far || n.1 == Low)
      && (WithinFloats(n.0, n.1, t) <==> WithinFloats(near, far, t) && Abreast(o, a, b))
      && (Abreast(o, a, b) ==> n == (near, far))
  {
  }

  /** Where a ray enters a box, or `None` if it misses.  `negative` gives the sign
      of each zero component.  The infinities cancel for a ray inside a slab it
      does not cross, and for one that runs along a face they do not: it misses.
      A direction of nothing at all enters only a box it starts in, or is said
      to enter one infinitely far off. */
  method RayBox(origin: Vector, direction: Vector, negative: int -> bool, min: Vector, max: Vector) returns (r: Option<Float>)
    ensures !Still(direction) ==> (r.Some? <==> exists t :: PassesAll(origin, direction, min, max, 3, t))
    ensures r.Some? && r.value.Finite? ==> PassesAll(origin, direction, min, max, 3, r.value.value)
    ensures r.Some? && r.value.Finite? ==> forall t :: PassesAll(origin, direction, min, max, 3, t) ==> r.value.value <= t
    ensures r.Some? ==> r.value.Finite? || (r.value.High? && Still(direction))
    ensures (exists t :: PassesAll(origin, direction, min, max, 3, t)) ==> r.Some? && r.value.Finite?
  {
    var near, far := Low, High;
    for axis := 0 to 3
      invariant Speaks(origin, direction, min, max, axis, near, far)
    {
      ghost var n, f := near, far;
      NarrowerAlways(origin.At(axis), direction.At(axis), negative(axis), min.At(axis), max.At(axis), near, far);
      var inverse := Inverse(direction.At(axis), negative(axis));
      var first := Times(min.At(axis) - origin.At(axis), inverse);
      var second := Times(max.At(axis) - origin.At(axis), inverse);
      near, far := Greater(near, Lesser(first, second)), Lesser(far, Greater(first, second));
      AxisSpeaks(origin, direction, min, max, axis, n, f, near, far);
    }
    r := Entry(near, far);
    EntryMeans(origin, direction, min, max, near, far);
  }

  /** Where the interval left over begins, counted from the eye onwards. */
  function Entry(near: Float, far: Float): Option<Float> {
    if AtMost(Greater(near, Finite(0.0)), far) then Some(Greater(near, Finite(0.0))) else None
  }

  /** The interval narrowed by one axis. */
  function Narrower(o: real, d: real, negative: bool, a: real, b: real, near: Float, far: Float): (Float, Float) {
    Narrowing(near, far, Times(a - o, Inverse(d, negative)), Times(b - o, Inverse(d, negative)))
  }

  lemma NarrowerMeans(o: real, d: real, negative: bool, a: real, b: real, near: Float, far: Float, t: real)
    requires !near.Undefined? && !far.Undefined?
    ensures var n := Narrower(o, d, negative, a, b, near, far);
      && !n.0.Undefined? && !n.1.Undefined? && (far != High || d != 0.0 ==> n.1 != High)
      && (WithinFloats(n.0, n.1, t) <==> WithinFloats(near, far, t) && PassesAt(o, d, a, b, t))
  {
    if d == 0.0 {
      StillAxis(o, a, b, negative, near, far, t);
    } else {
      MovingAxis(o, d, a, b, near, far, t);
      assert Inverse(d, negative) == Inverse(d, false);
    }
  }

  /** The narrowed interval is the old one where the ray passes the axis. */
  ghost predicate NarrowedBy(o: real, d: real, a: real, b: real, near: Float, far: Float, n: Float, f: Float) {
    && !n.Undefined? && !f.Undefined? && (far != High || d != 0.0 ==> f != High)
    && forall t :: WithinFloats(n, f, t) <==> WithinFloats(near, far, t) && PassesAt(o, d, a, b, t)
  }

  lemma NarrowerAlways(o: real, d: real, negative: bool, a: real, b: real, near: Float, far: Float)
    requires !near.Undefined? && !far.Undefined?
    ensures var n := Narrower(o, d, negative, a, b, near, far); NarrowedBy(o, d, a, b, near, far, n.0, n.1)
  {
    NarrowerMeans(o, d, negative, a, b, near, far, 0.0);
    forall t
      ensures var n := Narrower(o, d, negative, a, b, near, far);
        WithinFloats(n.0, n.1, t) <==> WithinFloats(near, far, t) && PassesAt(o, d, a, b, t)
    {
      NarrowerMeans(o, d, negative, a, b, near, far, t);
    }
  }

  lemma OneMorePass(origin: Vector, direction: Vector, min: Vector, max: Vector, axis: int, t: real)
    requires 0 <= axis < 3
    ensures PassesAll(origin, direction, min, max, axis + 1, t) <==>
      PassesAll(origin, direction, min, max, axis, t) && Passes(origin, direction, min, max, axis, t)
  {
  }

  /** The interval speaks for the first `axis` axes. */
  ghost predicate Speaks(origin: Vector, direction: Vector, min: Vector, max: Vector, axis: int, near: Float, far: Float)
    requires 0 <= axis <= 3
  {
    && !near.Undefined? && !far.Undefined?
    && ((exists a :: 0 <= a < axis && direction.At(a) != 0.0) ==> far != High)
    && forall t :: t >= 0.0 ==> (PassesAll(origin, direction, min, max, axis, t) <==> WithinFloats(near, far, t))
  }

  lemma AxisSpeaks(origin: Vector, direction: Vector, min: Vector, max: Vector, axis: int, near: Float, far: Float, n: Float, f: Float)
    requires 0 <= axis < 3 && Speaks(origin, direction, min, max, axis, near, far)
    requires NarrowedBy(origin.At(axis), direction.At(axis), min.At(axis), max.At(axis), near, far, n, f)
    ensures Speaks(origin, direction, min, max, axis + 1, n, f)
  {
    forall t | t >= 0.0
      ensures PassesAll(origin, direction, min, max, axis + 1, t) <==> WithinFloats(n, f, t)
    {
      OneMorePass(origin, direction, min, max, axis, t);
    }
  }

  lemma EntryMeans(origin: Vector, direction: Vector, min: Vector, max: Vector, near: Float, far: Float)
    requires Speaks(origin, direction, min, max, 3, near, far)
    ensures var r := Entry(near, far);
      && (!Still(direction) ==> (r.Some? <==> exists t :: PassesAll(origin, direction, min, max, 3, t)))
      && (r.Some? && r.value.Finite? ==> PassesAll(origin, direction, min, max, 3, r.value.value))
      && (r.Some? && r.value.Finite? ==> forall t :: PassesAll(origin, direction, min, max, 3, t) ==> r.value.value <= t)
      && (r.Some? ==> r.value.Finite? || (r.value.High? && Still(direction)))
      && ((exists t :: PassesAll(origin, direction, min, max, 3, t)) ==> r.Some? && r.value.Finite?)
  {
    if !Still(direction) {
      assert direction.At(0) != 0.0 || direction.At(1) != 0.0 || direction.At(2) != 0.0;
    }
    forall t | PassesAll(origin, direction, min, max, 3, t)
      ensures Entry(near, far).Some? && Entry(near, far).value.Finite? && Entry(near, far).value.value <= t
    {
      assert WithinFloats(near, far, t);
    }
    var start := Greater(near, Finite(0.0));
    if start.Finite? && AtMost(start, far) {
      assert WithinFloats(near, far, start.value);
    }
  }

  /** With no zero component the two meanings are one. */
  lemma PassesIsHits(origin: Vector, direction: Vector, min: Vector, max: Vector, t: real)
    requires forall axis :: 0 <= axis < 3 ==> direction.At(axis) != 0.0
    ensures PassesAll(origin, direction, min, max, 3, t) <==> Hits(origin, direction, min, max, t)
  {
    forall axis | 0 <= axis < 3
      ensures Passes(origin, direction, min, max, axis, t) <==> InSlab(origin, direction, min, max, axis, t)
    {
    }
  }

  /** When the ray crosses the plane of one face. */
  function Crossing(origin: Vector, direction: Vector, face: Vector, axis: int): real
    requires 0 <= axis < 3 && direction.At(axis) != 0.0
  {
    (face.At(axis) - origin.At(axis)) / direction.At(axis)
  }

  lemma SlabMeans(origin: Vector, direction: Vector, min: Vector, max: Vector, axis: int, t: real)
    requires 0 <= axis < 3 && direction.At(axis) != 0.0
    ensures InSlab(origin, direction, min, max, axis, t) <==>
      Between(t, Crossing(origin, direction, min, axis), Crossing(origin, direction, max, axis))
  {
    Crossings(origin.At(axis), direction.At(axis), min.At(axis), max.At(axis), t);
  }

  lemma OneMoreSlab(origin: Vector, direction: Vector, min: Vector, max: Vector, axis: int, span: Span,
                    first: real, second: real, t: real)
    requires 0 <= axis < 3 && t >= 0.0
    requires InSlab(origin, direction, min, max, axis, t) <==> Between(t, first, second)
    requires InSlabs(origin, direction, min, max, axis, t) <==> Within(span, t)
    ensures InSlabs(origin, direction, min, max, axis + 1, t) <==> Within(Narrowed(span, first, second), t)
  {
    NarrowedMeans(span, first, second, t);
    OneMoreAxis(origin, direction, min, max, axis, t);
  }

  lemma OneMoreAxis(origin: Vector, direction: Vector, min: Vector, max: Vector, axis: int, t: real)
    requires 0 <= axis < 3
    ensures InSlabs(origin, direction, min, max, axis + 1, t) <==>
      InSlabs(origin, direction, min, max, axis, t) && InSlab(origin, direction, min, max, axis, t)
  {
  }

  // ----- The dig lock -----

  const EYE: Vector := Vector(0.0, 0.0, 0.0)

  function Lowest(centre: Vector): Vector {
    Vector(centre.x - HALF, centre.y - HALF, centre.z - HALF)
  }

  function Highest(centre: Vector): Vector {
    Vector(centre.x + HALF, centre.y + HALF, centre.z + HALF)
  }

  function Flattened(d: real): real {
    if Abs(d) <= EPSILON then 0.0 else d
  }

  /** The direction the test is really made with: a component too small to divide
      by counts as none. */
  function Straightened(forward: Vector): Vector {
    Vector(Flattened(forward.x), Flattened(forward.y), Flattened(forward.z))
  }

  /** A dig holds while the line of sight, less its negligible components, still
      passes through the block's box in front of the eye. */
  method KeepsLock(toBlock: Vector, forward: Vector, blockHasMaterial: bool) returns (kept: bool)
    ensures kept <==> blockHasMaterial && Meets(EYE, Straightened(forward), Lowest(toBlock), Highest(toBlock))
  {
    if !blockHasMaterial {
      return false;
    }
    ghost var line, low, high := Straightened(forward), Lowest(toBlock), Highest(toBlock);
    var near := 0.0;
    var far: Option<real> := None;
    for axis := 0 to 3
      invariant near >= 0.0
      invariant forall t :: InSlabs(EYE, line, low, high, axis, t) <==> Within(Span(Some(near), far), t)
    {
      var direction := forward.At(axis);
      var centre := toBlock.At(axis);
      ghost var before := Span(Some(near), far);
      if Abs(direction) <= EPSILON {
        if Abs(centre) > HALF {
          forall t ensures !Hits(EYE, line, low, high, t) {
            assert !InSlab(EYE, line, low, high, axis, t);
          }
          return false;
        }
        forall t ensures InSlabs(EYE, line, low, high, axis + 1, t) <==> Within(before, t) {
          ParallelSlab(toBlock, line, axis, t);
        }
        continue;
      }
      var one := (centre - HALF) / direction;
      var other := (centre + HALF) / direction;
      near := Max(near, Min(one, other));
      far := Some(if far.None? then Max(one, other) else Min(far.value, Max(one, other)));
      forall t ensures InSlabs(EYE, line, low, high, axis + 1, t) <==> Within(Span(Some(near), far), t) {
        if t >= 0.0 {
          SlabMeans(EYE, line, low, high, axis, t);
          OneMoreSlab(EYE, line, low, high, axis, before, one, other, t);
        }
      }
    }
    kept := far.None? || near <= far.value;
    if kept {
      assert Within(Span(Some(near), far), near);
      assert Hits(EYE, line, low, high, near);
    } else {
      forall t ensures !Hits(EYE, line, low, high, t) {
        assert !Within(Span(Some(near), far), t);
      }
    }
  }

  lemma ParallelSlab(toBlock: Vector, line: Vector, axis: int, t: real)
    requires 0 <= axis < 3 && line.At(axis) == 0.0 && Abs(toBlock.At(axis)) <= HALF
    ensures InSlabs(EYE, line, Lowest(toBlock), Highest(toBlock), axis + 1, t)
      <==> InSlabs(EYE, line, Lowest(toBlock), Highest(toBlock), axis, t)
  {
    assert InSlab(EYE, line, Lowest(toBlock), Highest(toBlock), axis, t);
  }

  /** No component is small without being zero. */
  predicate NoneNegligible(forward: Vector) {
    forall axis :: 0 <= axis < 3 ==> forward.At(axis) == 0.0 || Abs(forward.At(axis)) > EPSILON
  }

  /** On this block the test's answer is the answer for the true line of sight. */
  ghost predicate JudgedTruly(toBlock: Vector, forward: Vector) {
    Meets(EYE, Straightened(forward), Lowest(toBlock), Highest(toBlock)) <==>
    Meets(EYE, forward, Lowest(toBlock), Highest(toBlock))
  }

  /** Blocks whose middle is within `reach` along each axis. */
  predicate InReach(toBlock: Vector, reach: real) {
    Abs(toBlock.x) <= reach && Abs(toBlock.y) <= reach && Abs(toBlock.z) <= reach
  }

  /** The lock asks about the true line of sight, of every block within any reach
      that goes as far as the next block at all, exactly when no component of the
      direction is negligible. */
  lemma LockIsTrueSight(forward: Vector, reach: real)
    requires reach >= 2.5
    ensures NoneNegligible(forward) <==> forall toBlock :: InReach(toBlock, reach) ==> JudgedTruly(toBlock, forward)
  {
    if NoneNegligible(forward) {
      assert forward.At(0) == forward.x && forward.At(1) == forward.y && forward.At(2) == forward.z;
      assert Straightened(forward) == forward;
    } else {
      var axis :| 0 <= axis < 3 && forward.At(axis) != 0.0 && Abs(forward.At(axis)) <= EPSILON;
      var toBlock := GrazedBlock(forward, axis);
      assert InReach(toBlock, reach) && !JudgedTruly(toBlock, forward);
    }
  }

  predicate ShortAlong(d: real, t: real) {
    Abs(t * d) <= 1.0 && (d > 0.0 ==> t * d > 0.0) && (d < 0.0 ==> t * d < 0.0)
  }

  lemma SmallEnough(most: real) returns (t: real)
    requires most >= 1.0
    ensures t > 0.0 && t * most <= 1.0
  {
    t := 1.0 / most;
  }

  lemma ShortIfSmall(d: real, most: real, t: real)
    requires Abs(d) <= most && t > 0.0 && t * most <= 1.0
    ensures ShortAlong(d, t)
  {
    assert t * (most - Abs(d)) >= 0.0;
    assert t * most == t * Abs(d) + t * (most - Abs(d));
    assert Abs(t * d) == t * Abs(d);
  }

  /** A share of the direction no longer than one along any axis. */
  lemma SmallShare(forward: Vector) returns (t: real)
    ensures t > 0.0 && ShortAlong(forward.At(0), t) && ShortAlong(forward.At(1), t) && ShortAlong(forward.At(2), t)
  {
    var most := 1.0 + Abs(forward.x) + Abs(forward.y) + Abs(forward.z);
    t := SmallEnough(most);
    ShortIfSmall(forward.x, most, t);
    ShortIfSmall(forward.y, most, t);
    ShortIfSmall(forward.z, most, t);
  }

  lemma Nudged(m: real, d: real, atEdge: bool)
    requires Abs(m) <= 1.0 && (d > 0.0 ==> m > 0.0) && (d < 0.0 ==> m < 0.0)
    ensures var v := m + (if !atEdge then 0.0 else if d > 0.0 then HALF else -HALF);
      Abs(v) <= 2.5 && (atEdge && d != 0.0 ==> Abs(v) > HALF)
  {
  }

  lemma TouchingNear(forward: Vector, axis: int, edge: int, t: real)
    requires 0 <= axis < 3 && 0 <= edge < 3
    requires ShortAlong(forward.At(axis), t)
    ensures Abs(Touching(forward, axis, edge, t)) <= 2.5
    ensures axis == edge && forward.At(edge) != 0.0 ==> Abs(Touching(forward, axis, edge, t)) > HALF
  {
    Nudged(t * forward.At(axis), forward.At(axis), axis == edge);
  }

  /** A block the line of sight touches from within arm's length, and the
      straightened line does not. */
  lemma GrazedBlock(forward: Vector, axis: int) returns (toBlock: Vector)
    requires 0 <= axis < 3 && forward.At(axis) != 0.0 && Abs(forward.At(axis)) <= EPSILON
    ensures InReach(toBlock, 2.5) && !JudgedTruly(toBlock, forward)
  {
    var t := SmallShare(forward);
    TouchingNear(forward, 0, axis, t);
    TouchingNear(forward, 1, axis, t);
    TouchingNear(forward, 2, axis, t);
    toBlock := Vector(Touching(forward, 0, axis, t), Touching(forward, 1, axis, t), Touching(forward, 2, axis, t));
    TouchedAt(forward, axis, t, toBlock);
    StraightMisses(forward, toBlock, axis);
  }

  /** The middle of a block whose near face along `edge`, and whose middle along
      the other axes, the line is at. */
  function Touching(forward: Vector, axis: int, edge: int, t: real): real
    requires 0 <= axis < 3 && 0 <= edge < 3
  {
    t * forward.At(axis) + (if axis != edge then 0.0 else if forward.At(edge) > 0.0 then HALF else -HALF)
  }

  lemma TouchedAt(forward: Vector, edge: int, t: real, toBlock: Vector)
    requires 0 <= edge < 3 && t > 0.0
    requires forall axis :: 0 <= axis < 3 ==> toBlock.At(axis) == Touching(forward, axis, edge, t)
    ensures Meets(EYE, forward, Lowest(toBlock), Highest(toBlock))
  {
    forall axis | 0 <= axis < 3 ensures InSlab(EYE, forward, Lowest(toBlock), Highest(toBlock), axis, t) {
      assert toBlock.At(axis) == Touching(forward, axis, edge, t);
    }
    assert Hits(EYE, forward, Lowest(toBlock), Highest(toBlock), t);
  }

  lemma StraightMisses(forward: Vector, toBlock: Vector, axis: int)
    requires 0 <= axis < 3 && Abs(forward.At(axis)) <= EPSILON && Abs(toBlock.At(axis)) > HALF
    ensures !Meets(EYE, Straightened(forward), Lowest(toBlock), Highest(toBlock))
  {
    forall t ensures !Hits(EYE, Straightened(forward), Lowest(toBlock), Highest(toBlock), t) {
      assert !InSlab(EYE, Straightened(forward), Lowest(toBlock), Highest(toBlock), axis, t);
    }
  }

  // ----- The two tests together -----

  /** The line runs along a face of the block, neither in nor out. */
  predicate RunsAlongFace(toBlock: Vector, line: Vector) {
    AlongFaceOf(toBlock, line, 0) || AlongFaceOf(toBlock, line, 1) || AlongFaceOf(toBlock, line, 2)
  }

  lemma AlongOneFace(d: real, centre: real, t: real)
    ensures PassesAt(0.0, d, centre - HALF, centre + HALF, t) <==>
      Between(0.0 + t * d, centre - HALF, centre + HALF) && !(d == 0.0 && Abs(centre) == HALF)
  {
    if d == 0.0 {
      assert t * d == 0.0;
    }
  }

  /** Along one axis. */
  predicate AlongFaceOf(toBlock: Vector, line: Vector, axis: int)
    requires 0 <= axis < 3
  {
    line.At(axis) == 0.0 && Abs(toBlock.At(axis)) == HALF
  }

  lemma AlongAxis(toBlock: Vector, line: Vector, axis: int, t: real)
    requires 0 <= axis < 3
    ensures Passes(EYE, line, Lowest(toBlock), Highest(toBlock), axis, t) <==>
      InSlab(EYE, line, Lowest(toBlock), Highest(toBlock), axis, t) && !AlongFaceOf(toBlock, line, axis)
  {
    AlongOneFace(line.At(axis), toBlock.At(axis), t);
    assert EYE.At(axis) == 0.0;
    assert Lowest(toBlock).At(axis) == toBlock.At(axis) - HALF && Highest(toBlock).At(axis) == toBlock.At(axis) + HALF;
  }

  lemma AlongFaceExact(toBlock: Vector, line: Vector, t: real)
    ensures PassesAll(EYE, line, Lowest(toBlock), Highest(toBlock), 3, t)
      <==> Hits(EYE, line, Lowest(toBlock), Highest(toBlock), t) && !RunsAlongFace(toBlock, line)
  {
    AlongAxis(toBlock, line, 0, t);
    AlongAxis(toBlock, line, 1, t);
    AlongAxis(toBlock, line, 2, t);
    Threefold(EYE, line, Lowest(toBlock), Highest(toBlock), t);
  }

  /** What three axes come to. */
  lemma Threefold(origin: Vector, direction: Vector, min: Vector, max: Vector, t: real)
    ensures PassesAll(origin, direction, min, max, 3, t) <==>
      t >= 0.0 && Passes(origin, direction, min, max, 0, t) && Passes(origin, direction, min, max, 1, t) && Passes(origin, direction, min, max, 2, t)
    ensures Hits(origin, direction, min, max, t) <==>
      t >= 0.0 && InSlab(origin, direction, min, max, 0, t) && InSlab(origin, direction, min, max, 1, t) && InSlab(origin, direction, min, max, 2, t)
  {
    OneMorePass(origin, direction, min, max, 0, t);
    OneMorePass(origin, direction, min, max, 1, t);
    OneMorePass(origin, direction, min, max, 2, t);
    OneMoreAxis(origin, direction, min, max, 0, t);
    OneMoreAxis(origin, direction, min, max, 1, t);
    OneMoreAxis(origin, direction, min, max, 2, t);
  }

  /** On a block that is there, along the line the lock looks along, the two tests
      agree if and only if the line misses the block or does not run along one
      of its faces: there the lock holds and `ray_box` misses. */
  method LockAndRay(toBlock: Vector, forward: Vector, negative: int -> bool) returns (kept: bool, entry: Option<Float>)
    ensures !Still(Straightened(forward)) ==> (entry.Some? <==> kept && !RunsAlongFace(toBlock, Straightened(forward)))
    ensures kept <==> Meets(EYE, Straightened(forward), Lowest(toBlock), Highest(toBlock))
  {
    var line, low, high := Straightened(forward), Lowest(toBlock), Highest(toBlock);
    kept := KeepsLock(toBlock, forward, true);
    entry := RayBox(EYE, line, negative, low, high);
    forall t ensures PassesAll(EYE, line, low, high, 3, t) <==> Hits(EYE, line, low, high, t) && !RunsAlongFace(toBlock, line) {
      AlongFaceExact(toBlock, line, t);
    }
  }
}
