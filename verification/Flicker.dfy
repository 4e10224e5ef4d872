/** A source's flicker (`crates/client/src/flicker.rs`): smooth value noise in
    time.  Floats are reals; the step's saturating cast, its wrapping successor
    and the bit mixing are kept. */
module Flicker {

  const I32_MIN: int := -0x8000_0000
  const I32_MAX: int := 0x7FFF_FFFF

  newtype Int32 = i: int | -0x8000_0000 <= i <= 0x7FFF_FFFF

  function Saturated(i: int): Int32 {
    if i < I32_MIN then I32_MIN as Int32 else if i > I32_MAX then I32_MAX as Int32 else i as Int32
  }

  /** A float-to-integer cast: toward zero, and saturating. */
  function Cast(x: real): Int32 {
    Saturated(if x >= 0.0 then x.Floor else -(-x).Floor)
  }

  /** The floor, without the instruction for it: exact wherever it fits. */
  function FloorToI32(x: real): (step: Int32)
    ensures step == Saturated(x.Floor)
  {
    var truncated := Cast(x);
    Saturated(truncated as int - if x < truncated as real then 1 else 0)
  }

  function Next(step: Int32): Int32 {
    if step as int == I32_MAX then I32_MIN as Int32 else step + 1
  }

  function Bits(step: Int32): bv32 {
    (if step < 0 then step as int + 0x1_0000_0000 else step as int) as bv32
  }

  function Mixed(step: Int32): bv32 {
    var n := Bits(step) * 0x9E37_79B1;
    var m := (n ^ (n >> 15)) * 0x85EB_CA6B;
    m ^ (m >> 13)
  }

  /** The low sixteen bits. */
  function Low(n: bv32): (k: int)
    ensures 0 <= k <= 65535
  {
    (n & 0xFFFF) as bv16 as int
  }

  function Hash(step: Int32): (h: real)
    ensures 0.0 <= h <= 1.0
  {
    Low(Mixed(step)) as real / 65535.0
  }

  function Abs(x: real): real { if x < 0.0 then -x else x }

  function Clamped(x: real): (r: real)
    ensures 0.0 <= r <= 1.0
  {
    if x < 0.0 then 0.0 else if x > 1.0 then 1.0 else x
  }

  /** The easing between one step's level and the next's. */
  function Eased(f: real): real {
    f * f * (3.0 - 2.0 * f)
  }

  function Blend(a: real, b: real, s: real): real {
    a + (b - a) * s
  }

  function NoiseIn(step: Int32, f: real): (n: real)
    ensures 0.0 <= n <= 1.0
  {
    Clamped(Blend(Hash(step), Hash(Next(step)), Eased(f)))
  }

  function Noise(t: real): (n: real)
    ensures 0.0 <= n <= 1.0
  {
    var step := FloorToI32(t);
    NoiseIn(step, t - step as real)
  }

  function Instant(t: real, rate: real, phase: real): real {
    t * rate + phase
  }

  function Dimmed(noise: real -> real, t: real, rate: real, phase: real, depth: real): real {
    1.0 - Clamped(depth) * noise(Instant(t, rate, phase))
  }

  function Factor(t: real, rate: real, phase: real, depth: real): real {
    Dimmed(Noise, t, rate, phase, depth)
  }

  // ----- The easing -----

  /** How steep the easing is between two instants of a step. */
  function Slope(f: real, g: real): real {
    3.0 * (f + g) - 2.0 * (f * f + f * g + g * g)
  }

  lemma SlopeMeans(f: real, g: real)
    ensures Eased(g) - Eased(f) == (g - f) * Slope(f, g)
  {
  }

  lemma Product(a: real, b: real)
    ensures a >= 0.0 && b >= 0.0 ==> a * b >= 0.0
  {
  }

  lemma Sign(a: real)
    ensures a * a >= 0.0
  {
  }

  lemma SlopeBounded(f: real, g: real)
    requires 0.0 <= f <= 1.0 && 0.0 <= g <= 1.0
    ensures 0.0 <= Slope(f, g) <= 1.5
  {
    var u, v := f - 0.5, g - 0.5;
    assert Slope(f, g) == 1.5 - 2.0 * (u * u + u * v + v * v);
    assert u * u + u * v + v * v == (u + 0.5 * v) * (u + 0.5 * v) + 0.75 * (v * v);
    Sign(u + 0.5 * v);
    Sign(v);
    Product(0.5 - u, 0.5 + u);
    Product(0.5 - v, 0.5 + v);
    Product(0.5 - u, 0.5 + v);
    Product(0.5 + u, 0.5 - v);
  }

  lemma EasedGently(f: real, g: real)
    requires 0.0 <= f <= g <= 1.0
    ensures 0.0 <= Eased(g) - Eased(f) <= 1.5 * (g - f)
  {
    SlopeMeans(f, g);
    SlopeBounded(f, g);
    Product(g - f, Slope(f, g));
    Product(g - f, 1.5 - Slope(f, g));
  }

  lemma BlendGently(a: real, b: real, s: real, r: real, most: real)
    requires 0.0 <= a <= 1.0 && 0.0 <= b <= 1.0 && 0.0 <= s - r <= most
    ensures Abs(Blend(a, b, s) - Blend(a, b, r)) <= most
  {
    assert Blend(a, b, s) - Blend(a, b, r) == (b - a) * (s - r);
    Product(1.0 - (b - a), s - r);
    Product(1.0 + (b - a), s - r);
  }

  lemma ClampGently(x: real, y: real)
    ensures Abs(Clamped(x) - Clamped(y)) <= Abs(x - y)
  {
  }

  // ----- The noise -----

  predicate InRange(t: real) {
    I32_MIN as real <= t < I32_MAX as real + 1.0
  }

  /** Within one step. */
  lemma SameStep(t: real, u: real)
    requires InRange(t) && InRange(u) && t <= u && t.Floor == u.Floor
    ensures Abs(Noise(u) - Noise(t)) <= 1.5 * (u - t)
  {
    var step := FloorToI32(t);
    var f, g := t - step as real, u - step as real;
    EasedGently(f, g);
    BlendGently(Hash(step), Hash(Next(step)), Eased(g), Eased(f), 1.5 * (g - f));
    ClampGently(Blend(Hash(step), Hash(Next(step)), Eased(g)), Blend(Hash(step), Hash(Next(step)), Eased(f)));
  }

  lemma AtBoundary(boundary: int)
    requires InRange(boundary as real)
    ensures Noise(boundary as real) == Hash(boundary as Int32)
  {
    StartOfBlend(Hash(boundary as Int32), Hash(Next(boundary as Int32)));
    assert FloorToI32(boundary as real) == boundary as Int32;
  }

  lemma StartOfBlend(a: real, b: real)
    requires 0.0 <= a <= 1.0
    ensures Clamped(Blend(a, b, Eased(0.0))) == a
  {
    assert Eased(0.0) == 0.0;
  }

  lemma EndOfBlend(a: real, b: real)
    requires 0.0 <= b <= 1.0
    ensures Clamped(Blend(a, b, Eased(1.0))) == b
  {
    assert Eased(1.0) == 1.0;
  }

  /** Up to the start of the next step, whose level is where this one ends. */
  lemma ToNextStep(t: real, boundary: int)
    requires InRange(t) && boundary == t.Floor + 1 && InRange(boundary as real)
    ensures Abs(Noise(boundary as real) - Noise(t)) <= 1.5 * (boundary as real - t)
  {
    var step, f := FloorToI32(t), t - (boundary - 1) as real;
    assert step as int == boundary - 1 && Next(step) == boundary as Int32;
    assert Noise(t) == NoiseIn(step, f);
    AtBoundary(boundary);
    StepGently(step, f);
  }

  lemma StepGently(step: Int32, f: real)
    requires 0.0 <= f <= 1.0
    ensures Abs(Hash(Next(step)) - NoiseIn(step, f)) <= 1.5 * (1.0 - f)
  {
    var a, b := Hash(step), Hash(Next(step));
    EndOfBlend(a, b);
    EasedGently(f, 1.0);
    BlendGently(a, b, Eased(1.0), Eased(f), 1.5 * (1.0 - f));
    ClampGently(Blend(a, b, Eased(1.0)), Blend(a, b, Eased(f)));
  }

  lemma NoiseOrdered(t: real, u: real)
    requires InRange(t) && InRange(u) && t <= u
    ensures Abs(Noise(u) - Noise(t)) <= 1.5 * (u - t)
  {
    if t.Floor == u.Floor {
      SameStep(t, u);
    } else if u.Floor == t.Floor + 1 {
      ToNextStep(t, u.Floor);
      SameStep(u.Floor as real, u);
    }
  }

  /** The noise never changes faster than three halves a step, across the seams
      between steps as well as inside them. */
  lemma NoiseGentle(t: real, u: real)
    requires InRange(t) && InRange(u)
    ensures Abs(Noise(u) - Noise(t)) <= 1.5 * Abs(u - t)
  {
    if t <= u { NoiseOrdered(t, u); } else { NoiseOrdered(u, t); }
  }

  /** What a single-precision instant is known by out here: from two to the
      thirtieth on, its values are a hundred and twenty-eight apart or more. */
  predicate Single(t: real) {
    Abs(t) >= 1073741824.0 ==> t == 128.0 * (t / 128.0).Floor as real
  }

  lemma SinglesApart(t: real, u: real)
    requires Single(t) && Single(u) && t != u && !(InRange(t) && InRange(u))
    ensures Abs(u - t) >= 1.0
  {
    if Abs(t) >= 1073741824.0 && Abs(u) >= 1073741824.0 {
      var n, m := (t / 128.0).Floor, (u / 128.0).Floor;
      assert m != n;
      assert u - t == 128.0 * (m - n) as real;
      assert (m - n) as real >= 1.0 || (m - n) as real <= -1.0;
    }
  }

  /** Two instants the bound is about: both with a step that fits, or any two at
      all that single precision can hold. */
  predicate Instants(t: real, u: real) {
    (InRange(t) && InRange(u)) || (Single(t) && Single(u))
  }

  /** So it is for every two instants there are, the ones past the last step that
      fits included, where the cast saturates: no two of those are near enough
      for the noise to jump between them. */
  lemma NoiseGentleAlways(t: real, u: real)
    requires Instants(t, u)
    ensures Abs(Noise(u) - Noise(t)) <= 1.5 * Abs(u - t)
  {
    if InRange(t) && InRange(u) {
      NoiseGentle(t, u);
    } else if t != u {
      SinglesApart(t, u);
      assert 0.0 <= Noise(t) <= 1.0 && 0.0 <= Noise(u) <= 1.0;
    }
  }

  // ----- The factor -----

  lemma DimmedBounds(d: real, n: real)
    requires 0.0 <= d && 0.0 <= n <= 1.0
    ensures 1.0 - d <= 1.0 - d * n <= 1.0
  {
    Product(d, n);
    Product(d, 1.0 - n);
  }

  /** What the factor needs of the noise. */
  ghost predicate Unit(noise: real -> real) {
    forall x :: 0.0 <= noise(x) <= 1.0
  }

  ghost predicate Gentle(noise: real -> real) {
    forall x, y :: Instants(x, y) ==> Abs(noise(y) - noise(x)) <= 1.5 * Abs(y - x)
  }

  lemma NoiseIsGentle()
    ensures Unit(Noise) && Gentle(Noise)
  {
    forall x, y | Instants(x, y) ensures Abs(Noise(y) - Noise(x)) <= 1.5 * Abs(y - x) {
      NoiseGentleAlways(x, y);
    }
  }

  lemma DimmedBounded(noise: real -> real, t: real, rate: real, phase: real, depth: real)
    requires Unit(noise)
    ensures 1.0 - Clamped(depth) <= Dimmed(noise, t, rate, phase, depth) <= 1.0
  {
    DimmedBounds(Clamped(depth), noise(Instant(t, rate, phase)));
  }

  /** A source gives between `1 - depth` of its light and all of it. */
  lemma FactorBounded(t: real, rate: real, phase: real, depth: real)
    ensures 1.0 - Clamped(depth) <= Factor(t, rate, phase, depth) <= 1.0
  {
    NoiseIsGentle();
    DimmedBounded(Noise, t, rate, phase, depth);
  }

  lemma Scaled(a: real, b: real)
    ensures Abs(a * b) == Abs(a) * Abs(b)
  {
  }

  lemma Apart(t: real, u: real, rate: real, phase: real)
    ensures Abs(Instant(u, rate, phase) - Instant(t, rate, phase)) == Abs(rate) * Abs(u - t)
  {
    assert Instant(u, rate, phase) - Instant(t, rate, phase) == rate * (u - t);
    Scaled(rate, u - t);
  }

  lemma DimmedApart(d: real, n: real, m: real, apart: real)
    requires 0.0 <= d && Abs(m - n) <= 1.5 * apart
    ensures Abs((1.0 - d * m) - (1.0 - d * n)) <= 1.5 * d * apart
  {
    assert (1.0 - d * m) - (1.0 - d * n) == d * (n - m);
    Product(d, 1.5 * apart - (m - n));
    Product(d, 1.5 * apart + (m - n));
  }

  lemma DimmedGentle(noise: real -> real, t: real, u: real, rate: real, phase: real, depth: real)
    requires Gentle(noise) && Instants(Instant(t, rate, phase), Instant(u, rate, phase))
    ensures Abs(Dimmed(noise, u, rate, phase, depth) - Dimmed(noise, t, rate, phase, depth))
      <= 1.5 * Clamped(depth) * (Abs(rate) * Abs(u - t))
  {
    Apart(t, u, rate, phase);
    var x, y := Instant(t, rate, phase), Instant(u, rate, phase);
    DimmedApart(Clamped(depth), noise(x), noise(y), Abs(rate) * Abs(u - t));
  }

  /** And never changes faster than three halves of its depth a step. */
  lemma FactorGentle(t: real, u: real, rate: real, phase: real, depth: real)
    requires Instants(Instant(t, rate, phase), Instant(u, rate, phase))
    ensures Abs(Factor(u, rate, phase, depth) - Factor(t, rate, phase, depth))
      <= 1.5 * Clamped(depth) * (Abs(rate) * Abs(u - t))
  {
    NoiseIsGentle();
    DimmedGentle(Noise, t, u, rate, phase, depth);
  }

  // ----- What the noise is -----

  /** Some of the levels, as the bits of the step mix them. */
  lemma LevelsKnown()
    ensures Hash(0) == 0.0 && Hash(1) == 48644.0 / 65535.0 && Hash(2) == 57509.0 / 65535.0
    ensures Hash(-1) == 43720.0 / 65535.0 && Hash(1000) == 7709.0 / 65535.0
  {
    assert Mixed(0) == 0 && Mixed(1) == 0xF281_BE04 && Mixed(2) == 0xFFC9_E0A5;
    assert Mixed(-1) == 0x5EA2_AAC8 && Mixed(1000) == 0x5C3A_1E1D;
  }

  /** `n` eases from `a` to `b`, `f` of the way: at the start it is `a`, half way
      the mean of the two, and never out of their range. */
  predicate EasesBetween(a: real, b: real, f: real, n: real) {
    && n == a + (b - a) * (f * f * (3.0 - 2.0 * f))
    && (f == 0.0 ==> n == a) && (f == 0.5 ==> n == (a + b) / 2.0)
    && (a <= n <= b || b <= n <= a)
  }

  /** From one step to the next the noise eases between their levels. */
  lemma NoiseExact(step: int, f: real, a: real, b: real, n: real)
    requires I32_MIN <= step < I32_MAX && 0.0 <= f < 1.0
    requires a == Hash(step as Int32) && b == Hash((step + 1) as Int32) && n == Noise(step as real + f)
    ensures EasesBetween(a, b, f, n)
  {
    NoiseIs(step, f);
    BetweenLevels(a, b, f);
  }

  lemma NoiseIs(step: int, f: real)
    requires I32_MIN <= step < I32_MAX && 0.0 <= f < 1.0
    ensures Noise(step as real + f) == Clamped(Blend(Hash(step as Int32), Hash((step + 1) as Int32), Eased(f)))
  {
    var t := step as real + f;
    assert t.Floor == step && FloorToI32(t) == step as Int32 && Next(step as Int32) == (step + 1) as Int32;
    assert t - step as real == f;
  }

  lemma BetweenLevels(a: real, b: real, f: real)
    requires 0.0 <= a <= 1.0 && 0.0 <= b <= 1.0 && 0.0 <= f < 1.0
    ensures EasesBetween(a, b, f, Clamped(Blend(a, b, Eased(f))))
  {
    EasedGently(0.0, f);
    EasedGently(f, 1.0);
    assert Eased(0.0) == 0.0 && Eased(1.0) == 1.0 && Eased(0.5) == 0.5;
    Within(a, b, Eased(f));
  }

  lemma Within(a: real, b: real, s: real)
    requires 0.0 <= a <= 1.0 && 0.0 <= b <= 1.0 && 0.0 <= s <= 1.0
    ensures a <= Blend(a, b, s) <= b || b <= Blend(a, b, s) <= a
    ensures Clamped(Blend(a, b, s)) == Blend(a, b, s)
    ensures s == 0.0 ==> Blend(a, b, s) == a
    ensures s == 0.5 ==> Blend(a, b, s) == (a + b) / 2.0
  {
    if a <= b {
      Product(b - a, s);
      Product(b - a, 1.0 - s);
    } else {
      Product(a - b, s);
      Product(a - b, 1.0 - s);
    }
  }

  /** No depth leaves all the light, full depth all but the noise, and between them
      in proportion. */
  predicate DimsBy(depth: real, noise: real, light: real) {
    && (depth <= 0.0 ==> light == 1.0) && (depth >= 1.0 ==> light == 1.0 - noise)
    && (0.0 <= depth <= 1.0 ==> light == 1.0 - depth * noise)
  }

  /** A source is dimmed by the noise at its own instant. */
  lemma FactorExact(t: real, rate: real, phase: real, depth: real, noise: real, light: real)
    requires noise == Noise(t * rate + phase) && light == Factor(t, rate, phase, depth)
    ensures DimsBy(depth, noise, light)
  {
    DimmedExact(Noise, t, rate, phase, depth);
  }

  lemma DimmedExact(noise: real -> real, t: real, rate: real, phase: real, depth: real)
    ensures DimsBy(depth, noise(t * rate + phase), Dimmed(noise, t, rate, phase, depth))
  {
  }
}
