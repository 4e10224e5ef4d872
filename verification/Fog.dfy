/** What the fog hides (`past_the_fog`, `crates/client/src/app.rs`).  Offsets are
    in blocks from the camera; floats are reals.  The length of a vector comes
    from the vector library, so it is a parameter known only by what it measures. */
module Fog {

  datatype Offset = Offset(x: real, y: real, z: real)

  /** How far the fog lets one see, sideways and up or down. */
  datatype Reach = Reach(far: real, up: real)
  {
    predicate Positive() { far > 0.0 && up > 0.0 }
  }

  const HALF_CHUNK_DIAGONAL: real := 13.86
  const CHUNK_SPAN: real := 16.0

  function Max(a: real, b: real): real { if a < b then b else a }
  function Abs(a: real): real { if a < 0.0 then -a else a }
  function Square(a: real): real { a * a }

  /** `length` is the length of a vector of the plane. */
  ghost predicate Measures(length: (real, real) -> real) {
    forall x, z :: length(x, z) >= 0.0 && Square(length(x, z)) == Square(x) + Square(z)
  }

  function Middle(corner: Offset): Offset {
    Offset(corner.x + CHUNK_SPAN * 0.5, corner.y + CHUNK_SPAN * 0.5, corner.z + CHUNK_SPAN * 0.5)
  }

  /** How near a distance can come when the chunk reaches half a diagonal. */
  function Nearest(distance: real): real {
    Max(distance - HALF_CHUNK_DIAGONAL, 0.0)
  }

  predicate Past(length: (real, real) -> real, middle: Offset, reach: Reach) {
    reach.Positive() &&
    Square(Nearest(length(middle.x, middle.z)) / reach.far) + Square(Nearest(Abs(middle.y)) / reach.up) > 1.0
  }

  /** A point the fog leaves something of: inside the ellipsoid. */
  predicate Seen(p: Offset, reach: Reach)
    requires reach.Positive()
  {
    Square(p.x / reach.far) + Square(p.z / reach.far) + Square(p.y / reach.up) <= 1.0
  }

  predicate InCube(corner: Offset, p: Offset) {
    && corner.x <= p.x <= corner.x + CHUNK_SPAN
    && corner.y <= p.y <= corner.y + CHUNK_SPAN
    && corner.z <= p.z <= corner.z + CHUNK_SPAN
  }

  /** The upright drum half a chunk's diagonal about `middle`. */
  predicate InDrum(middle: Offset, p: Offset) {
    && Square(p.x - middle.x) + Square(p.z - middle.z) <= Square(HALF_CHUNK_DIAGONAL)
    && Abs(p.y - middle.y) <= HALF_CHUNK_DIAGONAL
  }

  // ----- Arithmetic -----

  lemma Product(a: real, b: real, c: real)
    requires c == a * b
    ensures a > 0.0 && b > 0.0 ==> c > 0.0
    ensures a >= 0.0 && b >= 0.0 ==> c >= 0.0
  {
  }

  lemma SquareGrows(a: real, b: real)
    requires 0.0 <= a
    ensures a <= b ==> Square(a) <= Square(b)
    ensures 0.0 <= b && Square(a) <= Square(b) ==> a <= b
  {
    Product(b - a, b + a, Square(b) - Square(a));
    Product(a - b, a + b, Square(a) - Square(b));
  }

  lemma Quotient(a: real, b: real, d: real)
    requires d > 0.0
    ensures a <= b <==> a / d <= b / d
    ensures a >= 0.0 <==> a / d >= 0.0
  {
    var p, q := a / d, b / d;
    assert p * d == a && q * d == b;
    assert (q - p) * d == b - a;
  }

  lemma SquareOfQuotient(a: real, d: real)
    requires d > 0.0
    ensures Square(d) > 0.0
    ensures Square(a / d) == Square(a) / Square(d)
  {
    var q := a / d;
    assert a == q * d;
    Product(d, d, Square(d));
    TimesOver(Square(q), Square(d), Square(a)) by {
      assert Square(q * d) == Square(q) * Square(d);
    }
  }

  lemma TimesOver(q: real, d: real, a: real)
    requires d > 0.0 && a == q * d
    ensures a / d == q
  {
  }

  lemma Sign(a: real)
    ensures Square(a) >= 0.0 && Square(Abs(a)) == Square(a)
  {
  }

  /** The seen points by their two distances. */
  lemma SeenMeans(p: Offset, reach: Reach, side: real)
    requires reach.Positive() && side >= 0.0 && Square(side) == Square(p.x) + Square(p.z)
    ensures Seen(p, reach) <==> Square(side / reach.far) + Square(Abs(p.y) / reach.up) <= 1.0
  {
    SquareOfQuotient(p.x, reach.far);
    SquareOfQuotient(p.z, reach.far);
    SquareOfQuotient(side, reach.far);
    SumOfQuotients(Square(p.x), Square(p.z), Square(reach.far));
    SquareOfQuotient(p.y, reach.up);
    SquareOfQuotient(Abs(p.y), reach.up);
    Sign(p.y);
  }

  lemma SumOfQuotients(a: real, b: real, d: real)
    ensures d != 0.0 ==> a / d + b / d == (a + b) / d
  {
  }

  /** (c . e) squared is at most |c| squared times |e| squared. */
  lemma Cauchy(cx: real, cz: real, ex: real, ez: real)
    ensures Square(cx * ex + cz * ez) <= (Square(cx) + Square(cz)) * (Square(ex) + Square(ez))
  {
    assert (Square(cx) + Square(cz)) * (Square(ex) + Square(ez))
        == Square(cx * ex + cz * ez) + Square(cx * ez - cz * ex);
    Sign(cx * ez - cz * ex);
  }

  /** Moving less than `h` brings a vector no more than `h` nearer. */
  lemma Triangle(cx: real, cz: real, c: real, px: real, pz: real, p: real, h: real)
    requires c >= 0.0 && p >= 0.0 && h >= 0.0
    requires Square(c) == Square(cx) + Square(cz) && Square(p) == Square(px) + Square(pz)
    requires Square(px - cx) + Square(pz - cz) <= Square(h)
    ensures p >= c - h
  {
    Cauchy(cx, cz, px, pz);
    DotAtMost(cx * px + cz * pz, c, p);
    Expand(cx, cz, px, pz, c, p);
    if c > p {
      SquareGrows(c - p, h);
    }
  }

  lemma DotAtMost(dot: real, c: real, p: real)
    requires c >= 0.0 && p >= 0.0 && Square(dot) <= Square(c) * Square(p)
    ensures dot <= c * p
  {
    assert Square(c * p) == Square(c) * Square(p);
    assert c * p >= 0.0;
    if dot > 0.0 {
      SquareGrows(dot, c * p);
    }
  }

  lemma Expand(cx: real, cz: real, px: real, pz: real, c: real, p: real)
    requires Square(c) == Square(cx) + Square(cz) && Square(p) == Square(px) + Square(pz)
    requires cx * px + cz * pz <= c * p
    ensures Square(c - p) <= Square(px - cx) + Square(pz - cz)
  {
    assert Square(c - p) == Square(c) - 2.0 * (c * p) + Square(p);
    assert Square(px - cx) == Square(px) - 2.0 * (cx * px) + Square(cx);
    assert Square(pz - cz) == Square(pz) - 2.0 * (cz * pz) + Square(cz);
  }

  // ----- What the test means -----

  lemma OneAxis(nearest: real, distance: real, d: real)
    requires 0.0 <= nearest <= distance && d > 0.0
    ensures Square(nearest / d) <= Square(distance / d)
  {
    Quotient(nearest, distance, d);
    Quotient(nearest, nearest, d);
    SquareGrows(nearest / d, distance / d);
  }

  /** Past the fog, nothing of the drum about the chunk is seen. */
  lemma PastHidesDrum(length: (real, real) -> real, middle: Offset, reach: Reach, p: Offset)
    requires Measures(length) && Past(length, middle, reach) && InDrum(middle, p)
    ensures !Seen(p, reach)
  {
    var c, side := length(middle.x, middle.z), length(p.x, p.z);
    Triangle(middle.x, middle.z, c, p.x, p.z, side, HALF_CHUNK_DIAGONAL);
    OneAxis(Nearest(c), side, reach.far);
    OneAxis(Nearest(Abs(middle.y)), Abs(p.y), reach.up);
    SeenMeans(p, reach, side);
  }

  /** `v` brought as near as `nearest` along its own line. */
  function Shrunk(v: real, distance: real): real {
    if distance == 0.0 then 0.0 else v / distance * Nearest(distance)
  }

  /** Brought as near as it comes, a vector is that long and has moved no
      further than the half diagonal. */
  lemma ShrunkMeans(x: real, z: real, c: real)
    requires c >= 0.0 && Square(c) == Square(x) + Square(z)
    ensures Square(Shrunk(x, c)) + Square(Shrunk(z, c)) == Square(Nearest(c))
    ensures Square(Shrunk(x, c) - x) + Square(Shrunk(z, c) - z) <= Square(HALF_CHUNK_DIAGONAL)
  {
    if c > 0.0 {
      var u, w, n := x / c, z / c, Nearest(c);
      assert x == u * c && z == w * c;
      UnitVector(x, z, c);
      Scaled(u, w, n);
      Scaled(u, w, n - c);
      assert u * n - x == u * (n - c) && w * n - z == w * (n - c);
      assert 0.0 <= c - n <= HALF_CHUNK_DIAGONAL;
      SquareGrows(c - n, HALF_CHUNK_DIAGONAL);
      assert Square(n - c) == Square(c - n);
    } else {
      Sign(x);
      Sign(z);
      assert Square(x) == 0.0 && Square(z) == 0.0;
    }
  }

  lemma UnitVector(x: real, z: real, c: real)
    requires c > 0.0 && Square(c) == Square(x) + Square(z)
    ensures Square(x / c) + Square(z / c) == 1.0
  {
    SquareOfQuotient(x, c);
    SquareOfQuotient(z, c);
    SumOfQuotients(Square(x), Square(z), Square(c));
    TimesOver(1.0, Square(c), Square(c));
  }

  lemma Scaled(u: real, w: real, n: real)
    requires Square(u) + Square(w) == 1.0
    ensures Square(u * n) + Square(w * n) == Square(n)
  {
    assert Square(u * n) + Square(w * n) == (Square(u) + Square(w)) * Square(n);
  }

  /** The point of the drum about `middle` that comes nearest the eye. */
  ghost function Closest(length: (real, real) -> real, middle: Offset): (p: Offset)
    requires Measures(length)
    ensures InDrum(middle, p)
    ensures Square(p.x) + Square(p.z) == Square(Nearest(length(middle.x, middle.z)))
    ensures Abs(p.y) == Nearest(Abs(middle.y))
  {
    var c := length(middle.x, middle.z);
    ShrunkMeans(middle.x, middle.z, c);
    Offset(Shrunk(middle.x, c),
           if middle.y < 0.0 then -Nearest(-middle.y) else Nearest(middle.y),
           Shrunk(middle.z, c))
  }

  /** The test is exact for the drum: it holds back a chunk exactly when no point
      within half a diagonal, sideways and upright, is seen. */
  lemma PastExact(length: (real, real) -> real, middle: Offset, reach: Reach)
    requires Measures(length) && reach.Positive()
    ensures Past(length, middle, reach) <==> forall p :: InDrum(middle, p) ==> !Seen(p, reach)
  {
    if Past(length, middle, reach) {
      forall p | InDrum(middle, p) ensures !Seen(p, reach) {
        PastHidesDrum(length, middle, reach, p);
      }
    } else {
      var p := Closest(length, middle);
      SeenMeans(p, reach, Nearest(length(middle.x, middle.z)));
      assert InDrum(middle, p) && Seen(p, reach);
    }
  }

  /** So the cull is sound: no point of a chunk held back is seen. */
  lemma CullIsSound(length: (real, real) -> real, corner: Offset, reach: Reach, p: Offset)
    requires Measures(length) && Past(length, Middle(corner), reach) && InCube(corner, p)
    ensures !Seen(p, reach)
  {
    var m := Middle(corner);
    WithinEight(p.x - m.x);
    WithinEight(p.z - m.z);
    assert Square(p.x - m.x) + Square(p.z - m.z) <= 128.0;
    assert Square(HALF_CHUNK_DIAGONAL) > 128.0;
    PastHidesDrum(length, m, reach, p);
  }

  lemma WithinEight(e: real)
    requires -8.0 <= e <= 8.0
    ensures Square(e) <= 64.0
  {
    Product(8.0 - e, 8.0 + e, 64.0 - Square(e));
  }

  // ----- When the reach changes -----

  lemma ShrinkingKeepsPast(length: (real, real) -> real, middle: Offset, was: Reach, now: Reach)
    requires Measures(length) && now.Positive() && now.far <= was.far && now.up <= was.up
    requires Past(length, middle, was)
    ensures Past(length, middle, now)
  {
    NarrowerQuotient(Nearest(length(middle.x, middle.z)), was.far, now.far);
    NarrowerQuotient(Nearest(Abs(middle.y)), was.up, now.up);
  }

  lemma NarrowerQuotient(a: real, d: real, e: real)
    requires a >= 0.0 && 0.0 < e <= d
    ensures Square(a / d) <= Square(a / e)
  {
    var p, q := a / d, a / e;
    assert p * d == a && q * e == a;
    Quotient(a, a, d);
    Quotient(a, a, e);
    assert q * d >= q * e;
    assert (q - p) * d >= 0.0;
    SquareGrows(p, q);
  }

  /** No chunk, wherever the camera stands, is past the fog before and not after. */
  ghost predicate NothingReturns(length: (real, real) -> real, was: Reach, now: Reach) {
    forall middle :: Past(length, middle, was) ==> Past(length, middle, now)
  }

  /** A changed reach brings nothing back into sight exactly when it has grown
      neither sideways nor up. */
  lemma NothingReturnsExact(length: (real, real) -> real, was: Reach, now: Reach)
    requires Measures(length) && was.Positive() && now.Positive()
    ensures NothingReturns(length, was, now) <==> now.far <= was.far && now.up <= was.up
  {
    if now.far <= was.far && now.up <= was.up {
      forall middle | Past(length, middle, was) ensures Past(length, middle, now) {
        ShrinkingKeepsPast(length, middle, was, now);
      }
    } else if now.far > was.far {
      ReturnsSideways(length, was, now);
    } else {
      ReturnsAbove(length, was, now);
    }
  }

  lemma LengthAlong(length: (real, real) -> real, x: real)
    requires Measures(length) && x >= 0.0
    ensures length(x, 0.0) == x
  {
    var r := length(x, 0.0);
    assert Square(r) == Square(x) + Square(0.0);
    SquareGrows(r, x);
    SquareGrows(x, r);
  }

  lemma Over(a: real, d: real)
    requires d > 0.0 && a >= 0.0
    ensures a <= d <==> Square(a / d) <= 1.0
  {
    Quotient(a, d, d);
    Quotient(a, a, d);
    assert d / d == 1.0;
    SquareGrows(a / d, 1.0);
  }

  lemma ReturnsSideways(length: (real, real) -> real, was: Reach, now: Reach)
    requires Measures(length) && was.Positive() && now.Positive() && now.far > was.far
    ensures !NothingReturns(length, was, now)
  {
    var middle := Offset(HALF_CHUNK_DIAGONAL + now.far, 0.0, 0.0);
    LengthAlong(length, middle.x);
    Over(now.far, was.far);
    Over(now.far, now.far);
    assert Nearest(length(middle.x, middle.z)) == now.far && Nearest(Abs(middle.y)) == 0.0;
    assert Past(length, middle, was) && !Past(length, middle, now);
  }

  lemma ReturnsAbove(length: (real, real) -> real, was: Reach, now: Reach)
    requires Measures(length) && was.Positive() && now.Positive() && now.up > was.up
    ensures !NothingReturns(length, was, now)
  {
    var middle := Offset(0.0, HALF_CHUNK_DIAGONAL + now.up, 0.0);
    LengthAlong(length, 0.0);
    Over(now.up, was.up);
    Over(now.up, now.up);
    assert Nearest(length(middle.x, middle.z)) == 0.0 && Nearest(Abs(middle.y)) == now.up;
    assert Past(length, middle, was) && !Past(length, middle, now);
  }

  /** What is no nearer along any axis is no nearer to being seen. */
  lemma FurtherIsPast(length: (real, real) -> real, a: Offset, b: Offset, reach: Reach)
    requires Measures(length) && Abs(a.x) <= Abs(b.x) && Abs(a.y) <= Abs(b.y) && Abs(a.z) <= Abs(b.z)
    ensures Past(length, a, reach) ==> Past(length, b, reach)
  {
    if Past(length, a, reach) {
      Longer(length, a, b);
      Growing(length(a.x, a.z), length(b.x, b.z), reach.far);
      Growing(Abs(a.y), Abs(b.y), reach.up);
    }
  }

  lemma Longer(length: (real, real) -> real, a: Offset, b: Offset)
    requires Measures(length) && Abs(a.x) <= Abs(b.x) && Abs(a.z) <= Abs(b.z)
    ensures 0.0 <= length(a.x, a.z) <= length(b.x, b.z)
  {
    Sign(a.x);
    Sign(a.z);
    Sign(b.x);
    Sign(b.z);
    SquareGrows(Abs(a.x), Abs(b.x));
    SquareGrows(Abs(a.z), Abs(b.z));
    SquareGrows(length(a.x, a.z), length(b.x, b.z));
  }

  lemma Growing(a: real, b: real, reach: real)
    requires 0.0 <= a <= b && reach > 0.0
    ensures Square(Nearest(a) / reach) <= Square(Nearest(b) / reach)
  {
    Quotient(Nearest(a), Nearest(b), reach);
    SquareGrows(Nearest(a) / reach, Nearest(b) / reach);
  }
}
