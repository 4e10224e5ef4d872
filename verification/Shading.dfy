/** What the mesher makes of a shell: the light at a corner of a face
    (`crates/client/src/shade.rs` `corner_light`) and the height of a fluid
    surface at a vertex (`crates/client/src/mesher.rs` `surface_at`).

    The two ask about exactly the blocks a `View` holds, which is what makes the
    view the right thing to compare; and both are a matter of where a vertex is,
    not of which chunk draws it, so there is no seam where two chunks meet. */
module Shading {
  import opened ChunkWorld

  const WEIGHTS: int := 12

  function On(c: Cell, axis: int): int {
    if axis == 0 then c.x else if axis == 1 then c.y else c.z
  }

  function With(c: Cell, axis: int, value: int): Cell {
    if axis == 0 then c.(x := value) else if axis == 1 then c.(y := value) else c.(z := value)
  }

  /** The two axes a face spans. */
  function UAxis(axis: int): int {
    if axis == 0 then 1 else 0
  }

  function VAxis(axis: int): int {
    if axis == 2 then 1 else 2
  }

  /** The two blocks whose middles a lattice point falls between, by the first of
      them, and how far along it is towards the second. */
  function Span(lattice: int): (int, int) {
    var scaled := (2 * lattice - 3) * 2;
    (scaled / WEIGHTS, scaled % WEIGHTS)
  }

  /** A corner of a face of a cell: `du` and `dv` pick which. */
  datatype Corner = Corner(cell: Cell, axis: int, positive: bool, du: int, dv: int)

  predicate OfChunk(k: Corner) {
    && 0 <= k.cell.x < CHUNK_SUBNODES && 0 <= k.cell.y < CHUNK_SUBNODES && 0 <= k.cell.z < CHUNK_SUBNODES
    && 0 <= k.axis <= 2 && 0 <= k.du <= 1 && 0 <= k.dv <= 1
  }

  /** The air in front of the face. */
  function Outside(k: Corner): Cell {
    With(k.cell, k.axis, On(k.cell, k.axis) + (if k.positive then 1 else -1))
  }

  function USpan(k: Corner): (int, int) {
    Span(On(Outside(k), UAxis(k.axis)) + k.du)
  }

  function VSpan(k: Corner): (int, int) {
    Span(On(Outside(k), VAxis(k.axis)) + k.dv)
  }

  /** One of the four blocks sampled, and its weight of a hundred and
      forty-four. */
  function Sampled(k: Corner, i: int, j: int): Cell {
    var o := Outside(k);
    With(With(With(o, UAxis(k.axis), USpan(k).0 + i), VAxis(k.axis), VSpan(k).0 + j),
         k.axis, On(o, k.axis) / SUBNODES_PER_AXIS)
  }

  function Weight(k: Corner, i: int, j: int): int {
    (if i == 0 then WEIGHTS - USpan(k).1 else USpan(k).1) * (if j == 0 then WEIGHTS - VSpan(k).1 else VSpan(k).1)
  }

  function Total(light: Cell -> int, k: Corner): int {
    light(Sampled(k, 0, 0)) * Weight(k, 0, 0) + light(Sampled(k, 0, 1)) * Weight(k, 0, 1)
    + light(Sampled(k, 1, 0)) * Weight(k, 1, 0) + light(Sampled(k, 1, 1)) * Weight(k, 1, 1)
  }

  /** One channel's light at a corner, in quarter levels. */
  function Quarters(light: Cell -> int, k: Corner): int {
    (Total(light, k) * 4 + WEIGHTS * WEIGHTS / 2) / (WEIGHTS * WEIGHTS)
  }

  lemma WeightsWhole(k: Corner)
    ensures Weight(k, 0, 0) + Weight(k, 0, 1) + Weight(k, 1, 0) + Weight(k, 1, 1) == WEIGHTS * WEIGHTS
    ensures forall i, j :: 0 <= i <= 1 && 0 <= j <= 1 ==> Weight(k, i, j) >= 0
  {
    var u, v := USpan(k).1, VSpan(k).1;
    assert 0 <= u < WEIGHTS && 0 <= v < WEIGHTS;
    assert (12 - u) * (12 - v) + (12 - u) * v == (12 - u) * 12;
    assert u * (12 - v) + u * v == u * 12;
    assert 0 <= (12 - u) * (12 - v) && 0 <= (12 - u) * v && 0 <= u * (12 - v) && 0 <= u * v;
  }

  /** The light at a corner lies between the darkest and the brightest of the
      blocks it is taken from. */
  lemma CornerBetween(light: Cell -> int, k: Corner, low: int, high: int)
    requires forall i, j :: 0 <= i <= 1 && 0 <= j <= 1 ==> low <= light(Sampled(k, i, j)) <= high
    ensures 4 * low <= Quarters(light, k) <= 4 * high
  {
    WeightsWhole(k);
    MeanBetween(light(Sampled(k, 0, 0)), light(Sampled(k, 0, 1)), light(Sampled(k, 1, 0)), light(Sampled(k, 1, 1)),
                Weight(k, 0, 0), Weight(k, 0, 1), Weight(k, 1, 0), Weight(k, 1, 1), low, high);
  }

  lemma Scaled(x: int, low: int, high: int, weight: int)
    requires low <= x <= high && weight >= 0
    ensures low * weight <= x * weight <= high * weight
  {
  }

  lemma MeanBetween(x: int, y: int, z: int, t: int, a: int, b: int, c: int, d: int, low: int, high: int)
    requires low <= x <= high && low <= y <= high && low <= z <= high && low <= t <= high
    requires a >= 0 && b >= 0 && c >= 0 && d >= 0 && a + b + c + d == 144
    ensures 4 * low <= ((x * a + y * b + z * c + t * d) * 4 + 72) / 144 <= 4 * high
  {
    Scaled(x, low, high, a);
    Scaled(y, low, high, b);
    Scaled(z, low, high, c);
    Scaled(t, low, high, d);
    Spread(low, a, b, c, d);
    Spread(high, a, b, c, d);
    var sum := x * a + y * b + z * c + t * d;
    RoundedMean(sum, low, high);
  }

  lemma Spread(level: int, a: int, b: int, c: int, d: int)
    requires a + b + c + d == 144
    ensures level * a + level * b + level * c + level * d == 144 * level
  {
    assert level * a + level * b + level * c + level * d == level * (a + b + c + d);
  }

  lemma RoundedMean(sum: int, low: int, high: int)
    requires 144 * low <= sum <= 144 * high
    ensures 4 * low <= (sum * 4 + 72) / 144 <= 4 * high
  {
  }

  /** Four samples alike: the short cut returns what the weighing would. */
  lemma EvenLight(light: Cell -> int, k: Corner)
    requires forall i, j :: 0 <= i <= 1 && 0 <= j <= 1 ==> light(Sampled(k, i, j)) == light(Sampled(k, 0, 0))
    ensures Quarters(light, k) == 4 * light(Sampled(k, 0, 0))
  {
    CornerBetween(light, k, light(Sampled(k, 0, 0)), light(Sampled(k, 0, 0)));
  }

  /** The loops over the four samples, with the short cut. */
  method CornerLight(light: Cell -> int, k: Corner) returns (level: int, fine: int)
    ensures level == Quarters(light, k) / 4 && fine == Quarters(light, k) % 4
  {
    var samples, weights := new int[4], new int[4];
    for i := 0 to 2
      invariant forall n :: 0 <= n < 2 * i ==>
        samples[n] == light(Sampled(k, n / 2, n % 2)) && weights[n] == Weight(k, n / 2, n % 2)
    {
      for j := 0 to 2
        invariant forall n :: 0 <= n < 2 * i + j ==>
          samples[n] == light(Sampled(k, n / 2, n % 2)) && weights[n] == Weight(k, n / 2, n % 2)
      {
        samples[i * 2 + j] := light(Sampled(k, i, j));
        weights[i * 2 + j] := Weight(k, i, j);
      }
    }
    assert samples[0] == light(Sampled(k, 0, 0)) && samples[1] == light(Sampled(k, 0, 1));
    assert samples[2] == light(Sampled(k, 1, 0)) && samples[3] == light(Sampled(k, 1, 1));
    if samples[1] == samples[0] && samples[2] == samples[0] && samples[3] == samples[0] {
      EvenLight(light, k);
      return samples[0], 0;
    }
    var total := 0;
    for n := 0 to 4
      invariant n == 1 ==> total == samples[0] * weights[0]
      invariant n == 2 ==> total == samples[0] * weights[0] + samples[1] * weights[1]
      invariant n == 3 ==> total == samples[0] * weights[0] + samples[1] * weights[1] + samples[2] * weights[2]
      invariant n == 4 ==> total == Total(light, k)
      invariant n == 0 ==> total == 0
    {
      total := total + samples[n] * weights[n];
    }
    var quarters := (total * 4 + WEIGHTS * WEIGHTS / 2) / (WEIGHTS * WEIGHTS);
    level, fine := quarters / 4, quarters % 4;
  }

  // ----- A view holds exactly what is sampled -----

  lemma SpanInShell(lattice: int)
    requires 0 <= lattice <= CHUNK_SUBNODES
    ensures -1 <= Span(lattice).0 && Span(lattice).0 + 1 <= CHUNK_BLOCKS
  {
  }

  lemma SampledInShell(k: Corner, i: int, j: int)
    requires OfChunk(k) && 0 <= i <= 1 && 0 <= j <= 1
    ensures Padded(Sampled(k, i, j))
  {
    SpanInShell(On(Outside(k), UAxis(k.axis)) + k.du);
    SpanInShell(On(Outside(k), VAxis(k.axis)) + k.dv);
  }

  /** A lattice point that samples a given block of an axis, as a cell and which
      end of it, and which of its two samples the block is. */
  function Sampling(block: int): (int, int, int) {
    if block == -1 then (0, 0, 0)
    else if block == CHUNK_BLOCKS then (CHUNK_SUBNODES - 1, 1, 1)
    else (3 * block + 1, 0, 1)
  }

  lemma SamplingSamples(block: int)
    requires -1 <= block <= CHUNK_BLOCKS
    ensures var s := Sampling(block);
      && 0 <= s.0 < CHUNK_SUBNODES && 0 <= s.1 <= 1 && 0 <= s.2 <= 1
      && Span(s.0 + s.1).0 + s.2 == block && 0 < Span(s.0 + s.1).1 < WEIGHTS
  {
    if 0 <= block < CHUNK_BLOCKS {
      assert (2 * (3 * block + 1) - 3) * 2 == 12 * (block - 1) + 10;
    }
  }

  /** Every block of the shell, corners included, lights some corner of the
      chunk: a top, bottom or side face between two blocks of air. */
  lemma ShellIsSampled(b: Cell)
    requires Padded(b)
    ensures exists k, i, j :: OfChunk(k) && 0 <= i <= 1 && 0 <= j <= 1 && Sampled(k, i, j) == b && Weight(k, i, j) > 0
  {
    SamplingSamples(b.x);
    SamplingSamples(b.z);
    var s, t := Sampling(b.x), Sampling(b.z);
    var y := if b.y == -1 then 0 else if b.y == CHUNK_BLOCKS then CHUNK_SUBNODES - 1 else 3 * b.y + 1;
    var k := Corner(Cell(s.0, y, t.0), 1, b.y != -1, s.1, t.1);
    assert USpan(k) == Span(s.0 + s.1) && VSpan(k) == Span(t.0 + t.1);
    assert Sampled(k, s.2, t.2) == b;
    Positive(if s.2 == 0 then WEIGHTS - USpan(k).1 else USpan(k).1, if t.2 == 0 then WEIGHTS - VSpan(k).1 else VSpan(k).1);
    assert Weight(k, s.2, t.2) > 0;
  }

  lemma Positive(a: int, b: int)
    requires a > 0 && b > 0
    ensures a * b > 0
  {
  }

  // ----- The fluid surface -----

  const FINE: nat := 16
  const FULL_BLOCK: nat := 48
  const SHORE_FILM: nat := 1

  /** How high a block's fluid stands, in sixteenths of a cell. */
  function HeightOf(w: Water): nat
    requires w.Wet?
  {
    var height := w.depth * FULL_BLOCK / UNITS_PER_BLOCK;
    if height < 1 then 1 else if height > FULL_BLOCK then FULL_BLOCK else height
  }

  /** Blocks that count towards a corner, and what each adds: fluid its height,
      open air a film, a wall nothing. */
  function Counts(w: Water): nat {
    if w.Dry? && w.wall then 0 else 1
  }

  function Adds(w: Water): nat {
    if w.Wet? then HeightOf(w) else if w.wall then 0 else SHORE_FILM
  }

  function NearestCorner(cell: int): int {
    (cell + 1) / SUBNODES_PER_AXIS
  }

  function Meeting(cx: int, cz: int, row: int, n: int): Cell {
    Cell(NearestCorner(cx) - (if n == 0 || n == 2 then 1 else 0), row, NearestCorner(cz) - (if n < 2 then 1 else 0))
  }

  function CountOf(water: Cell -> Water, cx: int, cz: int, row: int): nat {
    Counts(water(Meeting(cx, cz, row, 0))) + Counts(water(Meeting(cx, cz, row, 1)))
    + Counts(water(Meeting(cx, cz, row, 2))) + Counts(water(Meeting(cx, cz, row, 3)))
  }

  function SumOf(water: Cell -> Water, cx: int, cz: int, row: int): nat {
    Adds(water(Meeting(cx, cz, row, 0))) + Adds(water(Meeting(cx, cz, row, 1)))
    + Adds(water(Meeting(cx, cz, row, 2))) + Adds(water(Meeting(cx, cz, row, 3)))
  }

  /** The surface at a vertex of row `row`: the mean of what counts there. */
  function SurfaceOf(water: Cell -> Water, cx: int, cz: int, row: int): nat {
    if CountOf(water, cx, cz, row) == 0 then FULL_BLOCK else SumOf(water, cx, cz, row) / CountOf(water, cx, cz, row)
  }

  /** The loop over the four blocks that meet at a vertex. */
  method SurfaceAt(water: Cell -> Water, cx: int, cz: int, row: int) returns (height: nat)
    ensures height == SurfaceOf(water, cx, cz, row)
  {
    var total: nat, count: nat := 0, 0;
    for n := 0 to 4
      invariant n == 0 ==> total == 0 && count == 0
      invariant n == 1 ==> total == Adds(water(Meeting(cx, cz, row, 0))) && count == Counts(water(Meeting(cx, cz, row, 0)))
      invariant n == 2 ==>
        && total == Adds(water(Meeting(cx, cz, row, 0))) + Adds(water(Meeting(cx, cz, row, 1)))
        && count == Counts(water(Meeting(cx, cz, row, 0))) + Counts(water(Meeting(cx, cz, row, 1)))
      invariant n == 3 ==>
        && total + Adds(water(Meeting(cx, cz, row, 3))) == SumOf(water, cx, cz, row)
        && count + Counts(water(Meeting(cx, cz, row, 3))) == CountOf(water, cx, cz, row)
      invariant n == 4 ==> total == SumOf(water, cx, cz, row) && count == CountOf(water, cx, cz, row)
    {
      var block := water(Meeting(cx, cz, row, n));
      if block.Wet? {
        total := total + HeightOf(block);
        count := count + 1;
      } else if !block.wall {
        total := total + SHORE_FILM;
        count := count + 1;
      }
    }
    height := if count == 0 then FULL_BLOCK else total / count;
  }

  /** A surface is never below the film nor above its block. */
  lemma SurfaceBounded(water: Cell -> Water, cx: int, cz: int, row: int)
    ensures SHORE_FILM <= SurfaceOf(water, cx, cz, row) <= FULL_BLOCK
  {
    var n, total := CountOf(water, cx, cz, row), SumOf(water, cx, cz, row);
    forall w: Water ensures Counts(w) <= Adds(w) <= FULL_BLOCK * Counts(w) {}
    assert n <= total <= FULL_BLOCK * n;
  }

  lemma MeetingInRows(cx: int, cz: int, row: int, n: int)
    requires 0 <= cx <= CHUNK_SUBNODES && 0 <= cz <= CHUNK_SUBNODES && 0 <= row < CHUNK_BLOCKS && 0 <= n < 4
    ensures InRows(Meeting(cx, cz, row, n))
  {
  }

  /** Every block of the rows, those past the chunk included, meets some vertex of
      the chunk. */
  lemma RowsAreMet(b: Cell)
    requires InRows(b)
    ensures exists cx, cz, n :: 0 <= cx <= CHUNK_SUBNODES && 0 <= cz <= CHUNK_SUBNODES && 0 <= n < 4 && Meeting(cx, cz, b.y, n) == b
  {
    var x := if b.x == -1 then 0 else b.x;
    var z := if b.z == -1 then 0 else b.z;
    var n := (if b.x == -1 then 0 else 1) + (if b.z == -1 then 0 else 2);
    assert NearestCorner(3 * x) == x && NearestCorner(3 * z) == z;
    assert Meeting(3 * x, 3 * z, b.y, n) == b;
  }

  // ----- No seam where two chunks meet -----

  /** One chunk along an axis. */
  function Next(p: Pos, axis: int): Pos {
    if axis == 0 then p.(x := p.x + 1) else if axis == 1 then p.(y := p.y + 1) else p.(z := p.z + 1)
  }

  function Back(b: Cell, axis: int): Cell {
    With(b, axis, On(b, axis) - CHUNK_BLOCKS)
  }

  /** A block has one place in the world, whichever chunk asks about it. */
  lemma OnePlace(p: Pos, b: Cell, axis: int)
    ensures Holder(p, b) == Holder(Next(p, axis), Back(b, axis)) && Local(b) == Local(Back(b, axis))
  {
    assert (On(b, axis) - CHUNK_BLOCKS) / CHUNK_BLOCKS == On(b, axis) / CHUNK_BLOCKS - 1;
    assert (On(b, axis) - CHUNK_BLOCKS) % CHUNK_BLOCKS == On(b, axis) % CHUNK_BLOCKS;
  }

  lemma OneAnswer(w: World, p: Pos, b: Cell, axis: int)
    ensures LightAt(w, p, b) == LightAt(w, Next(p, axis), Back(b, axis))
    ensures Fill(w, p, b) == Fill(w, Next(p, axis), Back(b, axis))
    ensures Solid(w, p, b) == Solid(w, Next(p, axis), Back(b, axis))
  {
    OnePlace(p, b, axis);
    OnePlace(p, Above(b), axis);
    assert Back(Above(b), axis) == Above(Back(b, axis));
  }

  /** A corner at the far end of its chunk along an axis of its face, and the
      corner of the next chunk's face at the same place. */
  function Beyond(k: Corner, alongU: bool): Corner {
    if alongU then k.(cell := With(k.cell, UAxis(k.axis), 0), du := 0)
    else k.(cell := With(k.cell, VAxis(k.axis), 0), dv := 0)
  }

  predicate AtFarEnd(k: Corner, alongU: bool) {
    if alongU then On(k.cell, UAxis(k.axis)) == CHUNK_SUBNODES - 1 && k.du == 1
    else On(k.cell, VAxis(k.axis)) == CHUNK_SUBNODES - 1 && k.dv == 1
  }

  function AxisOf(k: Corner, alongU: bool): int {
    if alongU then UAxis(k.axis) else VAxis(k.axis)
  }

  lemma SampledBeyond(k: Corner, alongU: bool, i: int, j: int)
    requires OfChunk(k) && AtFarEnd(k, alongU)
    ensures Sampled(Beyond(k, alongU), i, j) == Back(Sampled(k, i, j), AxisOf(k, alongU))
    ensures Weight(Beyond(k, alongU), i, j) == Weight(k, i, j)
  {
    assert Span(CHUNK_SUBNODES) == (15, 6) && Span(0) == (-1, 6);
    var k' := Beyond(k, alongU);
    if alongU {
      assert USpan(k) == (15, 6) && USpan(k') == (-1, 6) && VSpan(k') == VSpan(k);
    } else {
      assert VSpan(k) == (15, 6) && VSpan(k') == (-1, 6) && USpan(k') == USpan(k);
    }
  }

  lemma SameQuarters(light: Cell -> int, k: Corner, light': Cell -> int, k': Corner)
    requires forall i, j :: 0 <= i <= 1 && 0 <= j <= 1 ==>
      light(Sampled(k, i, j)) == light'(Sampled(k', i, j)) && Weight(k, i, j) == Weight(k', i, j)
    ensures Quarters(light, k) == Quarters(light', k')
  {
    assert light(Sampled(k, 0, 0)) == light'(Sampled(k', 0, 0)) && light(Sampled(k, 0, 1)) == light'(Sampled(k', 0, 1));
    assert light(Sampled(k, 1, 0)) == light'(Sampled(k', 1, 0)) && light(Sampled(k, 1, 1)) == light'(Sampled(k', 1, 1));
  }

  /** Where a face of one chunk and a face of the next along their plane meet, in
      front of the same air, both are lit alike. */
  lemma NoLightSeam(w: World, p: Pos, k: Corner, alongU: bool)
    requires OfChunk(k) && AtFarEnd(k, alongU)
    ensures Quarters(b => LightAt(w, p, b), k)
         == Quarters(b => LightAt(w, Next(p, AxisOf(k, alongU)), b), Beyond(k, alongU))
  {
    var a, k' := AxisOf(k, alongU), Beyond(k, alongU);
    forall i, j | 0 <= i <= 1 && 0 <= j <= 1
      ensures LightAt(w, p, Sampled(k, i, j)) == LightAt(w, Next(p, a), Sampled(k', i, j))
      ensures Weight(k, i, j) == Weight(k', i, j)
    {
      SampledBeyond(k, alongU, i, j);
      OneAnswer(w, p, Sampled(k, i, j), a);
    }
    SameQuarters(b => LightAt(w, p, b), k, b => LightAt(w, Next(p, a), b), k');
  }

  /** One of the four blocks round a vertex at the far end of a chunk is one
      round the next chunk's, and holds what it holds. */
  lemma MeetingBeyond(w: World, p: Pos, cx: int, cz: int, row: int, n: int, alongX: bool)
    requires 0 <= cx <= CHUNK_SUBNODES && 0 <= cz <= CHUNK_SUBNODES && 0 <= row < CHUNK_BLOCKS && 0 <= n < 4
    requires if alongX then cx == CHUNK_SUBNODES else cz == CHUNK_SUBNODES
    ensures WaterAt(w, p, Meeting(cx, cz, row, n))
         == (if alongX then WaterAt(w, Next(p, 0), Meeting(0, cz, row, n)) else WaterAt(w, Next(p, 2), Meeting(cx, 0, row, n)))
  {
    var b, axis := Meeting(cx, cz, row, n), if alongX then 0 else 2;
    var b' := if alongX then Meeting(0, cz, row, n) else Meeting(cx, 0, row, n);
    assert b' == Back(b, axis);
    MeetingInRows(cx, cz, row, n);
    MeetingInRows(if alongX then 0 else cx, if alongX then cz else 0, row, n);
    OneAnswer(w, p, b, axis);
  }

  /** The same of a fluid surface, along either level axis. */
  lemma NoFluidSeam(w: World, p: Pos, cx: int, cz: int, row: int)
    requires 0 <= cx <= CHUNK_SUBNODES && 0 <= cz <= CHUNK_SUBNODES && 0 <= row < CHUNK_BLOCKS
    ensures SurfaceOf(b => WaterAt(w, p, b), CHUNK_SUBNODES, cz, row) == SurfaceOf(b => WaterAt(w, Next(p, 0), b), 0, cz, row)
    ensures SurfaceOf(b => WaterAt(w, p, b), cx, CHUNK_SUBNODES, row) == SurfaceOf(b => WaterAt(w, Next(p, 2), b), cx, 0, row)
  {
    forall n | 0 <= n < 4
      ensures WaterAt(w, p, Meeting(CHUNK_SUBNODES, cz, row, n)) == WaterAt(w, Next(p, 0), Meeting(0, cz, row, n))
      ensures WaterAt(w, p, Meeting(cx, CHUNK_SUBNODES, row, n)) == WaterAt(w, Next(p, 2), Meeting(cx, 0, row, n))
    {
      MeetingBeyond(w, p, CHUNK_SUBNODES, cz, row, n, true);
      MeetingBeyond(w, p, cx, CHUNK_SUBNODES, row, n, false);
    }
    SameSurface(b => WaterAt(w, p, b), CHUNK_SUBNODES, cz, b => WaterAt(w, Next(p, 0), b), 0, cz, row);
    SameSurface(b => WaterAt(w, p, b), cx, CHUNK_SUBNODES, b => WaterAt(w, Next(p, 2), b), cx, 0, row);
  }

  lemma SameSurface(water: Cell -> Water, cx: int, cz: int, water': Cell -> Water, cx': int, cz': int, row: int)
    requires forall n :: 0 <= n < 4 ==> water(Meeting(cx, cz, row, n)) == water'(Meeting(cx', cz', row, n))
    ensures SurfaceOf(water, cx, cz, row) == SurfaceOf(water', cx', cz', row)
  {
    assert water(Meeting(cx, cz, row, 0)) == water'(Meeting(cx', cz', row, 0));
    assert water(Meeting(cx, cz, row, 1)) == water'(Meeting(cx', cz', row, 1));
    assert water(Meeting(cx, cz, row, 2)) == water'(Meeting(cx', cz', row, 2));
    assert water(Meeting(cx, cz, row, 3)) == water'(Meeting(cx', cz', row, 3));
  }

  // ----- What the light and the surface are -----

  /** Where a corner lies along an axis of its face, in twelfths of a block from the
      middle of the first block. */
  function Along(k: Corner, alongU: bool): int {
    if alongU then 4 * (On(Outside(k), UAxis(k.axis)) + k.du) - 6 else 4 * (On(Outside(k), VAxis(k.axis)) + k.dv) - 6
  }

  /** The four blocks are the ones in front of the face whose middles are round the
      corner. */
  lemma SampledAround(k: Corner, i: int, j: int)
    requires 0 <= k.axis <= 2 && 0 <= i <= 1 && 0 <= j <= 1
    ensures var b := Sampled(k, i, j);
      && 3 * On(b, k.axis) <= On(Outside(k), k.axis) < 3 * On(b, k.axis) + 3
      && (12 * (On(b, UAxis(k.axis)) - i) <= Along(k, true) < 12 * (On(b, UAxis(k.axis)) - i) + 12)
      && (12 * (On(b, VAxis(k.axis)) - j) <= Along(k, false) < 12 * (On(b, VAxis(k.axis)) - j) + 12)
  {
  }

  /** Light that changes evenly along both axes of a face is, at each corner, what
      it is where the corner lies: to the nearest quarter level. */
  lemma LinearExact(light: Cell -> int, k: Corner, a: int, d: int, c: int)
    requires 0 <= k.axis <= 2
    requires forall i, j :: 0 <= i <= 1 && 0 <= j <= 1 ==>
      light(Sampled(k, i, j)) == a * On(Sampled(k, i, j), UAxis(k.axis)) + d * On(Sampled(k, i, j), VAxis(k.axis)) + c
    ensures var level := a * Along(k, true) + d * Along(k, false) + 12 * c;
      6 * Quarters(light, k) - 3 <= 2 * level < 6 * Quarters(light, k) + 3
  {
    var u, s, v, t := USpan(k).0, USpan(k).1, VSpan(k).0, VSpan(k).1;
    assert 12 * u + s == Along(k, true) && 12 * v + t == Along(k, false);
    assert On(Sampled(k, 0, 0), UAxis(k.axis)) == u && On(Sampled(k, 0, 0), VAxis(k.axis)) == v;
    assert On(Sampled(k, 0, 1), UAxis(k.axis)) == u && On(Sampled(k, 0, 1), VAxis(k.axis)) == v + 1;
    assert On(Sampled(k, 1, 0), UAxis(k.axis)) == u + 1 && On(Sampled(k, 1, 0), VAxis(k.axis)) == v;
    assert On(Sampled(k, 1, 1), UAxis(k.axis)) == u + 1 && On(Sampled(k, 1, 1), VAxis(k.axis)) == v + 1;
    var e := a * u + d * v + c;
    assert a * (u + 1) == a * u + a && d * (v + 1) == d * v + d;
    Weighed(e, a, d, s, t);
    Combined(a, d, c, u, v, s, t);
  }

  lemma Weighed(e: int, a: int, d: int, s: int, t: int)
    ensures e * ((12 - s) * (12 - t)) + (e + d) * ((12 - s) * t) + (e + a) * (s * (12 - t)) + (e + a + d) * (s * t)
         == 144 * e + 12 * (a * s + d * t)
  {
    var p, q, r, z := (12 - s) * (12 - t), (12 - s) * t, s * (12 - t), s * t;
    assert p + q + r + z == 144 && r + z == 12 * s && q + z == 12 * t;
    assert e * p + (e + d) * q + (e + a) * r + (e + a + d) * z == e * (p + q + r + z) + d * (q + z) + a * (r + z);
  }

  lemma Combined(a: int, d: int, c: int, u: int, v: int, s: int, t: int)
    ensures 144 * (a * u + d * v + c) + 12 * (a * s + d * t) == 12 * (a * (12 * u + s) + d * (12 * v + t) + 12 * c)
  {
  }

  /** The blocks that meet at a vertex are the four round the block corner nearest
      to it. */
  lemma MeetingAround(cx: int, cz: int, row: int, n: int)
    requires 0 <= n < 4
    ensures var b := Meeting(cx, cz, row, n);
      && b.y == row
      && -1 <= 3 * (if n == 0 || n == 2 then b.x + 1 else b.x) - cx <= 1
      && -1 <= 3 * (if n < 2 then b.z + 1 else b.z) - cz <= 1
  {
  }

  /** A depth of so many of a block's twenty-seven cells stands that much of the
      block's height, rounded down, and never at nothing. */
  lemma HeightExact(material: int, depth: nat)
    requires depth <= 27
    ensures var h := HeightOf(Wet(material, depth));
      1 <= h <= 48 && (depth > 0 ==> 27 * h <= 48 * depth < 27 * h + 27) && (depth == 27 ==> h == 48)
  {
  }

  /** Where something counts, the surface lies between the lowest and the highest
      of what counts. */
  lemma SurfaceBetween(water: Cell -> Water, cx: int, cz: int, row: int, low: nat, high: nat)
    requires forall n :: 0 <= n < 4 ==> var w := water(Meeting(cx, cz, row, n));
      (w.Wet? ==> low <= HeightOf(w) <= high) && (w.Dry? && !w.wall ==> low <= 1 <= high)
    requires exists n :: 0 <= n < 4 && var w := water(Meeting(cx, cz, row, n)); w.Wet? || !w.wall
    ensures low <= SurfaceOf(water, cx, cz, row) <= high
  {
    var w0, w1 := water(Meeting(cx, cz, row, 0)), water(Meeting(cx, cz, row, 1));
    var w2, w3 := water(Meeting(cx, cz, row, 2)), water(Meeting(cx, cz, row, 3));
    OneCounts(w0, low, high);
    OneCounts(w1, low, high);
    OneCounts(w2, low, high);
    OneCounts(w3, low, high);
    FourCount(Counts(w0), Counts(w1), Counts(w2), Counts(w3), Adds(w0), Adds(w1), Adds(w2), Adds(w3), low, high);
  }

  lemma OneCounts(w: Water, low: nat, high: nat)
    requires (w.Wet? ==> low <= HeightOf(w) <= high) && (w.Dry? && !w.wall ==> low <= 1 <= high)
    ensures (Counts(w) == 0 && Adds(w) == 0) || (Counts(w) == 1 && low <= Adds(w) <= high)
    ensures Counts(w) == 1 <==> w.Wet? || !w.wall
  {
  }

  lemma FourCount(a: nat, b: nat, c: nat, d: nat, p: nat, q: nat, r: nat, s: nat, low: nat, high: nat)
    requires ((a == 0 && p == 0) || (a == 1 && low <= p <= high)) && ((b == 0 && q == 0) || (b == 1 && low <= q <= high))
    requires ((c == 0 && r == 0) || (c == 1 && low <= r <= high)) && ((d == 0 && s == 0) || (d == 1 && low <= s <= high))
    requires a + b + c + d > 0
    ensures low <= (p + q + r + s) / (a + b + c + d) <= high
  {
    var n, total := a + b + c + d, p + q + r + s;
    if n == 1 { assert low <= total <= high; }
    else if n == 2 { assert 2 * low <= total <= 2 * high; }
    else if n == 3 { assert 3 * low <= total <= 3 * high; }
    else { assert 4 * low <= total <= 4 * high; }
  }
}
