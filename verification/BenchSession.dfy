/** The benchmark workload (`crates/bot/src/bench.rs`): where each bot works,
    what it is told to do, and why no bot can get in another's way. */
module BenchSession {

  datatype BlockPos = BlockPos(x: int, y: int, z: int)
  datatype Cell = Cell(x: int, y: int, z: int)

  datatype Command =
    | MoveTo(x: int, z: int)
    | DigBlock(block: BlockPos)
    | Place(block: BlockPos, material: nat)
    | DigSubNode(cell: Cell)
    | PlaceSubNode(cell: Cell, material: nat)

  datatype Recorded = Recorded(tick: nat, command: Command)

  const GROUND: int := -1
  const SPREAD: int := 24

  /** The largest square a `u32` can hold: past it the search for the grid's
      side overflows. */
  const MAX_BOTS: nat := 65535 * 65535

  // ----- Homes -----

  /** The side of the smallest square grid that seats `bots`. */
  predicate IsSide(side: nat, bots: nat) {
    var seats := if bots < 1 then 1 else bots;
    1 <= side && seats <= side * side && (side - 1) * (side - 1) < seats
  }

  method Side(bots: nat) returns (side: nat)
    requires bots <= MAX_BOTS
    ensures IsSide(side, bots) && side <= 65535
  {
    var seats := if bots < 1 then 1 else bots;
    side := 1;
    while side * side < seats
      invariant 1 <= side <= 65535 && (side - 1) * (side - 1) < seats
      decreases 65535 - side
    {
      side := side + 1;
    }
  }

  function Spacing(side: nat): int
    requires side >= 1
  {
    if SPREAD / side < 4 then 4 else SPREAD / side
  }

  function Home(index: nat, side: nat): (int, int)
    requires side >= 1
  {
    var spacing := Spacing(side);
    var centre := (side - 1) * spacing / 2;
    ((index % side) * spacing - centre, (index / side) * spacing - centre)
  }

  /** Where round `round` of the bot at `home` digs. */
  function Spot(home: (int, int), round: nat): BlockPos {
    BlockPos(home.0 + 1 + round % 3, GROUND, home.1 + (round / 3) % 3 - 1)
  }

  /** The cell chiselled out of a block: its middle one. */
  function Chiselled(b: BlockPos): Cell {
    Cell(b.x * 3 + 1, b.y * 3 + 1, b.z * 3 + 1)
  }

  // ----- Sessions -----

  function Round(home: (int, int), round: nat, material: nat): seq<Recorded> {
    var b := Spot(home, round);
    [Recorded(round, DigBlock(b)), Recorded(round, Place(b, material))]
    + if round % 4 == 0
      then [Recorded(round, DigSubNode(Chiselled(b))), Recorded(round, PlaceSubNode(Chiselled(b), material))]
      else []
  }

  function Session(home: (int, int), rounds: nat, material: nat): seq<Recorded> {
    if rounds == 0 then [Recorded(0, MoveTo(home.0, home.1))]
    else Session(home, rounds - 1, material) + Round(home, rounds - 1, material)
  }

  /** Only one side is the smallest. */
  lemma SideUnique(a: nat, b: nat, bots: nat)
    requires IsSide(a, bots) && IsSide(b, bots)
    ensures a == b
  {
    if a < b { Squares(a, b - 1); }
    if b < a { Squares(b, a - 1); }
  }

  lemma Squares(a: nat, b: nat)
    requires a <= b
    ensures a * a <= b * b
  {
    assert b * b == a * a + (b - a) * (b + a);
  }

  // ----- What a session does -----

  predicate IsBlockDig(r: Recorded) { r.command.DigBlock? }
  predicate IsChisel(r: Recorded) { r.command.DigSubNode? }
  predicate IsWalk(r: Recorded) { r.command.MoveTo? }

  /** The entries of a session that pass a test, in order. */
  function Only(s: seq<Recorded>, test: Recorded -> bool): (o: seq<Recorded>)
    ensures forall r :: r in o ==> test(r)
  {
    if s == [] then []
    else Only(s[..|s| - 1], test) + if test(s[|s| - 1]) then [s[|s| - 1]] else []
  }

  lemma {:induction false} OnlyJoin(a: seq<Recorded>, b: seq<Recorded>, test: Recorded -> bool)
    ensures Only(a + b, test) == Only(a, test) + Only(b, test)
    decreases |b|
  {
    if b == [] {
      assert a + b == a;
    } else {
      var front, last := b[..|b| - 1], b[|b| - 1];
      assert (a + b)[..|a + b| - 1] == a + front && (a + b)[|a + b| - 1] == last;
      OnlyJoin(a, front, test);
    }
  }

  /** One block dig a round, under its tick. */
  ghost predicate BlockDigs(blocks: seq<Recorded>, rounds: nat, spot: nat -> BlockPos) {
    |blocks| == rounds && forall r: nat :: r < rounds ==> blocks[r] == Recorded(r, DigBlock(spot(r)))
  }

  /** One chiselling every fourth round, in the middle of that round's block. */
  ghost predicate Chisellings(cells: seq<Recorded>, rounds: nat, spot: nat -> BlockPos) {
    |cells| == (rounds + 3) / 4 && forall j: nat :: j < |cells| ==> cells[j] == Recorded(4 * j, DigSubNode(Middle(spot(4 * j))))
  }

  /** The middle one of a block's twenty-seven cells. */
  function Middle(b: BlockPos): Cell {
    Cell(3 * b.x + 1, 3 * b.y + 1, 3 * b.z + 1)
  }

  /** Entries stand under ticks that never fall, and under one tick a block is dug
      before any cell is chiselled. */
  ghost predicate InOrder(s: seq<Recorded>) {
    && (forall i, j :: 0 <= i < j < |s| ==> s[i].tick <= s[j].tick)
    && (forall i, j :: 0 <= i < j < |s| && s[i].tick == s[j].tick && IsChisel(s[i]) ==> !IsBlockDig(s[j]))
  }

  /** What a session of `rounds` rounds at `home` is for: it walks home once, and
      first; it digs a block every round, under that round's tick; every fourth
      round it chisels the middle out of the block it dug; it digs only on its own
      nine blocks, never one again within nine rounds, and all of them in every
      nine. */
  ghost predicate Works(s: seq<Recorded>, home: (int, int), rounds: nat) {
    && Only(s, IsWalk) == [Recorded(0, MoveTo(home.0, home.1))] && s != [] && IsWalk(s[0]) && InOrder(s)
    && exists spot: nat -> BlockPos ::
        && BlockDigs(Only(s, IsBlockDig), rounds, spot) && Chisellings(Only(s, IsChisel), rounds, spot)
        && GoesRound(home, spot)
  }

  /** One of nine rounds from `r` on digs `b`. */
  ghost predicate DugWithin(spot: nat -> BlockPos, r: nat, b: BlockPos) {
    exists t: nat :: r <= t < r + 9 && spot(t) == b
  }

  lemma RoundOnly(home: (int, int), round: nat, material: nat)
    ensures var r, b := Round(home, round, material), Spot(home, round);
      && Only(r, IsWalk) == [] && Only(r, IsBlockDig) == [Recorded(round, DigBlock(b))]
      && Only(r, IsChisel) == if round % 4 == 0 then [Recorded(round, DigSubNode(Chiselled(b)))] else []
  {
    var r, b := Round(home, round, material), Spot(home, round);
    var dig, place := Recorded(round, DigBlock(b)), Recorded(round, Place(b, material));
    var chisel, fill := Recorded(round, DigSubNode(Chiselled(b))), Recorded(round, PlaceSubNode(Chiselled(b), material));
    OneOnly(dig, place);
    OneOnly(chisel, fill);
    if round % 4 == 0 {
      assert r == [dig, place] + [chisel, fill];
      OnlyJoin([dig, place], [chisel, fill], IsWalk);
      OnlyJoin([dig, place], [chisel, fill], IsBlockDig);
      OnlyJoin([dig, place], [chisel, fill], IsChisel);
    } else {
      assert r == [dig, place];
    }
  }

  lemma OneOnly(dig: Recorded, place: Recorded)
    requires IsDig(dig.command) && IsPlace(place.command)
    ensures Only([dig, place], IsWalk) == []
    ensures Only([dig, place], IsBlockDig) == if IsBlockDig(dig) then [dig] else []
    ensures Only([dig, place], IsChisel) == if IsChisel(dig) then [dig] else []
  {
    var two, one, none: seq<Recorded> := [dig, place], [dig], [];
    assert two[..1] == one && one[..0] == none && two[1] == place;
    forall test: Recorded -> bool | test in {IsWalk, IsBlockDig, IsChisel} && !test(place)
      ensures Only(two, test) == if test(dig) then [dig] else []
    {
      assert Only(one, test) == Only(none, test) + if test(dig) then [dig] else [];
    }
  }

  lemma OnlyOf(r: Recorded, test: Recorded -> bool)
    ensures Only([r], test) == if test(r) then [r] else []
  {
    assert [r][..0] == [];
  }

  lemma RoundWalks(home: (int, int), round: nat, material: nat, s: seq<Recorded>)
    ensures Only(s + Round(home, round, material), IsWalk) == Only(s, IsWalk)
  {
    OnlyJoin(s, Round(home, round, material), IsWalk);
    RoundOnly(home, round, material);
  }

  lemma RoundDigs(home: (int, int), round: nat, material: nat, s: seq<Recorded>)
    ensures Only(s + Round(home, round, material), IsBlockDig) == Only(s, IsBlockDig) + [Recorded(round, DigBlock(Spot(home, round)))]
  {
    OnlyJoin(s, Round(home, round, material), IsBlockDig);
    RoundOnly(home, round, material);
  }

  lemma RoundChisels(home: (int, int), round: nat, material: nat, s: seq<Recorded>)
    ensures Only(s + Round(home, round, material), IsChisel) ==
      Only(s, IsChisel) + if round % 4 == 0 then [Recorded(round, DigSubNode(Chiselled(Spot(home, round))))] else []
  {
    OnlyJoin(s, Round(home, round, material), IsChisel);
    RoundOnly(home, round, material);
  }

  lemma {:induction false} SessionWalks(home: (int, int), rounds: nat, material: nat)
    ensures Only(Session(home, rounds, material), IsWalk) == [Recorded(0, MoveTo(home.0, home.1))]
  {
    if rounds == 0 {
      OnlyOf(Recorded(0, MoveTo(home.0, home.1)), IsWalk);
    } else {
      SessionWalks(home, rounds - 1, material);
      RoundWalks(home, rounds - 1, material, Session(home, rounds - 1, material));
    }
  }

  lemma {:induction false} SessionDigs(home: (int, int), rounds: nat, material: nat, spot: nat -> BlockPos)
    requires forall r: nat :: spot(r) == Spot(home, r)
    ensures BlockDigs(Only(Session(home, rounds, material), IsBlockDig), rounds, spot)
  {
    if rounds == 0 {
      OnlyOf(Recorded(0, MoveTo(home.0, home.1)), IsBlockDig);
    } else {
      SessionDigs(home, rounds - 1, material, spot);
      RoundDigs(home, rounds - 1, material, Session(home, rounds - 1, material));
    }
  }

  lemma {:induction false} SessionChisels(home: (int, int), rounds: nat, material: nat, spot: nat -> BlockPos)
    requires forall r: nat :: spot(r) == Spot(home, r)
    ensures Chisellings(Only(Session(home, rounds, material), IsChisel), rounds, spot)
  {
    if rounds == 0 {
      OnlyOf(Recorded(0, MoveTo(home.0, home.1)), IsChisel);
    } else {
      SessionChisels(home, rounds - 1, material, spot);
      RoundChisels(home, rounds - 1, material, Session(home, rounds - 1, material));
      OneMoreChisel(Only(Session(home, rounds - 1, material), IsChisel), rounds - 1, spot);
    }
  }

  lemma OneMoreChisel(cells: seq<Recorded>, round: nat, spot: nat -> BlockPos)
    requires Chisellings(cells, round, spot)
    ensures Chisellings(cells + if round % 4 == 0 then [Recorded(round, DigSubNode(Chiselled(spot(round))))] else [], round + 1, spot)
  {
  }

  /** The last entry's tick is of a round already run. */
  ghost predicate Before(s: seq<Recorded>, rounds: nat) {
    forall k :: 0 <= k < |s| ==> s[k].tick <= rounds && (s[k].tick == rounds ==> IsWalk(s[k]))
  }

  lemma {:induction false} SessionOrdered(home: (int, int), rounds: nat, material: nat)
    ensures var s := Session(home, rounds, material); s != [] && IsWalk(s[0]) && InOrder(s) && Before(s, rounds)
  {
    if rounds > 0 {
      var s, r := Session(home, rounds - 1, material), Round(home, rounds - 1, material);
      SessionOrdered(home, rounds - 1, material);
      var t := s + r;
      forall k | 0 <= k < |t| ensures t[k].tick <= rounds - 1 {
        assert k >= |s| ==> t[k] == r[k - |s|];
      }
      forall i, j | 0 <= i < j < |t|
        ensures t[i].tick <= t[j].tick
        ensures t[i].tick == t[j].tick && IsChisel(t[i]) ==> !IsBlockDig(t[j])
      {
        assert i >= |s| ==> t[i] == r[i - |s|];
        assert j >= |s| ==> t[j] == r[j - |s|];
      }
    }
  }

  /** The nine blocks come round by three and three. */
  lemma ByNine(r: nat)
    ensures r % 3 == (r % 9) % 3 && (r / 3) % 3 == (r % 9) / 3
  {
    var q, n := r / 9, r % 9;
    assert r == 9 * q + n && r == 3 * (3 * q + n / 3) + n % 3;
    assert r / 3 == 3 * q + n / 3;
  }

  lemma SpotsApart(home: (int, int), r: nat, t: nat)
    requires r < t < r + 9
    ensures Spot(home, r) != Spot(home, t)
  {
    ByNine(r);
    ByNine(t);
  }

  lemma SpotOf(home: (int, int), r: nat, b: BlockPos) returns (t: nat)
    requires InPlot(home, b)
    ensures r <= t < r + 9 && Spot(home, t) == b
  {
    var n := 3 * (b.z - home.1 + 1) + (b.x - home.0 - 1);
    assert 0 <= n < 9;
    t := if r % 9 <= n then r - r % 9 + n else r - r % 9 + 9 + n;
    assert t == 9 * (if r % 9 <= n then r / 9 else r / 9 + 1) + n;
    assert t % 9 == n;
    ByNine(t);
  }

  /** The order the blocks are dug in. */
  ghost predicate GoesRound(home: (int, int), spot: nat -> BlockPos) {
    && (forall r: nat :: InPlot(home, spot(r)))
    && (forall r: nat, t: nat :: r < t < r + 9 ==> spot(r) != spot(t))
    && (forall r: nat, b :: InPlot(home, b) ==> DugWithin(spot, r, b))
  }

  lemma SpotsGoRound(home: (int, int), spot: nat -> BlockPos)
    requires forall r: nat :: spot(r) == Spot(home, r)
    ensures GoesRound(home, spot)
  {
    forall r: nat, t: nat | r < t < r + 9 ensures spot(r) != spot(t) {
      SpotsApart(home, r, t);
    }
    forall r: nat, b | InPlot(home, b) ensures DugWithin(spot, r, b) {
      var t := SpotOf(home, r, b);
      assert spot(t) == b;
    }
  }

  lemma SessionWorks(home: (int, int), rounds: nat, material: nat)
    ensures Works(Session(home, rounds, material), home, rounds)
  {
    var spot := (r: nat) => Spot(home, r);
    SessionWalks(home, rounds, material);
    SessionDigs(home, rounds, material, spot);
    SessionChisels(home, rounds, material, spot);
    SessionOrdered(home, rounds, material);
    SpotsGoRound(home, spot);
  }

  method StandardSession(index: nat, bots: nat, rounds: nat, material: nat) returns (out: seq<Recorded>)
    requires bots <= MAX_BOTS
    ensures forall side: nat :: IsSide(side, bots) ==>
      && out == Session(Home(index, side), rounds, material)
      && Works(out, Home(index, side), rounds) && WellPaired(out, Home(index, side), material)
  {
    var s := Side(bots);
    var home := Home(index, s);
    out := [Recorded(0, MoveTo(home.0, home.1))];
    for round := 0 to rounds
      invariant out == Session(home, round, material)
    {
      var b := Spot(home, round);
      ghost var before := out;
      out := out + [Recorded(round, DigBlock(b))];
      out := out + [Recorded(round, Place(b, material))];
      if round % 4 == 0 {
        out := out + [Recorded(round, DigSubNode(Chiselled(b)))];
        out := out + [Recorded(round, PlaceSubNode(Chiselled(b), material))];
      }
      assert out == before + Round(home, round, material);
    }
    SessionWorks(home, rounds, material);
    SessionPaired(home, rounds, material);
    forall side: nat | IsSide(side, bots) ensures side == s { SideUnique(side, s, bots); }
  }

  // ----- The ground a command touches -----

  predicate InBlock(c: Cell, b: BlockPos) {
    c.x / 3 == b.x && c.y / 3 == b.y && c.z / 3 == b.z
  }

  /** The cells a command digs or fills, as membership. */
  predicate Touches(command: Command, c: Cell) {
    match command
    case MoveTo(_, _) => false
    case DigBlock(b) => InBlock(c, b)
    case Place(b, _) => InBlock(c, b)
    case DigSubNode(d) => c == d
    case PlaceSubNode(d, _) => c == d
  }

  /** A bot's own ground: the three by three blocks beside its home. */
  predicate InPlot(home: (int, int), b: BlockPos) {
    home.0 + 1 <= b.x <= home.0 + 3 && b.y == GROUND && home.1 - 1 <= b.z <= home.1 + 1
  }

  predicate OnPlot(home: (int, int), c: Cell) {
    InPlot(home, BlockPos(c.x / 3, c.y / 3, c.z / 3))
  }

  /** No two bots of a benchmark share any ground. */
  lemma PlotsApart(i: nat, j: nat, side: nat, c: Cell)
    requires side >= 1 && i != j
    requires OnPlot(Home(i, side), c)
    ensures !OnPlot(Home(j, side), c)
  {
    var spacing := Spacing(side);
    var ci, cj, ri, rj := i % side, j % side, i / side, j / side;
    assert i == ri * side + ci && j == rj * side + cj;
    if ci != cj {
      Apart(ci, cj, spacing);
    } else {
      Apart(ri, rj, spacing);
    }
  }

  lemma Apart(a: int, b: int, spacing: int)
    requires a != b && spacing >= 4
    ensures a * spacing - b * spacing >= 4 || b * spacing - a * spacing >= 4
  {
    if a > b {
      Grows(a - b, spacing);
      assert (a - b) * spacing == a * spacing - b * spacing;
    } else {
      Grows(b - a, spacing);
      assert (b - a) * spacing == b * spacing - a * spacing;
    }
  }

  lemma Grows(k: int, spacing: int)
    requires k >= 1 && spacing >= 4
    ensures k * spacing >= 4
  {
    assert (k - 1) * spacing >= 0;
    assert k * spacing == (k - 1) * spacing + spacing;
  }

  /** Homes stand row by row on a square grid, four blocks apart at least, and
      further while that keeps the grid within the spread. */
  lemma HomesOnGrid(i: nat, side: nat) returns (spacing: int)
    requires side >= 1
    ensures spacing >= 4 && (spacing == 4 || spacing * side <= 24) && (spacing + 1) * side > 24
    ensures i % side < side - 1 ==> Home(i + 1, side) == (Home(i, side).0 + spacing, Home(i, side).1)
    ensures Home(i + side, side) == (Home(i, side).0, Home(i, side).1 + spacing)
  {
    spacing := Spacing(side);
    SpreadFits(side);
    var row, column := i / side, i % side;
    assert i == row * side + column;
    HomeAt(i, row, column, side);
    if column < side - 1 {
      HomeAt(i + 1, row, column + 1, side);
      OneMore(column, spacing);
    }
    OneMore(row, side);
    HomeAt(i + side, row + 1, column, side);
    OneMore(row, spacing);
  }

  lemma OneMore(n: int, k: int)
    ensures (n + 1) * k == n * k + k
  {
  }

  lemma HomeAt(i: nat, row: nat, column: nat, side: nat)
    requires column < side && i == row * side + column
    ensures var spacing := Spacing(side);
      var centre := (side - 1) * spacing / 2;
      Home(i, side) == (column * spacing - centre, row * spacing - centre)
  {
    AtGrid(i, row, column, side);
  }

  lemma AtGrid(i: nat, row: nat, column: nat, side: nat)
    requires column < side && i == row * side + column
    ensures i / side == row && i % side == column
  {
    Divided(i, i / side, i % side, row, column, side);
  }

  lemma Divided(i: nat, q: nat, r: nat, row: nat, column: nat, side: nat)
    requires i == q * side + r == row * side + column && r < side && column < side
    ensures q == row && r == column
  {
    assert (q - row) * side == q * side - row * side;
    if q > row { Scaled(1, q - row, side); }
    if q < row { Scaled(1, row - q, side); }
  }

  lemma SpreadFits(side: nat)
    requires side >= 1
    ensures var s := Spacing(side); (s == 4 || s * side <= 24) && (s + 1) * side > 24
  {
    var fair := SPREAD / side;
    assert fair * side <= 24 < (fair + 1) * side;
    if fair < 4 {
      Scaled(fair + 1, 5, side);
    }
  }

  /** And the grid is centred on the world's. */
  lemma HomesCentred(side: nat)
    requires side >= 1
    ensures var (first, last) := (Home(0, side), Home(side * side - 1, side));
      0 <= first.0 + last.0 <= 1 && 0 <= first.1 + last.1 <= 1
  {
    HomeAt(0, 0, 0, side);
    OneMore(side - 1, side);
    HomeAt(side * side - 1, side - 1, side - 1, side);
  }

  /** The arithmetic of a home stays far inside thirty-two bits. */
  lemma HomesFit(index: nat, side: nat)
    requires 1 <= side <= 65535 && index < side * side
    ensures var (x, z) := Home(index, side); -1_000_000 < x < 1_000_000 && -1_000_000 < z < 1_000_000
  {
    SpanFits(side);
    RowFits(index, side);
    Scaled(index / side, side - 1, Spacing(side));
    Scaled(index % side, side - 1, Spacing(side));
  }

  lemma RowFits(index: nat, side: nat)
    requires 1 <= side && index < side * side
    ensures index / side <= side - 1
  {
    var row := index / side;
    assert row * side <= index;
    if row >= side {
      Scaled(side, row, side);
    }
  }

  lemma Scaled(a: nat, b: nat, scale: nat)
    requires a <= b
    ensures 0 <= a * scale <= b * scale
  {
    assert b * scale == a * scale + (b - a) * scale;
  }

  lemma SpanFits(side: nat)
    requires 1 <= side <= 65535
    ensures 0 <= (side - 1) * Spacing(side) <= 262_140
  {
    if side <= 6 {
      assert Spacing(side) <= 24;
      Scaled(side - 1, 5, Spacing(side));
    } else {
      assert SPREAD / side < 4;
    }
  }

  // ----- What a session is -----

  predicate IsDig(command: Command) {
    command.DigBlock? || command.DigSubNode?
  }

  predicate IsPlace(command: Command) {
    command.Place? || command.PlaceSubNode?
  }

  function CellCount(command: Command): nat {
    match command
    case MoveTo(_, _) => 0
    case DigBlock(_) => 27
    case Place(_, _) => 27
    case DigSubNode(_) => 1
    case PlaceSubNode(_, _) => 1
  }

  /** `place` puts back exactly what `dig` took. */
  predicate Undoes(dig: Command, place: Command, material: nat) {
    (dig.DigBlock? && place == Place(dig.block, material)) ||
    (dig.DigSubNode? && place == PlaceSubNode(dig.cell, material))
  }

  /** Every dig is followed at once by the placement that undoes it, every
      placement comes so, and nothing leaves the bot's own ground. */
  ghost predicate WellPaired(s: seq<Recorded>, home: (int, int), material: nat) {
    && s != [] && !IsDig(s[|s| - 1].command) && !IsPlace(s[0].command)
    && (forall k :: 0 <= k < |s| - 1 && IsDig(s[k].command) ==>
          Undoes(s[k].command, s[k + 1].command, material) && s[k + 1].tick == s[k].tick)
    && (forall k :: 0 < k < |s| && IsPlace(s[k].command) ==> IsDig(s[k - 1].command))
    && (forall k, c :: 0 <= k < |s| && Touches(s[k].command, c) ==> OnPlot(home, c))
  }

  lemma {:induction false} SessionPaired(home: (int, int), rounds: nat, material: nat)
    ensures WellPaired(Session(home, rounds, material), home, material)
  {
    if rounds > 0 {
      SessionPaired(home, rounds - 1, material);
      var s, r := Session(home, rounds - 1, material), Round(home, rounds - 1, material);
      var b := Spot(home, rounds - 1);
      RoundOnPlot(home, rounds - 1, material);
      var t := s + r;
      forall k | 0 <= k < |t| - 1 && IsDig(t[k].command)
        ensures Undoes(t[k].command, t[k + 1].command, material) && t[k + 1].tick == t[k].tick
      {
        assert k >= |s| ==> t[k] == r[k - |s|] && t[k + 1] == r[k + 1 - |s|];
      }
      forall k, c | 0 <= k < |t| && Touches(t[k].command, c) ensures OnPlot(home, c) {
        assert k >= |s| ==> t[k] == r[k - |s|];
      }
    }
  }

  lemma RoundOnPlot(home: (int, int), round: nat, material: nat)
    ensures forall k, c :: 0 <= k < |Round(home, round, material)| && Touches(Round(home, round, material)[k].command, c) ==> OnPlot(home, c)
  {
    var b := Spot(home, round);
    assert InPlot(home, b);
    assert InBlock(Chiselled(b), b);
  }
}
