/** The client's chunks and what a mesh is made from
    (`crates/client/src/world.rs`, values only; the objects that update them are
    in `ChunkStore.dfy` and `Remesher.dfy`).

    `View` is what the mesher reads for one chunk: its cells; for each of its six
    faces the cells of the facing plane and whether only a summary is held
    there; the light of every block of the chunk and of the one-block shell
    around it, corners included; and, where the chunk has fluid to draw, how each
    block its surface meets is filled or walled. */
module ChunkWorld {

  datatype Option<+T> = None | Some(value: T)

  datatype Pos = Pos(x: int, y: int, z: int)

  /** A sub-node cell, in chunk-local coordinates `0..48` on each axis. */
  datatype Cell = Cell(x: int, y: int, z: int)

  type Blocks = map<Cell, int>

  const CHUNK_SUBNODES: int := 48
  const CHUNK_BLOCKS: int := 16
  const SUBNODES_PER_AXIS: int := 3

  /** A face of a chunk, numbered as the mesher numbers neighbours:
      -x, +x, -y, +y, -z, +z. */
  type Face = k: int | 0 <= k < 6

  function Side(p: Pos, k: Face): Pos {
    match k
    case 0 => p.(x := p.x - 1)
    case 1 => p.(x := p.x + 1)
    case 2 => p.(y := p.y - 1)
    case 3 => p.(y := p.y + 1)
    case 4 => p.(z := p.z - 1)
    case 5 => p.(z := p.z + 1)
  }

  function Opposite(k: Face): Face {
    if k % 2 == 0 then k + 1 else k - 1
  }

  function Coordinate(c: Cell, k: Face): int {
    if k < 2 then c.x else if k < 4 then c.y else c.z
  }

  /** Whether a coordinate of a `span`-wide axis lies on the plane of face `k`. */
  predicate OnFace(coordinate: int, k: Face, span: int) {
    coordinate == if k % 2 == 0 then 0 else span - 1
  }

  /** The cells of one boundary plane: all a face neighbour draws against. */
  function Plane(b: Blocks, k: Face): Blocks {
    map c | c in b && OnFace(Coordinate(c, k), k, CHUNK_SUBNODES) :: b[c]
  }

  // ----- What lies in and around a chunk, block by block -----

  const AIR: int := 0
  const DARK: int := 0
  const UNITS_PER_BLOCK: nat := 27

  /** The light of a chunk's blocks; a block not named is dark. */
  type LightLayer = map<Cell, int>

  /** What one block holds: a fluid by its number and how many of its
      twenty-seven cells are full.  The number nought is no fluid. */
  datatype Fluid = Fluid(id: nat, volume: nat) {
    predicate IsEmpty() {
      volume == 0 || id == 0
    }
  }

  type FluidLayer = map<Cell, Fluid>

  /** Which material each fluid is drawn as; nought, or no entry, for none. */
  type FluidTable = map<nat, int>

  /** The chunk a block at chunk-local coordinates of `p` lies in, which may be
      a neighbour, and its coordinates there. */
  function Holder(p: Pos, b: Cell): Pos {
    Pos(p.x + b.x / CHUNK_BLOCKS, p.y + b.y / CHUNK_BLOCKS, p.z + b.z / CHUNK_BLOCKS)
  }

  function Local(b: Cell): Cell {
    Cell(b.x % CHUNK_BLOCKS, b.y % CHUNK_BLOCKS, b.z % CHUNK_BLOCKS)
  }

  function Above(b: Cell): Cell {
    b.(y := b.y + 1)
  }

  predicate Own(b: Cell) {
    0 <= b.x < CHUNK_BLOCKS && 0 <= b.y < CHUNK_BLOCKS && 0 <= b.z < CHUNK_BLOCKS
  }

  /** The chunk and a shell one block thick. */
  predicate Padded(b: Cell) {
    -1 <= b.x <= CHUNK_BLOCKS && -1 <= b.y <= CHUNK_BLOCKS && -1 <= b.z <= CHUNK_BLOCKS
  }

  /** The rows of blocks the chunk's own fluid surface runs through. */
  predicate InRows(b: Cell) {
    -1 <= b.x <= CHUNK_BLOCKS && 0 <= b.y < CHUNK_BLOCKS && -1 <= b.z <= CHUNK_BLOCKS
  }

  /** Those rows, and the blocks directly over and under the chunk. */
  predicate Wettable(b: Cell) {
    Padded(b) && (InRows(b) || (0 <= b.x < CHUNK_BLOCKS && 0 <= b.z < CHUNK_BLOCKS))
  }

  const PADDED: set<Cell> :=
    set x, y, z | -1 <= x <= CHUNK_BLOCKS && -1 <= y <= CHUNK_BLOCKS && -1 <= z <= CHUNK_BLOCKS :: Cell(x, y, z)

  lemma InPadded(b: Cell)
    ensures b in PADDED <==> Padded(b)
  {
    if Padded(b) {
      assert b == Cell(b.x, b.y, b.z);
    }
  }

  /** The mesher's three settings, and what of them it bakes. */
  datatype LightingMode = Simple | Classic | Beautiful

  function UsesPropagatedLight(mode: LightingMode): bool {
    match mode
    case Simple => true
    case Classic => true
    case Beautiful => true
  }

  predicate Flat(mode: LightingMode) {
    !UsesPropagatedLight(mode)
  }

  datatype Facing = Facing(plane: Option<Blocks>, summarised: bool)

  /** A block a fluid surface meets: filled, or dry and a wall or open air. */
  datatype Water = Wet(material: int, depth: nat) | Dry(wall: bool)

  datatype View = View(own: Blocks, faces: seq<Facing>, light: Option<map<Cell, int>>, water: Option<map<Cell, Water>>)

  /** Everything `ChunkStore` holds that a remesh depends on. */
  datatype World = World(
    chunks: map<Pos, Blocks>,
    light: map<Pos, LightLayer>,
    fluid: map<Pos, FluidLayer>,
    summaries: map<Pos, int>,
    table: FluidTable,
    dirty: set<Pos>,
    urgent: set<Pos>,
    generation: map<Pos, nat>,
    floor: nat)

  const EMPTY_WORLD: World := World(map[], map[], map[], map[], map[], {}, {}, map[], 0)

  function Get<T>(m: map<Pos, T>, p: Pos): Option<T> {
    if p in m then Some(m[p]) else None
  }

  function Across(w: World, p: Pos, k: Face): Facing {
    var q := Side(p, k);
    Facing(if q in w.chunks then Some(Plane(w.chunks[q], Opposite(k))) else None,
           q !in w.chunks && q in w.summaries)
  }

  function LightAt(w: World, p: Pos, b: Cell): int {
    var q := Holder(p, b);
    if q in w.light && Local(b) in w.light[q] then w.light[q][Local(b)] else DARK
  }

  function FluidAt(w: World, p: Pos, b: Cell): Fluid {
    var q := Holder(p, b);
    if q in w.fluid && Local(b) in w.fluid[q] then w.fluid[q][Local(b)] else Fluid(0, 0)
  }

  /** `FluidFill::fill`: the material and the depth, full under more fluid. */
  function Fill(w: World, p: Pos, b: Cell): Option<(int, nat)> {
    var f := FluidAt(w, p, b);
    if f.IsEmpty() || f.id !in w.table || w.table[f.id] == 0 then None
    else Some((w.table[f.id], if FluidAt(w, p, Above(b)).IsEmpty() then f.volume else UNITS_PER_BLOCK))
  }

  predicate Occupied(blocks: Blocks, b: Cell) {
    exists c :: c in blocks && blocks[c] != AIR && InBlock(c, b)
  }

  /** `FluidFill::solid`: a block not held is a wall, and so is one with
      anything in it. */
  predicate Solid(w: World, p: Pos, b: Cell) {
    var q := Holder(p, b);
    q in w.chunks ==> Occupied(w.chunks[q], Local(b))
  }

  function WaterAt(w: World, p: Pos, b: Cell): Water {
    var f := Fill(w, p, b);
    if f.Some? then Wet(f.value.0, f.value.1) else Dry(InRows(b) && Solid(w, p, b))
  }

  /** Whether the chunk at `p` has any fluid of its own to draw: without it the
      mesher asks about no other block's. */
  predicate DrawsFluid(w: World, p: Pos) {
    exists b :: b in PADDED && Own(b) && Fill(w, p, b).Some?
  }

  function LightShell(w: World, p: Pos): map<Cell, int> {
    map b | b in PADDED :: LightAt(w, p, b)
  }

  function WaterShell(w: World, p: Pos): Option<map<Cell, Water>> {
    if DrawsFluid(w, p) then Some(map b | b in PADDED && Wettable(b) :: WaterAt(w, p, b)) else None
  }

  /** Whether the chunk has anything on the plane of face `k` that is drawn
      against nothing and hidden by a summary: a cell of terrain, or, on top,
      fluid with none over it.  At the other faces fluid takes what has not
      arrived for more of itself, and is drawn against neither. */
  predicate Walls(w: World, p: Pos, k: Face)
    requires p in w.chunks
  {
    || (exists c :: c in w.chunks[p] && w.chunks[p][c] != AIR && OnFace(Coordinate(c, k), k, CHUNK_SUBNODES))
    || (k == TOP && exists b :: b in PADDED && OpenTop(w, p, b))
  }

  const TOP: Face := 3

  /** A block of the chunk's top row holds fluid, and the one over it none. */
  predicate OpenTop(w: World, p: Pos, b: Cell) {
    Own(b) && b.y == CHUNK_BLOCKS - 1 && Fill(w, p, b).Some? && Fill(w, p, Above(b)).None?
  }

  /** What lies across a face, as the chunk is drawn against it. */
  function Seen(w: World, p: Pos, k: Face): Facing
    requires p in w.chunks
  {
    var f := Across(w, p, k);
    f.(summarised := f.summarised && Walls(w, p, k))
  }

  function ViewOf(w: World, mode: LightingMode, p: Pos): View
    requires p in w.chunks
  {
    View(w.chunks[p],
         seq(6, k requires 0 <= k < 6 => Seen(w, p, k)),
         if Flat(mode) then None else Some(LightShell(w, p)),
         WaterShell(w, p))
  }

  /** Which sides of a mesh the fog takes as under the open sky: all of them
      where the chunk's own light is missing, otherwise those whose neighbour's
      is.  The renderer is told when the mesh is handed over. */
  datatype Sky = Everywhere | Along(sides: set<Face>)

  function OpenSky(w: World, p: Pos): Sky {
    if p !in w.light then Everywhere else Along(set k: Face | Side(p, k) !in w.light)
  }

  function Sides(p: Pos): set<Pos> {
    set k: Face {:trigger Side(p, k)} | true :: Side(p, k)
  }

  function HeldSides(w: World, p: Pos): set<Pos> {
    set q | q in Sides(p) && q in w.chunks
  }

  /** One of the twenty-six positions around `p`. */
  predicate Near(p: Pos, q: Pos) {
    && q != p
    && -1 <= q.x - p.x <= 1 && -1 <= q.y - p.y <= 1 && -1 <= q.z - p.z <= 1
  }

  /** The held chunks around `p`, and those of them it shares no face with. */
  function HeldAround(w: World, p: Pos): set<Pos> {
    set q | q in w.chunks && Near(p, q)
  }

  function HeldCorners(w: World, p: Pos): set<Pos> {
    HeldAround(w, p) - Sides(p)
  }

  /** The held chunks across some of `p`'s faces. */
  function HeldAcross(w: World, p: Pos, faces: set<Face>): set<Pos> {
    set k: Face {:trigger Side(p, k)} | k in faces && Side(p, k) in w.chunks :: Side(p, k)
  }

  /** The number a position's marks have reached, pruned or not. */
  function Reached(w: World, p: Pos): nat {
    if p in w.generation then w.generation[p] else w.floor
  }

  /** What `ChunkStore::generation` answers. */
  function Generation(w: World, p: Pos): nat {
    if p in w.generation then w.generation[p] else 0
  }

  predicate Queued(w: World, p: Pos) {
    p in w.dirty || p in w.urgent
  }

  /** Every position of `ps` marked once: a new generation, and a place in the
      queue an edit uses or the one streaming uses. */
  function Marked(w: World, ps: set<Pos>, urgent: bool): World {
    w.(generation := map q | q in w.generation.Keys + ps :: if q in ps then Reached(w, q) + 1 else w.generation[q],
       urgent := if urgent then w.urgent + ps else w.urgent,
       dirty := if urgent then w.dirty else w.dirty + ps)
  }

  // ----- The operations of the store -----

  /** A chunk takes its place, and its summary's, before anything is marked. */
  function Placed(w: World, p: Pos, b: Blocks): World {
    w.(chunks := w.chunks[p := b], summaries := w.summaries - {p})
  }

  function Insert(w: World, p: Pos, b: Blocks): World {
    var held := Placed(w, p, b);
    Marked(held, {p} + HeldSides(held, p), false)
  }

  /** A chunk makes way for its summary, before anything is marked. */
  function MadeWay(w: World, p: Pos): World {
    w.(chunks := w.chunks - {p}, light := w.light - {p}, dirty := w.dirty - {p}, urgent := w.urgent - {p})
  }

  function SetSummary(w: World, p: Pos, v: int): World {
    var cleared := if p in w.chunks then Marked(MadeWay(w, p), HeldSides(MadeWay(w, p), p), false) else w;
    cleared.(summaries := w.summaries[p := v])
  }

  /** Everything `Remove` does before it marks. */
  function Dropped(w: World, p: Pos): World {
    w.(chunks := w.chunks - {p}, summaries := w.summaries - {p},
       light := w.light - {p}, fluid := w.fluid - {p},
       floor := if p in w.generation && w.generation[p] > w.floor then w.generation[p] else w.floor,
       generation := w.generation - {p},
       dirty := w.dirty - {p})
  }

  function Remove(w: World, p: Pos): World {
    var gone := Dropped(w, p);
    if p in w.chunks || p in w.summaries then Marked(gone, HeldSides(gone, p), false) else gone
  }

  ghost function Clear(w: World): World {
    World(map[], map[], map[], map[], w.table, {}, {}, map[], Highest(w.generation, w.floor))
  }

  ghost predicate IsHighest(m: map<Pos, nat>, floor: nat, h: nat) {
    && floor <= h && (forall p :: p in m ==> m[p] <= h)
    && (h == floor || exists p :: p in m && m[p] == h)
  }

  /** The larger of `floor` and every number in `m`. */
  ghost function Highest(m: map<Pos, nat>, floor: nat): (h: nat)
    ensures IsHighest(m, floor, h)
    decreases |m|
  {
    if m == map[] then floor
    else
      var p :| p in m;
      assert forall q :: q in m ==> q == p || q in m - {p};
      var h := Highest(m - {p}, floor);
      if m[p] > h then m[p] else h
  }

  function Lit(w: World, p: Pos, layer: LightLayer): World {
    w.(light := w.light[p := layer])
  }

  function SetLight(w: World, p: Pos, layer: LightLayer): World {
    Marked(Lit(w, p, layer), {p} + HeldSides(w, p), false)
  }

  /** An empty layer drains the chunk. */
  function Watered(w: World, p: Pos, layer: FluidLayer): World {
    w.(fluid := if forall b :: b in layer ==> layer[b].IsEmpty() then w.fluid - {p} else w.fluid[p := layer])
  }

  function SetFluid(w: World, p: Pos, layer: FluidLayer): World {
    Marked(Watered(w, p, layer), {p} + HeldSides(w, p), false)
  }

  /** `mark_all_dirty`: queued, at the generation each already has. */
  function AllDirty(w: World): World {
    w.(dirty := w.dirty + w.chunks.Keys)
  }

  function SetFluidTable(w: World, table: FluidTable): World {
    if w.fluid == map[] then w.(table := table) else AllDirty(w.(table := table))
  }

  /** One server edit: a block of twenty-seven cells, or a single cell. */
  datatype Edit =
    | WholeBlock(chunk: Pos, block: Cell, cells: Blocks)
    | OneCell(chunk: Pos, cell: Cell, material: int)
  {
    /** In range, and writing only cells of the block it names. */
    predicate Valid() {
      match this
      case WholeBlock(_, b, cells) =>
        && 0 <= b.x < CHUNK_BLOCKS && 0 <= b.y < CHUNK_BLOCKS && 0 <= b.z < CHUNK_BLOCKS
        && forall c :: c in cells ==> InBlock(c, b)
      case OneCell(_, c, _) =>
        0 <= c.x < CHUNK_SUBNODES && 0 <= c.y < CHUNK_SUBNODES && 0 <= c.z < CHUNK_SUBNODES
    }

    function Writes(): Blocks {
      if WholeBlock? then cells else map[cell := material]
    }

    /** Whether the edit lies on the chunk's boundary plane of face `k`, in
        whichever resolution the edit is expressed in. */
    predicate Touches(k: Face) {
      if WholeBlock? then OnFace(Coordinate(block, k), k, CHUNK_BLOCKS)
      else OnFace(Coordinate(cell, k), k, CHUNK_SUBNODES)
    }
  }

  predicate InBlock(c: Cell, b: Cell) {
    && b.x * SUBNODES_PER_AXIS <= c.x < (b.x + 1) * SUBNODES_PER_AXIS
    && b.y * SUBNODES_PER_AXIS <= c.y < (b.y + 1) * SUBNODES_PER_AXIS
    && b.z * SUBNODES_PER_AXIS <= c.z < (b.z + 1) * SUBNODES_PER_AXIS
  }

  function TouchedSides(w: World, e: Edit): set<Pos> {
    HeldAcross(w, e.chunk, set k: Face | e.Touches(k))
  }

  function Written(w: World, e: Edit): World
    requires e.chunk in w.chunks
  {
    w.(chunks := w.chunks[e.chunk := w.chunks[e.chunk] + e.Writes()])
  }

  /** An edit for a chunk not held is dropped. */
  function Apply(w: World, e: Edit): World {
    if e.chunk !in w.chunks then w
    else Marked(Written(w, e), {e.chunk} + TouchedSides(w, e), true)
  }

  // ----- Which views an operation can change -----

  lemma SideOpposite(p: Pos, k: Face)
    ensures Side(Side(p, k), Opposite(k)) == p
    ensures Side(p, k) != p
  {
  }

  lemma InSides(p: Pos, q: Pos)
    ensures q in Sides(p) <==> exists k: Face :: Side(p, k) == q
    ensures q in Sides(p) <==> p in Sides(q)
    ensures p !in Sides(p)
    ensures q in Sides(p) ==> Near(p, q)
  {
    if q in Sides(p) {
      var k: Face :| Side(p, k) == q;
      SideOpposite(p, k);
      assert Side(q, Opposite(k)) == p;
    }
    if p in Sides(q) {
      var k: Face :| Side(q, k) == p;
      SideOpposite(q, k);
      assert Side(p, Opposite(k)) == q;
    }
  }

  /** The light and the fluid `q` is drawn with, its own and its shell's, are as
      they were. */
  predicate Kept(w: World, w': World, q: Pos) {
    LightShell(w, q) == LightShell(w', q) && WaterShell(w, q) == WaterShell(w', q)
  }

  /** The same cells and the same shell are walled alike. */
  lemma WallsKept(w: World, w': World, q: Pos, k: Face)
    requires q in w.chunks && q in w'.chunks && w.chunks[q] == w'.chunks[q] && Kept(w, w', q)
    ensures Walls(w, q, k) == Walls(w', q, k)
  {
    forall b | b in PADDED && (OpenTop(w, q, b) || OpenTop(w', q, b)) ensures OpenTop(w, q, b) && OpenTop(w', q, b) {
      TopKept(w, w', q, b);
      TopKept(w', w, q, b);
    }
  }

  lemma TopKept(w: World, w': World, q: Pos, b: Cell)
    requires Kept(w, w', q)
    ensures OpenTop(w, q, b) ==> OpenTop(w', q, b)
  {
    if OpenTop(w, q, b) {
      InPadded(b);
      InPadded(Above(b));
      var a, a' := WaterShell(w, q).value, WaterShell(w', q).value;
      assert Wettable(b) && Wettable(Above(b));
      assert a[b] == a'[b] && a[Above(b)] == a'[Above(b)];
      assert a[b] == WaterAt(w, q, b) && a'[b] == WaterAt(w', q, b);
      assert a[Above(b)] == WaterAt(w, q, Above(b)) && a'[Above(b)] == WaterAt(w', q, Above(b));
    }
  }

  /** Two worlds that agree on a chunk and across its faces show it alike if and
      only if they agree on its shell. */
  lemma SameView(w: World, w': World, mode: LightingMode, mode': LightingMode, q: Pos)
    requires q in w.chunks && q in w'.chunks && w.chunks[q] == w'.chunks[q]
    requires forall k: Face :: Across(w, q, k) == Across(w', q, k)
    ensures ViewOf(w, mode, q) == ViewOf(w', mode', q) <==> Kept(w, w', q)
  {
    var v, v' := ViewOf(w, mode, q), ViewOf(w', mode', q);
    if Kept(w, w', q) {
      forall k: Face ensures Seen(w, q, k) == Seen(w', q, k) {
        WallsKept(w, w', q, k);
      }
      assert v.faces == v'.faces;
    }
    assert v.light == Some(LightShell(w, q)) && v'.light == Some(LightShell(w', q));
    assert v.water == WaterShell(w, q) && v'.water == WaterShell(w', q);
  }

  /** The same light, fluid, cells and table around a chunk give the same shell. */
  lemma SameShell(w: World, w': World, q: Pos)
    requires forall b :: b in PADDED ==> LightAt(w, q, b) == LightAt(w', q, b)
    requires forall b :: b in PADDED && Wettable(b) ==> Fill(w, q, b) == Fill(w', q, b)
    requires forall b :: b in PADDED && InRows(b) ==> Solid(w, q, b) == Solid(w', q, b)
    ensures Kept(w, w', q)
  {
    assert LightShell(w, q) == LightShell(w', q);
    forall b | b in PADDED && Own(b) ensures Fill(w, q, b) == Fill(w', q, b) {
      assert Wettable(b);
    }
    assert DrawsFluid(w, q) <==> DrawsFluid(w', q);
    if DrawsFluid(w, q) {
      var a, a' := WaterShell(w, q).value, WaterShell(w', q).value;
      forall b | b in a ensures b in a' && a[b] == a'[b] {
        assert Fill(w, q, b) == Fill(w', q, b);
        assert InRows(b) ==> Solid(w, q, b) == Solid(w', q, b);
      }
      assert a == a';
    }
  }

  /** The queues, the generations and the summaries are not part of a shell. */
  lemma SameDataSameShell(w: World, w': World, q: Pos)
    requires w'.chunks == w.chunks && w'.light == w.light && w'.fluid == w.fluid && w'.table == w.table
    ensures Kept(w, w', q)
  {
    SameShell(w, w', q);
  }

  lemma SameDataSameView(w: World, w': World, mode: LightingMode, q: Pos)
    requires w'.chunks == w.chunks && w'.light == w.light && w'.fluid == w.fluid && w'.table == w.table
    requires w'.summaries == w.summaries && q in w.chunks
    ensures ViewOf(w, mode, q) == ViewOf(w', mode, q) && OpenSky(w, q) == OpenSky(w', q)
  {
    forall k: Face ensures Across(w, q, k) == Across(w', q, k) {}
    SameDataSameShell(w, w', q);
    SameView(w, w', mode, mode, q);
  }

  /** Nothing but position `p` differs between the two worlds' data. */
  ghost predicate DiffersAt(w: World, w': World, p: Pos) {
    && w.table == w'.table
    && forall q :: q != p ==>
        && Get(w.chunks, q) == Get(w'.chunks, q) && Get(w.light, q) == Get(w'.light, q)
        && Get(w.fluid, q) == Get(w'.fluid, q) && Get(w.summaries, q) == Get(w'.summaries, q)
  }

  /** A block of a shell, and the one over it, lie in the chunk or next to it. */
  lemma HolderNear(q: Pos, b: Cell)
    requires Padded(b)
    ensures Holder(q, b) == q || Near(Holder(q, b), q)
    ensures Holder(q, Above(b)) == q || Near(Holder(q, Above(b)), q)
  {
  }

  /** What is asked about one block is answered by its chunk, and by the chunk
      of the block over it. */
  lemma SameBlock(w: World, w': World, q: Pos, b: Cell)
    requires w.table == w'.table
    requires var r := Holder(q, b); Get(w.light, r) == Get(w'.light, r) && Get(w.chunks, r) == Get(w'.chunks, r)
    requires Get(w.fluid, Holder(q, b)) == Get(w'.fluid, Holder(q, b))
    requires Get(w.fluid, Holder(q, Above(b))) == Get(w'.fluid, Holder(q, Above(b)))
    ensures LightAt(w, q, b) == LightAt(w', q, b) && Fill(w, q, b) == Fill(w', q, b)
    ensures Solid(w, q, b) == Solid(w', q, b)
  {
  }

  /** Further than one chunk away nothing of a shell changes. */
  lemma FarShellKept(w: World, w': World, p: Pos, q: Pos)
    requires DiffersAt(w, w', p) && q != p && !Near(p, q)
    ensures Kept(w, w', q)
  {
    forall b | b in PADDED
      ensures LightAt(w, q, b) == LightAt(w', q, b)
      ensures Fill(w, q, b) == Fill(w', q, b)
      ensures Solid(w, q, b) == Solid(w', q, b)
    {
      InPadded(b);
      HolderNear(q, b);
      SameBlock(w, w', q, b);
    }
    SameShell(w, w', q);
  }

  /** Nor, without a shared face, anything else but the shell. */
  lemma FacesKept(w: World, w': World, p: Pos, q: Pos)
    requires DiffersAt(w, w', p) && q in w.chunks && q != p && q !in Sides(p)
    ensures q in w'.chunks && w'.chunks[q] == w.chunks[q]
    ensures forall k: Face :: Across(w, q, k) == Across(w', q, k)
    ensures OpenSky(w, q) == OpenSky(w', q)
  {
    assert Get(w.chunks, q) == Get(w'.chunks, q);
    assert Get(w.light, q) == Get(w'.light, q);
    forall k: Face ensures Across(w, q, k) == Across(w', q, k)
                   ensures Side(q, k) in w.light <==> Side(q, k) in w'.light
    {
      var r := Side(q, k);
      InSides(q, p);
      assert r != p;
      assert Get(w.chunks, r) == Get(w'.chunks, r);
      assert Get(w.light, r) == Get(w'.light, r);
      assert Get(w.summaries, r) == Get(w'.summaries, r);
    }
  }

  /** An edit that does not reach a boundary plane leaves that plane as it was. */
  lemma PlaneKept(b: Blocks, e: Edit, k: Face)
    requires e.Valid() && !e.Touches(k)
    ensures Plane(b + e.Writes(), k) == Plane(b, k)
  {
    forall c | c in e.Writes() ensures !OnFace(Coordinate(c, k), k, CHUNK_SUBNODES) {
      match e
      case WholeBlock(_, block, cells) => assert InBlock(c, block);
      case OneCell(_, _, _) =>
    }
  }
}
