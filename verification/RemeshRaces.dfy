/** Runs that end with a wrong picture nothing will mend, one for each kind of
    step the scheduler does not hear of.  Each is a state the client can get to,
    with the vertex that is drawn wrong: its light, or the height of the fluid
    there. */
module RemeshRaces {
  import opened ChunkWorld
  import opened RemeshProtocol
  import opened RemeshSafety
  import opened RemeshReach
  import opened Shading

  /** What a mesh was given, block by block. */
  function LightIn(v: View): Cell -> int {
    b => if v.light.Some? && b in v.light.value then v.light.value[b] else DARK
  }

  function WaterIn(v: View): Cell -> Water {
    b => if v.water.Some? && b in v.water.value then v.water.value[b] else Dry(true)
  }

  /** The cell has a face there: it is solid, and the cell in front is held and is
      air. */
  predicate HasFace(w: World, q: Pos, k: Corner) {
    && OfChunk(k) && q in w.chunks && k.cell in w.chunks[q] && w.chunks[q][k.cell] != AIR
    && var o := Outside(k);
       var r := Pos(q.x + o.x / CHUNK_SUBNODES, q.y + o.y / CHUNK_SUBNODES, q.z + o.z / CHUNK_SUBNODES);
       var c := Cell(o.x % CHUNK_SUBNODES, o.y % CHUNK_SUBNODES, o.z % CHUNK_SUBNODES);
       r in w.chunks && (c in w.chunks[r] ==> w.chunks[r][c] == AIR)
  }

  /** The block is the chunk's own and holds fluid and nothing else, and the one
      over it is the chunk's too and holds nothing. */
  predicate HasSurface(w: World, q: Pos, b: Cell) {
    && Own(b) && Own(Above(b)) && q in w.chunks && Fill(w, q, b).Some? && FluidAt(w, q, Above(b)).IsEmpty()
    && !Occupied(w.chunks[q], b) && !Occupied(w.chunks[q], Above(b))
  }

  /** The chunk is left wrong, and some corner of a face of its mesh is lit
      otherwise than the world now lights it. */
  ghost predicate LitWrong(c: Client, q: Pos) {
    LeftWrong(c, q) && exists k ::
      HasFace(c.world, q, k) && Quarters(LightIn(c.drawn[q].view), k) != Quarters(b => LightAt(c.world, q, b), k)
  }

  /** Or some vertex of a surface of its fluid stands at another height. */
  ghost predicate FloodedWrong(c: Client, q: Pos) {
    LeftWrong(c, q) && exists cx, cz, row, n ::
      && 0 <= cx <= CHUNK_SUBNODES && 0 <= cz <= CHUNK_SUBNODES && 0 <= row < CHUNK_BLOCKS
      && 0 <= n < 4 && HasSurface(c.world, q, Meeting(cx, cz, row, n))
      && SurfaceOf(WaterIn(c.drawn[q].view), cx, cz, row) != SurfaceOf(b => WaterAt(c.world, q, b), cx, cz, row)
  }

  lemma ViewLights(w: World, mode: LightingMode, q: Pos, k: Corner)
    requires q in w.chunks && OfChunk(k)
    ensures Quarters(LightIn(ViewOf(w, mode, q)), k) == Quarters(b => LightAt(w, q, b), k)
  {
    var v := ViewOf(w, mode, q);
    assert v.light == Some(LightShell(w, q));
    forall i, j | 0 <= i <= 1 && 0 <= j <= 1 ensures LightIn(v)(Sampled(k, i, j)) == LightAt(w, q, Sampled(k, i, j)) {
      SampledInShell(k, i, j);
      InPadded(Sampled(k, i, j));
    }
    SameQuarters(LightIn(v), k, b => LightAt(w, q, b), k);
  }

  lemma ViewWaters(w: World, mode: LightingMode, q: Pos, cx: int, cz: int, row: int)
    requires q in w.chunks && DrawsFluid(w, q)
    requires 0 <= cx <= CHUNK_SUBNODES && 0 <= cz <= CHUNK_SUBNODES && 0 <= row < CHUNK_BLOCKS
    ensures SurfaceOf(WaterIn(ViewOf(w, mode, q)), cx, cz, row) == SurfaceOf(b => WaterAt(w, q, b), cx, cz, row)
  {
    var v := ViewOf(w, mode, q);
    assert v.water == WaterShell(w, q) && v.water.Some?;
    forall n | 0 <= n < 4 ensures WaterIn(v)(Meeting(cx, cz, row, n)) == WaterAt(w, q, Meeting(cx, cz, row, n)) {
      MeetingInRows(cx, cz, row, n);
      InPadded(Meeting(cx, cz, row, n));
    }
    SameSurface(WaterIn(v), cx, cz, b => WaterAt(w, q, b), cx, cz, row);
  }

  /** A step of the world that says nothing to the scheduler about `q`. */
  ghost predicate Passes(c: Client, c': Client, q: Pos) {
    && c' == c.(world := c'.world, drawn := c'.drawn)
    && q in c.world.chunks && q in c'.world.chunks
    && (Queued(c'.world, q) <==> Queued(c.world, q)) && Generation(c'.world, q) == Generation(c.world, q)
    && (q in c.drawn ==> q in c'.drawn && c'.drawn[q] == c.drawn[q])
  }

  /** A quiet client's chunk stands as it was through such a step. */
  lemma StillStands(c: Client, c': Client, q: Pos)
    requires Inv(c) && Quiet(c) && Passes(c, c', q)
    ensures !Queued(c'.world, q) && !Live(c', q) && q in c'.drawn && c'.drawn[q] == Picture(c.world, c.mode, q)
  {
    assert !Live(c, q) && ShownAt(c, q, true);
  }

  lemma MarkedPasses(c: Client, moved: World, ps: set<Pos>, urgent: bool, drawn: map<Pos, Mesh>, q: Pos)
    requires q !in ps && q in c.world.chunks && q in moved.chunks && (Queued(moved, q) <==> Queued(c.world, q))
    requires Generation(moved, q) == Generation(c.world, q) && (q in moved.generation <==> q in c.world.generation)
    requires q in c.drawn ==> q in drawn && drawn[q] == c.drawn[q]
    ensures Passes(c, c.(world := Marked(moved, ps, urgent), drawn := drawn), q)
  {
    MarkedFacts(moved, ps, urgent);
  }

  /** The two worlds hold the same things, whatever is queued. */
  predicate Holds(w: World, moved: World) {
    && w.chunks == moved.chunks && w.light == moved.light && w.fluid == moved.fluid
    && w.table == moved.table && w.summaries == moved.summaries
  }

  lemma LightComes(c: Client, p: Pos, layer: LightLayer, q: Pos) returns (c': Client)
    requires Reachable(c) && q in c.world.chunks && q != p && q !in Sides(p)
    ensures Reachable(c') && Passes(c, c', q) && Holds(c'.world, Lit(c.world, p, layer)) && c'.mode == c.mode
  {
    var e := LightArrives(p, layer);
    ReachableStep(c, e);
    c' := Step(c, e);
    MarkedPasses(c, Lit(c.world, p, layer), {p} + HeldSides(c.world, p), false, c.drawn, q);
  }

  lemma FluidComes(c: Client, p: Pos, layer: FluidLayer, q: Pos) returns (c': Client)
    requires Reachable(c) && q in c.world.chunks && q != p && q !in Sides(p)
    ensures Reachable(c') && Passes(c, c', q) && Holds(c'.world, Watered(c.world, p, layer)) && c'.mode == c.mode
  {
    var e := FluidArrives(p, layer);
    ReachableStep(c, e);
    c' := Step(c, e);
    MarkedPasses(c, Watered(c.world, p, layer), {p} + HeldSides(c.world, p), false, c.drawn, q);
  }

  lemma ChunkComes(c: Client, p: Pos, b: Blocks, q: Pos) returns (c': Client)
    requires Reachable(c) && q in c.world.chunks && q != p && q !in Sides(p)
    ensures Reachable(c') && Passes(c, c', q) && Holds(c'.world, Placed(c.world, p, b)) && c'.mode == c.mode
  {
    var e := Arrive(p, b);
    ReachableStep(c, e);
    c' := Step(c, e);
    var moved := Placed(c.world, p, b);
    MarkedPasses(c, moved, {p} + HeldSides(moved, p), false, c.drawn, q);
  }

  lemma ChunkGoes(c: Client, p: Pos, q: Pos) returns (c': Client)
    requires Reachable(c) && q in c.world.chunks && q != p
    requires (p in c.world.chunks || p in c.world.summaries) ==> q !in Sides(p)
    ensures Reachable(c') && Passes(c, c', q) && Holds(c'.world, Dropped(c.world, p)) && c'.mode == c.mode
  {
    var e := Unload(p);
    ReachableStep(c, e);
    c' := Step(c, e);
    var moved := Dropped(c.world, p);
    var ps := if p in c.world.chunks || p in c.world.summaries then HeldSides(moved, p) else {};
    UnloadWorld(c, p, ps);
    UnloadDrawn(c, c', p);
    MarkedPasses(c, moved, ps, false, c'.drawn, q);
  }

  lemma SummaryComes(c: Client, p: Pos, v: int, q: Pos) returns (c': Client)
    requires Reachable(c) && q in c.world.chunks && q != p && (p in c.world.chunks ==> q !in Sides(p))
    ensures Reachable(c') && Passes(c, c', q) && c'.mode == c.mode
    ensures Holds(c'.world, (if p in c.world.chunks then MadeWay(c.world, p) else c.world).(summaries := c.world.summaries[p := v]))
  {
    var e := Summarise(p, v);
    ReachableStep(c, e);
    c' := Step(c, e);
    if p in c.world.chunks {
      var gone := MadeWay(c.world, p);
      MarkedPasses(c, gone, HeldSides(gone, p), false, c.drawn, q);
    }
  }

  lemma EditComes(c: Client, edit: Edit, q: Pos) returns (c': Client)
    requires Reachable(c) && edit.Valid() && edit.chunk in c.world.chunks
    requires q in c.world.chunks && q != edit.chunk && q !in TouchedSides(c.world, edit)
    ensures Reachable(c') && Passes(c, c', q) && Holds(c'.world, Written(c.world, edit)) && c'.mode == c.mode
  {
    var e := Edited(edit);
    ReachableStep(c, e);
    c' := Step(c, e);
    MarkedPasses(c, Written(c.world, edit), {edit.chunk} + TouchedSides(c.world, edit), true, c.drawn, q);
  }

  const HERE: Pos := Pos(0, 0, 0)
  const EAST: Pos := Pos(1, 0, 0)
  const WEST: Pos := Pos(-1, 0, 0)
  const CORNER: Pos := Pos(-1, 0, -1)
  /** A chunk with one cell of stone in its first block. */
  const PEBBLE: Blocks := map[Cell(0, 0, 0) := 1]
  lemma CornerApart()
    ensures HERE !in Sides(CORNER) && HERE != CORNER
  {
  }

  const LAMP: LightLayer := map[Cell(15, 0, 15) := 15]
  /** The top of that cell, at the corner of the chunk. */
  const CORNER_VERTEX: Corner := Corner(Cell(0, 0, 0), 1, true, 0, 0)

  lemma CornerSamples()
    ensures OfChunk(CORNER_VERTEX) && Sampled(CORNER_VERTEX, 0, 0) == Cell(-1, 0, -1) && Weight(CORNER_VERTEX, 0, 0) == 36
    ensures Sampled(CORNER_VERTEX, 0, 1) == Cell(-1, 0, 0) && Sampled(CORNER_VERTEX, 1, 0) == Cell(0, 0, -1)
    ensures Sampled(CORNER_VERTEX, 1, 1) == Cell(0, 0, 0)
  {
    assert Span(0) == (-1, 6);
    assert USpan(CORNER_VERTEX) == (-1, 6) && VSpan(CORNER_VERTEX) == (-1, 6);
  }

  lemma PebbleFaces(w: World)
    requires HERE in w.chunks && w.chunks[HERE] == PEBBLE
    ensures HasFace(w, HERE, CORNER_VERTEX)
  {
    assert Outside(CORNER_VERTEX) == Cell(0, 1, 0);
  }

  /** The light at that vertex with nothing lit but the chunk at the corner. */
  lemma CornerLit(w: World)
    requires w.light.Keys <= {CORNER} && (CORNER in w.light ==> w.light[CORNER] == LAMP)
    ensures Quarters(b => LightAt(w, HERE, b), CORNER_VERTEX) == if CORNER in w.light then 15 else 0
  {
    CornerSamples();
    assert Holder(HERE, Cell(-1, 0, -1)) == CORNER && Local(Cell(-1, 0, -1)) == Cell(15, 0, 15);
    assert Holder(HERE, Cell(-1, 0, 0)) == WEST && Holder(HERE, Cell(0, 0, -1)) == Pos(0, 0, -1);
    assert Holder(HERE, Cell(0, 0, 0)) == HERE;
  }

  /** A mesh made where the vertex was lit otherwise is wrong. */
  lemma LitOtherwise(c: Client, c': Client, k: Corner)
    requires HERE in c.world.chunks && HERE in c'.world.chunks && HERE in c'.drawn && HasFace(c'.world, HERE, k)
    requires c'.drawn[HERE] == Picture(c.world, c.mode, HERE) && !Queued(c'.world, HERE) && !Live(c', HERE)
    requires Quarters(b => LightAt(c.world, HERE, b), k) != Quarters(b => LightAt(c'.world, HERE, b), k)
    ensures LitWrong(c', HERE)
  {
    ViewLights(c.world, c.mode, HERE, k);
    ViewLights(c'.world, c'.mode, HERE, k);
    assert c'.drawn[HERE] != Picture(c'.world, c'.mode, HERE);
  }

  lemma BothLit(c: Client, c': Client)
    requires HERE in c.world.chunks && HERE in c'.world.chunks && HERE in c'.drawn
    requires c'.drawn[HERE] == Picture(c.world, c.mode, HERE) && !Queued(c'.world, HERE) && !Live(c', HERE)
    requires c.world.light.Keys <= {CORNER} && (CORNER in c.world.light ==> c.world.light[CORNER] == LAMP)
    requires c'.world.light.Keys <= {CORNER} && (CORNER in c'.world.light ==> c'.world.light[CORNER] == LAMP)
    requires CORNER in c.world.light <==> CORNER !in c'.world.light
    requires c'.world.chunks[HERE] == PEBBLE
    ensures LitWrong(c', HERE)
  {
    PebbleFaces(c'.world);
    CornerLit(c.world);
    CornerLit(c'.world);
    CornerSamples();
    LitOtherwise(c, c', CORNER_VERTEX);
  }

  /** A reachable quiet client holding one chunk. */
  lemma OneChunk() returns (c: Client)
    ensures Reachable(c) && Inv(c) && Quiet(c)
    ensures c.world.chunks == map[HERE := PEBBLE] && c.world.light == map[] && c.world.summaries == map[]
  {
    ReachableInit(0);
    GoodStep(Init(0), Arrive(HERE, PEBBLE));
    c := CanSettle(Step(Init(0), Arrive(HERE, PEBBLE)), true);
  }

  /** Light comes for the chunk at a corner: the mesh across the corner keeps the
      dark. */
  lemma LightAtCornerMissed()
    ensures exists c :: Reachable(c) && LitWrong(c, HERE)
  {
    var c := OneChunk();
    CornerApart();
    var c' := LightComes(c, CORNER, LAMP, HERE);
    StillStands(c, c', HERE);
    BothLit(c, c');
  }

  /** The chunk at the corner alone, with its light. */
  lemma CornerChunk() returns (c: Client)
    ensures Reachable(c) && Inv(c) && c.world.chunks == map[CORNER := map[]] && c.world.light == map[CORNER := LAMP]
    ensures c.world.summaries == map[] && c.world.fluid == map[]
  {
    ReachableInit(0);
    GoodStep(Init(0), LightArrives(CORNER, LAMP));
    var a := Step(Init(0), LightArrives(CORNER, LAMP));
    GoodStep(a, Arrive(CORNER, map[]));
    c := Step(a, Arrive(CORNER, map[]));
  }

  lemma DryArrival(c: Client, p: Pos, b: Blocks)
    requires c.world.fluid == map[]
    ensures Announced(c, Arrive(p, b))
  {
    forall q ensures Kept(c.world, Placed(c.world, p, b), q) {
      DryShell(c.world, Placed(c.world, p, b), q);
    }
  }

  /** A reachable quiet client holding a chunk and, at its corner, another with
      its light. */
  lemma TwoChunks() returns (c: Client)
    ensures Reachable(c) && Inv(c) && Quiet(c)
    ensures c.world.chunks == map[CORNER := map[], HERE := PEBBLE] && c.world.light == map[CORNER := LAMP]
    ensures c.world.summaries == map[]
  {
    var b := CornerChunk();
    DryArrival(b, HERE, PEBBLE);
    GoodStep(b, Arrive(HERE, PEBBLE));
    c := CanSettle(Step(b, Arrive(HERE, PEBBLE)), true);
  }

  /** That chunk is unloaded, or makes way for its summary: its light goes, and
      the mesh across the corner keeps it. */
  lemma UnloadAtCornerMissed()
    ensures exists c :: Reachable(c) && LitWrong(c, HERE)
  {
    var c := TwoChunks();
    CornerApart();
    var c' := ChunkGoes(c, CORNER, HERE);
    StillStands(c, c', HERE);
    BothLit(c, c');
  }

  lemma SummaryAtCornerMissed()
    ensures exists c :: Reachable(c) && CORNER in c.world.summaries && LitWrong(c, HERE)
  {
    var c := TwoChunks();
    CornerApart();
    var c' := SummaryComes(c, CORNER, 0, HERE);
    StillStands(c, c', HERE);
    BothLit(c, c');
  }

  /** The chunk has terrain on the plane of face `k`, was drawn against nothing
      there, and a summary stands there now. */
  ghost predicate WalledWrong(c: Client, q: Pos, k: Face) {
    && LeftWrong(c, q)
    && (exists cell :: cell in c.world.chunks[q] && c.world.chunks[q][cell] != AIR
                       && OnFace(Coordinate(cell, k), k, CHUNK_SUBNODES))
    && |c.drawn[q].view.faces| == 6 && c.drawn[q].view.faces[k] == Facing(None, false)
    && Seen(c.world, q, k) == Facing(None, true)
  }

  /** A summary comes for a position beside a drawn chunk: the wall the chunk was
      drawn with stays up. */
  lemma SummaryBesideMissed()
    ensures exists c :: Reachable(c) && WEST in c.world.summaries && WalledWrong(c, HERE, 0)
  {
    var c := OneChunk();
    var c' := SummaryComes(c, WEST, 0, HERE);
    StillStands(c, c', HERE);
    assert Side(HERE, 0) == WEST && Cell(0, 0, 0) in c'.world.chunks[HERE];
    assert OnFace(Coordinate(Cell(0, 0, 0), 0), 0, CHUNK_SUBNODES);
    assert ViewOf(c.world, c.mode, HERE).faces[0] == Seen(c.world, HERE, 0) == Facing(None, false);
    assert ViewOf(c'.world, c'.mode, HERE).faces[0] == Seen(c'.world, HERE, 0) == Facing(None, true);
    assert WalledWrong(c', HERE, 0);
  }

  /** Light is held beside a chunk at a position that holds nothing, and is
      unloaded: the chunk keeps it. */
  lemma UnloadBesideMissed()
    ensures exists c :: Reachable(c) && LitWrong(c, HERE)
  {
    var c := LitBeside();
    var c' := ChunkGoes(c, WEST, HERE);
    StillStands(c, c', HERE);
    BesideLit(c.world);
    BesideLit(c'.world);
    CornerSamples();
    PebbleFaces(c'.world);
    LitOtherwise(c, c', CORNER_VERTEX);
  }

  lemma BesideLit(w: World)
    requires w.light == map[] || w.light == map[WEST := map[Cell(15, 0, 0) := 15]]
    ensures Quarters(b => LightAt(w, HERE, b), CORNER_VERTEX) == if w.light == map[] then 0 else 15
  {
    CornerSamples();
    assert Weight(CORNER_VERTEX, 0, 1) == 36;
    assert Holder(HERE, Cell(-1, 0, 0)) == WEST && Local(Cell(-1, 0, 0)) == Cell(15, 0, 0);
    assert Holder(HERE, Cell(-1, 0, -1)) == CORNER && Holder(HERE, Cell(0, 0, -1)) == Pos(0, 0, -1);
    assert Holder(HERE, Cell(0, 0, 0)) == HERE;
  }

  lemma LitBeside() returns (c: Client)
    ensures Reachable(c) && Inv(c) && Quiet(c) && c.world.chunks == map[HERE := PEBBLE] && c.world.summaries == map[]
    ensures c.world.light == map[WEST := map[Cell(15, 0, 0) := 15]]
  {
    var one := OneChunk();
    var e := LightArrives(WEST, map[Cell(15, 0, 0) := 15]);
    InSides(WEST, HERE);
    assert HERE in Sides(WEST) by {
      assert Side(WEST, 1) == HERE;
    }
    GoodStep(one, e);
    c := CanSettle(Step(one, e), true);
  }

  // ----- Fluid -----

  const MILK: FluidTable := map[1 := 7]
  const CREAM: FluidTable := map[1 := 8]
  const POOL: FluidLayer := map[Cell(0, 0, 0) := Fluid(1, 9), Cell(15, 0, 0) := Fluid(1, 9)]

  lemma PoolDrawn(w: World, q: Pos)
    requires 1 in w.table && w.table[1] != 0 && q in w.fluid && w.fluid[q] == POOL
    ensures DrawsFluid(w, q)
  {
    var b := Cell(0, 0, 0);
    InPadded(b);
    assert Holder(q, b) == q && Local(b) == b;
    assert Fill(w, q, b).Some?;
  }

  /** Either block of the pool has its surface. */
  lemma PoolOpen(w: World, b: Cell)
    requires w.table == MILK && HERE in w.fluid && w.fluid[HERE] == POOL && HERE in w.chunks && w.chunks[HERE] == map[]
    requires b in POOL
    ensures HasSurface(w, HERE, b)
  {
    assert Holder(HERE, b) == HERE && Local(b) == b && Holder(HERE, Above(b)) == HERE && Local(Above(b)) == Above(b);
    assert Above(b) !in POOL;
  }

  /** Two chunks side by side, one of them with fluid at two of its edges, and
      the table that draws it. */
  lemma OnePool(neighbour: Blocks) returns (c: Client)
    ensures Reachable(c) && Inv(c) && Quiet(c) && c.world.table == MILK && c.world.fluid == map[HERE := POOL]
    ensures c.world.chunks == map[HERE := map[], EAST := neighbour]
  {
    var dry := DryPair(neighbour);
    PoolFills(dry.world);
    NoCorners(dry.world);
    GoodStep(dry, FluidArrives(HERE, POOL));
    var wet := Step(dry, FluidArrives(HERE, POOL));
    assert wet.world.fluid == map[HERE := POOL] && wet.world.chunks == dry.world.chunks;
    c := CanSettle(wet, true);
  }

  lemma PoolFills(w: World)
    ensures Watered(w, HERE, POOL) == w.(fluid := w.fluid[HERE := POOL])
  {
    assert !POOL[Cell(0, 0, 0)].IsEmpty();
  }

  lemma NoCorners(w: World)
    requires w.chunks.Keys <= {HERE, EAST}
    ensures HeldCorners(w, HERE) == {}
  {
    assert Side(HERE, 1) == EAST;
  }

  lemma DryPair(neighbour: Blocks) returns (c: Client)
    ensures Reachable(c) && Inv(c) && c.world.table == MILK && c.world.fluid == map[]
    ensures c.world.chunks == map[HERE := map[], EAST := neighbour]
  {
    var b := DryEast(neighbour);
    NoCorners(b.world);
    c := DryChunk(b, HERE, map[]);
  }

  lemma DryEast(neighbour: Blocks) returns (c: Client)
    ensures Reachable(c) && Inv(c) && c.world.table == MILK && c.world.fluid == map[]
    ensures c.world.chunks == map[EAST := neighbour]
  {
    var a := OneTable();
    c := DryChunk(a, EAST, neighbour);
  }

  lemma DryChunk(c: Client, p: Pos, b: Blocks) returns (c': Client)
    requires Reachable(c) && Inv(c) && HeldCorners(c.world, p) == {}
    ensures Reachable(c') && Inv(c') && c'.world.chunks == c.world.chunks[p := b]
    ensures c'.world.table == c.world.table && c'.world.fluid == c.world.fluid
  {
    GoodStep(c, Arrive(p, b));
    c' := Step(c, Arrive(p, b));
  }

  lemma OneTable() returns (c: Client)
    ensures Reachable(c) && Inv(c) && c.world == EMPTY_WORLD.(table := MILK)
  {
    ReachableInit(0);
    GoodStep(Init(0), TableArrives(MILK));
    c := Step(Init(0), TableArrives(MILK));
  }

  /** The surface at the first vertex, by what the block across the corner is:
      the other two beside it are not held, and so walls. */
  lemma FirstVertex(w: World, corner: Water)
    requires w.table == MILK && HERE in w.fluid && w.fluid[HERE] == POOL
    requires w.fluid.Keys <= {HERE, CORNER} && WEST !in w.chunks && Pos(0, 0, -1) !in w.chunks
    requires WaterAt(w, HERE, Cell(-1, 0, -1)) == corner && (corner == Wet(7, 27) || corner.Dry?)
    ensures SurfaceOf(b => WaterAt(w, HERE, b), 0, 0, 0) == if corner.Wet? then 32 else if corner.wall then 16 else 8
  {
    var water := (b: Cell) => WaterAt(w, HERE, b);
    assert Meeting(0, 0, 0, 0) == Cell(-1, 0, -1) && Meeting(0, 0, 0, 1) == Cell(0, 0, -1);
    assert Meeting(0, 0, 0, 2) == Cell(-1, 0, 0) && Meeting(0, 0, 0, 3) == Cell(0, 0, 0);
    assert Holder(HERE, Cell(0, 0, -1)) == Pos(0, 0, -1) && Holder(HERE, Cell(-1, 0, 0)) == WEST;
    assert water(Cell(0, 0, -1)) == Dry(true) && water(Cell(-1, 0, 0)) == Dry(true);
    assert Holder(HERE, Cell(0, 0, 0)) == HERE && Holder(HERE, Cell(0, 1, 0)) == HERE;
    assert Local(Cell(0, 0, 0)) == Cell(0, 0, 0) && Local(Cell(0, 1, 0)) == Cell(0, 1, 0);
    assert water(Cell(0, 0, 0)) == Wet(7, 9) && HeightOf(Wet(7, 9)) == 16 && HeightOf(Wet(7, 27)) == 48;
    assert SumOf(water, 0, 0, 0) == Adds(corner) + 16 && CountOf(water, 0, 0, 0) == Counts(corner) + 1;
  }

  lemma CornerBlock(w: World)
    requires CORNER !in w.fluid && CORNER !in w.chunks
    ensures WaterAt(w, HERE, Cell(-1, 0, -1)) == Dry(true)
  {
    assert Holder(HERE, Cell(-1, 0, -1)) == CORNER;
  }

  /** A mesh made where the surface stood otherwise is wrong. */
  lemma FloodedOtherwise(c: Client, c': Client, cx: int, cz: int, row: int, n: int)
    requires HERE in c.world.chunks && HERE in c'.world.chunks && HERE in c'.drawn
    requires c'.drawn[HERE] == Picture(c.world, c.mode, HERE) && !Queued(c'.world, HERE) && !Live(c', HERE)
    requires DrawsFluid(c.world, HERE) && DrawsFluid(c'.world, HERE)
    requires 0 <= n < 4 && HasSurface(c'.world, HERE, Meeting(cx, cz, row, n))
    requires 0 <= cx <= CHUNK_SUBNODES && 0 <= cz <= CHUNK_SUBNODES && 0 <= row < CHUNK_BLOCKS
    requires SurfaceOf(b => WaterAt(c.world, HERE, b), cx, cz, row) != SurfaceOf(b => WaterAt(c'.world, HERE, b), cx, cz, row)
    ensures FloodedWrong(c', HERE)
  {
    ViewWaters(c.world, c.mode, HERE, cx, cz, row);
    ViewWaters(c'.world, c'.mode, HERE, cx, cz, row);
    assert c'.drawn[HERE] != Picture(c'.world, c'.mode, HERE);
  }

  /** The two states differ in what the block across the corner is. */
  lemma BothFlooded(c: Client, c': Client, corner: Water)
    requires HERE in c.world.chunks && HERE in c'.world.chunks && HERE in c'.drawn
    requires c'.drawn[HERE] == Picture(c.world, c.mode, HERE) && !Queued(c'.world, HERE) && !Live(c', HERE)
    requires c.world.table == MILK && c.world.fluid == map[HERE := POOL] && c.world.chunks.Keys <= {HERE, EAST}
    requires c'.world.table == MILK && HERE in c'.world.fluid && c'.world.fluid[HERE] == POOL
    requires c'.world.fluid.Keys <= {HERE, CORNER} && c'.world.chunks.Keys <= {HERE, EAST, CORNER} && c'.world.chunks[HERE] == map[]
    requires WaterAt(c'.world, HERE, Cell(-1, 0, -1)) == corner && (corner == Wet(7, 27) || corner == Dry(false))
    ensures FloodedWrong(c', HERE)
  {
    CornerBlock(c.world);
    FirstVertex(c.world, Dry(true));
    FirstVertex(c'.world, corner);
    PoolDrawn(c.world, HERE);
    PoolDrawn(c'.world, HERE);
    PoolOpen(c'.world, Cell(0, 0, 0));
    FloodedOtherwise(c, c', 0, 0, 0, 3);
  }

  const SPILL: FluidLayer := map[Cell(15, 0, 15) := Fluid(1, 27)]

  lemma SpillIsWet(w: World)
    ensures Watered(w, CORNER, SPILL) == w.(fluid := w.fluid[CORNER := SPILL])
  {
    assert !SPILL[Cell(15, 0, 15)].IsEmpty();
  }

  lemma CornerWet(w: World)
    requires w.table == MILK && CORNER in w.fluid && w.fluid[CORNER] == SPILL
    ensures WaterAt(w, HERE, Cell(-1, 0, -1)) == Wet(7, 27)
  {
    assert Holder(HERE, Cell(-1, 0, -1)) == CORNER && Local(Cell(-1, 0, -1)) == Cell(15, 0, 15);
    assert Holder(HERE, Cell(-1, 1, -1)) == CORNER && Local(Cell(-1, 1, -1)) == Cell(15, 1, 15);
    assert FluidAt(w, HERE, Cell(-1, 0, -1)) == Fluid(1, 27) && FluidAt(w, HERE, Cell(-1, 1, -1)) == Fluid(0, 0);
  }

  lemma CornerOpen(w: World)
    requires CORNER !in w.fluid && CORNER in w.chunks && w.chunks[CORNER] == map[]
    ensures WaterAt(w, HERE, Cell(-1, 0, -1)) == Dry(false)
  {
    assert Holder(HERE, Cell(-1, 0, -1)) == CORNER;
    assert !Occupied(w.chunks[CORNER], Local(Cell(-1, 0, -1)));
  }

  /** Before and after: the mesh is the one of before. */
  ghost predicate LeftBehind(c: Client, c': Client) {
    && Reachable(c') && HERE in c.world.chunks && HERE in c'.world.chunks && HERE in c'.drawn
    && c'.drawn[HERE] == Picture(c.world, c.mode, HERE) && !Queued(c'.world, HERE) && !Live(c', HERE)
  }

  lemma Spilled() returns (c: Client, c': Client)
    ensures LeftBehind(c, c') && c.world.table == MILK && c.world.fluid == map[HERE := POOL]
    ensures c'.world.table == MILK && c'.world.fluid == c.world.fluid[CORNER := SPILL]
    ensures c.world.chunks == map[HERE := map[], EAST := map[]] && c'.world.chunks == c.world.chunks
  {
    c := OnePool(map[]);
    CornerApart();
    c' := FluidComes(c, CORNER, SPILL, HERE);
    SpillIsWet(c.world);
    StillStands(c, c', HERE);
  }

  /** Fluid comes for the position at a corner of a pool: the surface there keeps
      its old height. */
  lemma FluidAtCornerMissed()
    ensures exists c :: Reachable(c) && FloodedWrong(c, HERE)
  {
    var c, c' := Spilled();
    CornerWet(c'.world);
    BothFlooded(c, c', Wet(7, 27));
  }

  lemma Opened() returns (c: Client, c': Client)
    ensures LeftBehind(c, c') && c.world.table == MILK && c.world.fluid == map[HERE := POOL]
    ensures c'.world.table == MILK && c'.world.fluid == c.world.fluid
    ensures c.world.chunks == map[HERE := map[], EAST := map[]] && c'.world.chunks == c.world.chunks[CORNER := map[]]
  {
    c := OnePool(map[]);
    CornerApart();
    c' := ChunkComes(c, CORNER, map[], HERE);
    StillStands(c, c', HERE);
  }

  /** An empty chunk comes there: what was a wall to the pool is open air, and
      the surface stays up against it. */
  lemma ArrivalAtCornerMissed()
    ensures exists c :: Reachable(c) && FloodedWrong(c, HERE)
  {
    var c, c' := Opened();
    CornerOpen(c'.world);
    BothFlooded(c, c', Dry(false));
  }

  /** The vertex over the edge with the chunk to the east, by what the block
      across it is. */
  lemma EastVertex(w: World, wall: bool)
    requires w.table == MILK && w.fluid == map[HERE := POOL] && w.chunks.Keys == {HERE, EAST}
    requires Occupied(w.chunks[EAST], Cell(0, 0, 0)) <==> wall
    ensures SurfaceOf(b => WaterAt(w, HERE, b), 48, 0, 0) == if wall then 16 else 8
  {
    var water := (b: Cell) => WaterAt(w, HERE, b);
    assert Meeting(48, 0, 0, 0) == Cell(15, 0, -1) && Meeting(48, 0, 0, 1) == Cell(16, 0, -1);
    assert Meeting(48, 0, 0, 2) == Cell(15, 0, 0) && Meeting(48, 0, 0, 3) == Cell(16, 0, 0);
    assert Holder(HERE, Cell(15, 0, -1)) == Pos(0, 0, -1) && Holder(HERE, Cell(16, 0, -1)) == Pos(1, 0, -1);
    assert water(Cell(15, 0, -1)) == Dry(true) && water(Cell(16, 0, -1)) == Dry(true);
    assert Holder(HERE, Cell(15, 0, 0)) == HERE && Holder(HERE, Cell(15, 1, 0)) == HERE;
    assert Local(Cell(15, 0, 0)) == Cell(15, 0, 0) && Local(Cell(15, 1, 0)) == Cell(15, 1, 0);
    assert water(Cell(15, 0, 0)) == Wet(7, 9) && HeightOf(Wet(7, 9)) == 16;
    assert Holder(HERE, Cell(16, 0, 0)) == EAST && Local(Cell(16, 0, 0)) == Cell(0, 0, 0);
    assert water(Cell(16, 0, 0)) == Dry(wall);
  }

  /** A cell of that block, not on the plane between the two chunks. */
  const STONE: Cell := Cell(1, 0, 0)

  lemma BlockEmptied(b: Blocks)
    requires b.Keys == {STONE}
    ensures Occupied(b, Cell(0, 0, 0)) <==> b[STONE] != AIR
  {
    assert InBlock(STONE, Cell(0, 0, 0)) && STONE in b;
  }

  lemma EastDiffers(w: World, w': World)
    requires w.table == w'.table == MILK && w.fluid == w'.fluid == map[HERE := POOL]
    requires w.chunks == map[HERE := map[], EAST := map[STONE := 1]]
    requires w'.chunks == map[HERE := map[], EAST := map[STONE := AIR]]
    ensures SurfaceOf(b => WaterAt(w, HERE, b), 48, 0, 0) != SurfaceOf(b => WaterAt(w', HERE, b), 48, 0, 0)
  {
    BlockEmptied(w.chunks[EAST]);
    BlockEmptied(w'.chunks[EAST]);
    EastVertex(w, true);
    EastVertex(w', false);
  }

  lemma HereUntouched(w: World)
    ensures HERE !in TouchedSides(w, OneCell(EAST, STONE, AIR))
  {
    assert forall k: Face :: Side(EAST, k) == HERE ==> k == 0;
  }

  lemma StoneDug(w: World)
    requires EAST in w.chunks && w.chunks[EAST] == map[STONE := 1]
    ensures Written(w, OneCell(EAST, STONE, AIR)) == w.(chunks := w.chunks[EAST := map[STONE := AIR]])
  {
    assert map[STONE := 1] + map[STONE := AIR] == map[STONE := AIR];
  }

  lemma Dug() returns (c: Client, c': Client)
    ensures LeftBehind(c, c') && c.world.table == MILK && c.world.fluid == map[HERE := POOL]
    ensures c'.world.table == MILK && c'.world.fluid == c.world.fluid
    ensures c.world.chunks == map[HERE := map[], EAST := map[STONE := 1]]
    ensures c'.world.chunks == c.world.chunks[EAST := map[STONE := AIR]]
  {
    c := OnePool(map[STONE := 1]);
    HereUntouched(c.world);
    StoneDug(c.world);
    c' := EditComes(c, OneCell(EAST, STONE, AIR), HERE);
    StillStands(c, c', HERE);
  }

  /** The only cell of that block is dug: the neighbour is not told, and its pool stands up against air. */
  lemma DigBesideMissed()
    ensures exists c :: Reachable(c) && FloodedWrong(c, HERE)
  {
    var c, c' := Dug();
    EastDiffers(c.world, c'.world);
    PoolDrawn(c.world, HERE);
    PoolDrawn(c'.world, HERE);
    PoolOpen(c'.world, Cell(15, 0, 0));
    FloodedOtherwise(c, c', 48, 0, 0, 2);
  }

  // ----- The fluid table -----

  /** One chunk held, queued or not, and nothing urgent. */
  ghost predicate Lone(c: Client, queued: bool) {
    && c.world.chunks.Keys == {HERE} && c.world.urgent == {} && c.world.dirty == (if queued then {HERE} else {})
    && c.threads == 2
  }

  function JobNow(c: Client): Job
    requires HERE in c.world.chunks
  {
    Job(HERE, Generation(c.world, HERE), ViewOf(c.world, c.mode, HERE))
  }

  lemma DueAlone(w: World)
    requires w.chunks.Keys == {HERE} && w.urgent == {} && w.dirty == {HERE}
    ensures IsDue(w, HERE, [HERE], 0) && Taken(w, [HERE]) == w.(dirty := {})
  {
    var candidates := set p | p in w.dirty && p in w.chunks && p !in w.urgent;
    assert candidates == {HERE};
    assert [HERE][0..] == [HERE];
    assert Taken(w, [HERE]).dirty == {};
  }

  lemma PassAlone(c: Client)
    requires HERE in c.world.chunks && c.backlog < Capacity(c)
    ensures Pass(c, [HERE], 0, 0, {}) == Submit(c, HERE)
  {
    assert Pass(Submit(c, HERE), [HERE], 0, 1, {}) == Submit(c, HERE);
  }

  lemma NothingDrained(c: Client)
    requires c.finished == []
    ensures Drained(c) == c
  {
  }

  lemma AloneSent(c: Client)
    requires Lone(c, true) && c.finished == [] && c.backlog < 5
    ensures Remesh(c, [HERE], 0, {}) == Submit(c.(world := c.world.(dirty := {})), HERE)
  {
    NothingDrained(c);
    DueAlone(c.world);
    PassAlone(c.(world := c.world.(dirty := {})));
  }

  /** A frame over the one chunk, with nothing finished, sends it to the
      workers. */
  lemma FrameSends(c: Client) returns (c': Client)
    requires Reachable(c) && Lone(c, true) && c.finished == [] && c.backlog < 5
    ensures Reachable(c') && Lone(c', false) && SameData(c, c') && c'.finished == []
    ensures c'.pending == c.pending + [JobNow(c)] && c'.backlog == c.backlog + 1
  {
    var e := Frame(HERE, [HERE], 0, {});
    DueAlone(c.world);
    ReachableStep(c, e);
    c' := Step(c, e);
    AloneSent(c);
    SameDataSameView(c.world, c.world.(dirty := {}), c.mode, HERE);
  }

  /** A frame with nothing due uploads what was finished, in the order it was. */
  lemma FrameUploads(c: Client, first: Job, second: Job) returns (c': Client)
    requires Reachable(c) && Lone(c, false) && c.pending == [] && c.finished == [first, second] && c.backlog == 2
    requires Current(c.world, first) && first.pos == HERE && Current(c.world, second) && second.pos == HERE
    ensures Reachable(c') && Quiet(c') && c'.world == c.world && c'.mode == c.mode
    ensures HERE in c'.drawn && c'.drawn[HERE] == Uploaded(c.world, second)
  {
    var e := Frame(HERE, [], 0, {});
    var candidates := set p | p in c.world.dirty && p in c.world.chunks && p !in c.world.urgent;
    assert candidates == {};
    assert Possible(c, e);
    ReachableStep(c, e);
    c' := Step(c, e);
    var a := c.(backlog := 0);
    var b := DrainOne(a);
    assert b.finished == [second];
    var d := DrainOne(b);
    assert d.finished == [];
    assert Drain(d) == d && Drain(b) == d && Drain(a) == d;
    assert Drained(c) == d;
    assert Taken(d.world, []) == c.world;
  }

  lemma Finishes(c: Client, which: nat, pending: seq<Job>, done: Job)
    requires Reachable(c) && which < |c.pending| && c.pending[which] == done
    requires pending == c.pending[..which] + c.pending[which + 1..]
    ensures Reachable(c.(pending := pending, finished := c.finished + [done]))
  {
    FinishReaches(c, which, c.(pending := pending, finished := c.finished + [done]));
  }

  /** The workers finish the second of two jobs, and then the first. */
  lemma OutOfOrder(c: Client, first: Job, second: Job)
    requires Reachable(c) && c.pending == [first, second] && c.finished == []
    ensures Reachable(c.(pending := [], finished := [second, first]))
  {
    Finishes(c, 1, [first], second);
    var one := c.(pending := [first], finished := [second]);
    assert one == c.(pending := [first], finished := c.finished + [second]);
    Finishes(one, 0, [], first);
    assert one.finished + [first] == [second, first];
  }

  lemma ArriveAlone(w: World)
    requires w.chunks == map[] && w.dirty == {} && w.urgent == {}
    ensures var w' := Insert(w, HERE, map[]);
      w'.chunks.Keys == {HERE} && w'.dirty == {HERE} && w'.urgent == {} && w'.fluid == w.fluid && w'.table == w.table
  {
  }

  lemma FloodAlone(w: World)
    requires w.chunks.Keys == {HERE} && w.dirty == {HERE} && w.urgent == {}
    ensures var w' := SetFluid(w, HERE, POOL);
      && w'.chunks == w.chunks && w'.dirty == {HERE} && w'.urgent == {} && w'.table == w.table
      && w'.fluid == w.fluid[HERE := POOL]
  {
    PoolFills(w);
    assert HeldSides(w, HERE) == {};
  }

  lemma LoneChunk() returns (c: Client)
    ensures Reachable(c) && Lone(c, true) && c.pending == [] && c.finished == [] && c.backlog == 0
    ensures c.world.table == MILK && c.world.fluid == map[]
  {
    ReachableInit(2);
    ReachableStep(Init(2), TableArrives(MILK));
    var a := Init(2).(world := EMPTY_WORLD.(table := MILK));
    assert a == Step(Init(2), TableArrives(MILK));
    ReachableStep(a, Arrive(HERE, map[]));
    c := a.(world := Insert(a.world, HERE, map[]));
    ArriveAlone(a.world);
  }

  lemma LonePool() returns (c: Client)
    ensures Reachable(c) && Lone(c, true) && c.pending == [] && c.finished == [] && c.backlog == 0
    ensures c.world.table == MILK && c.world.fluid == map[HERE := POOL]
  {
    var dry := LoneChunk();
    ReachableStep(dry, FluidArrives(HERE, POOL));
    c := dry.(world := SetFluid(dry.world, HERE, POOL));
    FloodAlone(dry.world);
  }

  lemma NewTable(c: Client) returns (c': Client)
    requires Reachable(c) && Lone(c, false) && c.world.fluid == map[HERE := POOL]
    ensures Reachable(c') && Lone(c', true) && c' == c.(world := c'.world)
    ensures c'.world == c.world.(table := CREAM, dirty := {HERE})
  {
    ReachableStep(c, TableArrives(CREAM));
    c' := Step(c, TableArrives(CREAM));
    assert HERE in c.world.fluid;
    assert {} + c.world.chunks.Keys == {HERE};
  }

  lemma PoolAt(w: World, material: int)
    requires 1 in w.table && w.table[1] == material != 0 && w.fluid == map[HERE := POOL]
    ensures DrawsFluid(w, HERE) && WaterAt(w, HERE, Cell(0, 0, 0)) == Wet(material, 9)
    ensures Cell(0, 0, 0) in PADDED
  {
    PoolDrawn(w, HERE);
    InPadded(Cell(0, 0, 0));
    assert Holder(HERE, Cell(0, 0, 0)) == HERE && Holder(HERE, Cell(0, 1, 0)) == HERE;
    assert Local(Cell(0, 0, 0)) == Cell(0, 0, 0) && Local(Cell(0, 1, 0)) == Cell(0, 1, 0);
  }

  /** Both jobs of the race out, the older first. */
  lemma BothOut() returns (c: Client, older: Job, newer: Job)
    ensures Reachable(c) && Lone(c, false) && c.pending == [older, newer] && c.finished == [] && c.backlog == 2
    ensures Current(c.world, older) && older.pos == HERE && Current(c.world, newer) && newer.pos == HERE
    ensures c.world.fluid == map[HERE := POOL] && c.world.table == CREAM
    ensures exists w: World, mode :: w.fluid == map[HERE := POOL] && w.table == MILK && HERE in w.chunks && older.view == ViewOf(w, mode, HERE)
  {
    var queued := LonePool();
    older := JobNow(queued);
    var oneOut := FrameSends(queued);
    assert [] + [older] == [older];
    var crossed := NewTable(oneOut);
    newer := JobNow(crossed);
    c := FrameSends(crossed);
    assert [older] + [newer] == [older, newer];
    assert older.view == ViewOf(queued.world, queued.mode, HERE);
  }

  lemma OldWater(w: World, mode: LightingMode)
    requires w.fluid == map[HERE := POOL] && w.table == MILK && HERE in w.chunks
    ensures WaterIn(ViewOf(w, mode, HERE))(Cell(0, 0, 0)) == Wet(7, 9)
  {
    PoolAt(w, 7);
    assert ViewOf(w, mode, HERE).water == WaterShell(w, HERE);
  }

  lemma NewWater(w: World, mode: LightingMode)
    requires w.fluid == map[HERE := POOL] && w.table == CREAM && HERE in w.chunks
    ensures WaterIn(ViewOf(w, mode, HERE))(Cell(0, 0, 0)) == WaterAt(w, HERE, Cell(0, 0, 0)) == Wet(8, 9)
  {
    PoolAt(w, 8);
    assert ViewOf(w, mode, HERE).water == WaterShell(w, HERE);
  }

  /** A new table comes while a job is out: both jobs carry the chunk's one
      generation, the older finishes last, and the old material stays up. */
  lemma OldTableStays()
    ensures exists c ::
      && Reachable(c) && Quiet(c) && LeftWrong(c, HERE)
      && WaterIn(c.drawn[HERE].view)(Cell(0, 0, 0)) == Wet(7, 9) && WaterAt(c.world, HERE, Cell(0, 0, 0)) == Wet(8, 9)
  {
    var bothOut, older, newer := BothOut();
    OutOfOrder(bothOut, older, newer);
    var c := FrameUploads(bothOut.(pending := [], finished := [newer, older]), newer, older);
    var w: World, mode :| w.fluid == map[HERE := POOL] && w.table == MILK && HERE in w.chunks && older.view == ViewOf(w, mode, HERE);
    OldWater(w, mode);
    RaceLost(c, older);
  }

  lemma RaceLost(c: Client, older: Job)
    requires Reachable(c) && Quiet(c) && HERE in c.world.chunks && HERE in c.drawn && c.drawn[HERE] == Uploaded(c.world, older)
    requires c.world.fluid == map[HERE := POOL] && c.world.table == CREAM
    requires WaterIn(older.view)(Cell(0, 0, 0)) == Wet(7, 9)
    ensures LeftWrong(c, HERE) && WaterAt(c.world, HERE, Cell(0, 0, 0)) == Wet(8, 9)
  {
    NewWater(c.world, c.mode);
    assert !Live(c, HERE);
  }

  // ----- The domain -----

  /** A far mesh is on screen when the client leaves a domain: it stays up in the
      next, at a position that holds nothing. */
  lemma DomainLeavesGhost()
    ensures exists c :: Reachable(c) && Quiet(c) && HERE in c.drawn && c.world.chunks == map[] && c.world.summaries == map[]
  {
    ReachableInit(0);
    var a := Step(Init(0), Summarise(HERE, 0));
    ReachableStep(Init(0), Summarise(HERE, 0));
    ReachableStep(a, Horizon({HERE}, {}));
    var b := Step(a, Horizon({HERE}, {}));
    ReachableStep(b, SwitchDomain);
    assert HERE in Step(b, SwitchDomain).drawn;
  }
}
