/** What each operation of the store leaves of it, position by position: what is
    held there, whether it is marked, and nothing else (`crates/client/src/world.rs`).
    Neighbours are told by distance, and marks by the numbers and queues. */
module StoreEffects {
  import opened ChunkWorld

  function Abs(n: int): nat {
    if n < 0 then -n else n
  }

  /** Across a face: one step along one axis. */
  predicate Beside(p: Pos, q: Pos) {
    Abs(q.x - p.x) + Abs(q.y - p.y) + Abs(q.z - p.z) == 1
  }

  /** Numbered past what it had, or past the floor if it had none, and in the
      queue. */
  predicate MarkedAt(w: World, w': World, q: Pos, urgent: bool) {
    && q in w'.generation && w'.generation[q] == (if q in w.generation then w.generation[q] else w'.floor) + 1
    && (q in w'.urgent <==> urgent || q in w.urgent)
    && (q in w'.dirty <==> !urgent || q in w.dirty)
  }

  predicate UnmarkedAt(w: World, w': World, q: Pos) {
    && Get(w.generation, q) == Get(w'.generation, q)
    && (q in w'.urgent <==> q in w.urgent) && (q in w'.dirty <==> q in w.dirty)
  }

  lemma SidesAreBeside(p: Pos, q: Pos)
    ensures q in Sides(p) <==> Beside(p, q)
  {
    if Beside(p, q) {
      if q.x < p.x { assert Side(p, 0) == q; }
      if q.x > p.x { assert Side(p, 1) == q; }
      if q.y < p.y { assert Side(p, 2) == q; }
      if q.y > p.y { assert Side(p, 3) == q; }
      if q.z < p.z { assert Side(p, 4) == q; }
      if q.z > p.z { assert Side(p, 5) == q; }
    }
  }

  lemma MarkedEach(w: World, ps: set<Pos>, urgent: bool, q: Pos)
    ensures if q in ps then MarkedAt(w, Marked(w, ps, urgent), q, urgent) else UnmarkedAt(w, Marked(w, ps, urgent), q)
  {
  }

  // ----- Chunks and summaries -----

  /** A chunk is held in place of any summary; it and the held chunks across its
      faces are marked. */
  lemma InsertLeaves(w: World, p: Pos, b: Blocks)
    ensures var w' := Insert(w, p, b);
      && w'.chunks == w.chunks[p := b] && w'.summaries == w.summaries - {p}
      && w'.light == w.light && w'.fluid == w.fluid && w'.table == w.table && w'.floor == w.floor
      && forall q :: if q == p || (Beside(p, q) && q in w.chunks) then MarkedAt(w, w', q, false) else UnmarkedAt(w, w', q)
  {
    var held := Placed(w, p, b);
    forall q
      ensures var w' := Insert(w, p, b);
        if q == p || (Beside(p, q) && q in w.chunks) then MarkedAt(w, w', q, false) else UnmarkedAt(w, w', q)
    {
      SidesAreBeside(p, q);
      MarkedEach(held, {p} + HeldSides(held, p), false, q);
    }
  }

  /** A summary in place of a chunk takes the chunk's light and its place in the
      queue, and marks the held chunks across its faces; in place of nothing it
      is stored and no more. */
  lemma SummaryLeaves(w: World, p: Pos, v: int)
    ensures var w' := SetSummary(w, p, v);
      && w'.summaries == w.summaries[p := v] && w'.chunks == w.chunks - {p}
      && w'.light == (if p in w.chunks then w.light - {p} else w.light)
      && w'.fluid == w.fluid && w'.table == w.table && w'.floor == w.floor
    ensures var w' := SetSummary(w, p, v);
      && Get(w'.generation, p) == Get(w.generation, p)
      && (p in w.chunks ==> p !in w'.dirty && p !in w'.urgent)
      && (p !in w.chunks ==> UnmarkedAt(w, w', p))
      && forall q :: q != p ==>
           if Beside(p, q) && q in w.chunks && p in w.chunks then MarkedAt(w, w', q, false) else UnmarkedAt(w, w', q)
  {
    var w' := SetSummary(w, p, v);
    var gone := MadeWay(w, p);
    assert p !in w.chunks ==> w.chunks - {p} == w.chunks;
    forall q | q != p
      ensures if Beside(p, q) && q in w.chunks && p in w.chunks then MarkedAt(w, w', q, false) else UnmarkedAt(w, w', q)
    {
      SidesAreBeside(p, q);
      MarkedEach(gone, HeldSides(gone, p), false, q);
    }
    SidesAreBeside(p, p);
    MarkedEach(gone, HeldSides(gone, p), false, p);
  }

  /** All there was at a position goes, and its number into the floor. */
  lemma RemoveHolds(w: World, p: Pos)
    ensures var w' := Remove(w, p);
      && w'.chunks == w.chunks - {p} && w'.summaries == w.summaries - {p} && w'.light == w.light - {p}
      && w'.fluid == w.fluid - {p} && w'.table == w.table
      && w'.floor == (if p in w.generation && w.generation[p] > w.floor then w.generation[p] else w.floor)
      && p !in w'.generation && p !in w'.dirty && (p in w'.urgent <==> p in w.urgent)
  {
    var gone := Dropped(w, p);
    var ps := if p in w.chunks || p in w.summaries then HeldSides(gone, p) else {};
    RemoveMarks(w, p, ps);
    MarkedSame(gone, ps);
    SidesAreBeside(p, p);
    MarkedEach(gone, ps, false, p);
  }

  lemma MarkedSame(w: World, ps: set<Pos>)
    ensures Marked(w, ps, false) == w.(generation := Marked(w, ps, false).generation, dirty := Marked(w, ps, false).dirty)
  {
  }

  /** And the held chunks across its faces are marked if a chunk or a summary
      went. */
  lemma RemoveLeaves(w: World, p: Pos, q: Pos)
    requires q != p
    ensures if Beside(p, q) && q in w.chunks && (p in w.chunks || p in w.summaries) then MarkedAt(w, Remove(w, p), q, false)
            else UnmarkedAt(w, Remove(w, p), q)
  {
    var gone := Dropped(w, p);
    var ps := if p in w.chunks || p in w.summaries then HeldSides(gone, p) else {};
    RemoveMarks(w, p, ps);
    SidesAreBeside(p, q);
    MarkedEach(gone, ps, false, q);
  }

  lemma RemoveMarks(w: World, p: Pos, ps: set<Pos>)
    requires ps == if p in w.chunks || p in w.summaries then HeldSides(Dropped(w, p), p) else {}
    ensures Remove(w, p) == Marked(Dropped(w, p), ps, false)
  {
    assert Marked(Dropped(w, p), {}, false).generation == Dropped(w, p).generation;
  }

  /** Leaving keeps only the table, and a floor no number was past. */
  lemma ClearLeaves(w: World)
    ensures var w' := Clear(w);
      && w'.chunks == map[] && w'.summaries == map[] && w'.light == map[] && w'.fluid == map[] && w'.generation == map[]
      && w'.dirty == {} && w'.urgent == {} && w'.table == w.table
      && w'.floor >= w.floor && (forall q :: q in w.generation ==> w'.floor >= w.generation[q])
      && (w'.floor == w.floor || exists q :: q in w.generation && w'.floor == w.generation[q])
  {
  }

  // ----- Light and fluid -----

  /** A layer of light is held; the position and the held chunks across its faces
      are marked, the position whether held or not. */
  lemma LightLeaves(w: World, p: Pos, layer: LightLayer)
    ensures var w' := SetLight(w, p, layer);
      && w'.light == w.light[p := layer]
      && w'.chunks == w.chunks && w'.summaries == w.summaries && w'.fluid == w.fluid && w'.table == w.table && w'.floor == w.floor
      && forall q :: if q == p || (Beside(p, q) && q in w.chunks) then MarkedAt(w, w', q, false) else UnmarkedAt(w, w', q)
  {
    forall q
      ensures var w' := SetLight(w, p, layer);
        if q == p || (Beside(p, q) && q in w.chunks) then MarkedAt(w, w', q, false) else UnmarkedAt(w, w', q)
    {
      SidesAreBeside(p, q);
      MarkedEach(Lit(w, p, layer), {p} + HeldSides(w, p), false, q);
    }
  }

  /** The same of fluid; a layer with none in it drains the position. */
  lemma FluidLeaves(w: World, p: Pos, layer: FluidLayer)
    ensures var w' := SetFluid(w, p, layer);
      && (if exists b :: b in layer && layer[b].volume > 0 && layer[b].id != 0
          then w'.fluid == w.fluid[p := layer] else w'.fluid == w.fluid - {p})
      && w'.chunks == w.chunks && w'.summaries == w.summaries && w'.light == w.light && w'.table == w.table && w'.floor == w.floor
      && forall q :: if q == p || (Beside(p, q) && q in w.chunks) then MarkedAt(w, w', q, false) else UnmarkedAt(w, w', q)
  {
    forall q
      ensures var w' := SetFluid(w, p, layer);
        if q == p || (Beside(p, q) && q in w.chunks) then MarkedAt(w, w', q, false) else UnmarkedAt(w, w', q)
    {
      SidesAreBeside(p, q);
      MarkedEach(Watered(w, p, layer), {p} + HeldSides(w, p), false, q);
    }
  }

  /** A table is kept; where any fluid is held every chunk is queued, at the
      number it has. */
  lemma TableLeaves(w: World, table: FluidTable)
    ensures var w' := SetFluidTable(w, table);
      && w' == w.(table := table, dirty := w'.dirty)
      && forall q :: q in w'.dirty <==> q in w.dirty || (w.fluid != map[] && q in w.chunks)
  {
  }

  /** A setting queues every chunk so. */
  lemma QueuedAll(w: World)
    ensures var w' := AllDirty(w);
      w' == w.(dirty := w'.dirty) && forall q :: q in w'.dirty <==> q in w.dirty || q in w.chunks
  {
  }

  // ----- Edits -----

  /** The edit lies against the chunk `q` beside its own: one step that way from
      what it writes is out of its chunk. */
  predicate Against(e: Edit, q: Pos) {
    var dx, dy, dz := q.x - e.chunk.x, q.y - e.chunk.y, q.z - e.chunk.z;
    Beside(e.chunk, q) &&
    match e
    case WholeBlock(_, b, _) => !(0 <= b.x + dx < 16 && 0 <= b.y + dy < 16 && 0 <= b.z + dz < 16)
    case OneCell(_, c, _) => !(0 <= c.x + dx < 48 && 0 <= c.y + dy < 48 && 0 <= c.z + dz < 48)
  }

  lemma TouchedIsAgainst(w: World, e: Edit, q: Pos)
    requires e.Valid()
    ensures q in TouchedSides(w, e) <==> q in w.chunks && Against(e, q)
  {
    var p := e.chunk;
    SidesAreBeside(p, q);
    if q in w.chunks && Against(e, q) {
      var k: Face := if q.x < p.x then 0 else if q.x > p.x then 1 else if q.y < p.y then 2 else if q.y > p.y then 3 else if q.z < p.z then 4 else 5;
      assert Side(p, k) == q && e.Touches(k);
    }
    if q in TouchedSides(w, e) {
      var k: Face :| e.Touches(k) && Side(p, k) == q;
    }
  }

  /** What an edit says a cell of its chunk becomes, if anything. */
  function Says(e: Edit, c: Cell): Option<int> {
    match e
    case WholeBlock(_, _, cells) => if c in cells then Some(cells[c]) else None
    case OneCell(_, cell, material) => if c == cell then Some(material) else None
  }

  /** An edit of a held chunk leaves in every cell what it says, and elsewhere what
      was there; it marks that chunk and the held ones it lies against, urgently.
      An edit of a chunk not held changes nothing. */
  lemma EditLeaves(w: World, e: Edit)
    requires e.Valid()
    ensures e.chunk !in w.chunks ==> Apply(w, e) == w
    ensures e.chunk in w.chunks ==> EditedTo(w, e, Apply(w, e))
  {
    if e.chunk in w.chunks {
      EditWrites(w, e);
      forall q ensures EditMarks(w, e, Apply(w, e), q) {
        EditMarksEach(w, e, q);
      }
    }
  }

  predicate EditMarks(w: World, e: Edit, w': World, q: Pos) {
    if q == e.chunk || (Against(e, q) && q in w.chunks) then MarkedAt(w, w', q, true) else UnmarkedAt(w, w', q)
  }

  lemma EditWrites(w: World, e: Edit)
    requires e.chunk in w.chunks
    ensures forall c :: At(Written(w, e).chunks[e.chunk], c) == if Says(e, c).Some? then Says(e, c) else At(w.chunks[e.chunk], c)
  {
  }

  lemma EditMarksEach(w: World, e: Edit, q: Pos)
    requires e.Valid() && e.chunk in w.chunks
    ensures EditMarks(w, e, Apply(w, e), q)
  {
    TouchedIsAgainst(w, e, q);
    MarkedEach(Written(w, e), {e.chunk} + TouchedSides(w, e), true, q);
  }

  ghost predicate EditedTo(w: World, e: Edit, w': World)
    requires e.chunk in w.chunks
  {
    && w'.chunks.Keys == w.chunks.Keys
    && (forall c :: At(w'.chunks[e.chunk], c) == if Says(e, c).Some? then Says(e, c) else At(w.chunks[e.chunk], c))
    && (forall q :: q in w.chunks && q != e.chunk ==> w'.chunks[q] == w.chunks[q])
    && w'.summaries == w.summaries && w'.light == w.light && w'.fluid == w.fluid && w'.table == w.table && w'.floor == w.floor
    && (forall q :: EditMarks(w, e, w', q))
  }

  function At(b: Blocks, c: Cell): Option<int> {
    if c in b then Some(b[c]) else None
  }

  // ----- What a chunk is drawn against -----

  /** The cell across face `k` from a cell on it, in the next chunk's coordinates. */
  function AcrossFrom(c: Cell, k: Face): Cell {
    match k
    case 0 => Cell(47, c.y, c.z)
    case 1 => Cell(0, c.y, c.z)
    case 2 => Cell(c.x, 47, c.z)
    case 3 => Cell(c.x, 0, c.z)
    case 4 => Cell(c.x, c.y, 47)
    case 5 => Cell(c.x, c.y, 0)
  }

  /** Across a face of a chunk its view holds the next chunk's cells as they are
      where the two meet, and nothing where no chunk is held. */
  lemma FacesAreSeen(w: World, mode: LightingMode, p: Pos, k: Face, q: Pos, c: Cell)
    requires p in w.chunks && Beside(p, q) && Side(p, k) == q
    ensures var f := ViewOf(w, mode, p).faces[k];
      && (f.plane.Some? <==> q in w.chunks)
      && (q in w.chunks ==> At(f.plane.value, AcrossFrom(c, k)) == At(w.chunks[q], AcrossFrom(c, k)))
  {
    assert OnFace(Coordinate(AcrossFrom(c, k), Opposite(k)), Opposite(k), CHUNK_SUBNODES);
  }

  // ----- What a block is -----

  /** The chunk at `r` holds the block `b` of `p`'s coordinates as its own block
      `own`. */
  predicate SameBlockAs(p: Pos, b: Cell, r: Pos, own: Cell) {
    && 16 * r.x + own.x == 16 * p.x + b.x && 16 * r.y + own.y == 16 * p.y + b.y && 16 * r.z + own.z == 16 * p.z + b.z
    && 0 <= own.x < 16 && 0 <= own.y < 16 && 0 <= own.z < 16
  }

  lemma HolderHolds(p: Pos, b: Cell, r: Pos, own: Cell)
    requires SameBlockAs(p, b, r, own)
    ensures Holder(p, b) == r && Local(b) == own
  {
  }

  /** A block is lit as its own chunk's layer says, and dark without one; it is a
      wall to fluid if its chunk is not held or has a cell of terrain in it. */
  lemma BlockExact(w: World, p: Pos, b: Cell, r: Pos, own: Cell)
    requires SameBlockAs(p, b, r, own)
    ensures LightAt(w, p, b) == if r in w.light && own in w.light[r] then w.light[r][own] else 0
    ensures Solid(w, p, b) <==> r !in w.chunks || exists c ::
      && c in w.chunks[r] && w.chunks[r][c] != AIR
      && 3 * own.x <= c.x < 3 * own.x + 3 && 3 * own.y <= c.y < 3 * own.y + 3 && 3 * own.z <= c.z < 3 * own.z + 3
  {
    HolderHolds(p, b, r, own);
    if r in w.chunks {
      forall c ensures InBlock(c, own) <==>
        3 * own.x <= c.x < 3 * own.x + 3 && 3 * own.y <= c.y < 3 * own.y + 3 && 3 * own.z <= c.z < 3 * own.z + 3 {}
    }
  }

  /** What its chunk's layer says of a block: nothing, or how much of what. */
  predicate Holds(w: World, r: Pos, own: Cell) {
    r in w.fluid && own in w.fluid[r] && w.fluid[r][own].volume > 0 && w.fluid[r][own].id != 0
  }

  /** A block of fluid the table draws is filled as deep as its layer says, and to
      the top where there is more fluid over it. */
  lemma FillExact(w: World, p: Pos, b: Cell, r: Pos, own: Cell, above: Pos, over: Cell)
    requires SameBlockAs(p, b, r, own) && SameBlockAs(p, b.(y := b.y + 1), above, over)
    ensures Fill(w, p, b).Some? <==>
      Holds(w, r, own) && w.fluid[r][own].id in w.table && w.table[w.fluid[r][own].id] != 0
    ensures Fill(w, p, b).Some? ==>
      Fill(w, p, b).value == (w.table[w.fluid[r][own].id], if Holds(w, above, over) then 27 else w.fluid[r][own].volume)
  {
    HolderHolds(p, b, r, own);
    HolderHolds(p, b.(y := b.y + 1), above, over);
  }
}
