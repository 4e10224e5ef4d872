/** What every step keeps.  In every run, and with no condition on it, no held
    chunk is forgotten and no stale mesh reaches the renderer.  And the screen
    and the world stay in agreement across a step if and only if the step was
    announced. */
module RemeshSafety {
  import opened ChunkWorld
  import opened RemeshProtocol

  // ----- Steps that change the world -----

  /** `p` is due for a remesh no older job can satisfy. */
  predicate Renewed(w: World, w': World, p: Pos) {
    Queued(w', p) && Reached(w', p) > Reached(w, p)
  }

  /** `p` keeps its generation, and waits if it did. */
  predicate Steady(w: World, w': World, p: Pos) {
    && p in w.chunks && p in w.generation && p in w'.generation
    && w'.generation[p] == w.generation[p]
    && (Queued(w, p) ==> Queued(w', p))
  }

  /** A job owed for `p` stays owed while the pool keeps it and `p` keeps its
      generation. */
  lemma LiveCarries(c: Client, c': Client, p: Pos)
    requires forall j :: InPool(c, j) && j.pos == p && Current(c.world, j) ==> InPool(c', j) && Current(c'.world, j)
    ensures Live(c, p) ==> Live(c', p)
  {
    if Live(c, p) {
      var j :| InPool(c, j) && j.pos == p && Current(c.world, j);
      assert InPool(c', j) && Current(c'.world, j);
    }
  }

  /** A step that touches neither the pool nor the screen of a held chunk, and
      leaves each held chunk newly due or as counted as it was. */
  ghost predicate WorldStep(c: Client, c': Client) {
    && c'.(world := c.world, mode := c.mode, drawn := c.drawn) == c
    && c'.world.chunks.Keys <= c'.world.generation.Keys && c'.world.chunks.Keys !! c'.world.summaries.Keys
    && (forall p :: Reached(c'.world, p) >= Reached(c.world, p))
    && (forall p :: p in c'.world.chunks ==> Renewed(c.world, c'.world, p) || Steady(c.world, c'.world, p))
    && (forall p :: p in c'.world.chunks && p in c.drawn ==> p in c'.drawn && c'.drawn[p] == c.drawn[p])
  }

  lemma SteadyLive(c: Client, c': Client, q: Pos)
    requires c'.pending == c.pending && c'.finished == c.finished
    requires q in c'.world.chunks && Steady(c.world, c'.world, q)
    ensures Live(c, q) <==> Live(c', q)
  {
    LiveCarries(c, c', q);
    LiveCarries(c', c, q);
  }

  lemma WorldStepTracks(c: Client, c': Client)
    requires Tracked(c) && WorldStep(c, c')
    ensures Tracked(c')
  {
    forall q | q in c'.world.chunks && !Queued(c'.world, q) && !Live(c', q) ensures ShownAt(c', q, false) {
      SteadyLive(c, c', q);
      assert ShownAt(c, q, false);
    }
    forall j | InPool(c', j) ensures j.generation <= Reached(c'.world, j.pos) {
      assert InPool(c, j);
    }
  }

  /** A chunk that kept its generation is drawn from what it was, or is still to
      be drawn. */
  ghost predicate Heard(c: Client, c': Client, q: Pos)
    requires q in c.world.chunks && q in c'.world.chunks
  {
    && (ViewOf(c.world, c.mode, q) == ViewOf(c'.world, c'.mode, q) || (Queued(c'.world, q) && !Live(c, q)))
    && (OpenSky(c.world, q) == OpenSky(c'.world, q) || Queued(c'.world, q) || Live(c, q))
  }

  /** Such a step keeps the agreement if and only if each chunk it did not make
      newly due looks as it did or is due already: what changed in silence is
      caught out by the job that still answers for the chunk, or by the mesh on
      screen. */
  lemma WorldStepExact(c: Client, c': Client)
    requires Inv(c) && WorldStep(c, c')
    ensures Inv(c') <==>
      (NoGhosts(c') && forall q :: q in c'.world.chunks && !Renewed(c.world, c'.world, q) ==> Heard(c, c', q))
  {
    if NoGhosts(c') && forall q :: q in c'.world.chunks && !Renewed(c.world, c'.world, q) ==> Heard(c, c', q) {
      HeardKeeps(c, c');
    } else if NoGhosts(c') {
      var q :| q in c'.world.chunks && !Renewed(c.world, c'.world, q) && !Heard(c, c', q);
      SilenceBreaks(c, c', q);
    }
  }

  lemma HeardKeeps(c: Client, c': Client)
    requires Inv(c) && WorldStep(c, c') && NoGhosts(c')
    requires forall q :: q in c'.world.chunks && !Renewed(c.world, c'.world, q) ==> Heard(c, c', q)
    ensures Inv(c')
  {
    WorldStepTracks(c, c');
    forall q | q in c'.world.chunks && !Queued(c'.world, q) && !Live(c', q) ensures ShownAt(c', q, true) {
      SteadyLive(c, c', q);
      assert ShownAt(c, q, true) && Heard(c, c', q);
    }
    forall j | InPool(c', j) && Current(c'.world, j) ensures j.view == ViewOf(c'.world, c'.mode, j.pos) {
      assert InPool(c, j);
      if !Renewed(c.world, c'.world, j.pos) {
        assert Current(c.world, j) && Live(c, j.pos) && Heard(c, c', j.pos);
      }
    }
  }

  lemma SilenceBreaks(c: Client, c': Client, q: Pos)
    requires Inv(c) && WorldStep(c, c')
    requires q in c'.world.chunks && !Renewed(c.world, c'.world, q) && !Heard(c, c', q)
    ensures !Inv(c')
  {
    SteadyLive(c, c', q);
    if Live(c, q) {
      var j :| InPool(c, j) && j.pos == q && Current(c.world, j);
      assert InPool(c', j) && Current(c'.world, j);
    } else {
      assert ShownAt(c, q, true);
      assert Picture(c.world, c.mode, q) != Picture(c'.world, c'.mode, q);
    }
  }

  lemma MarkedFacts(w: World, ps: set<Pos>, urgent: bool)
    ensures var w' := Marked(w, ps, urgent);
      && w'.(generation := w.generation, dirty := w.dirty, urgent := w.urgent) == w
      && w'.generation.Keys == w.generation.Keys + ps
      && (forall p :: Reached(w', p) == if p in ps then Reached(w, p) + 1 else Reached(w, p))
      && (forall p :: Queued(w', p) <==> Queued(w, p) || p in ps)
  {
  }

  /** A change of one position's data that marks the held chunks across its
      faces, and the position if it holds one: the agreement is kept if and only
      if the chunks at its corners are undisturbed. */
  lemma NeighbourhoodExact(c: Client, c': Client, moved: World, p: Pos, ps: set<Pos>)
    requires Inv(c) && WorldStep(c, c') && c'.mode == c.mode && NoGhosts(c') && DiffersAt(c.world, moved, p)
    requires c'.world.chunks == moved.chunks && c'.world.light == moved.light && c'.world.fluid == moved.fluid
    requires c'.world.table == moved.table && c'.world.summaries == moved.summaries
    requires forall q :: q in c'.world.chunks ==> (Renewed(c.world, c'.world, q) <==> q in ps)
    requires forall q :: q in ps && q in moved.chunks ==> q == p || Near(p, q)
    requires p in moved.chunks ==> p in ps
    requires forall q :: q in HeldAround(moved, p) && q !in ps ==>
      && (forall k: Face :: Across(c.world, q, k) == Across(c'.world, q, k))
      && OpenSky(c.world, q) == OpenSky(c'.world, q) && c.world.chunks[q] == c'.world.chunks[q]
      && (Queued(c'.world, q) <==> Queued(c.world, q))
    ensures Inv(c') <==> Undisturbed(c, moved, HeldAround(c.world, p) - ps)
  {
    var w, w' := c.world, c'.world;
    forall q | q in w'.chunks && q !in ps
      ensures q in w.chunks && (Near(p, q) <==> q in HeldAround(w, p) - ps)
      ensures Near(p, q) ==> (Heard(c, c', q) <==> Kept(w, moved, q) || Waits(c, q))
      ensures !Near(p, q) ==> Heard(c, c', q)
    {
      SameDataSameShell(moved, w', q);
      if Near(p, q) {
        SameView(w, w', c.mode, c.mode, q);
      } else {
        InSides(p, q);
        FacesKept(w, w', p, q);
        FarShellKept(w, w', p, q);
        SameView(w, w', c.mode, c.mode, q);
      }
    }
    forall q | q in HeldAround(w, p) ensures q in w'.chunks {
      assert Get(w.chunks, q) == Get(moved.chunks, q);
    }
    WorldStepExact(c, c');
  }

  /** The same for marks that reach every held chunk across a face. */
  lemma SidesMarkedExact(c: Client, c': Client, moved: World, p: Pos, ps: set<Pos>)
    requires Inv(c) && WorldStep(c, c') && c'.mode == c.mode && NoGhosts(c') && DiffersAt(c.world, moved, p)
    requires c'.world.chunks == moved.chunks && c'.world.light == moved.light && c'.world.fluid == moved.fluid
    requires c'.world.table == moved.table && c'.world.summaries == moved.summaries
    requires forall q :: q in c'.world.chunks ==> (Renewed(c.world, c'.world, q) <==> q in ps)
    requires forall q :: q in c'.world.chunks && q !in ps ==> (Queued(c'.world, q) <==> Queued(c.world, q))
    requires HeldSides(moved, p) <= ps <= HeldSides(moved, p) + {p} && (p in moved.chunks ==> p in ps)
    ensures Inv(c') <==> Undisturbed(c, moved, HeldCorners(c.world, p))
  {
    forall q | q in HeldAround(moved, p) && q !in ps
      ensures (forall k: Face :: Across(c.world, q, k) == Across(c'.world, q, k))
      ensures OpenSky(c.world, q) == OpenSky(c'.world, q) && c.world.chunks[q] == c'.world.chunks[q]
      ensures Queued(c'.world, q) <==> Queued(c.world, q)
    {
      assert q !in HeldSides(moved, p);
      assert Get(c.world.chunks, q) == Get(moved.chunks, q);
      FacesKept(c.world, c'.world, p, q);
    }
    forall q | q in ps && q in moved.chunks ensures q == p || Near(p, q) {
      InSides(p, q);
    }
    NeighbourhoodExact(c, c', moved, p, ps);
    forall q ensures q in HeldAround(c.world, p) - ps <==> q in HeldCorners(c.world, p) {
      assert q != p ==> Get(c.world.chunks, q) == Get(moved.chunks, q);
    }
    assert HeldAround(c.world, p) - ps == HeldCorners(c.world, p);
  }

  /** A change of one position's data followed by marks, as a step. */
  lemma MarkedStep(c: Client, c': Client, moved: World, p: Pos, ps: set<Pos>, urgent: bool)
    requires Tracked(c) && DiffersAt(c.world, moved, p) && c' == c.(world := Marked(moved, ps, urgent))
    requires moved.generation == c.world.generation && moved.floor == c.world.floor
    requires moved.chunks.Keys !! moved.summaries.Keys && (p in moved.chunks ==> p in ps)
    requires forall q :: q != p ==> (Queued(moved, q) <==> Queued(c.world, q))
    ensures WorldStep(c, c')
    ensures forall q :: q in c'.world.chunks ==> (Renewed(c.world, c'.world, q) <==> q in ps)
    ensures forall q :: q in c'.world.chunks && q !in ps ==> (Queued(c'.world, q) <==> Queued(c.world, q))
  {
    var w, w' := c.world, c'.world;
    MarkedFacts(moved, ps, urgent);
    forall q | q in w'.chunks ensures Renewed(w, w', q) <==> q in ps
                              ensures q !in ps ==> Steady(w, w', q) && (Queued(w', q) <==> Queued(w, q))
    {
      assert Reached(moved, q) == Reached(w, q);
      if q !in ps {
        assert Get(w.chunks, q) == Get(moved.chunks, q);
      }
    }
    forall q ensures Reached(w', q) >= Reached(w, q) {
      assert Reached(moved, q) == Reached(w, q);
    }
    forall q | q in w'.chunks ensures q in w'.generation {
      assert q != p ==> Get(w.chunks, q) == Get(moved.chunks, q);
    }
  }

  lemma ArriveExact(c: Client, p: Pos, b: Blocks)
    requires Tracked(c)
    ensures Tracked(Step(c, Arrive(p, b)))
    ensures Inv(c) ==> (Inv(Step(c, Arrive(p, b))) <==> Announced(c, Arrive(p, b)))
  {
    var moved, c' := Placed(c.world, p, b), Step(c, Arrive(p, b));
    var ps := {p} + HeldSides(moved, p);
    MarkedStep(c, c', moved, p, ps, false);
    WorldStepTracks(c, c');
    if Inv(c) {
      SidesMarkedExact(c, c', moved, p, ps);
    }
  }

  lemma LightExact(c: Client, p: Pos, layer: LightLayer)
    requires Tracked(c)
    ensures Tracked(Step(c, LightArrives(p, layer)))
    ensures Inv(c) ==> (Inv(Step(c, LightArrives(p, layer))) <==> Announced(c, LightArrives(p, layer)))
  {
    var moved, c' := Lit(c.world, p, layer), Step(c, LightArrives(p, layer));
    var ps := {p} + HeldSides(moved, p);
    assert HeldSides(moved, p) == HeldSides(c.world, p);
    MarkedStep(c, c', moved, p, ps, false);
    WorldStepTracks(c, c');
    if Inv(c) {
      SidesMarkedExact(c, c', moved, p, ps);
    }
  }

  lemma FluidExact(c: Client, p: Pos, layer: FluidLayer)
    requires Tracked(c)
    ensures Tracked(Step(c, FluidArrives(p, layer)))
    ensures Inv(c) ==> (Inv(Step(c, FluidArrives(p, layer))) <==> Announced(c, FluidArrives(p, layer)))
  {
    var moved, c' := Watered(c.world, p, layer), Step(c, FluidArrives(p, layer));
    var ps := {p} + HeldSides(moved, p);
    assert HeldSides(moved, p) == HeldSides(c.world, p);
    MarkedStep(c, c', moved, p, ps, false);
    WorldStepTracks(c, c');
    if Inv(c) {
      SidesMarkedExact(c, c', moved, p, ps);
    }
  }

  /** A chunk beside an edit and not marked for it looks on the same planes. */
  lemma PlanesKept(w: World, w': World, e: Edit, q: Pos)
    requires e.Valid() && e.chunk in w.chunks && q in w.chunks && q != e.chunk && q !in TouchedSides(w, e)
    requires w'.chunks == Written(w, e).chunks && w'.light == w.light && w'.summaries == w.summaries
    ensures forall k: Face :: Across(w, q, k) == Across(w', q, k)
    ensures OpenSky(w, q) == OpenSky(w', q)
  {
    forall k: Face ensures Across(w, q, k) == Across(w', q, k) {
      if Side(q, k) == e.chunk {
        SideOpposite(q, k);
        assert Side(e.chunk, Opposite(k)) == q;
        PlaneKept(w.chunks[e.chunk], e, Opposite(k));
      }
    }
  }

  lemma EditExact(c: Client, e: Edit)
    requires Tracked(c) && e.Valid()
    ensures Tracked(Step(c, Edited(e)))
    ensures Inv(c) ==> (Inv(Step(c, Edited(e))) <==> Announced(c, Edited(e)))
  {
    if e.chunk in c.world.chunks {
      EditHeldExact(c, e, Step(c, Edited(e)), {e.chunk} + TouchedSides(c.world, e));
    } else {
      assert Step(c, Edited(e)) == c;
    }
  }

  lemma EditHeldExact(c: Client, e: Edit, c': Client, ps: set<Pos>)
    requires Tracked(c) && e.Valid() && e.chunk in c.world.chunks && ps == {e.chunk} + TouchedSides(c.world, e)
    requires c' == c.(world := Marked(Written(c.world, e), ps, true))
    ensures Tracked(c')
    ensures Inv(c) ==> (Inv(c') <==> Undisturbed(c, Written(c.world, e), HeldAround(c.world, e.chunk) - TouchedSides(c.world, e)))
  {
    var p, w, moved := e.chunk, c.world, Written(c.world, e);
    MarkedStep(c, c', moved, p, ps, true);
    WorldStepTracks(c, c');
    if Inv(c) {
      forall q | q in HeldAround(moved, p) && q !in ps
        ensures (forall k: Face :: Across(w, q, k) == Across(c'.world, q, k))
        ensures OpenSky(w, q) == OpenSky(c'.world, q) && w.chunks[q] == c'.world.chunks[q]
      {
        PlanesKept(w, c'.world, e, q);
      }
      forall q | q in ps && q in moved.chunks ensures q == p || Near(p, q) {
        InSides(p, q);
      }
      NeighbourhoodExact(c, c', moved, p, ps);
      assert HeldAround(w, p) - ps == HeldAround(w, p) - TouchedSides(w, e);
    }
  }

  lemma PrunedFacts(w: World, p: Pos, w': World)
    requires w'.generation == w.generation - {p}
    requires w'.floor == if p in w.generation && w.generation[p] > w.floor then w.generation[p] else w.floor
    ensures forall q :: Reached(w', q) >= Reached(w, q)
    ensures forall q :: q != p && q in w.generation ==> Reached(w', q) == Reached(w, q)
  {
  }

  /** What dropping a position and marking others comes to, one chunk at a
      time. */
  lemma DroppedMarks(w: World, p: Pos, ps: set<Pos>, q: Pos)
    requires q in w.chunks && q != p && w.chunks.Keys <= w.generation.Keys
    ensures var w' := Marked(Dropped(w, p), ps, false);
      && (Renewed(w, w', q) <==> q in ps) && q in w'.generation
      && (q !in ps ==> Steady(w, w', q) && (Queued(w', q) <==> Queued(w, q)))
  {
    PrunedFacts(w, p, Dropped(w, p));
    MarkedFacts(Dropped(w, p), ps, false);
    assert Reached(Dropped(w, p), q) == Reached(w, q);
  }

  lemma DroppedReaches(w: World, p: Pos, ps: set<Pos>)
    ensures forall q :: Reached(Marked(Dropped(w, p), ps, false), q) >= Reached(w, q)
  {
    PrunedFacts(w, p, Dropped(w, p));
    MarkedFacts(Dropped(w, p), ps, false);
  }

  /** An unload is a step of the world, and marks the held neighbours if
      anything was held. */
  lemma UnloadStep(c: Client, p: Pos, ps: set<Pos>)
    requires Tracked(c)
    requires ps == if p in c.world.chunks || p in c.world.summaries then HeldSides(Dropped(c.world, p), p) else {}
    ensures var c' := Step(c, Unload(p)); var w' := c'.world;
      && WorldStep(c, c') && DiffersAt(c.world, Dropped(c.world, p), p)
      && (forall q :: q in w'.chunks ==> (Renewed(c.world, w', q) <==> q in ps))
      && (forall q :: q in w'.chunks && q !in ps ==> (Queued(w', q) <==> Queued(c.world, q)))
      && (NoGhosts(c) ==> NoGhosts(c'))
  {
    var w' := Marked(Dropped(c.world, p), ps, false);
    UnloadWorld(c, p, ps);
    DroppedDiffers(c.world, p);
    UnloadDrawn(c, Step(c, Unload(p)), p);
    DroppedMarksAll(c.world, p, ps);
    DroppedReaches(c.world, p, ps);
    MarkedFacts(Dropped(c.world, p), ps, false);
    SeenWorldStep(c, Step(c, Unload(p)), w', ps);
  }

  lemma SeenWorldStep(c: Client, c': Client, w': World, ps: set<Pos>)
    requires c' == c.(world := w', drawn := c'.drawn) && w'.chunks.Keys !! w'.summaries.Keys
    requires forall q :: Reached(w', q) >= Reached(c.world, q)
    requires forall q :: q in w'.chunks ==>
      && (Renewed(c.world, w', q) <==> q in ps) && q in w'.generation
      && (q !in ps ==> Steady(c.world, w', q))
    requires forall q :: q in w'.chunks && q in c.drawn ==> q in c'.drawn && c'.drawn[q] == c.drawn[q]
    ensures WorldStep(c, c')
  {
  }

  lemma MarkedNone(w: World)
    ensures Marked(w, {}, false) == w
  {
    assert Marked(w, {}, false).generation == w.generation;
  }

  lemma DroppedDiffers(w: World, p: Pos)
    ensures DiffersAt(w, Dropped(w, p), p)
  {
  }

  lemma RemovedMarks(w: World, p: Pos, ps: set<Pos>)
    requires ps == if p in w.chunks || p in w.summaries then HeldSides(Dropped(w, p), p) else {}
    ensures Remove(w, p) == Marked(Dropped(w, p), ps, false)
  {
    MarkedNone(Dropped(w, p));
  }

  lemma UnloadWorld(c: Client, p: Pos, ps: set<Pos>)
    requires ps == if p in c.world.chunks || p in c.world.summaries then HeldSides(Dropped(c.world, p), p) else {}
    ensures Step(c, Unload(p)) == c.(world := Marked(Dropped(c.world, p), ps, false), drawn := Step(c, Unload(p)).drawn)
  {
    RemovedMarks(c.world, p, ps);
  }

  lemma UnloadDrawn(c: Client, c': Client, p: Pos)
    requires c' == Step(c, Unload(p)) && c'.world.chunks == c.world.chunks - {p} && c'.world.summaries == c.world.summaries - {p}
    ensures NoGhosts(c) ==> NoGhosts(c')
    ensures forall q :: q != p && q in c.drawn ==> q in c'.drawn && c'.drawn[q] == c.drawn[q]
  {
    assert c'.drawn == if p in c.world.chunks || p in c.world.summaries then c.drawn - {p} else c.drawn;
  }

  lemma DroppedMarksAll(w: World, p: Pos, ps: set<Pos>)
    requires w.chunks.Keys <= w.generation.Keys
    ensures var w' := Marked(Dropped(w, p), ps, false);
      forall q :: q in w'.chunks ==>
        && (Renewed(w, w', q) <==> q in ps) && q in w'.generation
        && (q !in ps ==> Steady(w, w', q) && (Queued(w', q) <==> Queued(w, q)))
  {
    forall q | q in Dropped(w, p).chunks
      ensures var w' := Marked(Dropped(w, p), ps, false);
        && (Renewed(w, w', q) <==> q in ps) && q in w'.generation
        && (q !in ps ==> Steady(w, w', q) && (Queued(w', q) <==> Queued(w, q)))
    {
      DroppedMarks(w, p, ps, q);
    }
  }

  lemma UnloadExact(c: Client, p: Pos)
    requires Tracked(c)
    ensures Tracked(Step(c, Unload(p)))
    ensures Inv(c) ==> (Inv(Step(c, Unload(p))) <==> Announced(c, Unload(p)))
  {
    var c', moved := Step(c, Unload(p)), Dropped(c.world, p);
    var ps := if p in c.world.chunks || p in c.world.summaries then HeldSides(moved, p) else {};
    UnloadStep(c, p, ps);
    WorldStepTracks(c, c');
    if Inv(c) {
      if p in c.world.chunks || p in c.world.summaries {
        SidesMarkedExact(c, c', moved, p, ps);
      } else {
        UnloadUnheldExact(c, p, c');
      }
    }
  }

  /** The silent half of an unload: nothing was held, but light or fluid was. */
  lemma UnloadUnheldExact(c: Client, p: Pos, c': Client)
    requires Inv(c) && p !in c.world.chunks && p !in c.world.summaries
    requires c' == Step(c, Unload(p)) && WorldStep(c, c') && NoGhosts(c')
    requires forall q :: q in c'.world.chunks ==> !Renewed(c.world, c'.world, q)
    requires forall q :: q in c'.world.chunks ==> (Queued(c'.world, q) <==> Queued(c.world, q))
    ensures Inv(c') <==> Announced(c, Unload(p))
  {
    var w, w' := c.world, c'.world;
    assert w' == Dropped(w, p) && w'.chunks == w.chunks;
    forall q | q in w.chunks
      ensures Heard(c, c', q) <==>
        && (Near(p, q) ==> Kept(w, w', q) || Waits(c, q))
        && (p in w.light && q in w.light && q in HeldSides(w, p) ==> Queued(w, q) || Live(c, q))
    {
      UnheldHeard(c, p, c', q);
    }
    WorldStepExact(c, c');
  }

  lemma UnheldHeard(c: Client, p: Pos, c': Client, q: Pos)
    requires p !in c.world.chunks && p !in c.world.summaries && q in c.world.chunks
    requires c'.world == Dropped(c.world, p) && c'.mode == c.mode && (Queued(c'.world, q) <==> Queued(c.world, q))
    ensures q in c'.world.chunks
    ensures Heard(c, c', q) <==>
      && (Near(p, q) ==> Kept(c.world, c'.world, q) || Waits(c, q))
      && (p in c.world.light && q in c.world.light && q in HeldSides(c.world, p) ==> Queued(c.world, q) || Live(c, q))
  {
    var w, w' := c.world, c'.world;
    UnloadUnheldFaces(w, p, q);
    SameView(w, w', c.mode, c.mode, q);
    if !Near(p, q) {
      FarShellKept(w, w', p, q);
      InSides(p, q);
    }
  }

  lemma UnloadUnheldFaces(w: World, p: Pos, q: Pos)
    requires p !in w.chunks && p !in w.summaries && q in w.chunks
    ensures forall k: Face :: Across(w, q, k) == Across(Dropped(w, p), q, k)
    ensures OpenSky(w, q) != OpenSky(Dropped(w, p), q) <==> p in w.light && q in w.light && q in HeldSides(w, p)
  {
    var w' := Dropped(w, p);
    InSides(p, q);
    if p in w.light && q in w.light && q in HeldSides(w, p) {
      var k: Face :| Side(q, k) == p;
      assert k in OpenSky(w', q).sides && k !in OpenSky(w, q).sides;
    } else {
      forall k: Face ensures q in w.light ==> (Side(q, k) in w.light <==> Side(q, k) in w'.light) {
        assert Side(q, k) == p ==> p in Sides(q);
      }
    }
  }

  lemma SummariseExact(c: Client, p: Pos, v: int)
    requires Tracked(c)
    ensures Tracked(Step(c, Summarise(p, v)))
    ensures Inv(c) ==> (Inv(Step(c, Summarise(p, v))) <==> Announced(c, Summarise(p, v)))
  {
    if p in c.world.chunks {
      SummariseChunk(c, p, v);
    } else {
      SummariseUnheld(c, p, v);
    }
  }

  lemma SummariseMarks(w: World, p: Pos, v: int, gone: World, moved: World, ps: set<Pos>)
    requires p in w.chunks && gone == MadeWay(w, p) && moved == gone.(summaries := w.summaries[p := v])
    requires ps == HeldSides(gone, p)
    ensures HeldSides(moved, p) == ps && SetSummary(w, p, v) == Marked(moved, ps, false)
    ensures DiffersAt(w, moved, p)
  {
    assert HeldSides(moved, p) == ps;
    assert Marked(moved, ps, false) == Marked(gone, ps, false).(summaries := w.summaries[p := v]);
  }

  lemma SummariseUndisturbed(c: Client, gone: World, moved: World, qs: set<Pos>)
    requires moved == gone.(summaries := moved.summaries)
    ensures Undisturbed(c, gone, qs) <==> Undisturbed(c, moved, qs)
  {
    forall q ensures Kept(c.world, gone, q) <==> Kept(c.world, moved, q) {
      SameDataSameShell(gone, moved, q);
    }
  }

  lemma SummariseChunk(c: Client, p: Pos, v: int)
    requires Tracked(c) && p in c.world.chunks
    ensures Tracked(Step(c, Summarise(p, v)))
    ensures Inv(c) ==> (Inv(Step(c, Summarise(p, v))) <==> Announced(c, Summarise(p, v)))
  {
    var c', gone := Step(c, Summarise(p, v)), MadeWay(c.world, p);
    var moved := gone.(summaries := c.world.summaries[p := v]);
    var ps := HeldSides(gone, p);
    SummariseMarks(c.world, p, v, gone, moved, ps);
    MarkedStep(c, c', moved, p, ps, false);
    WorldStepTracks(c, c');
    if Inv(c) {
      SidesMarkedExact(c, c', moved, p, ps);
      SummariseUndisturbed(c, gone, moved, HeldCorners(c.world, p));
    }
  }

  lemma SummariseUnheld(c: Client, p: Pos, v: int)
    requires Tracked(c) && p !in c.world.chunks
    ensures Tracked(Step(c, Summarise(p, v)))
    ensures Inv(c) ==> (Inv(Step(c, Summarise(p, v))) <==> Announced(c, Summarise(p, v)))
  {
    var c' := Step(c, Summarise(p, v));
    var w, w' := c.world, c'.world;
    WorldStepTracks(c, c');
    if Inv(c) {
      forall q | q in w.chunks
        ensures Heard(c, c', q) <==> p in w.summaries || q !in HeldSides(w, p) || !Walled(w, q, p) || Waits(c, q)
      {
        SummaryHeard(c, p, c', q);
      }
      WorldStepExact(c, c');
    }
  }

  lemma SummaryHeard(c: Client, p: Pos, c': Client, q: Pos)
    requires p !in c.world.chunks && q in c.world.chunks && c'.mode == c.mode
    requires p in c'.world.summaries && c'.world == c.world.(summaries := c.world.summaries[p := c'.world.summaries[p]])
    ensures Heard(c, c', q) <==> p in c.world.summaries || q !in HeldSides(c.world, p) || !Walled(c.world, q, p) || Waits(c, q)
  {
    var w, w' := c.world, c'.world;
    SummaryView(w, w', p, c.mode, q);
    InSides(p, q);
  }

  /** A summary where nothing was held changes the views of the chunks beside it
      that draw something on that side, and no other. */
  lemma SummaryView(w: World, w': World, p: Pos, mode: LightingMode, q: Pos)
    requires p !in w.chunks && q in w.chunks
    requires p in w'.summaries && w' == w.(summaries := w.summaries[p := w'.summaries[p]])
    ensures ViewOf(w, mode, q) == ViewOf(w', mode, q) <==> p in w.summaries || !Walled(w, q, p)
    ensures OpenSky(w, q) == OpenSky(w', q)
  {
    SameDataSameShell(w, w', q);
    var v, v' := ViewOf(w, mode, q), ViewOf(w', mode, q);
    forall k: Face
      ensures Seen(w, q, k) == Seen(w', q, k) <==> p in w.summaries || Side(q, k) != p || !Walls(w, q, k)
    {
      WallsKept(w, w', q, k);
    }
    if p !in w.summaries && Walled(w, q, p) {
      var k: Face :| Side(q, k) == p && Walls(w, q, k);
      assert v.faces[k] != v'.faces[k];
    } else {
      assert v.faces == v'.faces;
    }
  }

  /** A change of lighting mode is always heard: no mode bakes anything another
      does not. */
  lemma ModeKeeps(c: Client, m: LightingMode)
    requires Tracked(c)
    ensures Tracked(Step(c, SetMode(m)))
    ensures Inv(c) ==> Inv(Step(c, SetMode(m)))
  {
    var c' := Step(c, SetMode(m));
    if m != c.mode {
      WorldStepTracks(c, c');
      if Inv(c) {
        forall q | q in c.world.chunks ensures Heard(c, c', q) {
          SameDataSameView(c.world, c'.world, c.mode, q);
          assert ViewOf(c'.world, c.mode, q) == ViewOf(c'.world, m, q);
        }
        WorldStepExact(c, c');
      }
    }
  }

  lemma TableExact(c: Client, t: FluidTable)
    requires Tracked(c)
    ensures Tracked(Step(c, TableArrives(t)))
    ensures Inv(c) ==> (Inv(Step(c, TableArrives(t))) <==> Announced(c, TableArrives(t)))
  {
    var c' := Step(c, TableArrives(t));
    TableStep(c, c', t);
    WorldStepTracks(c, c');
    if Inv(c) {
      forall q | q in c.world.chunks ensures Heard(c, c', q) <==> Kept(c.world, c.world.(table := t), q) || !Live(c, q) {
        TableHeard(c, t, c', q);
      }
      WorldStepExact(c, c');
    }
  }

  lemma TableStep(c: Client, c': Client, t: FluidTable)
    requires Tracked(c) && c' == c.(world := SetFluidTable(c.world, t))
    ensures WorldStep(c, c') && c'.world == c.world.(table := t, dirty := c'.world.dirty)
    ensures forall q :: q in c'.world.chunks ==> !Renewed(c.world, c'.world, q)
    ensures c.world.fluid != map[] ==> forall q :: q in c'.world.chunks ==> Queued(c'.world, q)
  {
  }

  lemma TableHeard(c: Client, t: FluidTable, c': Client, q: Pos)
    requires q in c.world.chunks && c'.mode == c.mode && c'.world == c.world.(table := t, dirty := c'.world.dirty)
    requires c.world.fluid != map[] ==> Queued(c'.world, q)
    ensures Heard(c, c', q) <==> Kept(c.world, c.world.(table := t), q) || !Live(c, q)
  {
    TableView(c.world, c'.world, t, c.mode, q);
    if c.world.fluid == map[] {
      DryShell(c.world, c.world.(table := t), q);
    }
  }

  lemma TableView(w: World, w': World, t: FluidTable, mode: LightingMode, q: Pos)
    requires q in w.chunks && w' == w.(table := t, dirty := w'.dirty)
    ensures ViewOf(w, mode, q) == ViewOf(w', mode, q) <==> Kept(w, w.(table := t), q)
    ensures OpenSky(w, q) == OpenSky(w', q)
  {
    forall k: Face ensures Across(w, q, k) == Across(w', q, k) {}
    SameView(w, w', mode, mode, q);
    SameDataSameShell(w.(table := t), w', q);
  }

  /** Where there is no fluid anywhere neither the table nor a wall is asked
      about. */
  lemma DryShell(w: World, w': World, q: Pos)
    requires w.fluid == map[] && w'.fluid == map[] && w'.light == w.light
    ensures Kept(w, w', q)
  {
    assert LightShell(w, q) == LightShell(w', q);
    assert !DrawsFluid(w, q) && !DrawsFluid(w', q);
  }

  lemma DomainExact(c: Client)
    requires Tracked(c)
    ensures Tracked(Step(c, SwitchDomain))
    ensures Inv(c) ==> (Inv(Step(c, SwitchDomain)) <==> Announced(c, SwitchDomain))
  {
    var c' := Step(c, SwitchDomain);
    var h := Highest(c.world.generation, c.world.floor);
    assert IsHighest(c.world.generation, c.world.floor, h);
    forall j | InPool(c', j) ensures j.generation <= Reached(c'.world, j.pos) {
      assert InPool(c, j);
    }
    assert c'.drawn.Keys == c.drawn.Keys - c.world.chunks.Keys;
    if Inv(c) && Inv(c') {
      forall p | p in c.drawn ensures p in c.world.chunks {
        assert p in c.world.chunks || p in c'.drawn.Keys;
      }
    }
  }

  lemma FinishKeeps(c: Client, i: nat, exact: bool)
    requires Keeping(c, {}, exact) && i < |c.pending|
    ensures Keeping(Step(c, Finish(i)), {}, exact)
  {
    var c' := Step(c, Finish(i));
    forall j ensures InPool(c, j) <==> InPool(c', j) {
      if j in c.pending {
        var n :| 0 <= n < |c.pending| && c.pending[n] == j;
        assert n < i ==> c'.pending[n] == j;
        assert n > i ==> c'.pending[n - 1] == j;
        assert n == i ==> c'.finished[|c.finished|] == j;
      }
    }
    SamePoolKeeps(c, c', exact);
  }

  lemma SamePoolKeeps(c: Client, c': Client, exact: bool)
    requires Keeping(c, {}, exact) && c'.world == c.world && c'.mode == c.mode && c'.drawn == c.drawn && PoolBounded(c')
    requires forall j :: InPool(c, j) <==> InPool(c', j)
    ensures Keeping(c', {}, exact)
  {
    forall p | p in c'.world.chunks && !Queued(c'.world, p) && !Live(c', p) ensures ShownAt(c', p, exact) {
      LiveCarries(c, c', p);
      assert ShownAt(c, p, exact);
    }
  }

  lemma HorizonKeeps(c: Client, built: set<Pos>, hidden: set<Pos>, exact: bool)
    requires Keeping(c, {}, exact) && built + hidden <= c.world.summaries.Keys
    ensures Keeping(Step(c, Horizon(built, hidden)), {}, exact)
  {
    var c' := Step(c, Horizon(built, hidden));
    forall p | p in c.world.chunks && !Queued(c.world, p) && !Live(c', p) ensures ShownAt(c', p, exact) {
      LiveCarries(c, c', p);
      assert ShownAt(c, p, exact);
      assert p !in built && p !in hidden;
    }
  }

  // ----- The frame -----

  lemma DrainOneKeeps(c: Client, waiting: set<Pos>, exact: bool)
    requires c.finished != [] && Counted(c) && Shown(c, waiting, exact) && (exact ==> JobsSound(c) && NoGhosts(c))
    ensures var c' := DrainOne(c);
      Counted(c') && Shown(c', waiting, exact) && (exact ==> JobsSound(c') && NoGhosts(c'))
  {
    var c', done := DrainOne(c), c.finished[0];
    forall j ensures InPool(c, j) <==> InPool(c', j) || j == done {
      assert c.finished == [done] + c.finished[1..];
    }
    forall p | p in c.world.chunks && p !in waiting && !Queued(c.world, p) && !Live(c', p)
      ensures ShownAt(c', p, exact)
    {
      if !(done.pos == p && Current(c.world, done)) {
        LiveCarries(c, c', p);
        assert ShownAt(c, p, exact);
      }
    }
  }

  lemma DrainKeeps(c: Client, waiting: set<Pos>, exact: bool)
    requires Counted(c) && Shown(c, waiting, exact) && (exact ==> JobsSound(c) && NoGhosts(c))
    ensures var c' := Drain(c);
      Counted(c') && Shown(c', waiting, exact) && (exact ==> JobsSound(c') && NoGhosts(c'))
    ensures Drain(c) == c.(finished := [], inFlight := Drain(c).inFlight, drawn := Drain(c).drawn)
    decreases |c.finished|
  {
    if c.finished != [] {
      DrainOneKeeps(c, waiting, exact);
      DrainKeeps(DrainOne(c), waiting, exact);
    }
  }

  /** A step that moves only the queue. */
  lemma QueueKeeps(c: Client, c': Client, waiting: set<Pos>, waiting': set<Pos>, exact: bool)
    requires Keeping(c, waiting, exact)
    requires c' == c.(world := c.world.(dirty := c'.world.dirty, urgent := c'.world.urgent))
    requires forall p :: p in c.world.chunks && (Queued(c.world, p) || p in waiting) ==> Queued(c'.world, p) || p in waiting'
    ensures Keeping(c', waiting', exact)
  {
    var w, w' := c.world, c'.world;
    forall p | p in w.chunks ensures Picture(w, c.mode, p) == Picture(w', c.mode, p) {
      SameDataSameView(w, w', c.mode, p);
    }
    forall j ensures InPool(c, j) <==> InPool(c', j) {}
    forall p | p in w'.chunks && p !in waiting' && !Queued(w', p) && !Live(c', p) ensures ShownAt(c', p, exact) {
      LiveCarries(c, c', p);
      assert ShownAt(c, p, exact);
    }
  }

  lemma TakenKeeps(c: Client, centre: Pos, due: seq<Pos>, urgent: nat, exact: bool)
    requires Keeping(c, {}, exact) && IsDue(c.world, centre, due, urgent)
    ensures Keeping(c.(world := Taken(c.world, due)), Elements(due), exact)
  {
    assert due == due[..urgent] + due[urgent..];
    forall p | p in c.world.chunks && p in c.world.urgent ensures p in Elements(due) {
      assert p in Elements(due[..urgent]);
    }
    QueueKeeps(c, c.(world := Taken(c.world, due)), {}, Elements(due), exact);
  }

  lemma MeshNowKeeps(c: Client, p: Pos, waiting: set<Pos>, exact: bool)
    requires Keeping(c, waiting, exact)
    ensures Keeping(MeshNow(c, p), waiting - {p}, exact)
  {
    var c' := MeshNow(c, p);
    SameWorldPool(c, c');
    forall q | q in c.world.chunks && q !in waiting - {p} && !Queued(c.world, q) && !Live(c', q)
      ensures ShownAt(c', q, exact)
    {
      assert q != p ==> ShownAt(c, q, exact);
    }
  }

  lemma SameWorldPool(c: Client, c': Client)
    requires c'.world == c.world && c'.pending == c.pending && c'.finished == c.finished
    ensures forall j :: InPool(c, j) <==> InPool(c', j)
    ensures forall p :: Live(c, p) <==> Live(c', p)
  {
  }

  lemma SubmitKeeps(c: Client, p: Pos, waiting: set<Pos>, exact: bool)
    requires Keeping(c, waiting, exact) && p in c.world.chunks && c.backlog < Capacity(c)
    ensures Keeping(Submit(c, p), waiting - {p}, exact)
  {
    var c' := Submit(c, p);
    var job := Job(p, Generation(c.world, p), ViewOf(c.world, c.mode, p));
    forall j ensures InPool(c', j) <==> j == job || InPool(c, j) {}
    assert InPool(c', job);
    forall q | q in c'.world.chunks && q !in waiting - {p} && !Queued(c'.world, q) && !Live(c', q)
      ensures ShownAt(c', q, exact)
    {
      assert Live(c', p);
      LiveCarries(c, c', q);
      assert ShownAt(c, q, exact);
    }
  }

  lemma PassKeeps(c: Client, due: seq<Pos>, urgent: nat, i: nat, late: set<nat>, exact: bool)
    requires i <= |due| && Keeping(c, Elements(due[i..]), exact)
    ensures Keeping(Pass(c, due, urgent, i, late), {}, exact)
    decreases |due| - i
  {
    if i < |due| {
      assert due[i..] == [due[i]] + due[i + 1..];
      if i < urgent {
        MeshNowKeeps(c, due[i], Elements(due[i..]), exact);
        Fewer(MeshNow(c, due[i]), due, i, exact);
        PassKeeps(MeshNow(c, due[i]), due, urgent, i + 1, late, exact);
      } else if c.backlog >= Capacity(c) {
        QueueKeeps(c, Requeued(c, due[i..]), Elements(due[i..]), {}, exact);
      } else if due[i] !in c.world.chunks {
        QueueKeeps(c, c, Elements(due[i..]), Elements(due[i + 1..]), exact);
        PassKeeps(c, due, urgent, i + 1, late, exact);
      } else {
        var sent := Submit(c, due[i]);
        SubmitKeeps(c, due[i], Elements(due[i..]), exact);
        Fewer(sent, due, i, exact);
        if i in late && i + 1 < |due| {
          QueueKeeps(sent, Requeued(sent, due[i + 1..]), Elements(due[i + 1..]), {}, exact);
        } else {
          PassKeeps(sent, due, urgent, i + 1, late, exact);
        }
      }
    } else {
      assert Elements(due[i..]) == {};
    }
  }

  lemma Fewer(c: Client, due: seq<Pos>, i: nat, exact: bool)
    requires i < |due| && Keeping(c, Elements(due[i..]) - {due[i]}, exact)
    ensures Keeping(c, Elements(due[i + 1..]), exact)
  {
    assert due[i..] == [due[i]] + due[i + 1..];
    forall p | p in c.world.chunks && p !in Elements(due[i + 1..]) && !Queued(c.world, p) && !Live(c, p)
      ensures ShownAt(c, p, exact)
    {
      assert p !in Elements(due[i..]) - {due[i]};
    }
  }

  lemma FrameKeeps(c: Client, centre: Pos, due: seq<Pos>, urgent: nat, late: set<nat>, exact: bool)
    requires Keeping(c, {}, exact) && IsDue(c.world, centre, due, urgent)
    ensures Keeping(Remesh(c, due, urgent, late), {}, exact)
  {
    var freed := c.(backlog := if c.backlog < |c.finished| then 0 else c.backlog - |c.finished|);
    SameWorldPool(c, freed);
    forall p | p in c.world.chunks && !Queued(c.world, p) && !Live(freed, p) ensures ShownAt(freed, p, exact) {
      assert ShownAt(c, p, exact);
    }
    DrainKeeps(freed, {}, exact);
    var d := Drain(freed);
    TakenKeeps(d, centre, due, urgent, exact);
    assert due[0..] == due;
    PassKeeps(d.(world := Taken(d.world, due)), due, urgent, 0, late, exact);
  }

  // ----- What reaches the renderer -----

  /** At each position the screen is as it was, or shows the held chunk's current
      generation. */
  ghost predicate OnlyCurrent(c: Client, before: map<Pos, Mesh>) {
    forall p :: p in c.drawn && !(p in before && before[p] == c.drawn[p]) ==>
      p in c.world.chunks && c.drawn[p].Terrain? && c.drawn[p].generation == Generation(c.world, p)
  }

  lemma DrainUploads(c: Client, before: map<Pos, Mesh>)
    requires OnlyCurrent(c, before)
    ensures OnlyCurrent(Drain(c), before) && Drain(c).world == c.world
    decreases |c.finished|
  {
    if c.finished != [] {
      DrainUploads(DrainOne(c), before);
    }
  }

  lemma PassUploads(c: Client, due: seq<Pos>, urgent: nat, i: nat, late: set<nat>, before: map<Pos, Mesh>)
    requires i <= |due| && OnlyCurrent(c, before)
    ensures OnlyCurrent(Pass(c, due, urgent, i, late), before)
    decreases |due| - i
  {
    if i < |due| {
      if i < urgent {
        PassUploads(MeshNow(c, due[i]), due, urgent, i + 1, late, before);
      } else if c.backlog < Capacity(c) {
        if due[i] !in c.world.chunks {
          PassUploads(c, due, urgent, i + 1, late, before);
        } else if !(i in late && i + 1 < |due|) {
          PassUploads(Submit(c, due[i]), due, urgent, i + 1, late, before);
        }
      }
    }
  }

  /** No stale mesh reaches the renderer: whatever the step, from whatever
      state, a terrain mesh that was not on screen before it is of its chunk's
      current generation, and only a frame brings one. */
  lemma UploadsAreCurrent(c: Client, e: Event)
    requires Possible(c, e)
    ensures var c' := Step(c, e);
      forall p :: p in c'.drawn && c'.drawn[p].Terrain? && !(p in c.drawn && c.drawn[p] == c'.drawn[p]) ==>
        e.Frame? && p in c'.world.chunks && c'.drawn[p].generation == Generation(c'.world, p)
  {
    if e.Frame? {
      var freed := c.(backlog := if c.backlog < |c.finished| then 0 else c.backlog - |c.finished|);
      DrainUploads(freed, c.drawn);
      var d := Drain(freed);
      PassUploads(d.(world := Taken(d.world, e.due)), e.due, e.urgent, 0, e.late, c.drawn);
    }
  }

  // ----- The main results -----

  /** Whatever happens, no held chunk is forgotten. */
  lemma StepTracks(c: Client, e: Event)
    requires Tracked(c) && Possible(c, e)
    ensures Tracked(Step(c, e))
  {
    match e
    case Arrive(p, b) => ArriveExact(c, p, b);
    case Unload(p) => UnloadExact(c, p);
    case Summarise(p, v) => SummariseExact(c, p, v);
    case LightArrives(p, l) => LightExact(c, p, l);
    case FluidArrives(p, f) => FluidExact(c, p, f);
    case TableArrives(t) => TableExact(c, t);
    case SetMode(m) => ModeKeeps(c, m);
    case Edited(edit) => EditExact(c, edit);
    case SwitchDomain => DomainExact(c);
    case Finish(i) => FinishKeeps(c, i, false);
    case Frame(centre, due, urgent, late) => FrameKeeps(c, centre, due, urgent, late, false);
    case Horizon(built, hidden) => HorizonKeeps(c, built, hidden, false);
  }

  lemma InvTracks(c: Client)
    requires Inv(c)
    ensures Tracked(c)
  {
  }

  /** One step, of any kind, from any good state: the screen and the world stay
      in agreement if and only if the step was announced. */
  lemma StepExact(c: Client, e: Event)
    requires Inv(c) && Possible(c, e)
    ensures Inv(Step(c, e)) <==> Announced(c, e)
  {
    InvTracks(c);
    match e
    case Arrive(p, b) => ArriveExact(c, p, b);
    case Unload(p) => UnloadExact(c, p);
    case Summarise(p, v) => SummariseExact(c, p, v);
    case LightArrives(p, l) => LightExact(c, p, l);
    case FluidArrives(p, f) => FluidExact(c, p, f);
    case TableArrives(t) => TableExact(c, t);
    case SetMode(m) => ModeKeeps(c, m);
    case Edited(edit) => EditExact(c, edit);
    case SwitchDomain => DomainExact(c);
    case Finish(i) => FinishKeeps(c, i, true);
    case Frame(centre, due, urgent, late) => FrameKeeps(c, centre, due, urgent, late, true);
    case Horizon(built, hidden) => HorizonKeeps(c, built, hidden, true);
  }

  /** Any interleaving of possible events. */
  ghost predicate IsRun(c: Client, run: seq<Event>)
    decreases |run|
  {
    run == [] || (Possible(c, run[0]) && IsRun(Step(c, run[0]), run[1..]))
  }

  ghost function After(c: Client, run: seq<Event>): Client
    requires IsRun(c, run)
    decreases |run|
  {
    if run == [] then c else After(Step(c, run[0]), run[1..])
  }

  lemma {:induction false} RunTracks(c: Client, run: seq<Event>)
    requires Tracked(c) && IsRun(c, run)
    ensures Tracked(After(c, run))
    decreases |run|
  {
    if run != [] {
      StepTracks(c, run[0]);
      RunTracks(Step(c, run[0]), run[1..]);
    }
  }

  /** After every run there is: each held chunk is queued, owed by a job of its
      current generation, or drawn at its current generation; with nothing queued
      or owed it is drawn so; and the pool never holds more than its capacity. */
  lemma NothingForgotten(threads: nat, run: seq<Event>)
    requires IsRun(Init(threads), run)
    ensures var c := After(Init(threads), run);
      && (forall p :: p in c.world.chunks ==>
            || Queued(c.world, p)
            || (exists j :: InPool(c, j) && j.pos == p && j.generation == Generation(c.world, p))
            || (p in c.drawn && c.drawn[p].Terrain? && c.drawn[p].generation == Generation(c.world, p)))
      && (Quiet(c) ==> forall p :: p in c.world.chunks ==>
            p in c.drawn && c.drawn[p].Terrain? && c.drawn[p].generation == Generation(c.world, p))
      && (c.threads > 0 ==> |c.pending| + |c.finished| <= Capacity(c))
  {
    RunTracks(Init(threads), run);
    var c := After(Init(threads), run);
    forall p | p in c.world.chunks && !Queued(c.world, p) && !Live(c, p)
      ensures p in c.drawn && c.drawn[p].Terrain? && c.drawn[p].generation == Generation(c.world, p)
    {
      assert ShownAt(c, p, false);
    }
  }

  /** A run each step of which is announced. */
  ghost predicate AllAnnounced(c: Client, run: seq<Event>)
    requires IsRun(c, run)
    decreases |run|
  {
    run == [] || (Announced(c, run[0]) && AllAnnounced(Step(c, run[0]), run[1..]))
  }

  lemma {:induction false} RunKeeps(c: Client, run: seq<Event>)
    requires Inv(c) && IsRun(c, run) && AllAnnounced(c, run)
    ensures Inv(After(c, run))
    decreases |run|
  {
    if run != [] {
      StepExact(c, run[0]);
      RunKeeps(Step(c, run[0]), run[1..]);
    }
  }

  /** Incremental remeshing shows what meshing every held chunk afresh would,
      whenever nothing is queued or owed; a chunk that is not yet right is
      queued or owed by a job that will be; and no mesh outlives its chunk. */
  lemma ScreenMatchesWorld(threads: nat, run: seq<Event>)
    requires IsRun(Init(threads), run) && AllAnnounced(Init(threads), run)
    ensures var c := After(Init(threads), run);
      && (forall p :: p in c.world.chunks ==>
            || Queued(c.world, p)
            || (exists j :: InPool(c, j) && j.pos == p && Current(c.world, j) && j.view == ViewOf(c.world, c.mode, p))
            || (p in c.drawn && c.drawn[p] == Picture(c.world, c.mode, p)))
      && (Quiet(c) ==> forall p :: p in c.world.chunks ==> p in c.drawn && c.drawn[p] == Picture(c.world, c.mode, p))
      && (forall p :: p in c.drawn ==> p in c.world.chunks || p in c.world.summaries)
  {
    RunKeeps(Init(threads), run);
    var c := After(Init(threads), run);
    forall p | p in c.world.chunks && !Queued(c.world, p)
      ensures || (exists j :: InPool(c, j) && j.pos == p && Current(c.world, j) && j.view == ViewOf(c.world, c.mode, p))
              || (p in c.drawn && c.drawn[p] == Picture(c.world, c.mode, p))
    {
      if Live(c, p) {
        var j :| InPool(c, j) && j.pos == p && Current(c.world, j);
        assert j.view == ViewOf(c.world, c.mode, p);
      } else {
        assert ShownAt(c, p, true);
      }
    }
    if Quiet(c) {
      forall p | p in c.world.chunks ensures p in c.drawn && c.drawn[p] == Picture(c.world, c.mode, p) {
        assert !Live(c, p);
        assert ShownAt(c, p, true);
      }
    }
  }
}
