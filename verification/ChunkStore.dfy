/** The store as the client keeps it: one object whose methods update its maps
    and queues in place (`crates/client/src/world.rs`).  Each method is tied to
    the operation on values it performs. */
module ChunkStore {
  import opened ChunkWorld
  import opened RemeshProtocol

  /** Two rounds of marks on different positions are one. */
  lemma MarkedTwice(w: World, a: set<Pos>, b: set<Pos>, urgent: bool)
    requires a !! b
    ensures Marked(Marked(w, a, urgent), b, urgent) == Marked(w, a + b, urgent)
  {
    assert Marked(Marked(w, a, urgent), b, urgent).generation == Marked(w, a + b, urgent).generation;
  }

  /** Marking moves no chunk. */
  lemma MarkedHolds(w: World, ps: set<Pos>, urgent: bool, p: Pos, faces: set<Face>)
    ensures HeldAcross(Marked(w, ps, urgent), p, faces) == HeldAcross(w, p, faces)
    ensures HeldSides(Marked(w, ps, urgent), p) == HeldSides(w, p)
    ensures p !in HeldAcross(w, p, faces) && p !in HeldSides(w, p)
  {
  }

  lemma MarkedNone(w: World, urgent: bool)
    ensures Marked(w, {}, urgent) == w
  {
  }

  lemma EveryFace(w: World, p: Pos)
    ensures HeldAcross(w, p, ALL_FACES) == HeldSides(w, p)
  {
  }

  const ALL_FACES: set<Face> := {0, 1, 2, 3, 4, 5}

  function FacesBelow(faces: set<Face>, k: int): set<Face> {
    set n | n in faces && n < k
  }

  lemma OneFaceMore(w: World, p: Pos, faces: set<Face>, k: Face)
    ensures Side(p, k) !in HeldAcross(w, p, FacesBelow(faces, k))
    ensures k in faces && Side(p, k) in w.chunks
      ==> HeldAcross(w, p, FacesBelow(faces, k + 1)) == HeldAcross(w, p, FacesBelow(faces, k)) + {Side(p, k)}
    ensures !(k in faces && Side(p, k) in w.chunks)
      ==> HeldAcross(w, p, FacesBelow(faces, k + 1)) == HeldAcross(w, p, FacesBelow(faces, k))
  {
  }

  class Store {
    var chunks: map<Pos, Blocks>
    var light: map<Pos, LightLayer>
    var fluid: map<Pos, FluidLayer>
    var summaries: map<Pos, int>
    var table: FluidTable
    var dirty: set<Pos>
    var urgent: set<Pos>
    var generation: map<Pos, nat>
    var floor: nat
    var urgentMarks: bool

    /** The store as a value: what a snapshot for a mesh is taken from. */
    function Model(): World
      reads this
    {
      World(chunks, light, fluid, summaries, table, dirty, urgent, generation, floor)
    }

    constructor ()
      ensures Model() == EMPTY_WORLD && !urgentMarks
    {
      chunks, light, fluid, summaries, table := map[], map[], map[], map[], map[];
      dirty, urgent, generation, floor, urgentMarks := {}, {}, map[], 0, false;
    }

    method Mark(p: Pos)
      modifies this`generation, this`dirty, this`urgent
      ensures Model() == Marked(old(Model()), {p}, urgentMarks)
    {
      var n := if p in generation then generation[p] else floor;
      generation := generation[p := n + 1];
      if urgentMarks {
        urgent := urgent + {p};
      } else {
        dirty := dirty + {p};
      }
      assert generation == Marked(old(Model()), {p}, urgentMarks).generation;
    }

    /** Marks the held chunks across the given faces. */
    method MarkAcross(p: Pos, faces: set<Face>)
      modifies this`generation, this`dirty, this`urgent
      ensures Model() == Marked(old(Model()), HeldAcross(old(Model()), p, faces), urgentMarks)
    {
      ghost var w := Model();
      ghost var done: set<Pos> := {};
      MarkedNone(w, urgentMarks);
      for k := 0 to 6
        invariant chunks == old(chunks) && urgentMarks == old(urgentMarks)
        invariant done == HeldAcross(w, p, FacesBelow(faces, k))
        invariant Model() == Marked(w, done, urgentMarks)
      {
        OneFaceMore(w, p, faces, k);
        if k in faces && Side(p, k) in chunks {
          MarkedTwice(w, done, {Side(p, k)}, urgentMarks);
          Mark(Side(p, k));
          done := done + {Side(p, k)};
        }
      }
      assert FacesBelow(faces, 6) == faces;
    }

    method MarkNeighbours(p: Pos)
      modifies this`generation, this`dirty, this`urgent
      ensures Model() == Marked(old(Model()), HeldSides(old(Model()), p), urgentMarks)
    {
      EveryFace(Model(), p);
      MarkAcross(p, ALL_FACES);
    }

    /** Marks a position and its held neighbours, as an arrival does. */
    method MarkWithNeighbours(p: Pos)
      modifies this`generation, this`dirty, this`urgent
      ensures Model() == Marked(old(Model()), {p} + HeldSides(old(Model()), p), urgentMarks)
    {
      ghost var w := Model();
      Mark(p);
      MarkNeighbours(p);
      MarkedJoin(w, p, urgentMarks);
    }

    method Insert(p: Pos, b: Blocks)
      requires !urgentMarks
      modifies this
      ensures Model() == ChunkWorld.Insert(old(Model()), p, b) && !urgentMarks
    {
      summaries := summaries - {p};
      chunks := chunks[p := b];
      MarkWithNeighbours(p);
    }

    method MakeWay(p: Pos)
      modifies this
      ensures Model() == MadeWay(old(Model()), p) && urgentMarks == old(urgentMarks)
    {
      chunks := chunks - {p};
      light := light - {p};
      dirty := dirty - {p};
      urgent := urgent - {p};
    }

    method SetSummary(p: Pos, v: int)
      requires !urgentMarks
      modifies this
      ensures Model() == ChunkWorld.SetSummary(old(Model()), p, v) && !urgentMarks
    {
      if p in chunks {
        MakeWay(p);
        MarkNeighbours(p);
      }
      summaries := summaries[p := v];
    }

    /** Everything about a position goes, its count kept by the floor. */
    method Drop(p: Pos)
      modifies this
      ensures Model() == Dropped(old(Model()), p) && urgentMarks == old(urgentMarks)
    {
      chunks := chunks - {p};
      summaries := summaries - {p};
      light := light - {p};
      fluid := fluid - {p};
      if p in generation {
        floor := if generation[p] > floor then generation[p] else floor;
      }
      generation := generation - {p};
      dirty := dirty - {p};
    }

    method Remove(p: Pos) returns (held: bool)
      requires !urgentMarks
      modifies this
      ensures Model() == ChunkWorld.Remove(old(Model()), p) && !urgentMarks
      ensures held <==> p in old(chunks) || p in old(summaries)
    {
      held := p in chunks || p in summaries;
      Drop(p);
      if held {
        MarkNeighbours(p);
      }
    }

    method Clear()
      modifies this
      ensures Model() == ChunkWorld.Clear(old(Model())) && urgentMarks == old(urgentMarks)
    {
      var highest := HighestOf(generation, floor);
      chunks, light, fluid, summaries := map[], map[], map[], map[];
      dirty, urgent, generation, floor := {}, {}, map[], highest;
    }

    method SetLight(p: Pos, layer: LightLayer)
      requires !urgentMarks
      modifies this
      ensures Model() == ChunkWorld.SetLight(old(Model()), p, layer) && !urgentMarks
    {
      light := light[p := layer];
      MarkWithNeighbours(p);
    }

    method SetFluid(p: Pos, layer: FluidLayer)
      requires !urgentMarks
      modifies this
      ensures Model() == ChunkWorld.SetFluid(old(Model()), p, layer) && !urgentMarks
    {
      if forall b :: b in layer ==> layer[b].IsEmpty() {
        fluid := fluid - {p};
      } else {
        fluid := fluid[p := layer];
      }
      MarkWithNeighbours(p);
    }

    method MarkAllDirty()
      modifies this`dirty
      ensures Model() == AllDirty(old(Model()))
    {
      dirty := dirty + chunks.Keys;
    }

    method SetFluidTable(t: FluidTable)
      modifies this
      ensures Model() == ChunkWorld.SetFluidTable(old(Model()), t) && urgentMarks == old(urgentMarks)
    {
      table := t;
      if fluid != map[] {
        MarkAllDirty();
      }
    }

    /** The marks of one edit go to the urgent queue, and only those. */
    method Apply(e: Edit) returns (landed: bool)
      requires !urgentMarks
      modifies this
      ensures Model() == ChunkWorld.Apply(old(Model()), e) && !urgentMarks
      ensures landed <==> e.chunk in old(chunks)
    {
      ghost var before := Model();
      urgentMarks := true;
      landed := e.chunk in chunks;
      if landed {
        chunks := chunks[e.chunk := chunks[e.chunk] + e.Writes()];
        MarkTouched(e);
        WrittenHolds(before, e);
      }
      urgentMarks := false;
    }

    method MarkTouched(e: Edit)
      modifies this`generation, this`dirty, this`urgent
      ensures Model() == Marked(old(Model()), {e.chunk} + TouchedSides(old(Model()), e), urgentMarks)
    {
      ghost var w := Model();
      var faces := set k: Face | e.Touches(k);
      Mark(e.chunk);
      MarkAcross(e.chunk, faces);
      TouchedJoin(w, e, faces, urgentMarks);
    }

    /** What the frame should rebuild: every urgent chunk held, then the nearest
        of the others up to the frame's budget. */
    method TakeDirty(centre: Pos) returns (due: seq<Pos>, count: nat)
      modifies this
      ensures IsDue(old(Model()), centre, due, count)
      ensures Model() == Taken(old(Model()), due) && urgentMarks == old(urgentMarks)
    {
      var hot := set p | p in urgent && p in chunks;
      var candidates := set p | p in dirty && p in chunks && p !in urgent;
      var first := Listed(hot);
      count := |first|;
      NearerOrders(centre);
      var near := Nearest(candidates, (a, b) => Nearer(centre, a, b));
      due := first + near;
      DueJoined(Model(), centre, first, near);
      urgent := {};
      dirty := set p | p in dirty && p in chunks && p !in due;
    }

    method Requeue(ps: seq<Pos>)
      modifies this`dirty
      ensures Model() == old(Model()).(dirty := old(dirty) + Elements(ps))
    {
      dirty := dirty + Elements(ps);
    }
  }

  lemma MarkedJoin(w: World, p: Pos, urgent: bool)
    ensures Marked(Marked(w, {p}, urgent), HeldSides(Marked(w, {p}, urgent), p), urgent)
         == Marked(w, {p} + HeldSides(w, p), urgent)
  {
    MarkedHolds(w, {p}, urgent, p, {});
    MarkedTwice(w, {p}, HeldSides(w, p), urgent);
  }

  lemma TouchedJoin(w: World, e: Edit, faces: set<Face>, urgent: bool)
    ensures Marked(Marked(w, {e.chunk}, urgent), HeldAcross(Marked(w, {e.chunk}, urgent), e.chunk, faces), urgent)
         == Marked(w, {e.chunk} + HeldAcross(w, e.chunk, faces), urgent)
  {
    MarkedHolds(w, {e.chunk}, urgent, e.chunk, faces);
    MarkedTwice(w, {e.chunk}, HeldAcross(w, e.chunk, faces), urgent);
  }

  /** Writing into a held chunk moves none. */
  lemma WrittenHolds(w: World, e: Edit)
    requires e.chunk in w.chunks
    ensures TouchedSides(Written(w, e), e) == TouchedSides(w, e)
  {
  }

  lemma HighestUnique(m: map<Pos, nat>, floor: nat, h: nat)
    requires IsHighest(m, floor, h)
    ensures h == Highest(m, floor)
  {
  }

  /** Strict and total: what sorting by a unique key needs. */
  ghost predicate Orders(nearer: (Pos, Pos) -> bool) {
    && (forall a :: !nearer(a, a))
    && (forall a, b :: a != b ==> nearer(a, b) || nearer(b, a))
    && (forall a, b, c :: nearer(a, b) && nearer(b, c) ==> nearer(a, c))
  }

  lemma NearerOrders(centre: Pos)
    ensures Orders((a, b) => Nearer(centre, a, b))
  {
  }

  lemma DueJoined(w: World, centre: Pos, first: seq<Pos>, near: seq<Pos>)
    requires IsListing(first, set p | p in w.urgent && p in w.chunks)
    requires IsNearest(near, set p | p in w.dirty && p in w.chunks && p !in w.urgent, (a, b) => Nearer(centre, a, b))
    ensures IsDue(w, centre, first + near, |first|)
  {
    var due, count := first + near, |first|;
    assert due[..count] == first && due[count..] == near;
    forall i, j | 0 <= i < j < |due| ensures due[i] != due[j] {
      assert i < count ==> due[i] in Elements(first);
      assert j >= count ==> due[j] in Elements(near);
    }
    assert forall i :: count <= i < |due| ==> due[i] == near[i - count];
  }

  method HighestOf(m: map<Pos, nat>, floor: nat) returns (h: nat)
    ensures h == Highest(m, floor)
  {
    var rest := m;
    h := floor;
    while rest != map[]
      invariant forall p :: p in rest ==> p in m && rest[p] == m[p]
      invariant h >= floor
      invariant forall p :: p in m && p !in rest ==> m[p] <= h
      invariant h == floor || exists p :: p in m && m[p] == h
      decreases |rest|
    {
      var p :| p in rest;
      if rest[p] > h {
        h := rest[p];
      }
      rest := rest - {p};
    }
    HighestUnique(m, floor, h);
  }

  ghost predicate IsListing(list: seq<Pos>, s: set<Pos>) {
    Elements(list) == s && forall i, j :: 0 <= i < j < |list| ==> list[i] != list[j]
  }

  lemma Appended(list: seq<Pos>, p: Pos)
    ensures Elements(list + [p]) == Elements(list) + {p}
    ensures p !in Elements(list) ==> forall i :: 0 <= i < |list| ==> list[i] != p
    ensures p in list <==> p in Elements(list)
  {
  }

  method Listed(s: set<Pos>) returns (list: seq<Pos>)
    ensures IsListing(list, s)
  {
    var rest := s;
    list := [];
    while rest != {}
      invariant rest <= s && Elements(list) == s - rest
      invariant forall i, j :: 0 <= i < j < |list| ==> list[i] != list[j]
      decreases |rest|
    {
      var p :| p in rest;
      Appended(list, p);
      list := list + [p];
      rest := rest - {p};
    }
  }

  /** The nearest of a set. */
  method Closest(s: set<Pos>, nearer: (Pos, Pos) -> bool) returns (best: Pos)
    requires s != {} && Orders(nearer)
    ensures best in s && forall p :: p in s && p != best ==> nearer(best, p)
  {
    best :| best in s;
    var rest := s - {best};
    while rest != {}
      invariant best in s && best !in rest && rest <= s
      invariant forall p :: p in s && p !in rest && p != best ==> nearer(best, p)
      decreases |rest|
    {
      var p :| p in rest;
      rest := rest - {p};
      if nearer(p, best) {
        best := p;
      }
    }
  }

  /** The frame's share of a set, nearest first. */
  ghost predicate IsNearest(near: seq<Pos>, candidates: set<Pos>, nearer: (Pos, Pos) -> bool) {
    && Elements(near) <= candidates
    && |near| == (if |candidates| < MESH_SUBMISSIONS_PER_FRAME then |candidates| else MESH_SUBMISSIONS_PER_FRAME)
    && (forall i, j :: 0 <= i < j < |near| ==> near[i] != near[j] && nearer(near[i], near[j]))
    && (forall i, p :: 0 <= i < |near| && p in candidates && p !in near ==> nearer(near[i], p))
  }

  /** A prefix of the answer: in order, and nearer than all that is left. */
  ghost predicate TakenInOrder(near: seq<Pos>, rest: set<Pos>, nearer: (Pos, Pos) -> bool) {
    && (forall i, j :: 0 <= i < j < |near| ==> near[i] != near[j] && nearer(near[i], near[j]))
    && (forall i, p :: 0 <= i < |near| && p in rest ==> nearer(near[i], p))
  }

  lemma OneMoreInOrder(near: seq<Pos>, rest: set<Pos>, nearer: (Pos, Pos) -> bool, p: Pos)
    requires Orders(nearer) && TakenInOrder(near, rest, nearer)
    requires p in rest && forall q :: q in rest && q != p ==> nearer(p, q)
    ensures TakenInOrder(near + [p], rest - {p}, nearer)
  {
  }

  method Nearest(candidates: set<Pos>, nearer: (Pos, Pos) -> bool) returns (near: seq<Pos>)
    requires Orders(nearer)
    ensures IsNearest(near, candidates, nearer)
  {
    near := [];
    var rest := candidates;
    while rest != {} && |near| < MESH_SUBMISSIONS_PER_FRAME
      invariant rest <= candidates && Elements(near) == candidates - rest
      invariant |near| + |rest| == |candidates| && |near| <= MESH_SUBMISSIONS_PER_FRAME
      invariant TakenInOrder(near, rest, nearer)
      decreases |rest|
    {
      var p := Closest(rest, nearer);
      OneMoreInOrder(near, rest, nearer, p);
      Appended(near, p);
      near := near + [p];
      rest := rest - {p};
    }
    assert forall p :: p in candidates && p !in Elements(near) ==> p in rest;
  }
}
