/** What each event leaves of the horizon, position by position: what is held,
    queued, held back and drawn, and nothing else. */
module HorizonFrame {
  import opened ChunkWorld
  import opened StoreEffects
  import opened HorizonModel
  import opened HorizonSafety

  /** Buried: solid throughout, with solid across every face. */
  lemma BuriedExact(m: map<Pos, Summary>, p: Pos)
    ensures Buried(m, p) <==>
      p in m && m[p].IsSolid() && forall q :: Beside(p, q) ==> q in m && m[q].IsSolid()
  {
    forall k: Face ensures Beside(p, Side(p, k)) {
      SidesAreBeside(p, Side(p, k));
    }
    if Buried(m, p) {
      forall q | Beside(p, q) ensures q in m && m[q].IsSolid() {
        SidesAreBeside(p, q);
        var k: Face :| Side(p, k) == q;
        assert Filled(m, Side(p, k));
      }
    }
  }

  // ----- What the network brings -----

  /** A summary is held in place of any chunk, and queued with the summaries across
      its faces. */
  lemma ArriveLeaves(h: Horizon, p: Pos, s: Summary)
    ensures var a := Arrive(h, p, s);
      && a == h.(chunks := h.chunks - {p}, summaries := h.summaries[p := s], stale := a.stale)
      && forall q :: q in a.stale <==> q in h.stale || q == p || (Beside(p, q) && q in h.summaries)
  {
    forall q ensures q in Arrive(h, p, s).stale <==> q in h.stale || q == p || (Beside(p, q) && q in h.summaries) {
      SidesAreBeside(p, q);
    }
  }

  /** A chunk takes a summary's place; that position alone is queued, if it held
      one. */
  lemma ReplaceLeaves(h: Horizon, p: Pos)
    ensures var r := Replace(h, p);
      && r == h.(chunks := h.chunks + {p}, summaries := h.summaries - {p}, stale := r.stale)
      && forall q :: q in r.stale <==> q in h.stale || (q == p && p in h.summaries)
  {
  }

  /** All there was at a position goes: what is drawn for it if a chunk or a
      summary was held, its fluid and its place among those held back; it alone is
      queued. */
  lemma UnloadLeaves(h: Horizon, p: Pos)
    ensures var u := Unload(h, p);
      && u.chunks == h.chunks - {p} && u.summaries == h.summaries - {p} && u.fluid == h.fluid - {p}
      && u.beyond == h.beyond - {p} && u.stale == h.stale + {p}
      && u.shown == (if p in h.chunks + h.summaries.Keys then h.shown - {p} else h.shown)
      && u == h.(chunks := u.chunks, summaries := u.summaries, fluid := u.fluid, beyond := u.beyond, stale := u.stale, shown := u.shown)
  {
  }

  /** Fluid is held and nothing is queued; a layer with none in it drains the
      position. */
  lemma FloodLeaves(h: Horizon, p: Pos, layer: FluidLayer)
    ensures var f := Flood(h, p, layer);
      && f == h.(fluid := f.fluid)
      && f.fluid == if exists b :: b in layer && layer[b].volume > 0 && layer[b].id != 0 then h.fluid[p := layer] else h.fluid - {p}
  {
  }

  /** Leaving a domain forgets all that was held, queued and held back, and takes
      the meshes of real chunks off the screen. */
  lemma EnterLeaves(h: Horizon, p: Pos)
    ensures var e := Enter(h);
      && e.chunks == {} && e.summaries == map[] && e.fluid == map[] && e.stale == {} && e.beyond == {}
      && Get(e.shown, p) == (if p in h.chunks then None else Get(h.shown, p))
      && e == h.(chunks := {}, summaries := map[], fluid := map[], stale := {}, beyond := {}, shown := e.shown)
  {
  }

  // ----- A frame -----

  /** The camera is in another chunk than it was last judged from, or the reach is
      more than a fiftieth past the one last judged by. */
  predicate Rejudges(h: Horizon) {
    h.reach.Some? &&
    (h.camera.chunk != h.centre
     || h.reach.value.far * 100.0 > h.judged.far * 102.0 || h.reach.value.up * 100.0 > h.judged.up * 102.0)
  }

  /** Listed as held back once the list has been gone through, if it is. */
  predicate StillListed(past: FogTest, h: Horizon, p: Pos) {
    p in h.beyond && (Rejudges(h) ==> p in h.summaries && PastTheFog(past, h, p))
  }

  /** Queued before any is built. */
  predicate Waits(past: FogTest, h: Horizon, p: Pos) {
    p in h.stale || (Rejudges(h) && p in h.beyond && p in h.summaries && !PastTheFog(past, h, p))
  }

  /** How far down its list a frame gets with time for `allowed`: to the end, or
      as far as its time goes, and never nowhere. */
  function Reached(due: nat, allowed: nat): nat {
    if due <= allowed then due else if allowed > 1 then allowed else 1
  }

  lemma JudgedFirst(past: FogTest, h: Horizon)
    ensures var j := Rejudge(past, h);
      && j == h.(centre := j.centre, judged := j.judged, beyond := j.beyond, stale := j.stale)
      && (if Rejudges(h) then j.centre == h.camera.chunk && j.judged == h.reach.value else j == h)
      && (forall p :: p in j.stale <==> Waits(past, h, p)) && (forall p :: p in j.beyond <==> StillListed(past, h, p))
  {
  }

  /** What building one position does to it. */
  ghost predicate Built(past: FogTest, h: Horizon, h': Horizon, p: Pos) {
    if p !in h.summaries then Get(h'.shown, p) == Get(h.shown, p) && (p in h'.beyond <==> StillListed(past, h, p))
    else if h.summaries[p].IsEmpty() || Buried(h.summaries, p) then
      p !in h'.shown && (p in h'.beyond <==> StillListed(past, h, p))
    else if PastTheFog(past, h, p) then p !in h'.shown && p in h'.beyond
    else Get(h'.shown, p) == Some(FarOf(h, p)) && (p in h'.beyond <==> StillListed(past, h, p))
  }

  /** The list is in order, so none of it is there twice. */
  lemma OnceInList(stale: set<Pos>, due: seq<Pos>, n: nat, p: Pos)
    requires FirstOf(stale, due) && n <= |due|
    ensures p in due[..n] ==> p !in due[n..]
    ensures p in due ==> p in stale
  {
    forall i, j | 0 <= i < n <= j < |due| ensures due[i] != due[j] {
      assert Before(due[i], due[j]);
    }
  }

  /** Building one position is what is said of it, and touches no other. */
  lemma {:induction false} BuiltEach(past: FogTest, h: Horizon, j: Horizon, due: seq<Pos>, p: Pos)
    requires j.summaries == h.summaries && j.fluid == h.fluid && j.fluids == h.fluids && j.camera == h.camera && j.reach == h.reach
    requires j.shown == h.shown && (p in j.beyond <==> StillListed(past, h, p))
    ensures var b := BuildAll(past, j, due);
      && b == j.(shown := b.shown, beyond := b.beyond)
      && if p in due then Built(past, h, b, p) else Get(b.shown, p) == Get(h.shown, p) && (p in b.beyond <==> StillListed(past, h, p))
    decreases |due|
  {
    if due != [] {
      var front, last := due[..|due| - 1], due[|due| - 1];
      assert due == front + [last];
      BuiltEach(past, h, j, front, p);
      assert last in j.summaries ==> FarOf(BuildAll(past, j, front), last) == FarOf(h, last);
    }
  }

  /** One frame.  What the list of those held back says is gone through first, if
      the camera or the reach calls for it.  Then the positions of the list are
      built in order as far as the frame gets: taken off the screen, held back or
      drawn as they stand.  They leave the queue and no others do, and nothing else
      on screen changes. */
  lemma FrameExact(past: FogTest, h: Horizon, due: seq<Pos>, allowed: nat, p: Pos)
    requires Possible(past, h, Drawn(due, allowed))
    ensures Reached(|due|, allowed) <= |due| || due == []
    ensures var h', done := Step(past, h, Drawn(due, allowed)), if due == [] then [] else due[..Reached(|due|, allowed)];
      && h' == h.(centre := h'.centre, judged := h'.judged, stale := h'.stale, shown := h'.shown, beyond := h'.beyond)
      && (if Rejudges(h) then h'.centre == h.camera.chunk && h'.judged == h.reach.value
          else h'.centre == h.centre && h'.judged == h.judged)
      && (p in h'.stale <==> Waits(past, h, p) && p !in done)
      && if p in done then Built(past, h, h', p)
         else Get(h'.shown, p) == Get(h.shown, p) && (p in h'.beyond <==> StillListed(past, h, p))
  {
    var j, n := Rejudge(past, h), GotThrough(|due|, allowed);
    JudgedFirst(past, h);
    var taken := j.(stale := j.stale - Members(due));
    BuiltEach(past, h, taken, due[..n], p);
    OnceInList(j.stale, due, n, p);
    Split(due, n, p);
    assert due == [] ==> due[..n] == [];
  }

  /** With time for all of it, a list no longer than a frame's share empties the
      queue. */
  lemma AllBuilt(past: FogTest, h: Horizon, due: seq<Pos>, allowed: nat)
    requires Possible(past, h, Drawn(due, allowed)) && |due| <= allowed && |Rejudge(past, h).stale| <= 16
    ensures Step(past, h, Drawn(due, allowed)).stale == {}
  {
    var j, h' := Rejudge(past, h), Step(past, h, Drawn(due, allowed));
    JudgedFirst(past, h);
    AllListed(j.stale, due);
    forall p ensures p !in h'.stale {
      FrameExact(past, h, due, allowed, p);
      assert due[..|due|] == due;
    }
  }

  lemma AllListed(stale: set<Pos>, due: seq<Pos>)
    requires FirstOf(stale, due) && |stale| <= 16
    ensures forall p :: p in stale ==> p in due
  {
    forall i, j | 0 <= i < j < |due| ensures due[i] != due[j] {
      assert Before(due[i], due[j]);
    }
    Listed(due);
    if p :| p in stale && p !in due {
      NotMore(Members(due), stale - {p});
    }
  }

  lemma {:induction false} Listed(due: seq<Pos>)
    requires forall i, j :: 0 <= i < j < |due| ==> due[i] != due[j]
    ensures |Members(due)| == |due|
    decreases |due|
  {
    if due != [] {
      var front := due[..|due| - 1];
      Listed(front);
      assert Members(due) == Members(front) + {due[|due| - 1]};
    }
  }

  // ----- What a far mesh is -----

  predicate IsFluid(cell: int, fluids: set<int>) {
    cell != AIR && cell in fluids
  }

  /** The top of a column is no surface if and only if it is fluid and the sea goes
      on over it: in the cell of the summary above that begins where the column's
      part of it does, or, where none is held, in the block of the chunk above that
      the middle of the column is in. */
  lemma CapExact(s: Summary, over: Option<Summary>, wet: Option<FluidLayer>, fluids: set<int>, u: int, v: int, x: int, z: int)
    requires 0 <= u < s.width && 0 <= v < s.width <= 48
    requires over.Some? ==>
      x * s.width <= u * over.value.width < (x + 1) * s.width && z * s.width <= v * over.value.width < (z + 1) * s.width
    requires over.None? ==>
      var cell := 48 / s.width;
      3 * x <= u * cell + cell / 2 < 3 * x + 3 && 3 * z <= v * cell + cell / 2 < 3 * z + 3
    ensures (u, v) in MeshOf(s, over, wet, fluids).capped <==>
      && IsFluid(s.At(Cell(u, s.width - 1, v)), fluids)
      && match over
         case Some(above) => above.width > 0 && IsFluid(above.At(Cell(x, 0, z)), fluids)
         case None => wet.Some? && Cell(x, 0, z) in wet.value && wet.value[Cell(x, 0, z)].id != 0
  {
    if over.Some? {
      Quotient(u * over.value.width, s.width, x);
      Quotient(v * over.value.width, s.width, z);
    } else {
      assert 48 / s.width >= 1;
      assert BlockOver(u, s.width) == x && BlockOver(v, s.width) == z;
    }
  }

  lemma Quotient(a: int, n: int, q: int)
    requires n > 0 && q * n <= a < (q + 1) * n
    ensures a / n == q
  {
    var r := a / n;
    assert r * n <= a < (r + 1) * n;
    Between(q, r, n);
    Between(r, q, n);
  }

  lemma Between(q: int, r: int, n: int)
    requires n > 0
    ensures q < r ==> (q + 1) * n <= r * n
  {
    if q < r {
      assert r * n == (q + 1) * n + (r - q - 1) * n;
      assert (r - q - 1) * n >= 0;
    }
  }

  /** The materials drawn as fluid are those of its cells the table names. */
  lemma WetExact(s: Summary, over: Option<Summary>, wet: Option<FluidLayer>, fluids: set<int>, m: int)
    ensures MeshOf(s, over, wet, fluids).summary == s
    ensures m in MeshOf(s, over, wet, fluids).wet <==> m in fluids && exists c :: c in s.cells && s.cells[c] == m
  {
  }
}
