/** When the fog changes: whether what it holds back is still out of sight.  The
    client judges again only when the reach has grown past a fiftieth over the
    reach it last judged by, or the camera's chunk has changed. */
module HorizonFog {
  import opened ChunkWorld
  import opened Fog
  import opened HorizonModel
  import opened HorizonSafety

  function Corner(camera: Camera, p: Pos): Offset {
    Offset((p.x - camera.chunk.x) as real * CHUNK_SPAN - camera.local.x,
           (p.y - camera.chunk.y) as real * CHUNK_SPAN - camera.local.y,
           (p.z - camera.chunk.z) as real * CHUNK_SPAN - camera.local.z)
  }

  /** The client's own test, with whatever measures lengths. */
  function Test(length: (real, real) -> real): FogTest {
    (camera, reach, p) => Past(length, Middle(Corner(camera, p)), reach)
  }

  function UnderFog(h: Horizon, now: Reach): Horizon {
    h.(reach := Some(now))
  }

  predicate InChunk(local: Offset) {
    0.0 <= local.x < CHUNK_SPAN && 0.0 <= local.y < CHUNK_SPAN && 0.0 <= local.z < CHUNK_SPAN
  }

  /** A standing camera that holds back only what the reach `was` hides. */
  ghost predicate Standing(length: (real, real) -> real, h: Horizon, was: Reach, judged: Reach) {
    && h.reach == Some(was) && h.judged == judged
    && h.camera.chunk == h.centre && InChunk(h.camera.local)
    && AllHeldRightly(Test(length), h)
  }

  /** The first frame of the new reach still holds back only what is hidden. */
  ghost predicate FirstFrameRight(length: (real, real) -> real, h: Horizon, now: Reach, due: seq<Pos>, allowed: nat) {
    FirstOf(Rejudge(Test(length), UnderFog(h, now)).stale, due) ==>
      AllHeldRightly(Test(length), Frame(Test(length), UnderFog(h, now), due, allowed))
  }

  lemma SafeChange(length: (real, real) -> real, h: Horizon, was: Reach, judged: Reach, now: Reach,
                   due: seq<Pos>, allowed: nat)
    requires Measures(length) && was.Positive() && now.Positive() && Standing(length, h, was, judged)
    requires Grown(judged, now) || (now.far <= was.far && now.up <= was.up)
    ensures FirstFrameRight(length, h, now, due, allowed)
  {
    var f := UnderFog(h, now);
    if !Judges(f) {
      forall p ensures HeldRightly(Test(length), f, p) {
        assert HeldRightly(Test(length), h, p);
        if PastTheFog(Test(length), h, p) {
          ShrinkingKeepsPast(length, Middle(Corner(h.camera, p)), was, now);
        }
      }
    }
    RejudgeKeeps(Test(length), f, false);
    BuildKeeps(Test(length), Rejudge(Test(length), f), due, GotThrough(|due|, allowed), false);
  }

  /** Whole chunks and a remainder along one axis. */
  function Chunks(middle: real): int {
    -((CHUNK_SPAN * 0.5 - middle) / CHUNK_SPAN).Floor
  }

  function Remainder(middle: real): (local: real)
    ensures 0.0 <= local < CHUNK_SPAN
    ensures Chunks(middle) as real * CHUNK_SPAN - local + CHUNK_SPAN * 0.5 == middle
  {
    CHUNK_SPAN * 0.5 - middle + Chunks(middle) as real * CHUNK_SPAN
  }

  /** A camera and a chunk for any offset there is. */
  function CameraFor(middle: Offset): Camera {
    Camera(Pos(0, 0, 0), Offset(Remainder(middle.x), Remainder(middle.y), Remainder(middle.z)))
  }

  function ChunkAt(middle: Offset): Pos {
    Pos(Chunks(middle.x), Chunks(middle.y), Chunks(middle.z))
  }

  lemma OffsetReached(middle: Offset)
    ensures Middle(Corner(CameraFor(middle), ChunkAt(middle))) == middle
  {
  }

  /** One far hill, held back. */
  function OneHill(middle: Offset, was: Reach, judged: Reach): Horizon {
    var p := ChunkAt(middle);
    Horizon({}, map[p := HILLTOP], map[], {}, {}, map[], {p}, Some(was), judged, Pos(0, 0, 0), CameraFor(middle))
  }

  const HILLTOP: Summary := Summary(1, map[Cell(0, 0, 0) := 1])

  lemma HilltopDrawn(h: Horizon, p: Pos)
    requires h.summaries == map[p := HILLTOP] && h.shown == map[]
    ensures !Hidden(h.summaries, p) && !Right(h, p)
  {
    assert HILLTOP.cells[Cell(0, 0, 0)] != AIR;
    assert Side(p, 0) !in h.summaries && !Filled(h.summaries, Side(p, 0));
  }

  lemma UnsafeChange(length: (real, real) -> real, middle: Offset, was: Reach, judged: Reach, now: Reach)
    requires Past(length, middle, was) && !Past(length, middle, now) && !Grown(judged, now)
    ensures Standing(length, OneHill(middle, was, judged), was, judged)
    ensures !FirstFrameRight(length, OneHill(middle, was, judged), now, [], 0)
  {
    OffsetReached(middle);
    var h := OneHill(middle, was, judged);
    var f, p := UnderFog(h, now), ChunkAt(middle);
    assert PastTheFog(Test(length), h, p) && !PastTheFog(Test(length), f, p);
    assert Rejudge(Test(length), f) == f && FirstOf(f.stale, []);
    Untouched(length, f);
    HilltopDrawn(f, p);
    HilltopDrawn(h, p);
    assert !HeldRightly(Test(length), f, p);
  }

  lemma Untouched(length: (real, real) -> real, h: Horizon)
    requires Rejudge(Test(length), h) == h
    ensures Frame(Test(length), h, [], 0) == h
  {
  }

  /** Whatever is held back, from wherever the camera stands, a change of reach
      leaves only hidden summaries held back exactly when the client judges
      again or the reach grew in neither direction.  Fog that closes in and
      lifts again, below a fiftieth over the reach last judged by, does neither. */
  lemma FogExact(length: (real, real) -> real, was: Reach, judged: Reach, now: Reach)
    requires Measures(length) && was.Positive() && now.Positive()
    ensures Grown(judged, now) || (now.far <= was.far && now.up <= was.up) <==>
      forall h, due, allowed :: Standing(length, h, was, judged) ==> FirstFrameRight(length, h, now, due, allowed)
  {
    if Grown(judged, now) || (now.far <= was.far && now.up <= was.up) {
      forall h, due, allowed | Standing(length, h, was, judged)
        ensures FirstFrameRight(length, h, now, due, allowed)
      {
        SafeChange(length, h, was, judged, now, due, allowed);
      }
    } else {
      NothingReturnsExact(length, was, now);
      var middle :| Past(length, middle, was) && !Past(length, middle, now);
      UnsafeChange(length, middle, was, judged, now);
    }
  }

  // ----- A hole that stays -----

  /** Without a judgement frames do not look at what is held back. */
  lemma {:induction false} NobodyLooks(length: (real, real) -> real, h: Horizon, es: seq<Event>, p: Pos)
    requires !Judges(h) && IsRun(Test(length), h, es) && OnlyFrames(es)
    requires p in h.beyond && p in h.summaries && p !in h.stale && p !in h.shown
    ensures var end := After(Test(length), h, es); p in end.beyond && p !in end.shown && end.reach == h.reach && end.camera == h.camera
    decreases |es|
  {
    if es != [] {
      var e := es[0];
      var n := GotThrough(|e.due|, e.allowed);
      BuildMeans(Test(length), h, e.due, n);
      assert p !in e.due;
      if p in e.due[..n] { assert false; }
      if p in e.due[n..] { assert false; }
      NobodyLooks(length, Step(Test(length), h, e), es[1..], p);
    }
  }

  const CLEAR: Reach := Reach(100.0, 100.0)
  const MIST: Reach := Reach(50.0, 50.0)
  const HILL: Pos := Pos(5, 0, 0)

  /** Clear air is judged by; mist closes in; a hill's summary arrives and is
      held back; the mist lifts. */
  const MIST_LIFTS: seq<Event> := [
    Fogged(CLEAR), Drawn([], 1), Fogged(MIST), Arrives(HILL, HILLTOP), Drawn([HILL], 1), Fogged(CLEAR)]

  const LIFTED: Horizon :=
    Horizon({}, map[HILL := HILLTOP], map[], {}, {}, map[], {HILL}, Some(CLEAR), CLEAR, Pos(0, 0, 0), NO_HORIZON.camera)

  lemma HillJudged(length: (real, real) -> real)
    requires Measures(length)
    ensures Past(length, Middle(Corner(NO_HORIZON.camera, HILL)), MIST)
    ensures !Past(length, Middle(Corner(NO_HORIZON.camera, HILL)), CLEAR)
  {
    var middle := Middle(Corner(NO_HORIZON.camera, HILL));
    assert middle == Offset(80.0, 0.0, 0.0);
    LengthAlong(length, 80.0);
    assert Nearest(length(middle.x, middle.z)) == 66.14 && Nearest(Abs(middle.y)) == 0.0;
    Over(66.14, 50.0);
    Over(66.14, 100.0);
  }

  lemma FrameOfNone(length: (real, real) -> real, h: Horizon)
    requires h.beyond == {} && h.stale == {} && h.reach.Some? && Judges(h)
    ensures FirstOf(Rejudge(Test(length), h).stale, [])
    ensures Frame(Test(length), h, [], 1) == h.(judged := h.reach.value, centre := h.camera.chunk)
  {
  }

  lemma FrameOfOne(length: (real, real) -> real, h: Horizon, p: Pos)
    requires h.stale == {p} && !Judges(h) && p in h.summaries && h.shown == map[] && h.beyond == {}
    requires !Hidden(h.summaries, p) && PastTheFog(Test(length), h, p)
    ensures FirstOf(Rejudge(Test(length), h).stale, [p])
    ensures Frame(Test(length), h, [p], 1) == h.(stale := {}, beyond := {p})
  {
    var taken := h.(stale := h.stale - Members([p]));
    assert taken.stale == {};
    assert BuildAll(Test(length), taken, [p][..0]) == taken;
    assert BuildAll(Test(length), taken, [p]) == BuildOne(Test(length), taken, p);
    assert [p][..1] == [p] && [p][1..] == [];
    assert BuildOne(Test(length), taken, p) == h.(stale := {}, beyond := {p}) by {
      assert h.shown - {p} == map[];
    }
    assert Members([p][1..]) == {};
  }

  lemma MistRuns(length: (real, real) -> real)
    requires Measures(length)
    ensures IsRun(Test(length), NO_HORIZON, MIST_LIFTS) && After(Test(length), NO_HORIZON, MIST_LIFTS) == LIFTED
  {
    HillJudged(length);
    var es := MIST_LIFTS;
    var h1 := Step(Test(length), NO_HORIZON, es[0]);
    FrameOfNone(length, h1);
    var h2 := Step(Test(length), h1, es[1]);
    var h3 := Step(Test(length), h2, es[2]);
    var h4 := Step(Test(length), h3, es[3]);
    assert h4.stale == {HILL} by {
      forall q | q in Sides(HILL) ensures q !in h4.summaries {}
    }
    HilltopDrawn(h4, HILL);
    FrameOfOne(length, h4, HILL);
    var h5 := Step(Test(length), h4, es[4]);
    assert Step(Test(length), h5, es[5]) == LIFTED;
    RunOfSix(length, NO_HORIZON, es, h1, h2, h3, h4, h5);
  }

  lemma RunOfSix(length: (real, real) -> real, h: Horizon, es: seq<Event>,
                 h1: Horizon, h2: Horizon, h3: Horizon, h4: Horizon, h5: Horizon)
    requires |es| == 6
    requires Possible(Test(length), h, es[0]) && h1 == Step(Test(length), h, es[0])
    requires Possible(Test(length), h1, es[1]) && h2 == Step(Test(length), h1, es[1])
    requires Possible(Test(length), h2, es[2]) && h3 == Step(Test(length), h2, es[2])
    requires Possible(Test(length), h3, es[3]) && h4 == Step(Test(length), h3, es[3])
    requires Possible(Test(length), h4, es[4]) && h5 == Step(Test(length), h4, es[4])
    requires Possible(Test(length), h5, es[5])
    ensures IsRun(Test(length), h, es) && After(Test(length), h, es) == Step(Test(length), h5, es[5])
  {
    assert After(Test(length), Step(Test(length), h5, es[5]), []) == Step(Test(length), h5, es[5]);
    RunOn(length, h5, es, 5);
    RunOn(length, h4, es, 4);
    RunOn(length, h3, es, 3);
    RunOn(length, h2, es, 2);
    RunOn(length, h1, es, 1);
    RunOn(length, h, es, 0);
    assert es[0..] == es;
  }

  lemma RunOn(length: (real, real) -> real, h: Horizon, es: seq<Event>, i: nat)
    requires i < |es| && Possible(Test(length), h, es[i])
    ensures IsRun(Test(length), Step(Test(length), h, es[i]), es[i + 1..]) ==> IsRun(Test(length), h, es[i..])
    ensures After(Test(length), h, es[i..]) == After(Test(length), Step(Test(length), h, es[i]), es[i + 1..])
  {
    assert es[i..][0] == es[i] && es[i..][1..] == es[i + 1..];
  }

  /** However many frames follow, the hill is in sight and not drawn. */
  lemma HoleStays(length: (real, real) -> real, es: seq<Event>)
    requires Measures(length) && IsRun(Test(length), LIFTED, es) && OnlyFrames(es)
    ensures IsRun(Test(length), NO_HORIZON, MIST_LIFTS) && After(Test(length), NO_HORIZON, MIST_LIFTS) == LIFTED
    ensures var end := After(Test(length), LIFTED, es);
      !PastTheFog(Test(length), end, HILL) && HILL in end.beyond && HILL !in end.shown
  {
    MistRuns(length);
    HillJudged(length);
    NobodyLooks(length, LIFTED, es, HILL);
  }

  // ----- Walking about in one chunk -----

  /** The closed chunk: where the camera may stand without being judged again. */
  predicate WithinChunk(local: Offset) {
    0.0 <= local.x <= CHUNK_SPAN && 0.0 <= local.y <= CHUNK_SPAN && 0.0 <= local.z <= CHUNK_SPAN
  }

  /** Along one axis, where in its chunk the camera comes nearest to the middle of
      a chunk `d` away. */
  function NearestStand(d: int): real {
    if d > 0 then CHUNK_SPAN else if d < 0 then 0.0 else CHUNK_SPAN * 0.5
  }

  function NearestTo(chunk: Pos, p: Pos): Camera {
    Camera(chunk, Offset(NearestStand(p.x - chunk.x), NearestStand(p.y - chunk.y), NearestStand(p.z - chunk.z)))
  }

  lemma NearestOnAxis(d: int, local: real)
    requires 0.0 <= local <= CHUNK_SPAN
    ensures Abs(d as real * CHUNK_SPAN - NearestStand(d) + CHUNK_SPAN * 0.5) <= Abs(d as real * CHUNK_SPAN - local + CHUNK_SPAN * 0.5)
  {
    if d > 0 {
      assert d as real >= 1.0;
    } else if d < 0 {
      assert d as real <= -1.0;
    }
  }

  /** A chunk is past the fog from everywhere in the camera's chunk if and only if
      it is past it from that chunk's nearest point to it. */
  lemma PastFromAll(length: (real, real) -> real, chunk: Pos, reach: Reach, p: Pos)
    requires Measures(length)
    ensures (forall local :: WithinChunk(local) ==> Test(length)(Camera(chunk, local), reach, p))
      <==> Test(length)(NearestTo(chunk, p), reach, p)
  {
    var nearest := NearestTo(chunk, p);
    assert WithinChunk(nearest.local);
    if Test(length)(nearest, reach, p) {
      forall local | WithinChunk(local) ensures Test(length)(Camera(chunk, local), reach, p) {
        NearestOnAxis(p.x - chunk.x, local.x);
        NearestOnAxis(p.y - chunk.y, local.y);
        NearestOnAxis(p.z - chunk.z, local.z);
        FurtherIsPast(length, Middle(Corner(nearest, p)), Middle(Corner(Camera(chunk, local), p)), reach);
      }
    } else {
      assert nearest == Camera(chunk, nearest.local);
    }
  }

  function Walked(h: Horizon, local: Offset): Horizon {
    h.(camera := Camera(h.camera.chunk, local))
  }

  /** Wherever the camera goes in its chunk only hidden summaries stay held back,
      if and only if each of them is past the fog from the nearest point of the
      chunk.  Nothing is judged meanwhile. */
  lemma WalkExact(length: (real, real) -> real, h: Horizon)
    requires Measures(length) && h.reach.Some?
    ensures (forall local :: WithinChunk(local) ==> AllHeldRightly(Test(length), Walked(h, local)))
      <==> forall p :: Withheld(h, p) ==> Test(length)(NearestTo(h.camera.chunk, p), h.reach.value, p)
  {
    var chunk, reach := h.camera.chunk, h.reach.value;
    forall p, local ensures Withheld(Walked(h, local), p) <==> Withheld(h, p) {}
    forall p, local
      ensures HeldRightly(Test(length), Walked(h, local), p) <==> (Withheld(h, p) ==> Test(length)(Camera(chunk, local), reach, p))
    {
      if p in h.summaries {
        assert Right(Walked(h, local), p) == Right(h, p);
      }
    }
    if forall p :: Withheld(h, p) ==> Test(length)(NearestTo(chunk, p), reach, p) {
      forall local | WithinChunk(local) ensures AllHeldRightly(Test(length), Walked(h, local)) {
        forall p ensures HeldRightly(Test(length), Walked(h, local), p) {
          PastFromAll(length, chunk, reach, p);
        }
      }
    } else {
      var p :| Withheld(h, p) && !Test(length)(NearestTo(chunk, p), reach, p);
      var local := NearestTo(chunk, p).local;
      assert NearestTo(chunk, p) == Camera(chunk, local) && WithinChunk(local);
      assert !HeldRightly(Test(length), Walked(h, local), p);
    }
  }

  /** Into another chunk, the next frame judges, and all is well again. */
  lemma CrossingJudges(length: (real, real) -> real, h: Horizon, camera: Camera, due: seq<Pos>, allowed: nat)
    requires h.reach.Some? && camera.chunk != h.centre
    ensures AllHeldRightly(Test(length), Frame(Test(length), h.(camera := camera), due, allowed))
  {
    var m := h.(camera := camera);
    RejudgeKeeps(Test(length), m, false);
    BuildKeeps(Test(length), Rejudge(Test(length), m), due, GotThrough(|due|, allowed), false);
  }

  const THIN: Reach := Reach(65.0, 65.0)
  const WEST_EDGE: Camera := Camera(Pos(0, 0, 0), Offset(0.5, 8.0, 8.0))
  const EAST_EDGE: Camera := Camera(Pos(0, 0, 0), Offset(15.5, 8.0, 8.0))

  /** The camera stands at one edge of its chunk under fog that is judged by; a
      hill arrives and is held back; the camera crosses to the other edge. */
  const CROSS_THE_CHUNK: seq<Event> := [
    Moved(WEST_EDGE), Fogged(THIN), Drawn([], 1), Arrives(HILL, HILLTOP), Drawn([HILL], 1), Moved(EAST_EDGE)]

  const CROSSED: Horizon :=
    Horizon({}, map[HILL := HILLTOP], map[], {}, {}, map[], {HILL}, Some(THIN), THIN, Pos(0, 0, 0), EAST_EDGE)

  lemma HillFromEdges(length: (real, real) -> real)
    requires Measures(length)
    ensures Test(length)(WEST_EDGE, THIN, HILL) && !Test(length)(EAST_EDGE, THIN, HILL)
  {
    LengthAlong(length, 87.5);
    LengthAlong(length, 72.5);
    Over(73.64, 65.0);
    Over(58.64, 65.0);
    assert Middle(Corner(WEST_EDGE, HILL)) == Offset(87.5, 0.0, 0.0);
    assert Middle(Corner(EAST_EDGE, HILL)) == Offset(72.5, 0.0, 0.0);
  }

  lemma CrossingRuns(length: (real, real) -> real)
    requires Measures(length)
    ensures IsRun(Test(length), NO_HORIZON, CROSS_THE_CHUNK) && After(Test(length), NO_HORIZON, CROSS_THE_CHUNK) == CROSSED
  {
    HillFromEdges(length);
    var es := CROSS_THE_CHUNK;
    var h1 := Step(Test(length), NO_HORIZON, es[0]);
    var h2 := Step(Test(length), h1, es[1]);
    FrameOfNone(length, h2);
    var h3 := Step(Test(length), h2, es[2]);
    var h4 := Step(Test(length), h3, es[3]);
    assert h4.stale == {HILL} by {
      forall q | q in Sides(HILL) ensures q !in h4.summaries {}
    }
    HilltopDrawn(h4, HILL);
    FrameOfOne(length, h4, HILL);
    var h5 := Step(Test(length), h4, es[4]);
    assert Step(Test(length), h5, es[5]) == CROSSED;
    RunOfSix(length, NO_HORIZON, es, h1, h2, h3, h4, h5);
  }

  /** Crossing a chunk without leaving it brings a summary into sight, and however
      many frames follow it is not drawn. */
  lemma WalkingUnjudged(length: (real, real) -> real, es: seq<Event>)
    requires Measures(length) && IsRun(Test(length), CROSSED, es) && OnlyFrames(es)
    ensures IsRun(Test(length), NO_HORIZON, CROSS_THE_CHUNK) && After(Test(length), NO_HORIZON, CROSS_THE_CHUNK) == CROSSED
    ensures var end := After(Test(length), CROSSED, es);
      !PastTheFog(Test(length), end, HILL) && HILL in end.beyond && HILL !in end.shown
  {
    CrossingRuns(length);
    HillFromEdges(length);
    NobodyLooks(length, CROSSED, es, HILL);
  }
}
