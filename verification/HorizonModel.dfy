/** The horizon: far chunks held as summaries, built a few a frame, and held
    back while the fog hides them (`build_horizon` and `rejudge_horizon` in
    `crates/client/src/app.rs`, the queue of `crates/client/src/world.rs`).
    Values only; the objects are in `HorizonBuilder.dfy`. */
module HorizonModel {
  import opened ChunkWorld
  import opened Fog

  /** A chunk from afar: `width` cells along each axis, each by its material; a
      cell not named is air. */
  datatype Summary = Summary(width: nat, cells: map<Cell, int>)
  {
    predicate IsEmpty() {
      forall c :: c in cells ==> cells[c] == AIR
    }

    predicate IsSolid() {
      forall x, y, z :: 0 <= x < width && 0 <= y < width && 0 <= z < width ==> At(Cell(x, y, z)) != AIR
    }

    function At(c: Cell): int {
      if c in cells then cells[c] else AIR
    }
  }

  /** A far mesh by what it was built from: the summary, which of its materials
      are drawn as fluid, and the columns whose top cell is fluid with more of the
      sea over it, so that its top there is no surface. */
  datatype FarMesh = FarMesh(summary: Summary, wet: set<int>, capped: set<(int, int)>)

  /** The camera's chunk, and where it stands in it. */
  datatype Camera = Camera(chunk: Pos, local: Offset)

  /** `shown` is what the renderer draws for the horizon.  A real chunk's mesh is
      not the horizon's business. */
  datatype Horizon = Horizon(
    chunks: set<Pos>,
    summaries: map<Pos, Summary>,
    fluid: map<Pos, FluidLayer>,
    fluids: set<int>,
    stale: set<Pos>,
    shown: map<Pos, FarMesh>,
    beyond: set<Pos>,
    reach: Option<Reach>,
    judged: Reach,
    centre: Pos,
    camera: Camera)

  const HORIZON_BUDGET: nat := 16

  const NO_HORIZON: Horizon := Horizon({}, map[], map[], {}, {}, map[], {}, None, Reach(0.0, 0.0), Pos(0, 0, 0),
                                      Camera(Pos(0, 0, 0), Offset(8.0, 8.0, 8.0)))

  predicate Filled(m: map<Pos, Summary>, p: Pos) {
    p in m && m[p].IsSolid()
  }

  /** A solid summary whose every side is held and solid too. */
  predicate Buried(m: map<Pos, Summary>, p: Pos) {
    Filled(m, p) && forall k: Face :: Filled(m, Side(p, k))
  }

  /** Air throughout, or buried: it has no mesh. */
  predicate Hidden(m: map<Pos, Summary>, p: Pos)
    requires p in m
  {
    m[p].IsEmpty() || Buried(m, p)
  }

  const OVER: Face := 3
  const UNDER: Face := 2

  /** The block of a chunk's bottom row over a column of a summary. */
  function BlockOver(column: int, width: nat): int {
    var across := if width == 0 then 1 else width;
    var cell := if CHUNK_SUBNODES / across < 1 then 1 else CHUNK_SUBNODES / across;
    (column * cell + cell / 2) / SUBNODES_PER_AXIS
  }

  /** Whether the sea goes on over a column: in the summary above, or in the
      fluid of the chunk above where no summary is held. */
  predicate SeaGoesOn(over: Option<Summary>, wet: Option<FluidLayer>, fluids: set<int>, width: nat, u: int, v: int) {
    match over
    case Some(above) =>
      width > 0 && above.width > 0 &&
      var cell := above.At(Cell(u * above.width / width, 0, v * above.width / width));
      cell != AIR && cell in fluids
    case None =>
      var block := Cell(BlockOver(u, width), 0, BlockOver(v, width));
      wet.Some? && block in wet.value && wet.value[block].id != 0
  }

  /** The mesh of a summary, by what is held over it. */
  function MeshOf(s: Summary, over: Option<Summary>, wet: Option<FluidLayer>, fluids: set<int>): FarMesh {
    FarMesh(s,
            set c | c in s.cells && s.cells[c] in fluids :: s.cells[c],
            set u, v | 0 <= u < s.width && 0 <= v < s.width
              && s.At(Cell(u, s.width - 1, v)) != AIR && s.At(Cell(u, s.width - 1, v)) in fluids
              && SeaGoesOn(over, wet, fluids, s.width, u, v)
              :: (u, v))
  }

  function FarOf(h: Horizon, p: Pos): FarMesh
    requires p in h.summaries
  {
    MeshOf(h.summaries[p], Get(h.summaries, Side(p, OVER)), Get(h.fluid, Side(p, OVER)), h.fluids)
  }

  /** What the renderer should hold for a summary. */
  function Look(h: Horizon, p: Pos): Option<FarMesh>
    requires p in h.summaries
  {
    if Hidden(h.summaries, p) then None else Some(FarOf(h, p))
  }

  /** Whether a chunk, from where the camera stands, lies past the fog's reach.
      Nothing here depends on how that is worked out; `HorizonFog` says how. */
  type FogTest = (Camera, Reach, Pos) -> bool

  predicate PastTheFog(past: FogTest, h: Horizon, p: Pos) {
    h.reach.Some? && past(h.camera, h.reach.value, p)
  }

  // ----- What happens -----

  /** `set_summary`: the neighbours are looked at again too. */
  function Arrive(h: Horizon, p: Pos, s: Summary): Horizon {
    var m := h.summaries[p := s];
    h.(chunks := h.chunks - {p}, summaries := m,
       stale := h.stale + {p} + (set q | q in Sides(p) && q in m))
  }

  /** `insert`: the real chunk takes the summary's place. */
  function Replace(h: Horizon, p: Pos): Horizon {
    h.(chunks := h.chunks + {p}, summaries := h.summaries - {p},
       stale := if p in h.summaries then h.stale + {p} else h.stale)
  }

  /** `ChunkUnload`. */
  function Unload(h: Horizon, p: Pos): Horizon {
    h.(chunks := h.chunks - {p}, summaries := h.summaries - {p}, fluid := h.fluid - {p},
       stale := h.stale + {p}, beyond := h.beyond - {p},
       shown := if p in h.chunks || p in h.summaries then h.shown - {p} else h.shown)
  }

  /** `set_fluid`: no summary is looked at again. */
  function Flood(h: Horizon, p: Pos, layer: FluidLayer): Horizon {
    h.(fluid := if forall b :: b in layer ==> layer[b].IsEmpty() then h.fluid - {p} else h.fluid[p := layer])
  }

  /** `enter_domain`: only the meshes of real chunks go with the store. */
  function Enter(h: Horizon): Horizon {
    h.(chunks := {}, summaries := map[], fluid := map[], stale := {}, beyond := {}, shown := h.shown - h.chunks)
  }

  predicate Grown(judged: Reach, now: Reach) {
    now.far > judged.far * 1.02 || now.up > judged.up * 1.02
  }

  /** Whether this frame judges the held-back summaries again. */
  predicate Judges(h: Horizon) {
    h.reach.Some? && (h.camera.chunk != h.centre || Grown(h.judged, h.reach.value))
  }

  /** The held summaries among `ps` that the fog hides, and the ones it does not.
      Positions that hold no summary are in neither. */
  function StillHidden(past: FogTest, h: Horizon, ps: set<Pos>): set<Pos> {
    set p | p in ps && p in h.summaries && PastTheFog(past, h, p)
  }

  function InSight(past: FogTest, h: Horizon, ps: set<Pos>): set<Pos> {
    set p | p in ps && p in h.summaries && !PastTheFog(past, h, p)
  }

  function Rejudge(past: FogTest, h: Horizon): Horizon {
    if !Judges(h) then h
    else
      h.(centre := h.camera.chunk, judged := h.reach.value,
         beyond := StillHidden(past, h, h.beyond), stale := h.stale + InSight(past, h, h.beyond))
  }

  function BuildOne(past: FogTest, h: Horizon, p: Pos): Horizon {
    if p !in h.summaries then h
    else if Hidden(h.summaries, p) then h.(shown := h.shown - {p})
    else if PastTheFog(past, h, p) then h.(shown := h.shown - {p}, beyond := h.beyond + {p})
    else h.(shown := h.shown[p := FarOf(h, p)])
  }

  function BuildAll(past: FogTest, h: Horizon, due: seq<Pos>): Horizon
    decreases |due|
  {
    if due == [] then h else BuildOne(past, BuildAll(past, h, due[..|due| - 1]), due[|due| - 1])
  }

  function Members(ps: seq<Pos>): set<Pos> {
    set p | p in ps
  }

  /** How many of the due positions a frame gets through: one at least, then as
      many as its time allows. */
  function GotThrough(due: nat, allowed: nat): (n: nat)
    ensures n <= due && (due > 0 ==> n > 0)
  {
    if due <= allowed then due else if allowed == 0 then 1 else allowed
  }

  /** What is left of the queue's due positions once `n` are built. */
  function Build(past: FogTest, h: Horizon, due: seq<Pos>, n: nat): Horizon
    requires n <= |due|
  {
    var taken := h.(stale := h.stale - Members(due));
    var built := BuildAll(past, taken, due[..n]);
    built.(stale := built.stale + Members(due[n..]))
  }

  function Frame(past: FogTest, h: Horizon, due: seq<Pos>, allowed: nat): Horizon {
    Build(past, Rejudge(past, h), due, GotThrough(|due|, allowed))
  }

  predicate Before(p: Pos, q: Pos) {
    p.x < q.x || (p.x == q.x && (p.y < q.y || (p.y == q.y && p.z < q.z)))
  }

  /** The first of the queue, in the order the queue keeps. */
  predicate FirstOf(stale: set<Pos>, due: seq<Pos>) {
    && |due| == (if |stale| < HORIZON_BUDGET then |stale| else HORIZON_BUDGET)
    && (forall i :: 0 <= i < |due| ==> due[i] in stale)
    && (forall i, j :: 0 <= i < j < |due| ==> Before(due[i], due[j]))
    && (forall i, q :: 0 <= i < |due| && q in stale && q !in due ==> Before(due[i], q))
  }

  datatype Event =
    | Arrives(pos: Pos, summary: Summary)
    | Replaced(pos: Pos)
    | Unloaded(pos: Pos)
    | Flooded(pos: Pos, layer: FluidLayer)
    | Tabled(fluids: set<int>)
    | Entered
    | Fogged(reach: Reach)
    | Moved(camera: Camera)
    | Drawn(due: seq<Pos>, allowed: nat)

  predicate Possible(past: FogTest, h: Horizon, e: Event) {
    e.Drawn? ==> FirstOf(Rejudge(past, h).stale, e.due)
  }

  function Step(past: FogTest, h: Horizon, e: Event): Horizon {
    match e
    case Arrives(p, s) => Arrive(h, p, s)
    case Replaced(p) => Replace(h, p)
    case Unloaded(p) => Unload(h, p)
    case Flooded(p, layer) => Flood(h, p, layer)
    case Tabled(fluids) => h.(fluids := fluids)
    case Entered => Enter(h)
    case Fogged(reach) => h.(reach := Some(reach))
    case Moved(camera) => h.(camera := camera)
    case Drawn(due, allowed) => Frame(past, h, due, allowed)
  }

  // ----- What is promised -----

  /** The renderer shows for `p` what its summary is worth. */
  predicate Right(h: Horizon, p: Pos)
    requires p in h.summaries
  {
    Get(h.shown, p) == Look(h, p)
  }

  /** Listed as held back, and not drawn; and, if `hidden`, out of sight. */
  predicate HeldBack(past: FogTest, h: Horizon, p: Pos, hidden: bool) {
    p in h.beyond && p !in h.shown && (hidden ==> PastTheFog(past, h, p))
  }

  /** Right, waiting to be built, or held back.  With `hidden`, nothing that is in
      sight is wrong and not waiting. */
  predicate Covered(past: FogTest, h: Horizon, p: Pos, hidden: bool) {
    p in h.summaries ==> p in h.stale || HeldBack(past, h, p, hidden) || Right(h, p)
  }

  ghost predicate AllCovered(past: FogTest, h: Horizon, hidden: bool) {
    forall p :: Covered(past, h, p, hidden)
  }

  /** Listed as held back, not waiting, and not right as it is on screen. */
  predicate Withheld(h: Horizon, p: Pos) {
    p in h.beyond && p in h.summaries && p !in h.stale && !Right(h, p)
  }

  /** What is listed as held back is out of sight, unless it is also waiting or
      right. */
  predicate HeldRightly(past: FogTest, h: Horizon, p: Pos) {
    p in h.beyond && p in h.summaries ==> p in h.stale || PastTheFog(past, h, p) || Right(h, p)
  }

  ghost predicate AllHeldRightly(past: FogTest, h: Horizon) {
    forall p :: HeldRightly(past, h, p)
  }
}
