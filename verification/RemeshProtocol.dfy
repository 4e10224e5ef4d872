/** Remeshing as a protocol: every interleaving of what the network, the mesh
    workers, the settings and the frame loop do to the client's meshes
    (`crates/client/src/app.rs` `remesh`, `crates/client/src/meshwork.rs`).

    A job carries the `View` it was snapshotted from and the generation it was
    taken at, and so does a mesh on screen, so "no stale mesh is shown" is an
    equation between generations and "the mesh on screen is the right one" an
    equation between views: what is drawn for a chunk is what a mesh of the world
    as it now stands would be made from. */
module RemeshProtocol {
  import opened ChunkWorld

  datatype Job = Job(pos: Pos, generation: nat, view: View)

  /** What the renderer holds for a position: a chunk's mesh, or the horizon's
      mesh of a summary. */
  datatype Mesh = Terrain(view: View, sky: Sky, generation: nat) | Far

  /** A chunk's mesh as it would be made and handed over now. */
  function Picture(w: World, mode: LightingMode, p: Pos): Mesh
    requires p in w.chunks
  {
    Terrain(ViewOf(w, mode, p), OpenSky(w, p), Generation(w, p))
  }

  /** The client between two steps.  `pending` is with the workers, `finished`
      waits for the next drain. */
  datatype Client = Client(
    world: World,
    mode: LightingMode,
    threads: nat,
    pending: seq<Job>,
    finished: seq<Job>,
    backlog: nat,
    inFlight: map<Pos, nat>,
    drawn: map<Pos, Mesh>)

  const MESH_SUBMISSIONS_PER_FRAME: nat := 16

  function Capacity(c: Client): nat {
    c.threads * 2 + 1
  }

  function Init(threads: nat): Client {
    Client(EMPTY_WORLD, Simple, threads, [], [], 0, map[], map[])
  }

  predicate InPool(c: Client, j: Job) {
    j in c.pending || j in c.finished
  }

  predicate Current(w: World, j: Job) {
    j.pos in w.chunks && Generation(w, j.pos) == j.generation
  }

  /** A job whose result would be accepted is still owed for `p`. */
  ghost predicate Live(c: Client, p: Pos) {
    exists j :: InPool(c, j) && j.pos == p && Current(c.world, j)
  }

  // ----- The frame -----

  /** The renderer is told of the open sky as the mesh is handed over. */
  function Uploaded(w: World, done: Job): Mesh {
    Terrain(done.view, OpenSky(w, done.pos), done.generation)
  }

  /** Takes the oldest finished result: uploaded if its chunk is still held at
      the generation the job was taken at, dropped otherwise. */
  function DrainOne(c: Client): Client
    requires c.finished != []
  {
    var done := c.finished[0];
    var kept := if done.pos in c.inFlight && c.inFlight[done.pos] == done.generation
                then c.inFlight - {done.pos} else c.inFlight;
    c.(finished := c.finished[1..], inFlight := kept,
       drawn := if Current(c.world, done) then c.drawn[done.pos := Uploaded(c.world, done)] else c.drawn)
  }

  function Drain(c: Client): Client
    decreases |c.finished|
  {
    if c.finished == [] then c else Drain(DrainOne(c))
  }

  /** `MeshPool::drain` frees a slot per result, then each is judged. */
  function Drained(c: Client): Client {
    Drain(c.(backlog := if c.backlog < |c.finished| then 0 else c.backlog - |c.finished|))
  }

  function Elements(ps: seq<Pos>): set<Pos> {
    set p | p in ps
  }

  /** `(distance, x, y, z)` below another, lexicographically. */
  predicate Nearer(centre: Pos, a: Pos, b: Pos) {
    var da, db := SquaredDistance(centre, a), SquaredDistance(centre, b);
    da < db || (da == db && (a.x < b.x || (a.x == b.x && (a.y < b.y || (a.y == b.y && a.z < b.z)))))
  }

  function SquaredDistance(a: Pos, b: Pos): int {
    (a.x - b.x) * (a.x - b.x) + (a.y - b.y) * (a.y - b.y) + (a.z - b.z) * (a.z - b.z)
  }

  /** What `take_dirty` may hand a frame: every urgent chunk held, then the
      nearest of the others, nearest first, up to the budget. */
  ghost predicate IsDue(w: World, centre: Pos, due: seq<Pos>, urgent: nat) {
    var candidates := set p | p in w.dirty && p in w.chunks && p !in w.urgent;
    && urgent <= |due|
    && Elements(due[..urgent]) == (set p | p in w.urgent && p in w.chunks)
    && Elements(due[urgent..]) <= candidates
    && |due| - urgent == (if |candidates| < MESH_SUBMISSIONS_PER_FRAME then |candidates| else MESH_SUBMISSIONS_PER_FRAME)
    && (forall i, j :: 0 <= i < j < |due| ==> due[i] != due[j])
    && (forall i, j :: urgent <= i < j < |due| ==> Nearer(centre, due[i], due[j]))
    && (forall i, p :: urgent <= i < |due| && p in candidates && p !in due[urgent..] ==> Nearer(centre, due[i], p))
  }

  /** The queue once `due` is taken from it; positions no longer held leave too. */
  function Taken(w: World, due: seq<Pos>): World {
    w.(urgent := {}, dirty := set p | p in w.dirty && p in w.chunks && p !in due)
  }

  function Requeued(c: Client, ps: seq<Pos>): Client {
    c.(world := c.world.(dirty := c.world.dirty + Elements(ps)))
  }

  /** A chunk an edit touched is meshed on the frame itself. */
  function MeshNow(c: Client, p: Pos): Client {
    if p in c.world.chunks then
      c.(inFlight := c.inFlight - {p}, drawn := c.drawn[p := Picture(c.world, c.mode, p)])
    else c
  }

  /** A streaming chunk is snapshotted and handed to the pool; a pool with no
      threads runs it there and then. */
  function Submit(c: Client, p: Pos): Client
    requires p in c.world.chunks
  {
    var job := Job(p, Generation(c.world, p), ViewOf(c.world, c.mode, p));
    var marked := c.(inFlight := c.inFlight[p := job.generation]);
    if c.threads == 0 then marked.(finished := c.finished + [job])
    else marked.(pending := c.pending + [job], backlog := c.backlog + 1)
  }

  /** The frame's pass over `due` from index `i`.  `late` names the indices at
      which the time budget has run out. */
  function Pass(c: Client, due: seq<Pos>, urgent: nat, i: nat, late: set<nat>): Client
    requires i <= |due|
    decreases |due| - i
  {
    if i == |due| then c
    else if i < urgent then Pass(MeshNow(c, due[i]), due, urgent, i + 1, late)
    else if c.backlog >= Capacity(c) then Requeued(c, due[i..])
    else if due[i] !in c.world.chunks then Pass(c, due, urgent, i + 1, late)
    else
      var sent := Submit(c, due[i]);
      if i in late && i + 1 < |due| then Requeued(sent, due[i + 1..])
      else Pass(sent, due, urgent, i + 1, late)
  }

  function Remesh(c: Client, due: seq<Pos>, urgent: nat, late: set<nat>): Client {
    var d := Drained(c);
    Pass(d.(world := Taken(d.world, due)), due, urgent, 0, late)
  }

  // ----- Runs -----

  datatype Event =
    | Arrive(pos: Pos, blocks: Blocks)
    | Unload(pos: Pos)
    | Summarise(pos: Pos, summary: int)
    | LightArrives(pos: Pos, light: LightLayer)
    | FluidArrives(pos: Pos, fluid: FluidLayer)
    | TableArrives(table: FluidTable)
    | SetMode(mode: LightingMode)
    | Edited(edit: Edit)
    | SwitchDomain
    | Finish(which: nat)
    | Frame(centre: Pos, due: seq<Pos>, urgent: nat, late: set<nat>)
    | Horizon(built: set<Pos>, hidden: set<Pos>)

  /** What the environment may do next. */
  ghost predicate Possible(c: Client, e: Event) {
    match e
    case Edited(edit) => edit.Valid()
    case Finish(i) => i < |c.pending|
    case Frame(centre, due, urgent, _) => IsDue(c.world, centre, due, urgent)
    case Horizon(built, hidden) => built + hidden <= c.world.summaries.Keys
    case _ => true
  }

  ghost function Step(c: Client, e: Event): Client
    requires Possible(c, e)
  {
    match e
    case Arrive(p, b) => c.(world := Insert(c.world, p, b))
    case Unload(p) =>
      c.(world := Remove(c.world, p),
         drawn := if p in c.world.chunks || p in c.world.summaries then c.drawn - {p} else c.drawn)
    case Summarise(p, v) => c.(world := SetSummary(c.world, p, v))
    case LightArrives(p, l) => c.(world := SetLight(c.world, p, l))
    case FluidArrives(p, f) => c.(world := SetFluid(c.world, p, f))
    case TableArrives(t) => c.(world := SetFluidTable(c.world, t))
    case SetMode(m) => if m == c.mode then c else c.(mode := m, world := AllDirty(c.world))
    case Edited(edit) => c.(world := Apply(c.world, edit))
    case SwitchDomain => c.(world := Clear(c.world), drawn := c.drawn - c.world.chunks.Keys)
    case Finish(i) => c.(pending := c.pending[..i] + c.pending[i + 1..], finished := c.finished + [c.pending[i]])
    case Frame(_, due, urgent, late) => Remesh(c, due, urgent, late)
    case Horizon(built, hidden) =>
      c.(drawn := (c.drawn - hidden) + map p | p in built :: Far)
  }

  // ----- What every step keeps -----

  /** Held chunks have a generation, and nothing the pool owes is numbered past
      it; a position holds a chunk or a summary and never both. */
  ghost predicate Counted(c: Client) {
    && c.world.chunks.Keys <= c.world.generation.Keys
    && c.world.chunks.Keys !! c.world.summaries.Keys
    && forall j :: InPool(c, j) ==> j.generation <= Reached(c.world, j.pos)
  }

  /** Every result that would be accepted was made from the world as it is. */
  ghost predicate JobsSound(c: Client) {
    forall j :: InPool(c, j) && Current(c.world, j) ==> j.view == ViewOf(c.world, c.mode, j.pos)
  }

  /** A held chunk that is neither queued nor owed by the pool is on screen at
      its current generation, and, if `exact`, as the world now is. */
  ghost predicate Shown(c: Client, waiting: set<Pos>, exact: bool) {
    forall p :: p in c.world.chunks && p !in waiting && !Queued(c.world, p) && !Live(c, p)
      ==> ShownAt(c, p, exact)
  }

  ghost predicate ShownAt(c: Client, p: Pos, exact: bool)
    requires p in c.world.chunks
  {
    && p in c.drawn && c.drawn[p].Terrain? && c.drawn[p].generation == Generation(c.world, p)
    && (exact ==> c.drawn[p] == Picture(c.world, c.mode, p))
  }

  ghost predicate NoGhosts(c: Client) {
    c.drawn.Keys <= c.world.chunks.Keys + c.world.summaries.Keys
  }

  predicate PoolBounded(c: Client) {
    && c.backlog <= Capacity(c)
    && (c.threads > 0 ==> c.backlog == |c.pending| + |c.finished|)
    && (c.threads == 0 ==> c.pending == [] && c.backlog == 0)
  }

  /** What holds while the chunks of `waiting` are in the frame's hand.  Without
      `exact` it is about generations alone. */
  ghost predicate Keeping(c: Client, waiting: set<Pos>, exact: bool) {
    && Counted(c) && PoolBounded(c) && Shown(c, waiting, exact)
    && (exact ==> JobsSound(c) && NoGhosts(c))
  }

  /** No held chunk is forgotten: each is queued, owed by a job of its current
      generation, or drawn at it. */
  ghost predicate Tracked(c: Client) {
    Keeping(c, {}, false)
  }

  /** And none is shown, or will be, as the world no longer is. */
  ghost predicate Inv(c: Client) {
    Keeping(c, {}, true)
  }

  /** Nothing queued and nothing owed: the screen is all the client means to
      show. */
  ghost predicate Quiet(c: Client) {
    c.world.dirty == {} && c.world.urgent == {} && c.pending == [] && c.finished == []
  }

  // ----- Which steps the scheduler hears of -----

  /** Already due for a remesh that no job in the pool stands in for. */
  ghost predicate Waits(c: Client, q: Pos) {
    Queued(c.world, q) && !Live(c, q)
  }

  /** Each of `qs` is lit and flooded in `w'` as it was, or waits anyway. */
  ghost predicate Undisturbed(c: Client, w': World, qs: set<Pos>) {
    forall q :: q in qs ==> Kept(c.world, w', q) || Waits(c, q)
  }

  /** `q` draws something on the side of `p` that a summary there would hide. */
  ghost predicate Walled(w: World, q: Pos, p: Pos)
    requires q in w.chunks
  {
    exists k: Face :: Side(q, k) == p && Walls(w, q, k)
  }

  /** The scheduler is told about every view the step changes.  The store marks
      the six neighbours of what changed, and a mesh reads a shell that reaches
      twenty-six, so each case is what has to hold of the chunks it does not
      mark. */
  ghost predicate Announced(c: Client, e: Event) {
    match e
    // A chunk is a wall to no fluid where it is empty, and was one to all of it
    // while it was missing.
    case Arrive(p, b) => Undisturbed(c, Placed(c.world, p, b), HeldCorners(c.world, p))
    case LightArrives(p, l) => Undisturbed(c, Lit(c.world, p, l), HeldCorners(c.world, p))
    case FluidArrives(p, f) => Undisturbed(c, Watered(c.world, p, f), HeldCorners(c.world, p))
    // An edit marks across a face only when it reaches the plane of that face,
    // and a fluid surface beyond it asks whether the whole block is empty.
    case Edited(e) =>
      e.chunk in c.world.chunks ==>
        Undisturbed(c, Written(c.world, e), HeldAround(c.world, e.chunk) - TouchedSides(c.world, e))
    // Unloading drops light and fluid, and marks nobody if no chunk or summary
    // was held.
    case Unload(p) =>
      if p in c.world.chunks || p in c.world.summaries then
        Undisturbed(c, Dropped(c.world, p), HeldCorners(c.world, p))
      else
        && Undisturbed(c, Dropped(c.world, p), HeldAround(c.world, p))
        && (p in c.world.light ==> forall q ::
              q in HeldSides(c.world, p) && q in c.world.light ==> Queued(c.world, q) || Live(c, q))
    // A summary appearing beside a chunk takes down what the chunk draws on that
    // side, and marks it only when a chunk made way for the summary.
    case Summarise(p, _) =>
      if p in c.world.chunks then Undisturbed(c, MadeWay(c.world, p), HeldCorners(c.world, p))
      else p in c.world.summaries || forall q :: q in HeldSides(c.world, p) && Walled(c.world, q, p) ==> Waits(c, q)
    // A new fluid table queues chunks at the generation they already have, so a
    // job taken before it is accepted after it.
    case TableArrives(t) =>
      forall q :: q in c.world.chunks ==> Kept(c.world, c.world.(table := t), q) || !Live(c, q)
    // Leaving a domain removes the meshes of held chunks only.
    case SwitchDomain => c.drawn.Keys <= c.world.chunks.Keys
    case _ => true
  }
}
