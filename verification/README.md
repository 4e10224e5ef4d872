# Verified models of the client's frame loop, the bot tools and two scripts

Each module states what one part of the repository does, as values and as the
objects that update them in place, and proves what that part is for. The
modules are grouped below by subject; each group names its main results first.

**Remeshing** (`ChunkWorld`, `RemeshProtocol`, `RemeshSafety`,
`RemeshProgress`, `RemeshReach`, `RemeshRaces`, `RemeshFrame`, `StoreEffects`,
`Shading`; objects in `ChunkStore`, `Remesher`). Events are arrivals, unloads, summaries, light, fluid,
edits, settings, domain switches, worker completions in any order, and frames
that stop early on time or backlog.

Over every run of them, with no condition, no held chunk is forgotten
(`RemeshSafety.NothingForgotten`) and no stale mesh is uploaded
(`RemeshSafety.UploadsAreCurrent`): generations do what they are for.

Whether the mesh of the current generation is also the right mesh is a question
about what the mesher reads. A `View` holds that: the chunk's cells, the facing
plane across each of its six faces and whether a summary stands there, the light
of every block of the chunk and of the shell one block thick around it, and, if
the chunk draws fluid, how each block its surface meets is filled or walled.
`Shading` shows that this is exactly what the light of a face corner and the
height of a fluid vertex are taken from, for the shell's edges and corners too.
So a mesh reads twenty-six chunks around, and the store marks six.
`RemeshSafety.StepExact` says for each kind of event, as an if and only if, what
must hold of the chunks not marked for the screen and the world to stay in
agreement; `RemeshReach.SilenceIsSeen` that from a quiet state anything else
leaves a wrong picture, `RemeshReach.WrongForGood` that no frame mends it. A
difference of shells shows on screen where the chunk has a face at that corner or
a fluid surface at that vertex. Each state below is reachable, and is wrong at a
corner of a face, a vertex of a surface, a wall of terrain, a fluid's material or
a mesh of nothing.

- Light for a diagonal position is not heard by the chunk across the corner
  (`RemeshRaces.LightAtCornerMissed`), nor its going with an unload or a summary
  (`UnloadAtCornerMissed`, `SummaryAtCornerMissed`). The comment on `set_light`
  says that it marks the chunk alone; the code marks the six neighbours too.
- Fluid for a diagonal position, and an empty chunk arriving there, move a pool's
  surface at the corner (`FluidAtCornerMissed`, `ArrivalAtCornerMissed`).
- A fluid surface asks whether the whole block next door is empty. Digging the
  last cell of such a block, off the boundary plane, is heard by nobody
  (`DigBesideMissed`).
- A summary stored at a position that held nothing takes down the walls of the
  chunks beside it, where they have any, and marks none (`SummaryBesideMissed`).
- Unloading a position that holds no chunk or summary drops its light and fluid
  and marks nobody (`UnloadBesideMissed`).
- Leaving a domain removes the meshes of held chunks and leaves the horizon's
  (`DomainLeavesGhost`).
- A new fluid table queues chunks at the generation they have, so a job taken
  before it is accepted after it (`OldTableStays`). The server sends the table
  once, in the burst on joining, before any chunk
  (`crates/core/src/session/mod.rs:1394-1410`), so nothing it sends can run this
  race; a server that sent a table again could.

`StoreEffects` says position by position what each operation of the store leaves,
an edit cell by cell, and `RemeshFrame.FrameSends` exactly what one frame meshes,
sends and leaves queued.

A change of lighting mode queues chunks in the same way and never races: the
only thing a mode gives a mesh is whether it is flat, and no mode is
(`RemeshSafety.ModeKeeps`). `RemeshProgress.Settles` bounds the frames until
everything is drawn, for any pool that finishes at least one job a frame.

**The horizon and the fog** (`Fog`, `HorizonModel`, `HorizonSafety`,
`HorizonFog`, `HorizonRaces`, `HorizonFrame`; object in `HorizonBuilder`). The fog cull is exact
for an upright drum half a chunk's diagonal about the chunk, and so sound for the
chunk. Over every run each held summary is drawn as it stands, queued, or held
back and not drawn, except exactly when an event changes what a summary is worth
that nobody will look at again (`HorizonSafety.StepExact`): a solid summary goes
from beside one it was burying, or what is over a far sea changes, or the fluid
table does. `remove`, `insert`, `set_fluid` and `set_fluid_table` do not queue the
summary concerned, and `HorizonRaces` has a reachable state for each. Building a
summary does not take it off the list of those held back, so one on that list may
be in sight and drawn, and go wrong in the same ways
(`HorizonRaces.DrawnWhileHeldBack`).

What the fog holds back is out of sight after each judgement. Between judgements
two things can bring it into sight. A new reach does not, for a standing camera,
exactly when the client judges again or the reach grew in neither direction
(`HorizonFog.FogExact`); the documentation says a held-back summary waits "until
the reach grows", but fog that closes in and lifts again below a fiftieth over
the reach last judged by does not count as growth (`HorizonFog.HoleStays`).
Walking inside the camera's chunk does not, exactly when every summary held back
is past the fog from the point of the chunk nearest to it
(`HorizonFog.WalkExact`, with `HorizonFog.WalkingUnjudged` a run in which it is
not); leaving the chunk is judged (`HorizonFog.CrossingJudges`).

**Ticks** (`InputQueue`, `InputBuffer`, `TickSync`, `TickRun`, `FixedStep`,
`TickClient`). Where a resync lands, that the inputs sent after it are in the
server's window, and that the predictor covers every tick since the state exactly
when it was not renumbered. `TickRun` plays client and server together: once the
client has heard of the last tick whose input was late, the body it shows at a
tick is the body the server has when it gets there, and no state corrects anything
until another is late (`TickRun.ForeseesTheServer`, `TickRun.NothingToCorrect`).
Frame time is conserved, and the frame rate does not
matter unless the four-tick cap is reached (`FixedStep.CapThrowsTimeAway` shows
that there it does). A queue's every answer is what it should be, a silent
client's included (`InputQueue.AnswersExact`, `InputQueue.Silence`).

**Lines of sight** (`Sight`). `keeps_lock` and `ray_box` against one meaning,
infinities included. The lock asks about the true line of sight for every block
within reach if and only if no component of the direction is negligible without
being zero. The two tests differ on a line that runs along a face of the block,
and only there (`Sight.LockAndRay`).

**The benchmark swarm** (`BenchSession`, `BenchSwarm`, `Percentiles`). In every
interleaving of every number of sessions nothing is refused and everything ends
as it began. Nearest-rank percentiles by what they mean.

**Recordings** (`RecordingText`, `Recording`, `RecordingFormat`,
`RecordingRoundTrip`). The line format written out, faults and all. The round
trip holds if and only if the recordable commands fit the format and their ticks
are in order. The documentation of `render` promises a round trip without
condition; chat with a double space does not survive it
(`RecordingRoundTrip.DoubleSpaceIsLost`).

**The content cache** (`CacheModel`; object in `ContentCache`). The memoised
`contains` agrees with reading and hashing over every run, if and only if each
outside write shows in its stamp or leaves the right bytes. Each file is read at
most once.

**Icons** (`Sums`, `Resample`, `IconResizer`), **flicker** (`Flicker`), **the
notices script** (`Notices`), **content slices** (`ContentStream`), **the script
bridge** (`Bridge`) and **frame pacing** (`Pacing`).

Throughout, `f32` and `f64` are reals and unsigned counters are unbounded unless
a bound is named. The content hash, one tick of the simulation, the text of a
float, the length of a vector and the order in which workers finish are
parameters of which only what is written in the contract is assumed. The objects'
methods without loops, each the counterpart of one function of its model, are
proved against that function and not listed.

## Model

| member | source | states |
|---|---|---|
| RemeshSafety.NothingForgotten | crates/client/src/app.rs:5167-5270 | After every run of possible events whatever, each held chunk is queued, owed by a job of its current generation, or drawn at its current generation; with nothing queued or owed it is drawn so; the pool holds no more than its capacity |
| RemeshSafety.UploadsAreCurrent | crates/client/src/app.rs:5172-5186 | Whatever the step and whatever the state, a terrain mesh that was not on screen before it is of its held chunk's current generation: no stale mesh is ever uploaded |
| RemeshSafety.StepExact | crates/client/src/app.rs:5167-5270 | From any state in which the screen, the queues and the pool agree with the world, one event of any kind keeps them so if and only if it was announced: for each kind of event, what must hold of the chunks the store does not mark |
| RemeshSafety.ScreenMatchesWorld | crates/client/src/app.rs:5172-5186 | Over every run of announced events each held chunk is queued, owed by a job of its current generation made from the world as it is, or drawn so; with nothing queued or owed the screen is what meshing everything afresh would give; no mesh outlives its chunk |
| RemeshSafety.StepTracks | crates/client/src/app.rs:5167-5270 | Every event of every kind, announced or not, leaves no held chunk forgotten |
| RemeshSafety.RunKeeps | crates/client/src/app.rs:5167-5270 | The agreement holds at the end of every run of announced events |
| RemeshSafety.FrameKeeps | crates/client/src/app.rs:5167-5270 | A frame keeps both, whatever was finished, wherever its time runs out and however full the pool is |
| RemeshSafety.PassKeeps | crates/client/src/app.rs:5202-5262 | The pass over the due chunks keeps both from any index, early stops and requeues included |
| RemeshSafety.DrainOneKeeps | crates/client/src/app.rs:5175-5186 | Judging one finished result by its generation keeps both: a stale one is dropped, a current one is uploaded |
| RemeshFrame.FrameSends | crates/client/src/app.rs:5202-5262 | Whatever is finished, due and late: the urgent chunks are drawn as they stand; of the others exactly those up to one place are sent to the workers, in order, each at its generation; those past it stay queued with what was not due, and nothing else does; a note is made of each job sent and dropped of each chunk meshed |
| RemeshFrame.StopsOnce | crates/client/src/app.rs:5240-5262 | That place is unique: nothing is sent after a late one, no more than the pool has room for, and all the rest |
| RemeshFrame.AllSent | crates/client/src/app.rs:5240-5262 | With time and room for all of it, nothing that was due stays queued |
| RemeshFrame.DrainShows | crates/client/src/app.rs:5175-5186 | After a drain each position shows the last result that is of its held chunk's current generation, or what it showed |
| RemeshFrame.DrainForgets | crates/client/src/app.rs:5175-5186 | A note of a job under way goes with that job's result and no other |
| RemeshFrame.ModeLeaves | crates/client/src/app.rs:4688-4695 | A new lighting mode is taken on and every held chunk queued; the same one changes nothing |
| RemeshFrame.FinishLeaves | crates/client/src/meshwork.rs:108-150 | A worker's job leaves the pending ones and is the last of those finished |
| RemeshFrame.MeshesGo | crates/client/src/app.rs:5063-5071 | An unload takes the mesh of its position if something was held, and of no other |
| RemeshSafety.WorldStepExact | crates/client/src/world.rs:962-971 | A change of the world keeps the agreement if and only if each chunk it did not mark looks as it did, or was waiting with no job standing in for it |
| RemeshSafety.NeighbourhoodExact | crates/client/src/world.rs:973-980 | A change at one position that marks it and chunks across its faces keeps the agreement if and only if the shell of every other chunk around it is as it was, or that chunk waits |
| RemeshSafety.ArriveExact | crates/client/src/world.rs:676-686 | An arriving chunk: if and only if the chunks at its edges and corners are lit and flooded as they were, or wait |
| RemeshSafety.LightExact | crates/client/src/world.rs:272-289 | A light layer: the same condition |
| RemeshSafety.FluidExact | crates/client/src/world.rs:430-438 | A fluid layer, or its drying up: the same condition |
| RemeshSafety.EditExact | crates/client/src/world.rs:845-960 | An edit: the same of every chunk around it whose shared plane it did not reach |
| RemeshSafety.UnloadExact | crates/client/src/app.rs:5063-5071 | An unload: the same of the edges and corners if something was held; if nothing was, of all twenty-six, and the lit ones beside a dropped light must be queued or owed |
| RemeshSafety.SummariseExact | crates/client/src/world.rs:693-720 | A summary: the same of the edges and corners where a chunk made way; at a position with neither, if and only if every held neighbour that draws anything on that side waits: terrain on the facing plane, or under the position fluid with none over it |
| RemeshSafety.SummaryView | crates/client/src/mesher.rs:506-612 | A summary where nothing was held changes the views of the chunks beside it that draw something on that side, and no other |
| RemeshSafety.ModeKeeps | crates/client/src/app.rs:4688-4695 | A change of lighting mode always keeps the agreement, since no mode bakes what another does not |
| RemeshSafety.TableExact | crates/client/src/world.rs:297-316 | A new fluid table: if and only if each held chunk shows the same fluid under it or is owed no job of its current generation |
| RemeshSafety.DomainExact | crates/client/src/app.rs:4207-4235 | Leaving a domain: if and only if only held chunks were drawn |
| RemeshReach.SilenceIsSeen | crates/client/src/app.rs:5167-5270 | From every quiet good state every unannounced event but a change of domain leaves some chunk drawn wrong, not queued and not owed |
| RemeshReach.WrongForGood | crates/client/src/app.rs:5167-5270 | However many frames and finished jobs follow, it stays wrong |
| RemeshReach.CanSettle | crates/client/src/app.rs:5167-5270 | From every reachable state a quiet one is reachable, over the same world and as good as it was |
| RemeshReach.DueExists | crates/client/src/world.rs:1007-1068 | Whatever is queued, there is a choice of due chunks a frame may be handed |
| RemeshProgress.Settles | crates/client/src/app.rs:5190-5262 | With the world at rest, and a pool that finishes at least one job a round while it has any, as many rounds as there are queued chunks and the pool's capacity leave nothing queued or owed and every held chunk drawn at its generation, and as the world is if the run was good |
| RemeshProgress.RoundShortens | crates/client/src/app.rs:5202-5262 | A round empties the urgent queue and shortens the other, and with that empty shortens the pool |
| RemeshProgress.PassShortens | crates/client/src/app.rs:5202-5262 | A pass begun with a free slot leaves fewer chunks queued than there were |
| RemeshRaces.LightAtCornerMissed | crates/client/src/world.rs:272-289 | A reachable state: light came for a diagonal position, and a corner of a face of the chunk's mesh keeps the dark for good |
| RemeshRaces.UnloadAtCornerMissed | crates/client/src/world.rs:789-812 | A reachable state: a lit diagonal chunk unloaded, and the corner of the face keeps its light |
| RemeshRaces.SummaryAtCornerMissed | crates/client/src/world.rs:693-720 | A reachable state: it made way for its summary instead |
| RemeshRaces.SummaryBesideMissed | crates/client/src/world.rs:693-720 | A reachable state: a summary came for an empty position beside a drawn chunk with terrain on the facing plane, and the wall drawn there stays up |
| RemeshRaces.UnloadBesideMissed | crates/client/src/world.rs:789-812 | A reachable state: a position that held only light unloaded, and the chunk beside it keeps that light |
| RemeshRaces.FluidAtCornerMissed | crates/client/src/world.rs:430-438 | A reachable state: fluid came for a diagonal position, and the surface of the pool keeps its old height at the corner |
| RemeshRaces.ArrivalAtCornerMissed | crates/client/src/world.rs:676-686 | A reachable state: an empty chunk came there, and the pool still stands up against it as against a wall |
| RemeshRaces.DigBesideMissed | crates/client/src/world.rs:907-960 | A reachable state: the one cell of a boundary block was dug, not on the boundary plane, and the pool next door stands up against air |
| RemeshRaces.OldTableStays | crates/client/src/world.rs:297-316 | A reachable quiet state: two jobs of one generation, the older finished last, and the old table's material is on screen |
| RemeshRaces.DomainLeavesGhost | crates/client/src/app.rs:4207-4235 | A reachable quiet state: a far mesh of the last domain drawn where nothing is held |
| Shading.ShellIsSampled | crates/client/src/shade.rs:421-466 | Every block of the one-block shell round a chunk, edges and corners included, has a positive weight at some corner of some face of the chunk |
| Shading.SampledInShell | crates/client/src/shade.rs:435-466 | And no face corner samples a block outside the shell |
| Shading.RowsAreMet | crates/client/src/mesher.rs:707-735 | Every block of the rows a chunk's fluid runs through, those beyond its sides included, meets some vertex of the chunk |
| Shading.MeetingInRows | crates/client/src/mesher.rs:707-735 | And no vertex meets another block |
| Shading.CornerLight | crates/client/src/shade.rs:435-490 | The loops with their short cut for four equal samples give the rounded bilinear mean in quarter levels |
| Shading.CornerBetween | crates/client/src/shade.rs:435-490 | The light at a corner lies between the darkest and the brightest of its four blocks |
| Shading.SurfaceAt | crates/client/src/mesher.rs:707-735 | The loop gives the mean height of the blocks that count, open air a film and walls not counted |
| Shading.SurfaceBounded | crates/client/src/mesher.rs:707-735 | A surface is never below the film or above its block |
| Shading.SampledAround | crates/client/src/shade.rs:421-460 | The four blocks are those in front of the face whose middles lie round the corner |
| Shading.LinearExact | crates/client/src/shade.rs:435-490 | Light that changes evenly along both axes of a face is at each corner what it is where the corner lies, to the nearest quarter level |
| Shading.MeetingAround | crates/client/src/mesher.rs:707-720 | The blocks that meet at a vertex are the four round the block corner nearest to it |
| Shading.HeightExact | crates/client/src/mesher.rs:427-446 | A depth stands its share of a block's height, rounded down and never nothing |
| Shading.SurfaceBetween | crates/client/src/mesher.rs:707-735 | Where something counts the surface lies between the lowest and the highest of what counts |
| Shading.NoLightSeam | crates/client/src/shade.rs:421-490 | At the far end of a chunk and the near end of the next, along either axis of the face, a corner is lit alike from either chunk |
| Shading.NoFluidSeam | crates/client/src/mesher.rs:707-735 | And the fluid surface stands at one height |
| ChunkWorld.SameView | crates/client/src/world.rs:388-420 | Two worlds that agree on a chunk and across its faces show it alike if and only if its light shell and water shell agree, whatever the two lighting modes |
| ChunkWorld.FarShellKept | crates/client/src/world.rs:1175-1228 | A change of one position's data changes no shell beyond the twenty-six positions around it |
| ChunkWorld.FacesKept | crates/client/src/world.rs:388-420 | And nothing but the shell of those it shares no face with |
| ChunkWorld.PlaneKept | crates/client/src/world.rs:939-948 | An edit that does not reach a boundary plane leaves that plane as it was |
| StoreEffects.InsertLeaves | crates/client/src/world.rs:676-686 | The chunk is held in place of any summary; it and the held chunks one step away are numbered on and queued, and nothing else changes |
| StoreEffects.SummaryLeaves | crates/client/src/world.rs:693-720 | The summary is held in place of any chunk, whose light and place in the queue go; the held chunks one step away are marked only if a chunk made way |
| StoreEffects.RemoveHolds | crates/client/src/world.rs:789-812 | All there was at the position goes, its number into the floor |
| StoreEffects.RemoveLeaves | crates/client/src/world.rs:789-812 | Each other position is marked if it is a held chunk one step away and something was held here, and is otherwise as it was |
| StoreEffects.ClearLeaves | crates/client/src/world.rs:820-838 | Only the table stays, and a floor that is the highest number there was |
| StoreEffects.LightLeaves | crates/client/src/world.rs:272-289 | The layer is held; the position and the held chunks one step away are marked, and nothing else changes |
| StoreEffects.FluidLeaves | crates/client/src/world.rs:430-438 | The same of fluid, held if any block of it holds some and drained otherwise |
| StoreEffects.TableLeaves | crates/client/src/world.rs:297-316 | The table is held; every held chunk is queued at its number where any fluid is held |
| StoreEffects.QueuedAll | crates/client/src/world.rs:1079-1082 | Every held chunk is queued at its number, and nothing else changes |
| StoreEffects.EditLeaves | crates/client/src/world.rs:845-960 | Every cell the edit names holds what it says and every other cell and chunk what it held; its chunk and the held ones it lies against are marked urgent; an edit of a chunk not held changes nothing |
| StoreEffects.FacesAreSeen | crates/client/src/mesher.rs:506-537 | Across each face a view holds the next chunk's cells where the two meet, as they are, and nothing where none is held |
| StoreEffects.BlockExact | crates/client/src/world.rs:1175-1254 | A block's light and whether it walls fluid are its own chunk's, whichever chunk asks |
| StoreEffects.FillExact | crates/client/src/world.rs:1130-1170 | A block is filled with what the table draws its fluid as, to its depth, or to the top under more fluid |
| ChunkStore.Store.MarkAcross | crates/client/src/world.rs:939-960 | The held chunks across the given faces are marked, once each, and no others |
| ChunkStore.Store.Clear | crates/client/src/world.rs:820-838 | Everything goes and the floor rises to the highest generation there was |
| ChunkStore.Store.TakeDirty | crates/client/src/world.rs:1007-1068 | Every urgent held chunk, then exactly the nearest of the others in order up to the budget; what is no longer held leaves the queue |
| ChunkStore.Nearest | crates/client/src/world.rs:1007-1068 | The nearest of a set in order, ties broken by position, and every one left out is further |
| ChunkStore.HighestOf | crates/client/src/world.rs:835-838 | The larger of the floor and every generation held |
| Remesher.App.Remesh | crates/client/src/app.rs:5167-5270 | The loop over drained results and due chunks is the frame step of the protocol, on exactly the positions the queue chose |
| Remesher.App.DrainPool | crates/client/src/app.rs:5175-5186 | The loop over results is the protocol's drain |
| Remesher.App.EnterDomain | crates/client/src/app.rs:4207-4235 | The store is cleared and the meshes of held chunks, and only those, go |
| Fog.PastExact | crates/client/src/app.rs:5481-5494 | For every offset and every positive reach the test holds if and only if no point within half a diagonal of the chunk's middle, sideways and upright, is inside the fog's ellipsoid |
| Fog.CullIsSound | crates/client/src/app.rs:5474-5494 | If a chunk is past the fog, every point of its sixteen-block cube is strictly outside the ellipsoid |
| Fog.NothingReturnsExact | crates/client/src/app.rs:5440-5453 | A change of reach brings no chunk, at any offset, back inside if and only if it grew neither sideways nor up |
| Fog.FurtherIsPast | crates/client/src/app.rs:5481-5494 | What is no nearer along any axis is past the fog if the nearer is |
| HorizonSafety.StepExact | crates/client/src/app.rs:5367-5436 | From any state where each held summary is right on screen, queued, or held back and not drawn, an event keeps that so if and only if it changes what no idle summary is worth: it takes no solid summary from beside one it was burying, and changes neither where the sea over an idle one goes on nor which of its materials are drawn as fluid. With `hidden`, of nothing in sight being wrong and unqueued: the same of every summary not hidden, and the camera and the fog bring none into sight that is held back |
| HorizonSafety.RunKeeps | crates/client/src/app.rs:5367-5436 | So it is after every run of such events |
| HorizonSafety.Settles | crates/client/src/app.rs:5367-5436 | Left alone, as many frames as there are summaries queued or listed as held back and one more empty the queue, with every held summary right on screen or held back and not drawn, and out of sight then if nothing in sight was wrong before |
| HorizonSafety.LooksExact | crates/client/src/app.rs:5378-5427 | An event that leaves camera and fog keeps the horizon covered if and only if every idle summary looks as it did, those drawn while still listed as held back included |
| HorizonSafety.ViewpointExact | crates/client/src/app.rs:5438-5494 | A move of the camera or a change of the fog keeps nothing in sight wrong if and only if no summary held back, unqueued and not right comes into sight |
| HorizonSafety.SightIsBoth | crates/client/src/app.rs:5387-5424 | Nothing in sight is wrong and unqueued if and only if nothing is lost and all that is listed as held back is out of sight, queued or right |
| HorizonSafety.NeighbourLook | crates/client/src/app.rs:5398-5424 | What a change at one position does to each other summary's mesh, both directions |
| HorizonSafety.BuildKeeps | crates/client/src/app.rs:5379-5434 | Building any part of what was due keeps both that every summary is covered and that what is held back is hidden |
| HorizonSafety.RejudgeKeeps | crates/client/src/app.rs:5444-5472 | Judging again keeps every summary covered and leaves held back only what is hidden; a judgement leaves nothing in sight wrong and unqueued |
| HorizonSafety.FrameShortens | crates/client/src/app.rs:5429-5434 | A frame always builds something, so the queue shortens however little time there is |
| HorizonSafety.BuriedLocally | crates/client/src/world.rs:741-758 | A summary's burial depends only on it and its six sides |
| HorizonSafety.FarLocally | crates/client/src/app.rs:5398-5424 | A far mesh depends only on its summary, the table, and the summary or fluid directly over it |
| HorizonFrame.FrameExact | crates/client/src/app.rs:5367-5472 | Whatever is queued and held back: the list is gone through if the camera's chunk or the reach calls for it; then the due summaries, as far down as the frame's time goes and one at least, are taken off, held back or drawn as they stand, and leave the queue; nothing else on screen, in the queue or on the list changes |
| HorizonFrame.AllBuilt | crates/client/src/app.rs:5367-5436 | With time for all of it a queue of sixteen or fewer is emptied |
| HorizonFrame.ArriveLeaves | crates/client/src/world.rs:693-720 | A summary is held in place of any chunk and queued with the summaries one step away |
| HorizonFrame.ReplaceLeaves | crates/client/src/world.rs:676-686 | A chunk takes a summary's place, and that position alone is queued |
| HorizonFrame.UnloadLeaves | crates/client/src/app.rs:5063-5071 | All there was at a position goes, and it alone is queued |
| HorizonFrame.FloodLeaves | crates/client/src/world.rs:430-438 | Fluid is held or drained and nothing is queued |
| HorizonFrame.EnterLeaves | crates/client/src/app.rs:4207-4235 | Leaving forgets all that was held, queued and held back, and takes only real chunks off the screen |
| HorizonFrame.BuriedExact | crates/client/src/world.rs:741-758 | Buried is solid with solid at every position one step away |
| HorizonFrame.CapExact | crates/client/src/app.rs:5396-5424 | A column of a far mesh has no surface on top if and only if it is fluid and so is what its part begins under in the summary above, or the block over its middle |
| HorizonFrame.WetExact | crates/client/src/mesher.rs:6514-6560 | The materials drawn as fluid are those of the summary's cells that the table names |
| HorizonRaces.UnloadingExposes | crates/client/src/world.rs:789-812 | A reachable state in clear air: of seven solid summaries the top one unloaded, and the middle one is in the open, not drawn, not queued and not held back |
| HorizonRaces.ReplacingExposes | crates/client/src/world.rs:676-686 | The same when the top one is replaced by its chunk |
| HorizonRaces.UnloadingUncaps | crates/client/src/world.rs:789-812 | A reachable state: the upper of two sea summaries unloaded, and the lower one's top, now the surface, is not drawn |
| HorizonRaces.FloodingUncaps | crates/client/src/world.rs:430-438 | A reachable state: fluid came over a sea summary, whose top is still drawn as the surface |
| HorizonRaces.TableUnheard | crates/client/src/world.rs:297-316 | A reachable state: a new table draws the sea's material as no fluid, and the far sea is still drawn as one |
| HorizonRaces.DrawnWhileHeldBack | crates/client/src/app.rs:5387-5424 | A reachable state: a summary held back came into sight, was drawn without leaving the list of those held back, and a new table left it in sight, drawn wrong and not queued |
| HorizonRaces.CanSettle | crates/client/src/app.rs:5367-5436 | In clear air a state with nothing queued is reachable from every covered one |
| HorizonFog.FogExact | crates/client/src/app.rs:5438-5472 | Whatever is held back and wherever a standing camera is in its chunk, the first frame of a new reach holds back only hidden summaries if and only if it judges again or the reach grew in neither direction |
| HorizonFog.HoleStays | crates/client/src/app.rs:5438-5472 | Clear air, mist, a hill arriving, the mist lifting: the hill is in sight and not drawn after any number of frames |
| HorizonFog.WalkExact | crates/client/src/app.rs:5438-5453 | Wherever the camera goes in its chunk only hidden summaries stay held back, if and only if each of them is past the fog from the point of the chunk nearest to it |
| HorizonFog.PastFromAll | crates/client/src/app.rs:5481-5494 | A chunk is past the fog from everywhere in the camera's closed chunk if and only if it is from that chunk's nearest point to it, axis by axis |
| HorizonFog.CrossingJudges | crates/client/src/app.rs:5444-5472 | Once the camera is in another chunk the next frame holds back only what is hidden |
| HorizonFog.WalkingUnjudged | crates/client/src/app.rs:5438-5453 | A run from the start: crossing a chunk without leaving it brings a held-back hill into sight, and after any number of frames it is not drawn |
| HorizonBuilder.Builder.BuildHorizon | crates/client/src/app.rs:5367-5436 | The loop over the due summaries is the frame step of the model on exactly the first of the queue, and counts those still held |
| HorizonBuilder.Builder.RejudgeHorizon | crates/client/src/app.rs:5444-5472 | The loop over the held-back set is the judgement of the model |
| HorizonBuilder.Builder.TakeStale | crates/client/src/world.rs:778-784 | The first sixteen of the queue in its order, and the rest left |
| HorizonBuilder.Builder.SetSummary | crates/client/src/world.rs:693-720 | The summary is stored and it and its held neighbours are queued |
| HorizonBuilder.FirstFew | crates/client/src/world.rs:778-784 | The first few of a set in order, each before every one left out |
| TickSync.ResyncLands | crates/client/src/app.rs:1719-1802 | After every server state the client's tick lies between the input lead and the lead and half the lookahead past it; it was stepped as far as it was behind up to four ticks, and renumbered with its outstanding inputs dropped exactly when that did not do |
| TickSync.InputsAreInTime | crates/client/src/app.rs:5707-5779 | Every input sent within half the lookahead less the lead of a state is in the server's window, and is kept if and only if its tick has not passed and no copy is held |
| TickSync.StepsLinked | crates/client/src/predict.rs:516-546 | The outstanding inputs are always for consecutive ticks ending at the client's |
| TickSync.StateCovers | crates/client/src/predict.rs:655-700 | However long since the last state, a state leaves every tick since it in hand if and only if it did not renumber the client, and then exactly those, with the body replayed from the server's |
| TickSync.PredictionIsTheFuture | crates/client/src/predict.rs:655-700 | For a client that was not renumbered, whose reported inputs have all reached the server since the state in any order, that went unreported no longer than the server repeats an input, and whose first outstanding tick, if unreported, repeats what the server last applied: the body it shows is the body the server will have at that tick |
| TickSync.DeliveredIsSpoken | crates/core/src/phys/input.rs:104-160 | Delivering what the client reported leaves a queue that answers every tick with what the client did |
| TickSync.StepsContinue | crates/client/src/app.rs:5707-5779 | Every walk and every state leaves a client whose unreported ticks repeat the one before |
| TickSync.SpokenIsTheFuture | crates/client/src/predict.rs:655-700 | If the queue answers with what the client did, the bodies agree |
| TickRun.ForeseesTheServer | crates/client/src/predict.rs:655-700 | Over any run of walks, arrivals, server ticks and states from a client with nothing outstanding, in which the server does not overtake the client and no state renumbers it: once the client has heard of the last tick whose input was late, or of one past it, the body it shows at a tick is the body the server has when, however the run goes on with none late, it gets to that tick |
| TickRun.NothingToCorrect | crates/client/src/predict.rs:655-700 | In such a run a client that has heard of the last late tick is moved by no state: replaying over the server's body gives the body already shown |
| TickRun.StepKeeps | crates/client/src/app.rs:1719-1802 | Every such event keeps what is in hand, what was reported, what waits, what the server did and what the client shows in agreement with one log of what the client did since the last late tick |
| TickRun.TimelyAnswer | crates/core/src/phys/input.rs:122-160 | In time, the server answers a tick with what the client did for it, reported or not |
| TickRun.LateKeeps | crates/core/src/phys/input.rs:122-160 | A late tick, which the server answers with something else, is all that is lost: the agreement goes on from there |
| TickRun.HearsStates | crates/client/src/app.rs:1931-1934 | What a state does to the client of a run is the resync and the reconcile |
| TickRun.StepGrounded | crates/client/src/app.rs:1719-1802 | Every event, late ones too, but a client being set back, leaves nothing reported or waiting past the client's tick |
| TickRun.StallStarts | crates/client/src/app.rs:1719-1802 | A stalled client, renumbered, is such a start if the server has not got past it |
| TickRun.HeldInputAnswers | crates/core/src/phys/input.rs:104-160 | What the server holds for the next tick is what it answers with, whatever arrives for that tick after |
| TickSync.WalkedSends | crates/client/src/app.rs:5707-5779 | A walk sends one input per simulated tick, under consecutive numbers |
| TickSync.ReplayIsSimulation | crates/client/src/predict.rs:655-700 | Replaying inputs over a body is the server's stepping of it |
| TickClient.App.ResynchroniseTick | crates/client/src/app.rs:1719-1802 | The loop over skipped ticks is the resync of the model |
| TickClient.App.Walk | crates/client/src/app.rs:5676-5782 | The loop spends the frame's time in whole ticks up to four, predicting and sending each, and drops the rest at the cap |
| FixedStep.FrameConserves | crates/client/src/app.rs:5676-5782 | Ticks, carry and abandoned time add up before and after every frame; time is abandoned only by a pause or at the cap; the carry stays below a tick |
| FixedStep.FrameExact | crates/client/src/app.rs:5676-5782 | A pause drops what is carried; below four ticks the whole ticks are run and the rest carried; from four on four are run and the rest dropped |
| FixedStep.RunConserves | crates/client/src/app.rs:5676-5782 | The same over every run of frames |
| FixedStep.TicksAreTheFloor | crates/client/src/app.rs:5676-5782 | The ticks of a run are the whole ticks in the time it did not abandon |
| FixedStep.FrameRateDoesNotMatter | crates/client/src/app.rs:5676-5782 | Two ways of cutting one time into frames below the cap end in the same ticks and the same carry |
| FixedStep.CapThrowsTimeAway | crates/client/src/app.rs:5676-5782 | At the cap they need not |
| InputQueue.Bounded | crates/core/src/phys/input.rs:48-54 | However it is driven the queue holds at most the lookahead |
| InputQueue.OrderDoesNotMatter | crates/core/src/phys/input.rs:104-116 | Two deliveries of the same inputs, in any order and with any repeats, leave the same queue |
| InputQueue.PlaysBack | crates/core/src/phys/input.rs:122-160 | The queue answers each tick with what the client did, ticks nobody spoke for included |
| InputQueue.AnswersExact | crates/core/src/phys/input.rs:122-160 | Every answer of every valid queue: the tick's own input; failing that the last before it, while that is no further back than the repeat bound; past that neutral |
| InputQueue.Silence | crates/core/src/phys/input.rs:139-145 | A client gone silent is answered its last intent up to ten ticks past the last it was heard of and neutral from there on |
| InputQueue.HeardAgain | crates/core/src/phys/input.rs:104-160 | An input after any silence is the answer to its tick and is repeated after it up to the bound |
| InputQueue.OfferAllFiles | crates/core/src/phys/input.rs:104-116 | What a batch leaves pending: all that is in the window, under its own tick, beside what was held |
| InputQueue.TakeValid | crates/core/src/phys/input.rs:122-160 | Answering a tick leaves nothing pending that is already passed |
| InputBuffer.Buffer.Take | crates/core/src/phys/input.rs:122-160 | The queue after a tick and its answer: the newest due, the last repeated, or neutral after the repeat bound |
| InputBuffer.Buffer.PopDue | crates/core/src/phys/input.rs:122-136 | The loop leaves exactly what is not due and keeps the newest that was |
| Sight.RayBox | crates/client/src/app.rs:967-979 | For every origin, direction and box, with the infinities of a zero component: a result if and only if some point of the ray at or past its origin is in the box and it does not run along a face, and then the least such distance; a direction of nothing enters only a box it starts in or one said to be infinitely far |
| Sight.KeepsLock | crates/client/src/app.rs:7641-7683 | True if and only if the block has material and the line of sight, less its negligible components, meets its box in front of the eye |
| Sight.LockIsTrueSight | crates/client/src/app.rs:7641-7683 | That is the answer for the true line of sight on every block within any reach of two and a half or more if and only if no component is negligible without being zero |
| Sight.LockAndRay | crates/client/src/app.rs:7641-7683 | On one block and one line the two tests agree if and only if the line does not run along one of the block's faces; there the lock holds and `ray_box` misses |
| Sight.PassesIsHits | crates/client/src/app.rs:967-979 | With no zero component, what `ray_box` tests is meeting the box |
| BenchSwarm.NoBotInterferes | crates/bot/src/bench.rs:443-529 | Every interleaving of every benchmark's sessions runs without a refusal, and once all are over the ground is whole and each bot carries what it brought |
| BenchSwarm.AlwaysGranted | crates/bot/src/bench.rs:474-529 | Whatever has happened, the next command of any bot finds what it digs solid, or air and the units it needs |
| BenchSwarm.ActKeeps | crates/bot/src/bench.rs:483-529 | After any step the world is the ground less the open holes, and each bot carries its own hole's worth more than it began with |
| BenchSwarm.ActDoes | crates/bot/src/bench.rs:483-529 | A dig takes what it touches out of the world into that bot's hands, a placement puts it back, a walk moves nothing; no other bot's hands change |
| BenchSwarm.RestoredAtEnd | crates/bot/src/bench.rs:474-529 | With every session over there is no hole left |
| BenchSwarm.RunKeeps | crates/bot/src/bench.rs:483-529 | The same over whole schedules |
| BenchSession.PlotsApart | crates/bot/src/bench.rs:443-465 | No cell lies on two bots' plots, for any number of bots, at negative coordinates too |
| BenchSession.HomesFit | crates/bot/src/bench.rs:443-465 | The arithmetic of a home stays inside thirty-two bits for every benchmark the search for a side can seat |
| BenchSession.SessionPaired | crates/bot/src/bench.rs:483-529 | Every dig is followed at once by the placement that undoes it, every placement comes so, and nothing leaves the bot's plot, each chiselled cell lying in its own block |
| BenchSession.StandardSession | crates/bot/src/bench.rs:483-529 | The loop over rounds builds a session of the bot's home that does all of that and undoes every dig at once |
| BenchSession.SessionWorks | crates/bot/src/bench.rs:483-529 | A session walks home once and first; digs one block a round under its tick; every fourth round chisels the middle out of that round's block; and goes round its own nine blocks, none twice and all of them in any nine rounds |
| BenchSession.HomesOnGrid | crates/bot/src/bench.rs:443-465 | Homes stand row by row on a grid, four blocks apart at least and further while it fits the spread |
| BenchSession.HomesCentred | crates/bot/src/bench.rs:443-465 | The grid is centred on the world's origin |
| BenchSession.Side | crates/bot/src/bench.rs:443-452 | The side of the smallest square that seats the bots |
| Percentiles.FromSamples | crates/bot/src/bench.rs:60-97 | The report's percentiles are samples of their nearest ranks, its largest is the largest, its mean the mean rounded down, and an empty sample is all zeros |
| Percentiles.SwarmPercentile | crates/bot/src/runner.rs:194-203 | A sample with at least the rank's number at or below it and fewer strictly below |
| Percentiles.PercentileRanked | crates/bot/src/bench.rs:367-373 | The element taken from a sorted slice has its nearest rank |
| Percentiles.RankedOnce | crates/bot/src/runner.rs:194-203 | Only one value has a rank, whatever the order of the samples |
| Percentiles.BenchAndSwarmAgree | crates/bot/src/runner.rs:180-203 | The two versions agree on the same samples in any order |
| Percentiles.PercentilesInOrder | crates/bot/src/bench.rs:60-97 | A higher percentile is no lower, and is one of the samples |
| Percentiles.RankMeans | crates/bot/src/bench.rs:367-373 | For one to a hundred per cent the rank is the ceiling itself, clamped by nothing |
| RecordingRoundTrip.RoundTripExact | crates/bot/src/replay.rs:142-182 | Parsing the rendering gives the recordable commands in order if and only if each fits the format and the ticks do not fall |
| RecordingRoundTrip.ParseSurvivesRendering | crates/bot/src/replay.rs:49-182 | Every text a parse accepts survives its normal form |
| RecordingRoundTrip.RenderingIsNormalForm | crates/bot/src/replay.rs:49-182 | Normalising twice is normalising once |
| RecordingRoundTrip.DoubleSpaceIsLost | crates/bot/src/replay.rs:138-182 | Any chat of two words with two spaces between them does not round trip |
| RecordingRoundTrip.ParsedNormal | crates/bot/src/replay.rs:49-132 | What a parse accepts always fits the format, with its ticks in order |
| RecordingRoundTrip.LineReads | crates/bot/src/replay.rs:142-182 | One rendered line reads back as its command |
| RecordingFormat.LineText | crates/bot/src/replay.rs:142-182 | The text of each command, written out; one that is not recordable leaves none |
| RecordingFormat.HeadFaults | crates/bot/src/replay.rs:58-68 | Which lines fail for their tick, for want of a verb, and for an unknown one |
| RecordingFormat.ActionLine | crates/bot/src/replay.rs:71-86 | An action needs an id, and is down unless it says up; any other edge is refused |
| RecordingFormat.DigLine | crates/bot/src/replay.rs:87-88 | A dig needs three signed thirty-two-bit numbers |
| RecordingFormat.PlaceLine | crates/bot/src/replay.rs:89-108 | A placement needs a material besides, and which fault comes first |
| RecordingFormat.MoveLine | crates/bot/src/replay.rs:109-112 | A move needs three numbers |
| RecordingFormat.ChatLine | crates/bot/src/replay.rs:113-113 | Chat is the words that follow with a space between each |
| RecordingFormat.EntryExact | crates/bot/src/replay.rs:51-56 | A line without words or beginning with a hash is passed over, and any other is read by its words |
| RecordingFormat.LinesNext | crates/bot/src/replay.rs:49-120 | One line more adds its entry to those before it, and the first fault stands |
| RecordingFormat.ParseExact | crates/bot/src/replay.rs:49-132 | The lines are read from number one, then the order of ticks |
| RecordingFormat.OrderExact | crates/bot/src/replay.rs:122-130 | Either no tick falls or the first pair that does is named |
| RecordingFormat.LinesExact | crates/bot/src/replay.rs:51-51 | Lines end at a newline with or without a carriage return, and a last one needs none |
| RecordingFormat.DecimalNext | crates/bot/src/replay.rs:142-182 | Numbers are written digit by digit, the highest first |
| Recording.Parse | crates/bot/src/replay.rs:49-132 | The loop over lines gives the entries of the text, or the first error by line |
| Recording.CheckOrder | crates/bot/src/replay.rs:122-130 | The first fall of ticks is found if there is one |
| Recording.Render | crates/bot/src/replay.rs:142-182 | The loop over entries writes the lines of the recordable ones |
| Recording.Ints | crates/bot/src/replay.rs:240-250 | Three signed thirty-two-bit decimals, or the error for the first that is missing or malformed |
| RecordingText.WordsOfJoin | crates/bot/src/replay.rs:56-60 | Words joined by single spaces split back into themselves |
| RecordingText.TrimWords | crates/bot/src/replay.rs:51-56 | Trimming a line loses none of its words |
| RecordingText.SignedReads | crates/bot/src/replay.rs:240-250 | A printed integer of either sign reads back |
| CacheModel.StepExact | crates/client/src/cache.rs:161-279 | Every step but an outside write keeps the memo honest; an outside write does if and only if its stamp differs or its bytes are right |
| CacheModel.MemoAgreesWithDisk | crates/client/src/cache.rs:161-214 | After any run whose outside writes show, `contains` is true if and only if the file is there, within the limit and hashes to its name; after any run at all `get` returns nothing else |
| CacheModel.HiddenWriteFools | crates/client/src/cache.rs:102-108 | A write that does not show makes `contains` vouch for a file `get` rejects |
| CacheModel.EachFileReadOnce | crates/client/src/cache.rs:161-296 | Without outside writes or failures, any run of questions and stores reads each file at most once, and only if it was asked about, was there and was not already settled |
| CacheModel.GetKeeps | crates/client/src/cache.rs:161-190 | Reading changes which items are intact for none, and the memo stays honest |
| CacheModel.ContainsKeeps | crates/client/src/cache.rs:201-214 | Asking likewise, and says yes of nothing that is not intact |
| CacheModel.AskKeeps | crates/client/src/cache.rs:287-296 | A list of questions likewise |
| CacheModel.PutExact | crates/client/src/cache.rs:244-279 | Each error has its own reason and leaves all as it was; with none the item is on disk whole and remembered as it was seen, and every other item is as it was |
| CacheModel.StoredIsThere | crates/client/src/cache.rs:244-279 | What was stored is handed back byte for byte, and asking for it once seen costs no reading |
| CacheModel.GetLeaves | crates/client/src/cache.rs:161-190 | A read counts one reading of a file of a size to read, remembers a right one, forgets and removes a wrong one, and leaves every other item |
| CacheModel.ContainsLeaves | crates/client/src/cache.rs:201-214 | A question the memo can answer reads nothing; it forgets a file that is gone; any other is a read |
| ContentCache.Shared.Missing | crates/client/src/cache.rs:287-296 | The wanted hashes the model finds no intact file for, in strictly increasing order |
| ContentCache.SortedOnce | crates/client/src/cache.rs:293-295 | The same hashes, strictly increasing |
| Resample.TargetWeights | crates/client/examples/make_icons.rs:67-85 | A target pixel's weights along an axis add up to its width |
| Resample.SourceWeights | crates/client/examples/make_icons.rs:67-85 | A source pixel's weights over all targets add up to one |
| Resample.WeightsSumToArea | crates/client/examples/make_icons.rs:67-97 | A target pixel's weights add up to the square of its width |
| Resample.PictureConserved | crates/client/examples/make_icons.rs:67-97 | The total of any premultiplied channel is conserved |
| Resample.LineConserved | crates/client/examples/make_icons.rs:67-85 | So it is along one axis |
| Resample.VisitsInBounds | crates/client/examples/make_icons.rs:70-84 | Every index visited is a source pixel, and there is at least one |
| Resample.AccOrdered | crates/client/examples/make_icons.rs:72-88 | A channel nowhere above another gathers to no more |
| Resample.ShrinkWeights | crates/client/examples/make_icons.rs:67-85 | Shrinking by a whole number, each target pixel takes its own run of source pixels whole |
| Resample.GrowWeights | crates/client/examples/make_icons.rs:67-85 | Growing by one, each source pixel is spread evenly over its own run of target pixels |
| Resample.SameSize | crates/client/examples/make_icons.rs:67-97 | At its own size a channel is what it was, place by place |
| IconResizer.Resize | crates/client/examples/make_icons.rs:67-97 | The four nested loops compute the area mean of every target pixel, for every pair of sizes; a picture with no pixels gives clear black |
| IconResizer.Accumulate | crates/client/examples/make_icons.rs:72-88 | The two inner loops leave in the accumulators the weighted sum of each channel and the weight |
| IconResizer.ClampNeverBites | crates/client/examples/make_icons.rs:86-96 | Alpha and straight colour lie between nought and one, so the clamp to a byte changes nothing |
| IconResizer.NoBleed | crates/client/examples/make_icons.rs:65-97 | Where every pixel has one straight colour, however clear, so has every target pixel that shows |
| IconResizer.PictureAt | crates/client/examples/make_icons.rs:86-97 | The bytes are the target's pixels row after row, four bytes each |
| IconResizer.SamePicture | crates/client/examples/make_icons.rs:67-97 | At its own size each pixel comes out where it was in its straight colours |
| IconResizer.ByteNearest | crates/client/examples/make_icons.rs:86-96 | A byte is the nearest there is to its value |
| Flicker.NoiseGentle | crates/client/src/flicker.rs:40-51 | The noise changes by at most three halves per step of time, across step boundaries too, for all times whose step fits thirty-two bits |
| Flicker.NoiseGentleAlways | crates/client/src/flicker.rs:40-51 | The same for any two instants single precision can hold, past the last step that fits included |
| Flicker.LevelsKnown | crates/client/src/flicker.rs:23-38 | The levels of five steps, a negative one among them, worked through the mixing |
| Flicker.NoiseExact | crates/client/src/flicker.rs:40-51 | Between two steps the noise eases from one level to the next: at the first it is that level, half way their mean |
| Flicker.FactorExact | crates/client/src/flicker.rs:53-60 | No depth leaves all the light, full depth all but the noise at the source's own instant |
| Flicker.FactorGentle | crates/client/src/flicker.rs:53-60 | The factor changes by at most three halves of depth times rate times the time between two instants |
| Flicker.FactorBounded | crates/client/src/flicker.rs:53-60 | The factor lies between one less the depth and one, at all times |
| Flicker.FloorToI32 | crates/core/src/detgen/mod.rs:68-78 | The cast and comparison are the floor, saturating at both ends |
| Flicker.Hash | crates/client/src/flicker.rs:23-38 | The mixed bits land between nought and one |
| Notices.ShippedPackages | scripts/third-party-notices.py:47-70 | A list if and only if every lookup succeeds and the three binaries are found; then exactly the reachable packages outside the workspace with a source, each once, by name and version |
| Notices.Walk | scripts/third-party-notices.py:57-66 | The worklist ends on every graph, cycles included, with exactly what a chain of normal dependencies reaches from the roots; it fails only where such a chain leaves the graph |
| Notices.Collect | scripts/third-party-notices.py:67-70 | The packages of a set that are shipped, ordered and each once, or the failed lookup |
| Notices.AtMostTotal | scripts/third-party-notices.py:69-69 | Text order is total and antisymmetric, so the key's order is one |
| ContentStream.EachCompletesOnce | crates/bot/src/client.rs:1122-1181 | Items sent once each, in order and with their true lengths, in any interleaving with each other and anything else: none is refused and each finishes exactly once, with its own bytes, when the last of it arrives |
| ContentStream.Accounted | crates/bot/src/client.rs:1127-1168 | For any messages and any name, the finished items and what is held are the slices sent, byte for byte in order |
| ContentStream.Genuine | crates/bot/src/client.rs:1166-1178 | Every finished item hashes to its name |
| ContentStream.RefusedExactly | crates/bot/src/client.rs:1158-1165 | A slice is refused as out of order if and only if its offset is not what was sent and not yet finished |
| ContentStream.RefusalsExact | crates/bot/src/client.rs:1150-1178 | Each refusal has its own reason: not compressed, out of its turn, or complete with the wrong bytes |
| ContentStream.FullCollection | crates/bot/src/client.rs:1122-1181 | Asked for as many items as are sent, the call returns each once with its own bytes |
| ContentStream.CollectContent | crates/bot/src/client.rs:1122-1181 | The loop stops at the first message that settles the matter, with the items finished, the refusal, or the lost connection |
| Bridge.EachCallItsOwnReply | crates/bot/src/script.rs:161-188 | In every interleaving at most one command or reply is under way while the bot is there, every reply a call returns is to its own command, and every call made after a `Disconnect` was answered ends in the error |
| Bridge.StepKeeps | crates/bot/src/runner.rs:38-60 | Whichever of the three moves next keeps all of that |
| Bridge.NeverStuck | crates/bot/src/runner.rs:38-60 | While a call waits some thread can move |
| Bridge.CallEnds | crates/bot/src/script.rs:174-188 | However they are scheduled, a call comes back within a bounded number of steps |
| Bridge.SomeoneListens | crates/bot/src/runner.rs:50-59 | A driver carrying out a command always has its caller waiting, so sending the reply never fails |
| Bridge.FaithfulBridge | crates/bot/src/runner.rs:38-60 | From the start: the replies a script has had and has coming are exactly those the bot gave, success or failure, in order; what the bot began is what the script sent, in order, none twice or passed over; and an error means the bot has stopped |
| Bridge.RepliesAreGiven | crates/bot/src/script.rs:161-188 | From any state every reply given reaches the script or is on its way, and no other does |
| Bridge.BegunInOrder | crates/bot/src/runner.rs:38-60 | From any state what is begun is a front part of what was coming and what was sent |
| Bridge.ErrorMeansStopped | crates/bot/src/script.rs:174-188 | While the bot is there no call has ended in the error |
| Pacing.EveryRun | crates/client/src/app.rs:718-805 | After every run of events the published figures describe exactly the window last filled, with the companions of the first event to reach each maximum, and the figures being gathered describe the events since |
| Pacing.FootingsAdd | crates/client/src/app.rs:790-796 | Every change of footing falls in exactly one window, boundaries included |
| Pacing.ConflictsAdd | crates/client/src/app.rs:779-783 | The session's total is every conflict ever noted |

## Left out

- Rendering, audio, the HUD, camera easing, dialogs, networking and timeouts, the Lua bindings and the command lines: presentation or plumbing.
- Rounding and not-a-number: floats are reals, with infinities where `ray_box` leans on them. Zero times infinity there is dropped by minimum and maximum as the original's are.
- The triangles of a mesh: the mesher is a function of the view. Whether a view's difference shows needs a face or fluid at the vertex; of the mesher's arithmetic only corner light and surface height are modelled, one channel of light at a time.
- Ambient occlusion, which reads the chunk's own cells alone (`crates/client/src/mesher.rs:3376-3408`), and so is settled by the view; the material table's transparency and the texture atlas, which are not part of a view, and so `mark_all_dirty` after a new atlas. A cell of any material but air is taken to have faces.
- A mesher that panics and answers with an empty mesh, and a pool whose threads could not be started in part.
- The count `remesh` returns, the in-flight tally as a readout, and the debug teleport's displacement of drawn positions.
- HorizonFog.WalkExact: the camera's chunk is closed, so its far faces, which belong to the next chunk, count as places it may stand.
- The horizon's own part of `enter_domain` is in the model's steps and not a method; `ChunkStore` and `Remesher` have the method.
- The quads of a far mesh: a mesh is the summary, which of its materials are fluid, and where the sea goes on above it.
- Overflow of chunk coordinates at the ends of thirty-two bits, and of counters and ticks at sixty-four.
- BenchSession.Side: for at most 65535 squared bots, because past that the original's `u32` square overflows; the walk to a home and the units a dig really credits are the server's, taken here as one per cell.
- The texts of floats and the words of error messages in recordings; replaying one against a server.
- CacheModel.EachFileReadOnce: for runs without outside writes or failing reads, because each of those may cost a read.
- Races between two processes inside one store: a `put` is one step.
- Reading and encoding pictures and the icon containers.
- `TickSync` leaves out the filter of abilities and the tuning a step is given, the list of remembered ticks and the smoothing of a correction: the simulation is any function of body and intent.
- TickSync.PredictionIsTheFuture: for a client that was not renumbered; after a renumber nothing is in hand to replay, which `TickSync.StateCovers` states.
- TickRun.ForeseesTheServer: states come in the order they were sent, as on the stream they travel by. A client set back from too far ahead begins no such run while the server holds inputs it reported before for ticks it will do again: those answer, as `TickRun.HeldInputAnswers` states. Nor does the model follow a server that gets to a tick before the client does, until a renumber.
- Notices: the licence texts, the index and the two failed lookups' messages.
- ContentStream: the deadline is the end of the messages; memory a peer may make a buffer grow to is not bounded by the original either.
- Bridge: a script thread that panics inside a call and poisons the lock.
- Pacing: counters that wrap, and the phases of a frame beyond their identity.
- `bench.rs`'s JSON and its comparison of runs, and the other readings of a bot's message history in `client.rs`: they would only add easy members.
- `cut.rs`, `atlaswork.rs`, the other scripts, the build files and the fuzz targets.
