/** The frame loop's own form: the mesh pool and the `App` whose `remesh` drives
    it (`crates/client/src/app.rs`, `crates/client/src/meshwork.rs`). */
module Remesher {
  import opened ChunkWorld
  import opened RemeshProtocol
  import opened ChunkStore

  class MeshPool {
    const threads: nat
    var pending: seq<Job>
    var finished: seq<Job>
    var backlog: nat

    constructor (workers: nat)
      ensures threads == workers && pending == [] && finished == [] && backlog == 0
    {
      threads := workers;
      pending, finished, backlog := [], [], 0;
    }

    function Limit(): nat {
      threads * 2 + 1
    }

    method Submit(job: Job)
      modifies this
      ensures threads == 0 ==> finished == old(finished) + [job] && pending == old(pending) && backlog == old(backlog)
      ensures threads > 0 ==> pending == old(pending) + [job] && finished == old(finished) && backlog == old(backlog) + 1
    {
      if threads == 0 {
        finished := finished + [job];
      } else {
        backlog := backlog + 1;
        pending := pending + [job];
      }
    }

    method Drain() returns (done: seq<Job>)
      modifies this
      ensures done == old(finished) && finished == [] && pending == old(pending)
      ensures backlog == if old(backlog) < |done| then 0 else old(backlog) - |done|
    {
      done := finished;
      finished := [];
      backlog := if backlog < |done| then 0 else backlog - |done|;
    }
  }

  class App {
    const store: Store
    const pool: MeshPool
    var mode: LightingMode
    var inFlight: map<Pos, nat>
    var drawn: map<Pos, Mesh>

    ghost function Model(): Client
      reads this, store, pool
    {
      Client(store.Model(), mode, pool.threads, pool.pending, pool.finished, pool.backlog, inFlight, drawn)
    }

    constructor (workers: nat)
      ensures Model() == Init(workers) && !store.urgentMarks && fresh(store) && fresh(pool)
    {
      store := new Store();
      pool := new MeshPool(workers);
      mode, inFlight, drawn := Simple, map[], map[];
    }

    method Unload(p: Pos)
      requires !store.urgentMarks
      modifies this, store
      ensures Model() == Step(old(Model()), Event.Unload(p)) && !store.urgentMarks
    {
      var held := store.Remove(p);
      if held {
        drawn := drawn - {p};
      }
    }

    method SetMode(m: LightingMode)
      modifies this, store
      ensures Model() == Step(old(Model()), Event.SetMode(m)) && store.urgentMarks == old(store.urgentMarks)
    {
      if mode == m {
        return;
      }
      mode := m;
      store.MarkAllDirty();
    }

    method EnterDomain()
      modifies this, store
      ensures Model() == Step(old(Model()), SwitchDomain) && store.urgentMarks == old(store.urgentMarks)
    {
      var left := store.chunks.Keys;
      while left != {}
        invariant left <= store.chunks.Keys && store.Model() == old(store.Model())
        invariant store.urgentMarks == old(store.urgentMarks)
        invariant drawn == old(drawn) - (store.chunks.Keys - left)
        invariant mode == old(mode) && inFlight == old(inFlight)
        decreases |left|
      {
        var p :| p in left;
        drawn := drawn - {p};
        left := left - {p};
      }
      assert store.chunks.Keys - left == store.chunks.Keys;
      store.Clear();
    }

    /** One result: the in-flight note goes when it is this job's, and the mesh
        goes to the renderer when the chunk is still the chunk it was made of. */
    method Accept(done: Job)
      modifies this
      ensures Model() == DrainOne(old(Model()).(finished := [done] + pool.finished))
    {
      if done.pos in inFlight && inFlight[done.pos] == done.generation {
        inFlight := inFlight - {done.pos};
      }
      var now := if done.pos in store.generation then store.generation[done.pos] else 0;
      if now == done.generation && done.pos in store.chunks {
        drawn := drawn[done.pos := Uploaded(store.Model(), done)];
      }
      assert ([done] + pool.finished)[1..] == pool.finished;
    }

    method DrainPool()
      modifies this, pool
      ensures Model() == Drained(old(Model()))
    {
      ghost var start := Model();
      var results := pool.Drain();
      ghost var goal := Drained(start);
      for i := 0 to |results|
        invariant pool.finished == []
        invariant store.Model() == start.world && mode == start.mode
        invariant pool.pending == start.pending
        invariant Drain(Model().(finished := results[i..])) == goal
      {
        assert [results[i]] + pool.finished == [results[i]];
        ghost var m := Model();
        Accept(results[i]);
        DrainHead(m, Model(), results[i..]);
        assert results[i..][1..] == results[i + 1..];
      }
    }

    /** One frame's remeshing.  `late` says at which positions of the list the
        frame's time has run out. */
    method Remesh(centre: Pos, late: set<nat>) returns (ghost due: seq<Pos>, ghost urgent: nat)
      modifies this, store, pool
      ensures Possible(old(Model()), Frame(centre, due, urgent, late))
      ensures Model() == Step(old(Model()), Frame(centre, due, urgent, late))
      ensures store.urgentMarks == old(store.urgentMarks)
    {
      DrainWorld(old(Model()));
      DrainPool();
      var list, count := store.TakeDirty(centre);
      due, urgent := list, count;
      var i := 0;
      ghost var goal := Pass(Model(), list, count, 0, late);
      while i < |list|
        invariant i <= |list|
        invariant Pass(Model(), list, count, i, late) == goal
        invariant store.urgentMarks == old(store.urgentMarks)
      {
        if i < count {
          RebuildNow(list[i]);
          i := i + 1;
          continue;
        }
        if pool.backlog >= pool.Limit() {
          store.Requeue(list[i..]);
          return;
        }
        if list[i] in store.chunks {
          Send(list[i]);
          if i in late && i + 1 < |list| {
            store.Requeue(list[i + 1..]);
            return;
          }
        }
        i := i + 1;
      }
    }

    /** A chunk an edit touched, meshed on the frame. */
    method RebuildNow(p: Pos)
      modifies this
      ensures Model() == MeshNow(old(Model()), p)
    {
      if p in store.chunks {
        inFlight := inFlight - {p};
        drawn := drawn[p := Picture(store.Model(), mode, p)];
      }
    }

    /** A streaming chunk, snapshotted for the workers at its generation. */
    method Send(p: Pos)
      requires p in store.chunks
      modifies this, pool
      ensures Model() == RemeshProtocol.Submit(old(Model()), p)
    {
      var generation := if p in store.generation then store.generation[p] else 0;
      inFlight := inFlight[p := generation];
      pool.Submit(Job(p, generation, ViewOf(store.Model(), mode, p)));
    }
  }

  lemma DrainHead(m: Client, m': Client, rest: seq<Job>)
    requires rest != [] && m.finished == [] && m' == DrainOne(m.(finished := [rest[0]]))
    ensures Drain(m.(finished := rest)) == Drain(m'.(finished := rest[1..]))
  {
  }

  lemma DrainWorld(c: Client)
    ensures Drained(c).world == c.world
  {
    DrainKeepsWorld(c.(backlog := if c.backlog < |c.finished| then 0 else c.backlog - |c.finished|));
  }

  lemma DrainKeepsWorld(c: Client)
    ensures Drain(c).world == c.world
    decreases |c.finished|
  {
  }
}
