/** What one frame does: which results it uploads, which chunks it meshes itself,
    which it sends to the workers, and which it leaves queued. */
module RemeshFrame {
  import opened ChunkWorld
  import opened RemeshProtocol
  import opened RemeshReach

  /** The jobs of a list of held chunks: each at its generation and as it
      stands. */
  function Snapshots(w: World, mode: LightingMode, ps: seq<Pos>): seq<Job>
    requires forall p :: p in ps ==> p in w.chunks
  {
    seq(|ps|, i requires 0 <= i < |ps| => Job(ps[i], Generation(w, ps[i]), ViewOf(w, mode, ps[i])))
  }

  /** Of `total` positions, those from `from` up to `n` are sent: nothing after
      one at which the time had run out, no more than `threads` workers take up
      beside the `owed` they hold, and all the rest otherwise. */
  ghost predicate StopsAt(threads: nat, owed: nat, total: nat, late: set<nat>, from: nat, n: nat) {
    && from <= n <= total
    && (forall k :: from <= k < n - 1 ==> k !in late)
    && (threads > 0 ==> owed + (n - from) <= threads * 2 + 1)
    && (n < total ==> (n > from && n - 1 in late) || (threads > 0 && owed + (n - from) == threads * 2 + 1))
  }

  /** There is one place to stop. */
  lemma StopsOnce(threads: nat, owed: nat, total: nat, late: set<nat>, from: nat, n: nat, m: nat)
    requires StopsAt(threads, owed, total, late, from, n) && StopsAt(threads, owed, total, late, from, m)
    ensures n == m
  {
  }

  /** A pool in which every job not finished is with a worker. */
  predicate PoolCounts(c: Client) {
    && c.backlog == (if c.threads == 0 then 0 else |c.pending|) && c.backlog <= c.threads * 2 + 1
    && (c.threads == 0 ==> c.pending == [])
  }

  /** From one client to another `jobs` are added to the pool, and the world's
      queue becomes `dirty`. */
  ghost predicate Sent(c: Client, c': Client, jobs: seq<Job>) {
    && c'.threads == c.threads && c'.mode == c.mode && c'.drawn == c.drawn
    && c'.world == c.world.(dirty := c'.world.dirty)
    && c'.pending == (if c.threads == 0 then c.pending else c.pending + jobs)
    && c'.finished == (if c.threads == 0 then c.finished + jobs else c.finished)
    && (forall j :: j in jobs ==> Get(c'.inFlight, j.pos) == Some(j.generation))
    && (forall p :: (forall j :: j in jobs ==> j.pos != p) ==> Get(c'.inFlight, p) == Get(c.inFlight, p))
  }

  lemma SnapshotsTail(w: World, mode: LightingMode, due: seq<Pos>, i: nat, n: nat)
    requires i < n <= |due| && forall p :: p in due ==> p in w.chunks
    ensures Snapshots(w, mode, due[i..n])
         == [Job(due[i], Generation(w, due[i]), ViewOf(w, mode, due[i]))] + Snapshots(w, mode, due[i + 1..n])
  {
    assert due[i..n] == [due[i]] + due[i + 1..n];
  }

  lemma SameSnapshots(w: World, w': World, mode: LightingMode, ps: seq<Pos>)
    requires w' == w.(dirty := w'.dirty) && forall p :: p in ps ==> p in w.chunks
    ensures Snapshots(w, mode, ps) == Snapshots(w', mode, ps)
  {
    forall p | p in ps ensures ViewOf(w, mode, p) == ViewOf(w', mode, p) {
      SameDataSameView(w, w', mode, p);
    }
  }

  lemma SentThen(c: Client, p: Pos, c': Client, rest: seq<Job>)
    requires p in c.world.chunks && Sent(Submit(c, p), c', rest)
    requires forall j :: j in rest && j.pos == p ==> j.generation == Generation(c.world, p)
    ensures Sent(c, c', [Job(p, Generation(c.world, p), ViewOf(c.world, c.mode, p))] + rest)
  {
    var job := [Job(p, Generation(c.world, p), ViewOf(c.world, c.mode, p))];
    assert (c.pending + job) + rest == c.pending + (job + rest);
    assert (c.finished + job) + rest == c.finished + (job + rest);
    forall j ensures j in job + rest <==> j == job[0] || j in rest {}
    forall q | forall j :: j in job + rest ==> j.pos != q ensures Get(c'.inFlight, q) == Get(c.inFlight, q) {
      assert q != job[0].pos;
    }
  }

  lemma Requeues(c: Client, p: Pos, ps: seq<Pos>)
    requires p in c.world.chunks
    ensures Sent(c, Requeued(Submit(c, p), ps), [Job(p, Generation(c.world, p), ViewOf(c.world, c.mode, p))])
  {
  }

  /** One position of the pass. */
  lemma PassAt(c: Client, due: seq<Pos>, urgent: nat, i: nat, late: set<nat>)
    requires i < |due| && due[i] in c.world.chunks
    ensures i < urgent ==> Pass(c, due, urgent, i, late) == Pass(MeshNow(c, due[i]), due, urgent, i + 1, late)
    ensures i >= urgent && c.backlog < Capacity(c) ==>
      Pass(c, due, urgent, i, late) ==
        if i in late && i + 1 < |due| then Requeued(Submit(c, due[i]), due[i + 1..])
        else Pass(Submit(c, due[i]), due, urgent, i + 1, late)
  {
  }

  /** `c'` is what sending `due[i..n]` and requeueing the rest leaves of `c`. */
  ghost predicate SentUpTo(c: Client, c': Client, due: seq<Pos>, i: nat, n: nat)
    requires i <= n <= |due| && forall p :: p in due ==> p in c.world.chunks
  {
    Sent(c, c', Snapshots(c.world, c.mode, due[i..n])) && c'.world.dirty == c.world.dirty + Elements(due[n..])
  }

  lemma SubmitCounts(c: Client, p: Pos)
    requires PoolCounts(c) && p in c.world.chunks && c.backlog < Capacity(c)
    ensures var sent := Submit(c, p);
      PoolCounts(sent) && sent.world == c.world && sent.threads == c.threads && sent.mode == c.mode
      && sent.backlog == if c.threads == 0 then 0 else c.backlog + 1
  {
  }

  lemma NoneSent(c: Client, due: seq<Pos>, i: nat)
    requires i <= |due| && forall p :: p in due ==> p in c.world.chunks
    ensures SentUpTo(c, Requeued(c, due[i..]), due, i, i) && (i == |due| ==> SentUpTo(c, c, due, i, i))
  {
    assert due[i..i] == [];
  }

  lemma OneSent(c: Client, due: seq<Pos>, i: nat)
    requires i < |due| && forall p :: p in due ==> p in c.world.chunks
    ensures SentUpTo(c, Requeued(Submit(c, due[i]), due[i + 1..]), due, i, i + 1)
  {
    Requeues(c, due[i], due[i + 1..]);
    SnapshotsTail(c.world, c.mode, due, i, i + 1);
  }

  lemma MoreSent(c: Client, c': Client, due: seq<Pos>, i: nat, n: nat)
    requires i < n <= |due| && forall p :: p in due ==> p in c.world.chunks
    requires SentUpTo(Submit(c, due[i]), c', due, i + 1, n)
    ensures SentUpTo(c, c', due, i, n)
  {
    SentThen(c, due[i], c', Snapshots(c.world, c.mode, due[i + 1..n]));
    SnapshotsTail(c.world, c.mode, due, i, n);
  }

  lemma StopsLater(threads: nat, owed: nat, total: nat, late: set<nat>, i: nat, n: nat)
    requires i < total && owed < threads * 2 + 1 && !(i in late && i + 1 < total)
    requires StopsAt(threads, if threads == 0 then 0 else owed + 1, total, late, i + 1, n)
    ensures StopsAt(threads, owed, total, late, i, n)
  {
  }

  /** The part of the pass past what is urgent. */
  lemma {:induction false} PassSends(c: Client, due: seq<Pos>, urgent: nat, i: nat, late: set<nat>) returns (n: nat)
    requires urgent <= i <= |due| && PoolCounts(c) && forall p :: p in due ==> p in c.world.chunks
    ensures StopsAt(c.threads, c.backlog, |due|, late, i, n)
    ensures SentUpTo(c, Pass(c, due, urgent, i, late), due, i, n)
    decreases |due| - i
  {
    if i == |due| || c.backlog >= Capacity(c) {
      n := i;
      NoneSent(c, due, i);
    } else {
      PassAt(c, due, urgent, i, late);
      if i in late && i + 1 < |due| {
        n := i + 1;
        OneSent(c, due, i);
      } else {
        SubmitCounts(c, due[i]);
        n := PassSends(Submit(c, due[i]), due, urgent, i + 1, late);
        StopsLater(c.threads, c.backlog, |due|, late, i, n);
        MoreSent(c, Pass(Submit(c, due[i]), due, urgent, i + 1, late), due, i, n);
      }
    }
  }

  /** The urgent ones of `ps` are on screen as they stand, the rest as it was. */
  ghost predicate Meshed(c: Client, c': Client, ps: seq<Pos>) {
    && c' == c.(drawn := c'.drawn, inFlight := c'.inFlight)
    && (forall p :: p in ps && p in c.world.chunks ==>
          Get(c'.drawn, p) == Some(Terrain(ViewOf(c.world, c.mode, p), OpenSky(c.world, p), Generation(c.world, p))))
    && (forall p :: p !in ps ==> Get(c'.drawn, p) == Get(c.drawn, p))
    && (forall p :: Get(c'.inFlight, p) == if p in ps && p in c.world.chunks then None else Get(c.inFlight, p))
  }

  lemma Headed(due: seq<Pos>, i: nat, n: nat)
    requires i < n <= |due|
    ensures due[i..n] == [due[i]] + due[i + 1..n]
  {
  }

  lemma MeshedThen(c: Client, p: Pos, c': Client, rest: seq<Pos>)
    requires p in c.world.chunks && Meshed(MeshNow(c, p), c', rest)
    ensures Meshed(c, c', [p] + rest)
  {
    forall q ensures q in [p] + rest <==> q == p || q in rest {}
  }

  /** They are meshed before any other is sent. */
  lemma {:induction false} PassMeshes(c: Client, due: seq<Pos>, urgent: nat, i: nat, late: set<nat>) returns (meshed: Client)
    requires i <= urgent <= |due| && forall p :: p in due ==> p in c.world.chunks
    ensures Pass(c, due, urgent, i, late) == Pass(meshed, due, urgent, urgent, late) && Meshed(c, meshed, due[i..urgent])
    decreases urgent - i
  {
    if i == urgent {
      meshed := c;
    } else {
      PassAt(c, due, urgent, i, late);
      meshed := PassMeshes(MeshNow(c, due[i]), due, urgent, i + 1, late);
      Headed(due, i, urgent);
      MeshedThen(c, due[i], meshed, due[i + 1..urgent]);
    }
  }

  /** What a frame is handed is held, and what of it is not urgent was queued. */
  lemma DueIsHeld(w: World, centre: Pos, due: seq<Pos>, urgent: nat)
    requires IsDue(w, centre, due, urgent)
    ensures forall p :: p in due ==> p in w.chunks
    ensures forall p :: p in due[urgent..] ==> p in w.dirty
  {
    assert due == due[..urgent] + due[urgent..];
    forall p | p in due ensures p in w.chunks {
      assert p in Elements(due[..urgent]) || p in Elements(due[urgent..]);
    }
    forall p | p in due[urgent..] ensures p in w.dirty {
      assert p in Elements(due[urgent..]);
    }
  }

  /** The frame's part before the pass. */
  function Begun(c: Client, due: seq<Pos>): Client {
    Drained(c).(world := Taken(c.world, due))
  }

  lemma BegunMeans(c: Client, due: seq<Pos>)
    requires PoolBounded(c)
    ensures var b := Begun(c, due);
      && PoolCounts(b) && b.pending == c.pending && b.finished == [] && b.threads == c.threads && b.mode == c.mode
      && b.backlog == (if c.threads == 0 then 0 else |c.pending|) && b.drawn == Drained(c).drawn
    ensures Drained(c).world == c.world
  {
    DrainLeavesRest(c.(backlog := if c.backlog < |c.finished| then 0 else c.backlog - |c.finished|));
  }

  /** Taking from the queue changes no picture. */
  lemma TakenSnapshots(w: World, due: seq<Pos>, mode: LightingMode, ps: seq<Pos>)
    requires forall p :: p in ps ==> p in w.chunks
    ensures Snapshots(Taken(w, due), mode, ps) == Snapshots(w, mode, ps)
    ensures forall p :: p in ps ==> ViewOf(Taken(w, due), mode, p) == ViewOf(w, mode, p) && OpenSky(Taken(w, due), p) == OpenSky(w, p)
  {
    forall p | p in ps ensures ViewOf(Taken(w, due), mode, p) == ViewOf(w, mode, p) && OpenSky(Taken(w, due), p) == OpenSky(w, p) {
      SameDataSameView(w, Taken(w, due), mode, p);
    }
  }

  /** What `p` is at the end of a frame's queue. */
  lemma TakenQueue(w: World, due: seq<Pos>, n: nat, p: Pos)
    requires n <= |due|
    ensures p in Taken(w, due).dirty + Elements(due[n..]) <==>
      p in due[n..] || (p in w.dirty && p in w.chunks && p !in due)
  {
  }

  /** What a frame that meshed some chunks and sent others notes of one: the job
      sent; nothing, once meshed; otherwise what the drain left. */
  function Noted(c: Client, meshed: seq<Pos>, sent: seq<Pos>, p: Pos): Option<nat> {
    if p in sent then Some(Generation(c.world, p)) else if p in meshed then None else Get(Drained(c).inFlight, p)
  }

  /** One frame.  The urgent chunks are meshed and drawn there and then.  Of the
      others those up to `n`, in order, are what the workers are sent, each at its
      generation; those past it stay queued, and so does what was queued and not
      due, as far as it is held. */
  lemma FrameSends(c: Client, centre: Pos, due: seq<Pos>, urgent: nat, late: set<nat>) returns (n: nat)
    requires PoolBounded(c) && IsDue(c.world, centre, due, urgent)
    ensures forall p :: p in due ==> p in c.world.chunks
    ensures StopsAt(c.threads, if c.threads == 0 then 0 else |c.pending|, |due|, late, urgent, n)
    ensures var c', jobs := Step(c, Frame(centre, due, urgent, late)), Snapshots(c.world, c.mode, due[urgent..n]);
      && (c.threads > 0 ==> c'.pending == c.pending + jobs && c'.finished == [])
      && (c.threads == 0 ==> c'.pending == c.pending && c'.finished == jobs)
    ensures var c' := Step(c, Frame(centre, due, urgent, late));
      && c'.world == c.world.(urgent := {}, dirty := c'.world.dirty)
      && (forall p :: p in c'.world.dirty <==> p in due[n..] || (p in c.world.dirty && p in c.world.chunks && p !in due))
      && (forall p :: p in due[..urgent] ==>
            Get(c'.drawn, p) == Some(Terrain(ViewOf(c.world, c.mode, p), OpenSky(c.world, p), Generation(c.world, p))))
      && (forall p :: p !in due[..urgent] ==> Get(c'.drawn, p) == Get(Drained(c).drawn, p))
      && (forall p :: Get(c'.inFlight, p) == Noted(c, due[..urgent], due[urgent..n], p))
  {
    DueIsHeld(c.world, centre, due, urgent);
    BegunMeans(c, due);
    var meshed := PassMeshes(Begun(c, due), due, urgent, 0, late);
    n := PassSends(meshed, due, urgent, urgent, late);
    FrameIsPass(c, centre, due, urgent, late);
    FrameEnds(c, due, urgent, late, n, meshed, Step(c, Frame(centre, due, urgent, late)));
    FrameNotes(c, due, urgent, n, meshed, Step(c, Frame(centre, due, urgent, late)));
  }

  lemma FrameIsPass(c: Client, centre: Pos, due: seq<Pos>, urgent: nat, late: set<nat>)
    requires PoolBounded(c) && IsDue(c.world, centre, due, urgent)
    ensures Step(c, Frame(centre, due, urgent, late)) == Pass(Begun(c, due), due, urgent, 0, late)
  {
    BegunMeans(c, due);
  }

  lemma FrameEnds(c: Client, due: seq<Pos>, urgent: nat, late: set<nat>, n: nat, meshed: Client, c': Client)
    requires PoolBounded(c) && urgent <= n <= |due| && forall p :: p in due ==> p in c.world.chunks
    requires Meshed(Begun(c, due), meshed, due[0..urgent])
    requires Sent(meshed, c', Snapshots(Begun(c, due).world, c.mode, due[urgent..n]))
    requires c'.world.dirty == meshed.world.dirty + Elements(due[n..])
    ensures var jobs := Snapshots(c.world, c.mode, due[urgent..n]);
      && (c.threads > 0 ==> c'.pending == c.pending + jobs && c'.finished == [])
      && (c.threads == 0 ==> c'.pending == c.pending && c'.finished == jobs)
    ensures c'.world == c.world.(urgent := {}, dirty := c'.world.dirty)
    ensures forall p :: p in c'.world.dirty <==> p in due[n..] || (p in c.world.dirty && p in c.world.chunks && p !in due)
    ensures forall p :: p in due[..urgent] ==>
      Get(c'.drawn, p) == Some(Terrain(ViewOf(c.world, c.mode, p), OpenSky(c.world, p), Generation(c.world, p)))
    ensures forall p :: p !in due[..urgent] ==> Get(c'.drawn, p) == Get(Drained(c).drawn, p)
  {
    BegunMeans(c, due);
    TakenSnapshots(c.world, due, c.mode, due[urgent..n]);
    TakenSnapshots(c.world, due, c.mode, due[..urgent]);
    assert due[0..urgent] == due[..urgent];
    forall p ensures p in c'.world.dirty <==> p in due[n..] || (p in c.world.dirty && p in c.world.chunks && p !in due) {
      TakenQueue(c.world, due, n, p);
    }
  }

  lemma FrameNotes(c: Client, due: seq<Pos>, urgent: nat, n: nat, meshed: Client, c': Client)
    requires urgent <= n <= |due| && forall p :: p in due ==> p in c.world.chunks
    requires meshed.world == Taken(c.world, due)
    requires Meshed(Begun(c, due), meshed, due[0..urgent]) && Drained(c).world == c.world
    requires Sent(meshed, c', Snapshots(meshed.world, c.mode, due[urgent..n]))
    ensures forall p :: Get(c'.inFlight, p) == Noted(c, due[..urgent], due[urgent..n], p)
  {
    var sent := due[urgent..n];
    var jobs := Snapshots(meshed.world, c.mode, sent);
    assert due[0..urgent] == due[..urgent];
    forall p ensures Get(c'.inFlight, p) == Noted(c, due[..urgent], sent, p) {
      if p in sent {
        var i :| 0 <= i < |sent| && sent[i] == p;
        assert jobs[i] in jobs && jobs[i].pos == p && jobs[i].generation == Generation(c.world, p);
      } else {
        assert forall j :: j in jobs ==> j.pos in sent;
        assert Get(c'.inFlight, p) == Get(meshed.inFlight, p);
      }
    }
  }

  lemma DrainLeavesRest(c: Client)
    ensures Drain(c) == c.(finished := [], inFlight := Drain(c).inFlight, drawn := Drain(c).drawn)
    decreases |c.finished|
  {
  }

  /** With time and room for all of it, nothing that was due stays queued. */
  lemma AllSent(c: Client, centre: Pos, due: seq<Pos>, urgent: nat, late: set<nat>, p: Pos)
    requires PoolBounded(c) && IsDue(c.world, centre, due, urgent) && p in due
    requires forall k :: urgent <= k < |due| - 1 ==> k !in late
    requires c.threads > 0 ==> |c.pending| + (|due| - urgent) <= c.threads * 2 + 1
    ensures !Queued(Step(c, Frame(centre, due, urgent, late)).world, p)
  {
    var n := FrameSends(c, centre, due, urgent, late);
    StopsOnce(c.threads, if c.threads == 0 then 0 else |c.pending|, |due|, late, urgent, n, |due|);
  }

  // ----- Results -----

  /** The last of the results that is of its chunk as it now stands, if any. */
  function LastCurrent(w: World, results: seq<Job>, p: Pos): Option<Job>
    decreases |results|
  {
    if results == [] then None
    else
      var done := results[|results| - 1];
      if done.pos == p && p in w.chunks && done.generation == Generation(w, p) then Some(done)
      else LastCurrent(w, results[..|results| - 1], p)
  }

  lemma {:induction false} LastOfTail(w: World, results: seq<Job>, p: Pos)
    requires results != []
    ensures var last := LastCurrent(w, results[1..], p);
      LastCurrent(w, results, p) == if last.Some? then last else LastCurrent(w, [results[0]], p)
    decreases |results|
  {
    if |results| > 1 {
      var front := results[..|results| - 1];
      assert front[1..] == results[1..][..|results| - 2] && front[0] == results[0];
      LastOfTail(w, front, p);
    } else {
      assert results == [results[0]];
    }
  }

  /** What draining leaves on screen: at each position the last result that is of
      its held chunk's current generation, and where there is none what was
      there. */
  lemma {:induction false} DrainShows(c: Client, p: Pos)
    ensures var last := LastCurrent(c.world, c.finished, p);
      Get(Drained(c).drawn, p) ==
        if last.Some? then Some(Terrain(last.value.view, OpenSky(c.world, p), Generation(c.world, p))) else Get(c.drawn, p)
  {
    DrainShowsLast(c.(backlog := if c.backlog < |c.finished| then 0 else c.backlog - |c.finished|), p);
  }

  lemma {:induction false} DrainShowsLast(c: Client, p: Pos)
    ensures var last := LastCurrent(c.world, c.finished, p);
      Get(Drain(c).drawn, p) ==
        if last.Some? then Some(Terrain(last.value.view, OpenSky(c.world, p), Generation(c.world, p))) else Get(c.drawn, p)
    decreases |c.finished|
  {
    if c.finished != [] {
      LastOfTail(c.world, c.finished, p);
      DrainShowsLast(DrainOne(c), p);
    }
  }

  /** A note of a job under way goes with that job's result, and with no other. */
  lemma DrainForgets(c: Client, p: Pos)
    ensures Get(Drained(c).inFlight, p) ==
      if exists j :: j in c.finished && j.pos == p && Get(c.inFlight, p) == Some(j.generation) then None else Get(c.inFlight, p)
  {
    DrainForgetsOne(c.(backlog := if c.backlog < |c.finished| then 0 else c.backlog - |c.finished|), p);
  }

  lemma {:induction false} DrainForgetsOne(c: Client, p: Pos)
    ensures Get(Drain(c).inFlight, p) ==
      if exists j :: j in c.finished && j.pos == p && Get(c.inFlight, p) == Some(j.generation) then None else Get(c.inFlight, p)
    decreases |c.finished|
  {
    if c.finished != [] {
      DrainForgetsOne(DrainOne(c), p);
      assert c.finished == [c.finished[0]] + c.finished[1..];
    }
  }

  // ----- What else happens to a client -----

  /** A new lighting mode is taken on and every held chunk queued; the one there is
      already changes nothing. */
  lemma ModeLeaves(c: Client, m: LightingMode)
    ensures var c' := Step(c, SetMode(m));
      && c' == c.(mode := m, world := c.world.(dirty := c'.world.dirty))
      && forall p :: p in c'.world.dirty <==> p in c.world.dirty || (m != c.mode && p in c.world.chunks)
  {
    var c' := Step(c, SetMode(m));
    if m == c.mode {
      assert c' == c;
    } else {
      assert c' == c.(mode := m, world := AllDirty(c.world));
    }
  }

  /** A worker's job leaves it and is the last of those finished. */
  lemma FinishLeaves(c: Client, i: nat)
    requires i < |c.pending|
    ensures var c' := Step(c, Finish(i));
      && c' == c.(pending := c'.pending, finished := c.finished + [c.pending[i]])
      && |c'.pending| == |c.pending| - 1
      && (forall k :: 0 <= k < |c'.pending| ==> c'.pending[k] == c.pending[if k < i then k else k + 1])
  {
  }

  /** An unload takes the position's mesh with it if anything was held there, and
      leaving a domain those of its chunks; no other mesh goes. */
  lemma MeshesGo(c: Client, p: Pos, q: Pos)
    ensures Get(Step(c, Unload(p)).drawn, q)
         == if q == p && (p in c.world.chunks || p in c.world.summaries) then None else Get(c.drawn, q)
    ensures Get(Step(c, SwitchDomain).drawn, q) == if q in c.world.chunks then None else Get(c.drawn, q)
  {
  }
}
