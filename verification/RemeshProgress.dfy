/** Nothing waits for ever: with the world at rest, a bounded number of frames
    brings the screen to it, on any schedule in which workers that hold a job
    finish one between two frames, whichever it is, and wherever each frame's
    time runs out. */
module RemeshProgress {
  import opened ChunkWorld
  import opened RemeshProtocol
  import opened RemeshSafety

  /** The workers finish some of what they hold, and at least one job if they
      hold any. */
  ghost predicate SomeFinished(c: Client, c': Client) {
    && c' == c.(pending := c'.pending, finished := c'.finished)
    && multiset(c'.pending) + multiset(c'.finished) == multiset(c.pending) + multiset(c.finished)
    && |c'.pending| <= |c.pending| && (c.pending != [] ==> |c'.pending| < |c.pending|)
  }

  /** One frame of a world at rest: the workers get on, then `remesh` runs. */
  ghost predicate Round(c: Client, c': Client) {
    exists ready: Client, centre: Pos, due: seq<Pos>, urgent: nat, late: set<nat> ::
      && SomeFinished(c, ready) && IsDue(ready.world, centre, due, urgent)
      && c' == Remesh(ready, due, urgent, late)
  }

  ghost predicate Rounds(trace: seq<Client>) {
    trace != [] && forall i :: 0 <= i < |trace| - 1 ==> Round(trace[i], trace[i + 1])
  }

  lemma SomeFinishedKeeps(c: Client, c': Client, exact: bool)
    requires Keeping(c, {}, exact) && SomeFinished(c, c')
    ensures Keeping(c', {}, exact)
  {
    forall j ensures InPool(c, j) <==> InPool(c', j) {
      assert j in multiset(c'.pending) + multiset(c'.finished) <==> j in multiset(c.pending) + multiset(c.finished);
    }
    assert |multiset(c'.pending) + multiset(c'.finished)| == |multiset(c.pending) + multiset(c.finished)|;
    SamePoolKeeps(c, c', exact);
  }

  /** Where the pass leaves the queue: nothing urgent, and of the rest only what
      it had and what it did not reach. */
  lemma PassQueue(c: Client, due: seq<Pos>, urgent: nat, i: nat, late: set<nat>)
    requires i <= |due| && c.world.urgent == {}
    requires forall p :: p in due ==> p in c.world.chunks
    requires urgent < |due| && i <= urgent ==> c.backlog < Capacity(c)
    requires forall m, n :: 0 <= m < n < |due| ==> due[m] != due[n]
    ensures var c' := Pass(c, due, urgent, i, late);
      && c'.world.urgent == {} && c'.world.chunks == c.world.chunks
      && c'.world.dirty <= c.world.dirty + Elements(due[i..])
      && (i <= urgent < |due| ==> c'.world.dirty <= c.world.dirty + Elements(due[urgent + 1..]))
      && (urgent >= |due| ==> c'.world.dirty == c.world.dirty && c'.pending == c.pending && c'.finished == c.finished)
      && c'.threads == c.threads
    decreases |due| - i
  {
    if i < |due| {
      assert due[i..] == [due[i]] + due[i + 1..];
      if i < urgent {
        PassQueue(MeshNow(c, due[i]), due, urgent, i + 1, late);
      } else if c.backlog < Capacity(c) {
        var sent := Submit(c, due[i]);
        if !(i in late && i + 1 < |due|) {
          PassQueue(sent, due, urgent, i + 1, late);
        }
      }
    }
  }

  /** A pass over what `take_dirty` chose, with room in the pool, leaves fewer
      chunks queued than there were. */
  lemma PassShortens(c: Client, centre: Pos, due: seq<Pos>, urgent: nat, late: set<nat>)
    requires IsDue(c.world, centre, due, urgent) && c.backlog < Capacity(c)
    ensures var c' := Pass(c.(world := Taken(c.world, due)), due, urgent, 0, late);
      && c'.world.urgent == {} && c'.threads == c.threads
      && (c'.world.dirty == {} || |c'.world.dirty| < |c.world.dirty|)
      && (c.world.dirty == {} ==> c'.world.dirty == {} && c'.pending == c.pending && c'.finished == c.finished)
  {
    var start := c.(world := Taken(c.world, due));
    assert due == due[..urgent] + due[urgent..];
    forall p | p in due ensures p in start.world.chunks {
      assert p in Elements(due[..urgent]) || p in Elements(due[urgent..]);
    }
    PassQueue(start, due, urgent, 0, late);
    var c' := Pass(start, due, urgent, 0, late);
    if urgent == |due| {
      NothingLeft(c.world, centre, due, urgent);
    } else {
      var first := due[urgent];
      assert first in Elements(due[urgent..]);
      assert due[urgent..] == [first] + due[urgent + 1..];
      forall p | p in c'.world.dirty ensures p in c.world.dirty - {first} {
        if p in Elements(due[urgent + 1..]) {
          assert p in Elements(due[urgent..]);
        }
      }
      Smaller(c'.world.dirty, c.world.dirty, first);
    }
  }

  lemma NothingLeft(w: World, centre: Pos, due: seq<Pos>, urgent: nat)
    requires IsDue(w, centre, due, urgent) && urgent == |due|
    ensures Taken(w, due).dirty == {}
    ensures w.urgent == {} ==> due == []
  {
    var candidates := set p | p in w.dirty && p in w.chunks && p !in w.urgent;
    assert |candidates| == 0;
    assert due[..urgent] == due;
    assert forall p :: p in w.dirty && p in w.chunks ==> p !in candidates;
    assert forall p :: p in w.urgent && p in w.chunks ==> p in Elements(due[..urgent]);
    assert Elements(due) == (set p | p in w.urgent && p in w.chunks);
    assert due == [] || due[0] in Elements(due);
  }

  /** A round empties the urgent queue and shortens the other; with that empty
      it leaves nothing finished and fewer jobs out. */
  lemma RoundShortens(c: Client, c': Client, exact: bool)
    requires Keeping(c, {}, exact) && Round(c, c')
    ensures Keeping(c', {}, exact) && c'.world.urgent == {} && c'.threads == c.threads
    ensures c'.world.dirty == {} || |c'.world.dirty| < |c.world.dirty|
    ensures c.world.dirty == {} ==> c'.world.dirty == {} && c'.finished == [] && (c'.pending == [] || |c'.pending| < |c.pending|)
  {
    var ready: Client, centre: Pos, due: seq<Pos>, urgent: nat, late: set<nat> :|
      SomeFinished(c, ready) && IsDue(ready.world, centre, due, urgent) && c' == Remesh(ready, due, urgent, late);
    SomeFinishedKeeps(c, ready, exact);
    FrameKeeps(ready, centre, due, urgent, late, exact);
    var freed := ready.(backlog := if ready.backlog < |ready.finished| then 0 else ready.backlog - |ready.finished|);
    DrainEmpties(freed);
    assert freed.backlog < Capacity(freed) by {
      if ready.threads > 0 {
        assert freed.backlog == |ready.pending|;
      }
    }
    PassShortens(Drained(ready), centre, due, urgent, late);
  }

  lemma DrainEmpties(c: Client)
    ensures Drain(c) == c.(finished := [], inFlight := Drain(c).inFlight, drawn := Drain(c).drawn)
    decreases |c.finished|
  {
  }

  lemma Smaller(a: set<Pos>, b: set<Pos>, x: Pos)
    requires a <= b - {x} && x in b
    ensures |a| < |b|
  {
    var rest := (b - {x}) - a;
    assert b == a + rest + {x};
  }

  /** With nothing queued but edits, as many rounds as there are jobs out, and at
      least one, leave nothing at all. */
  lemma {:induction false} PoolEmpties(trace: seq<Client>, exact: bool)
    requires Rounds(trace) && Keeping(trace[0], {}, exact) && trace[0].world.dirty == {}
    requires |trace| > 1 && |trace| > |trace[0].pending|
    ensures Keeping(trace[|trace| - 1], {}, exact) && Quiet(trace[|trace| - 1])
    decreases |trace|
  {
    RoundShortens(trace[0], trace[1], exact);
    if |trace| > 2 {
      PoolEmpties(trace[1..], exact);
    }
  }

  /** With the world at rest, as many rounds as there are chunks queued and jobs
      the pool can hold are enough: nothing is left queued or owed and every held
      chunk is drawn at its current generation, and as it is if nothing went
      unannounced before. */
  lemma {:induction false} Settles(trace: seq<Client>, exact: bool)
    requires Rounds(trace) && Keeping(trace[0], {}, exact)
    requires |trace| > |trace[0].world.dirty| + Capacity(trace[0])
    ensures var c := trace[|trace| - 1];
      && Quiet(c)
      && (forall p :: p in c.world.chunks ==>
            p in c.drawn && c.drawn[p].Terrain? && c.drawn[p].generation == Generation(c.world, p))
      && (exact ==> forall p :: p in c.world.chunks ==> c.drawn[p] == Picture(c.world, c.mode, p))
    decreases |trace|
  {
    if trace[0].world.dirty == {} {
      PoolEmpties(trace, exact);
    } else {
      RoundShortens(trace[0], trace[1], exact);
      Settles(trace[1..], exact);
    }
    var c := trace[|trace| - 1];
    if trace[0].world.dirty == {} {
      forall p | p in c.world.chunks ensures ShownAt(c, p, exact) {
        assert !Live(c, p);
      }
    }
  }
}
