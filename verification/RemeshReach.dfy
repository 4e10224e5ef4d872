/** Which states a client can get to: from every one of them a run of frames
    leads to a quiet one over the same world, and there an unannounced step
    leaves a wrong picture that no frame mends. */
module RemeshReach {
  import opened ChunkWorld
  import opened RemeshProtocol
  import opened RemeshSafety
  import opened RemeshProgress

  ghost predicate Reachable(c: Client) {
    exists threads: nat, run: seq<Event> :: IsRun(Init(threads), run) && After(Init(threads), run) == c
  }

  lemma {:induction false} RunExtends(c: Client, run: seq<Event>, e: Event)
    requires IsRun(c, run) && Possible(After(c, run), e)
    ensures IsRun(c, run + [e]) && After(c, run + [e]) == Step(After(c, run), e)
    decreases |run|
  {
    if run == [] {
      assert run + [e] == [e] && [e][1..] == [];
      assert After(Step(c, e), []) == Step(c, e);
    } else {
      RunExtends(Step(c, run[0]), run[1..], e);
      assert (run + [e])[1..] == run[1..] + [e];
    }
  }

  lemma ReachableStep(c: Client, e: Event)
    requires Reachable(c) && Possible(c, e)
    ensures Reachable(Step(c, e))
  {
    var threads: nat, run: seq<Event> :| IsRun(Init(threads), run) && After(Init(threads), run) == c;
    RunExtends(Init(threads), run, e);
  }

  lemma ReachableInit(threads: nat)
    ensures Reachable(Init(threads)) && Inv(Init(threads)) && Quiet(Init(threads))
  {
    assert After(Init(threads), []) == Init(threads);
  }

  /** An announced step from a reachable good state. */
  lemma GoodStep(c: Client, e: Event)
    requires Reachable(c) && Inv(c) && Possible(c, e) && Announced(c, e)
    ensures Reachable(Step(c, e)) && Inv(Step(c, e))
  {
    ReachableStep(c, e);
    StepExact(c, e);
  }

  // ----- A frame can always be taken -----

  ghost predicate Distinct(list: seq<Pos>) {
    forall i, j :: 0 <= i < j < |list| ==> list[i] != list[j]
  }

  lemma ListingExists(s: set<Pos>) returns (list: seq<Pos>)
    ensures Elements(list) == s && Distinct(list)
    decreases |s|
  {
    if s == {} {
      list := [];
    } else {
      var p :| p in s;
      var rest := ListingExists(s - {p});
      list := rest + [p];
      assert Elements(list) == Elements(rest) + {p};
      assert forall i :: 0 <= i < |rest| ==> rest[i] in Elements(rest);
    }
  }

  lemma NearerChains(centre: Pos, a: Pos, b: Pos, c: Pos)
    requires Nearer(centre, a, b)
    ensures Nearer(centre, b, c) ==> Nearer(centre, a, c)
  {
  }

  lemma ClosestExists(s: set<Pos>, centre: Pos) returns (best: Pos)
    requires s != {}
    ensures best in s && forall p :: p in s && p != best ==> Nearer(centre, best, p)
    decreases |s|
  {
    var one :| one in s;
    best := one;
    if s != {one} {
      var other := ClosestExists(s - {one}, centre);
      if Nearer(centre, other, one) {
        best := other;
      } else {
        assert Nearer(centre, one, other);
        forall p | p in s && p != one ensures Nearer(centre, one, p) {
          NearerChains(centre, one, other, p);
        }
      }
    }
  }

  /** The `n` nearest of a set, nearest first. */
  ghost predicate AreNearest(near: seq<Pos>, s: set<Pos>, n: nat, centre: Pos) {
    && Elements(near) <= s && |near| == n && Distinct(near)
    && (forall i, j :: 0 <= i < j < |near| ==> Nearer(centre, near[i], near[j]))
    && (forall i, p :: 0 <= i < |near| && p in s && p !in near ==> Nearer(centre, near[i], p))
  }

  lemma NearestExist(s: set<Pos>, n: nat, centre: Pos) returns (near: seq<Pos>)
    requires n <= |s|
    ensures AreNearest(near, s, n, centre)
    decreases n
  {
    if n == 0 {
      near := [];
    } else {
      var first := ClosestExists(s, centre);
      var rest := NearestExist(s - {first}, n - 1, centre);
      near := [first] + rest;
      FirstIsNearest(rest, s, n, centre, first);
    }
  }

  lemma FirstIsNearest(rest: seq<Pos>, s: set<Pos>, n: nat, centre: Pos, first: Pos)
    requires n > 0 && first in s && AreNearest(rest, s - {first}, n - 1, centre)
    requires forall p :: p in s && p != first ==> Nearer(centre, first, p)
    ensures AreNearest([first] + rest, s, n, centre)
  {
    var near := [first] + rest;
    forall i | 0 <= i < |rest| ensures rest[i] in s && rest[i] != first {
      assert rest[i] in Elements(rest);
    }
    assert Elements(near) == {first} + Elements(rest);
    forall i, p | 0 <= i < |near| && p in s && p !in near ensures Nearer(centre, near[i], p) {
      assert p != first && p !in rest;
    }
  }

  lemma DueExists(w: World, centre: Pos) returns (due: seq<Pos>, urgent: nat)
    ensures IsDue(w, centre, due, urgent)
  {
    var candidates := set p | p in w.dirty && p in w.chunks && p !in w.urgent;
    var hot := set p | p in w.urgent && p in w.chunks;
    var first := ListingExists(hot);
    var n := if |candidates| < MESH_SUBMISSIONS_PER_FRAME then |candidates| else MESH_SUBMISSIONS_PER_FRAME;
    var near := NearestExist(candidates, n, centre);
    due, urgent := first + near, |first|;
    assert due[..urgent] == first && due[urgent..] == near;
    forall i, j | 0 <= i < j < |due| ensures due[i] != due[j] {
      assert i < urgent ==> due[i] in Elements(first);
      assert j >= urgent ==> due[j] in Elements(near);
    }
    assert forall i :: urgent <= i < |due| ==> due[i] == near[i - urgent];
  }

  // ----- The world is left as it was -----

  ghost predicate SameData(c: Client, c': Client) {
    && c'.world == c.world.(dirty := c'.world.dirty, urgent := c'.world.urgent)
    && c'.mode == c.mode && c'.threads == c.threads
  }

  lemma PassData(c: Client, due: seq<Pos>, urgent: nat, i: nat, late: set<nat>)
    requires i <= |due|
    ensures SameData(c, Pass(c, due, urgent, i, late))
    decreases |due| - i
  {
    if i < |due| {
      if i < urgent {
        PassData(MeshNow(c, due[i]), due, urgent, i + 1, late);
      } else if c.backlog < Capacity(c) {
        if due[i] !in c.world.chunks {
          PassData(c, due, urgent, i + 1, late);
        } else if !(i in late && i + 1 < |due|) {
          PassData(Submit(c, due[i]), due, urgent, i + 1, late);
        }
      }
    }
  }

  lemma RemeshData(c: Client, due: seq<Pos>, urgent: nat, late: set<nat>)
    ensures SameData(c, Remesh(c, due, urgent, late))
  {
    DrainEmpties(c.(backlog := if c.backlog < |c.finished| then 0 else c.backlog - |c.finished|));
    var d := Drained(c);
    PassData(d.(world := Taken(d.world, due)), due, urgent, 0, late);
  }

  lemma FinishReaches(c: Client, i: nat, c': Client)
    requires Reachable(c) && i < |c.pending|
    requires c' == c.(pending := c.pending[..i] + c.pending[i + 1..], finished := c.finished + [c.pending[i]])
    ensures Reachable(c')
  {
    ReachableStep(c, Finish(i));
  }

  lemma OldestFinished(c: Client, ready: Client)
    requires c.pending != []
    requires ready == c.(pending := c.pending[..0] + c.pending[1..], finished := c.finished + [c.pending[0]])
    ensures SomeFinished(c, ready)
  {
    assert c.pending == [c.pending[0]] + c.pending[1..];
    assert c.pending[..0] + c.pending[1..] == c.pending[1..];
  }

  /** The workers' least: the oldest job is finished, if there is one. */
  lemma OneFinishes(c: Client) returns (ready: Client)
    requires Reachable(c)
    ensures SomeFinished(c, ready) && Reachable(ready) && SameData(c, ready)
  {
    ready := c;
    if c.pending != [] {
      ready := c.(pending := c.pending[..0] + c.pending[1..], finished := c.finished + [c.pending[0]]);
      FinishReaches(c, 0, ready);
      OldestFinished(c, ready);
    }
  }

  /** From a reachable state, one round that can happen. */
  lemma RoundExists(c: Client) returns (c': Client)
    requires Reachable(c) && Tracked(c)
    ensures Round(c, c') && Reachable(c') && SameData(c, c')
  {
    var ready := OneFinishes(c);
    var centre := Pos(0, 0, 0);
    var due, urgent := DueExists(ready.world, centre);
    var e := Frame(centre, due, urgent, {});
    ReachableStep(ready, e);
    c' := Step(ready, e);
    assert c' == Remesh(ready, due, urgent, {});
    RemeshData(ready, due, urgent, {});
  }

  lemma RoundsExist(c: Client, n: nat, exact: bool) returns (trace: seq<Client>)
    requires Reachable(c) && Keeping(c, {}, exact)
    ensures |trace| == n + 1 && trace[0] == c && Rounds(trace)
    ensures Reachable(trace[n]) && SameData(c, trace[n]) && Keeping(trace[n], {}, exact)
    decreases n
  {
    if n == 0 {
      trace := [c];
    } else {
      var c' := RoundExists(c);
      RoundShortens(c, c', exact);
      var rest := RoundsExist(c', n - 1, exact);
      trace := [c] + rest;
      RoundBefore(c, rest);
    }
  }

  lemma RoundBefore(c: Client, rest: seq<Client>)
    requires Rounds(rest) && Round(c, rest[0])
    ensures Rounds([c] + rest)
  {
    var trace := [c] + rest;
    forall i | 0 <= i < |trace| - 1 ensures Round(trace[i], trace[i + 1]) {
      if i > 0 {
        assert trace[i] == rest[i - 1] && trace[i + 1] == rest[i];
      }
    }
  }

  /** From every reachable state a quiet one can be reached, over the same world
      and as good as it was. */
  lemma CanSettle(c: Client, exact: bool) returns (c': Client)
    requires Reachable(c) && Keeping(c, {}, exact)
    ensures Reachable(c') && SameData(c, c') && Quiet(c') && Keeping(c', {}, exact)
  {
    var n := |c.world.dirty| + Capacity(c);
    var trace := RoundsExist(c, n, exact);
    Settles(trace, exact);
    c' := trace[n];
  }

  // ----- What an unannounced step leaves -----

  /** A held chunk is shown wrong and nothing will show it again. */
  ghost predicate LeftWrong(c: Client, q: Pos) {
    && q in c.world.chunks && !Queued(c.world, q) && !Live(c, q)
    && q in c.drawn && c.drawn[q].Terrain? && c.drawn[q] != Picture(c.world, c.mode, q)
  }

  /** From a quiet good state, every unannounced step but a change of domain
      leaves a chunk wrong. */
  lemma SilenceIsSeen(c: Client, e: Event)
    requires Inv(c) && Quiet(c) && Possible(c, e) && !Announced(c, e) && !e.SwitchDomain?
    ensures exists q :: LeftWrong(Step(c, e), q)
  {
    InvTracks(c);
    StepExact(c, e);
    StepTracks(c, e);
    StaysIdle(c, e);
    WrongIsLeft(Step(c, e));
  }

  lemma StaysIdle(c: Client, e: Event)
    requires NoGhosts(c) && Quiet(c) && Possible(c, e) && !Announced(c, e) && !e.SwitchDomain?
    ensures var c' := Step(c, e); c'.pending == [] && c'.finished == [] && NoGhosts(c')
  {
    assert !e.Frame? && !e.Horizon?;
  }

  lemma WrongIsLeft(c: Client)
    requires Tracked(c) && !Inv(c) && NoGhosts(c) && c.pending == [] && c.finished == []
    ensures exists q :: LeftWrong(c, q)
  {
    assert JobsSound(c);
    var q :| q in c.world.chunks && !Queued(c.world, q) && !Live(c, q) && !ShownAt(c, q, true);
    assert ShownAt(c, q, false);
    assert LeftWrong(c, q);
  }

  /** A frame leaves alone a chunk that is neither queued nor owed. */
  lemma FrameLeaves(c: Client, q: Pos, centre: Pos, due: seq<Pos>, urgent: nat, late: set<nat>)
    requires LeftWrong(c, q) && IsDue(c.world, centre, due, urgent)
    ensures LeftWrong(Remesh(c, due, urgent, late), q)
  {
    var freed := c.(backlog := if c.backlog < |c.finished| then 0 else c.backlog - |c.finished|);
    assert forall j :: InPool(freed, j) <==> InPool(c, j);
    DrainLeaves(freed, q);
    var d := Drain(freed);
    assert due == due[..urgent] + due[urgent..];
    forall p | p in due ensures Queued(c.world, p) {
      assert p in Elements(due[..urgent]) || p in Elements(due[urgent..]);
    }
    var start := d.(world := Taken(d.world, due));
    assert forall j :: InPool(start, j) <==> InPool(d, j);
    PassLeaves(start, q, due, urgent, 0, late);
    RemeshData(c, due, urgent, late);
    SameDataSameView(c.world, Remesh(c, due, urgent, late).world, c.mode, q);
  }

  /** Not queued, not owed, and on screen as `mesh`. */
  ghost predicate Standing(c: Client, q: Pos, mesh: Mesh) {
    && q in c.world.chunks && !Queued(c.world, q) && !Live(c, q)
    && q in c.drawn && c.drawn[q] == mesh
  }

  lemma DrainLeaves(c: Client, q: Pos)
    requires q in c.drawn && Standing(c, q, c.drawn[q])
    ensures Standing(Drain(c), q, c.drawn[q]) && Drain(c).world == c.world
    decreases |c.finished|
  {
    if c.finished != [] {
      var c', done := DrainOne(c), c.finished[0];
      assert c.finished == [done] + c.finished[1..];
      assert InPool(c, done);
      assert forall j :: InPool(c', j) ==> InPool(c, j);
      DrainLeaves(c', q);
    }
  }

  lemma PassLeaves(c: Client, q: Pos, due: seq<Pos>, urgent: nat, i: nat, late: set<nat>)
    requires i <= |due| && q !in due && q in c.drawn && Standing(c, q, c.drawn[q])
    ensures Standing(Pass(c, due, urgent, i, late), q, c.drawn[q])
    decreases |due| - i
  {
    if i < |due| {
      if i < urgent {
        assert forall j :: InPool(MeshNow(c, due[i]), j) ==> InPool(c, j);
        PassLeaves(MeshNow(c, due[i]), q, due, urgent, i + 1, late);
      } else if c.backlog >= Capacity(c) {
        RequeueLeaves(c, q, due[i..]);
      } else if due[i] !in c.world.chunks {
        PassLeaves(c, q, due, urgent, i + 1, late);
      } else {
        var sent := Submit(c, due[i]);
        forall j | InPool(sent, j) ensures InPool(c, j) || j.pos == due[i] {}
        if i in late && i + 1 < |due| {
          RequeueLeaves(sent, q, due[i + 1..]);
        } else {
          PassLeaves(sent, q, due, urgent, i + 1, late);
        }
      }
    }
  }

  lemma RequeueLeaves(c: Client, q: Pos, ps: seq<Pos>)
    requires q !in ps && q in c.drawn && Standing(c, q, c.drawn[q])
    ensures Standing(Requeued(c, ps), q, c.drawn[q])
  {
    assert forall j :: InPool(Requeued(c, ps), j) ==> InPool(c, j);
  }

  /** However long the world then rests, the picture stays wrong: frames and
      workers alone never mend it. */
  lemma {:induction false} WrongForGood(c: Client, q: Pos, run: seq<Event>)
    requires LeftWrong(c, q) && IsRun(c, run) && forall e :: e in run ==> e.Frame? || e.Finish?
    ensures LeftWrong(After(c, run), q)
    decreases |run|
  {
    if run != [] {
      var e := run[0];
      var c' := Step(c, e);
      assert e in run;
      if e.Frame? {
        FrameLeaves(c, q, e.centre, e.due, e.urgent, e.late);
      } else {
        FinishLeaves(c, q, e.which);
      }
      WrongForGood(c', q, run[1..]);
    }
  }

  lemma FinishLeaves(c: Client, q: Pos, i: nat)
    requires LeftWrong(c, q) && i < |c.pending|
    ensures LeftWrong(Step(c, Finish(i)), q)
  {
    var c' := Step(c, Finish(i));
    forall j | InPool(c', j) ensures InPool(c, j) {
      if j in c'.pending {
        var n :| 0 <= n < |c'.pending| && c'.pending[n] == j;
        assert j == if n < i then c.pending[n] else c.pending[n + 1];
      }
    }
  }
}
