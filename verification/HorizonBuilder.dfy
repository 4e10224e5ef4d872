/** The horizon as the client keeps it: the queue, the held-back set and the far
    meshes, updated in place (`crates/client/src/app.rs`,
    `crates/client/src/world.rs`).  Each method is tied to the step on values it
    performs. */
module HorizonBuilder {
  import opened ChunkWorld
  import opened Fog
  import opened HorizonModel
  import opened HorizonSafety

  /** The first position of a queue, in its order. */
  method First(ps: set<Pos>) returns (first: Pos)
    requires ps != {}
    ensures first in ps
    ensures forall q :: q in ps && q != first ==> Before(first, q)
  {
    first :| first in ps;
    var rest := ps - {first};
    while rest != {}
      invariant first in ps && first !in rest && rest <= ps
      invariant forall q :: q in ps && q !in rest && q != first ==> Before(first, q)
      decreases |rest|
    {
      var q :| q in rest;
      if Before(q, first) {
        first := q;
      }
      rest := rest - {q};
    }
  }

  lemma OneMoreDue(stale: set<Pos>, taken: seq<Pos>, first: Pos)
    requires first in stale && first !in taken && forall p :: p in taken ==> p in stale
    requires forall i, j :: 0 <= i < j < |taken| ==> Before(taken[i], taken[j])
    requires forall i, q :: 0 <= i < |taken| && q in stale && q !in taken ==> Before(taken[i], q)
    requires forall q :: q in stale && q !in taken && q != first ==> Before(first, q)
    ensures var more := taken + [first];
      && (forall i, j :: 0 <= i < j < |more| ==> Before(more[i], more[j]))
      && (forall i, q :: 0 <= i < |more| && q in stale && q !in more ==> Before(more[i], q))
  {
  }

  lemma {:induction false} TakenSize(taken: seq<Pos>)
    requires forall i, j :: 0 <= i < j < |taken| ==> Before(taken[i], taken[j])
    ensures |Members(taken)| == |taken|
    decreases |taken|
  {
    if taken != [] {
      var n := |taken| - 1;
      TakenSize(taken[..n]);
      assert taken == taken[..n] + [taken[n]];
      assert taken[n] !in Members(taken[..n]);
      assert Members(taken) == Members(taken[..n]) + {taken[n]};
    }
  }

  /** The first few of a queue, and what is left of it. */
  method FirstFew(stale: set<Pos>) returns (due: seq<Pos>, left: set<Pos>)
    ensures FirstOf(stale, due) && left == stale - Members(due)
  {
    due, left := [], stale;
    while |due| < HORIZON_BUDGET && left != {}
      invariant |due| <= HORIZON_BUDGET && left == stale - Members(due)
      invariant forall p :: p in due ==> p in stale
      invariant forall i, j :: 0 <= i < j < |due| ==> Before(due[i], due[j])
      invariant forall i, q :: 0 <= i < |due| && q in stale && q !in due ==> Before(due[i], q)
      decreases |left|
    {
      var first := First(left);
      OneMoreDue(stale, due, first);
      assert Members(due + [first]) == Members(due) + {first};
      due := due + [first];
      left := left - {first};
    }
    HowMany(stale, due, left);
  }

  lemma HowMany(stale: set<Pos>, due: seq<Pos>, left: set<Pos>)
    requires |due| <= HORIZON_BUDGET && left == stale - Members(due) && Members(due) <= stale
    requires |due| == HORIZON_BUDGET || left == {}
    requires forall i, j :: 0 <= i < j < |due| ==> Before(due[i], due[j])
    ensures |due| == if |stale| < HORIZON_BUDGET then |stale| else HORIZON_BUDGET
  {
    TakenSize(due);
    NotMore(Members(due), stale);
    if left == {} {
      forall p | p in stale ensures p in Members(due) { assert p !in left; }
      assert Members(due) == stale;
    }
  }

  /** Which held-back summaries the fog still hides, and which it does not. */
  method JudgeHeld(past: FogTest, ghost h: Horizon, beyond: set<Pos>, summaries: map<Pos, Summary>,
                   camera: Camera, reach: Reach) returns (hidden: set<Pos>, within: set<Pos>)
    requires h.summaries == summaries && h.camera == camera && h.reach == Some(reach)
    ensures hidden == StillHidden(past, h, beyond) && within == InSight(past, h, beyond)
  {
    hidden, within := {}, {};
    var held := beyond;
    ghost var done := {};
    while held != {}
      invariant done + held == beyond
      invariant hidden == StillHidden(past, h, done) && within == InSight(past, h, done)
      decreases |held|
    {
      var p :| p in held;
      JudgedOne(past, h, done, p);
      assert done + {p} + (held - {p}) == done + held;
      held := held - {p};
      done := done + {p};
      if p in summaries {
        if past(camera, reach, p) {
          hidden := hidden + {p};
        } else {
          within := within + {p};
        }
      }
    }
    assert done == beyond;
  }

  class Builder {
    var chunks: set<Pos>
    var summaries: map<Pos, Summary>
    var fluid: map<Pos, FluidLayer>
    var fluids: set<int>
    var stale: set<Pos>
    var shown: map<Pos, FarMesh>
    var beyond: set<Pos>
    var reach: Option<Reach>
    var judged: Reach
    var centre: Pos
    var camera: Camera

    function Model(): Horizon
      reads this
    {
      Horizon(chunks, summaries, fluid, fluids, stale, shown, beyond, reach, judged, centre, camera)
    }

    constructor ()
      ensures Model() == NO_HORIZON
    {
      chunks, summaries, fluid, fluids, stale, shown, beyond := {}, map[], map[], {}, {}, map[], {};
      reach, judged, centre := None, Reach(0.0, 0.0), Pos(0, 0, 0);
      camera := NO_HORIZON.camera;
    }

    /** A summary arrives, in place of any chunk; its held neighbours are
        looked at again with it. */
    method SetSummary(p: Pos, s: Summary)
      modifies this`chunks, this`summaries, this`stale
      ensures Model() == Arrive(old(Model()), p, s)
    {
      chunks := chunks - {p};
      summaries := summaries[p := s];
      stale := stale + {p};
      for k := 0 to 6
        invariant chunks == old(chunks) - {p} && summaries == old(summaries)[p := s]
        invariant stale == old(stale) + {p} + SidesBelow(summaries, p, k)
      {
        OneSideMore(summaries, p, k);
        if Side(p, k) in summaries {
          stale := stale + {Side(p, k)};
        }
      }
      assert SidesBelow(summaries, p, 6) == set q | q in Sides(p) && q in summaries;
    }

    method Insert(p: Pos)
      modifies this`chunks, this`summaries, this`stale
      ensures Model() == Replace(old(Model()), p)
    {
      if p in summaries {
        summaries := summaries - {p};
        stale := stale + {p};
      }
      chunks := chunks + {p};
    }

    method UnloadChunk(p: Pos)
      modifies this`chunks, this`summaries, this`fluid, this`stale, this`beyond, this`shown
      ensures Model() == Unload(old(Model()), p)
    {
      beyond := beyond - {p};
      var held := p in chunks || p in summaries;
      chunks, summaries, fluid, stale := chunks - {p}, summaries - {p}, fluid - {p}, stale + {p};
      if held {
        shown := shown - {p};
      }
    }

    /** The first sixteen waiting positions, off the queue. */
    method TakeStale() returns (due: seq<Pos>)
      modifies this`stale
      ensures FirstOf(old(stale), due) && stale == old(stale) - Members(due)
    {
      due, stale := FirstFew(stale);
    }

    method PastFog(past: FogTest, p: Pos) returns (hidden: bool)
      ensures hidden == PastTheFog(past, Model(), p)
    {
      hidden := reach.Some? && past(camera, reach.value, p);
    }

    /** Held-back summaries the fog no longer hides go back to the queue. */
    method RejudgeHorizon(past: FogTest)
      modifies this`centre, this`judged, this`beyond, this`stale
      ensures Model() == Rejudge(past, old(Model()))
    {
      if reach.None? { return; }
      if camera.chunk == centre && !Grown(judged, reach.value) { return; }
      var hidden, within := JudgeHeld(past, Model(), beyond, summaries, camera, reach.value);
      centre := camera.chunk;
      judged := reach.value;
      beyond := hidden;
      stale := stale + within;
    }

    /** One summary that was waiting: drawn, taken off, or held back. */
    method BuildSummary(past: FogTest, p: Pos)
      requires p in summaries
      modifies this`shown, this`beyond
      ensures Model() == BuildOne(past, old(Model()), p)
    {
      if Hidden(summaries, p) {
        shown := shown - {p};
        return;
      }
      var hidden := PastFog(past, p);
      if hidden {
        shown := shown - {p};
        beyond := beyond + {p};
      } else {
        shown := shown[p := FarOf(Model(), p)];
      }
    }

    /** The due positions in order, until `allowed` have gone by. */
    method BuildDue(past: FogTest, due: seq<Pos>, allowed: nat) returns (built: nat, index: nat)
      modifies this`shown, this`beyond
      ensures index == GotThrough(|due|, allowed)
      ensures Model() == BuildAll(past, old(Model()), due[..index])
      ensures built == HeldAmong(due[..index], summaries)
    {
      built, index := 0, 0;
      while index < |due|
        invariant index < GotThrough(|due|, allowed) || index == |due|
        invariant index <= GotThrough(|due|, allowed)
        invariant Model() == BuildAll(past, old(Model()), due[..index])
        invariant built == HeldAmong(due[..index], summaries)
      {
        var p := due[index];
        assert due[..index + 1][..index] == due[..index];
        if p in summaries {
          BuildSummary(past, p);
          built := built + 1;
        }
        index := index + 1;
        if index >= allowed && index < |due| {
          break;
        }
      }
    }

    /** The first of the queue built, and what time did not allow put back. */
    method BuildFirst(past: FogTest, allowed: nat) returns (built: nat, ghost due: seq<Pos>)
      modifies this`stale, this`shown, this`beyond
      ensures FirstOf(old(stale), due)
      ensures Model() == Build(past, old(Model()), due, GotThrough(|due|, allowed))
      ensures built == HeldAmong(due[..GotThrough(|due|, allowed)], summaries)
    {
      var batch := TakeStale();
      due := batch;
      var index;
      built, index := BuildDue(past, batch, allowed);
      stale := stale + Members(batch[index..]);
    }

    /** One frame's share of the horizon.  `allowed` is how many positions go by
        before its time is up. */
    method BuildHorizon(past: FogTest, allowed: nat) returns (built: nat, ghost due: seq<Pos>)
      modifies this
      ensures FirstOf(Rejudge(past, old(Model())).stale, due)
      ensures Model() == Frame(past, old(Model()), due, allowed)
      ensures built == HeldAmong(due[..GotThrough(|due|, allowed)], old(summaries))
    {
      RejudgeHorizon(past);
      built, due := BuildFirst(past, allowed);
    }
  }

  /** The held summaries across the first `n` faces. */
  function SidesBelow(m: map<Pos, Summary>, p: Pos, n: int): set<Pos>
    requires 0 <= n <= 6
  {
    set k: Face {:trigger Side(p, k)} | k < n && Side(p, k) in m :: Side(p, k)
  }

  lemma OneSideMore(m: map<Pos, Summary>, p: Pos, k: Face)
    ensures SidesBelow(m, p, k + 1) ==
      if Side(p, k) in m then SidesBelow(m, p, k) + {Side(p, k)} else SidesBelow(m, p, k)
  {
  }

  /** How many of the positions a summary is still held for. */
  function HeldAmong(ps: seq<Pos>, m: map<Pos, Summary>): nat
    decreases |ps|
  {
    if ps == [] then 0
    else HeldAmong(ps[..|ps| - 1], m) + if ps[|ps| - 1] in m then 1 else 0
  }

  lemma JudgedOne(past: FogTest, h: Horizon, ps: set<Pos>, p: Pos)
    ensures StillHidden(past, h, ps + {p}) ==
      if p in h.summaries && PastTheFog(past, h, p) then StillHidden(past, h, ps) + {p} else StillHidden(past, h, ps)
    ensures InSight(past, h, ps + {p}) ==
      if p in h.summaries && !PastTheFog(past, h, p) then InSight(past, h, ps) + {p} else InSight(past, h, ps)
  {
  }
}
