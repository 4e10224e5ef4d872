/** Horizons a client can get to in which a summary is wrong on screen, neither
    queued nor held back: one for each kind of event that exposes one. */
module HorizonRaces {
  import opened ChunkWorld
  import opened Fog
  import opened HorizonModel
  import opened HorizonSafety
  import opened HorizonFog

  ghost predicate Reachable(past: FogTest, h: Horizon) {
    exists es :: IsRun(past, NO_HORIZON, es) && After(past, NO_HORIZON, es) == h
  }

  lemma {:induction false} RunExtends(past: FogTest, h: Horizon, es: seq<Event>, e: Event)
    requires IsRun(past, h, es) && Possible(past, After(past, h, es), e)
    ensures IsRun(past, h, es + [e]) && After(past, h, es + [e]) == Step(past, After(past, h, es), e)
    decreases |es|
  {
    if es == [] {
      assert es + [e] == [e] && [e][1..] == [];
      assert After(past, Step(past, h, e), []) == Step(past, h, e);
    } else {
      RunExtends(past, Step(past, h, es[0]), es[1..], e);
      assert (es + [e])[1..] == es[1..] + [e];
    }
  }

  lemma ReachableStep(past: FogTest, h: Horizon, e: Event)
    requires Reachable(past, h) && Possible(past, h, e)
    ensures Reachable(past, Step(past, h, e))
  {
    var es :| IsRun(past, NO_HORIZON, es) && After(past, NO_HORIZON, es) == h;
    RunExtends(past, NO_HORIZON, es, e);
  }

  lemma ReachableStart(past: FogTest)
    ensures Reachable(past, NO_HORIZON) && AllCovered(past, NO_HORIZON, true)
  {
    assert After(past, NO_HORIZON, []) == NO_HORIZON;
  }

  // ----- A frame can always be taken -----

  lemma LeastExists(s: set<Pos>) returns (first: Pos)
    requires s != {}
    ensures first in s && forall q :: q in s && q != first ==> Before(first, q)
    decreases |s|
  {
    var one :| one in s;
    first := one;
    if s != {one} {
      var other := LeastExists(s - {one});
      if Before(other, one) {
        first := other;
      } else {
        forall q | q in s && q != one ensures Before(one, q) {
          assert q == other || Before(other, q);
        }
      }
    }
  }

  /** The first `n` of a set, in order. */
  predicate FirstFewOf(s: set<Pos>, due: seq<Pos>) {
    && (forall i :: 0 <= i < |due| ==> due[i] in s)
    && (forall i, j :: 0 <= i < j < |due| ==> Before(due[i], due[j]))
    && (forall i, q :: 0 <= i < |due| && q in s && q !in due ==> Before(due[i], q))
  }

  lemma FirstFewExist(s: set<Pos>, n: nat) returns (due: seq<Pos>)
    requires n <= |s|
    ensures |due| == n && FirstFewOf(s, due)
    decreases n
  {
    if n == 0 {
      due := [];
    } else {
      var first := LeastExists(s);
      var rest := FirstFewExist(s - {first}, n - 1);
      due := [first] + rest;
    }
  }

  lemma DueExists(stale: set<Pos>) returns (due: seq<Pos>)
    ensures FirstOf(stale, due)
  {
    due := FirstFewExist(stale, if |stale| < HORIZON_BUDGET then |stale| else HORIZON_BUDGET);
  }

  /** No fog, so nothing is held back. */
  predicate Clear(h: Horizon) {
    h.reach.None? && h.beyond == {}
  }

  lemma FrameReaches(past: FogTest, h: Horizon, due: seq<Pos>)
    requires Reachable(past, h) && Clear(h) && FirstOf(h.stale, due)
    ensures Reachable(past, Build(past, h, due, GotThrough(|due|, 1)))
  {
    assert Rejudge(past, h) == h;
    ReachableStep(past, h, Drawn(due, 1));
  }

  lemma FrameExists(past: FogTest, h: Horizon) returns (h': Horizon)
    requires Reachable(past, h) && Clear(h) && AllCovered(past, h, true) && h.stale != {}
    ensures Reachable(past, h') && Clear(h') && AllCovered(past, h', true)
    ensures h' == h.(stale := h'.stale, shown := h'.shown) && |h'.stale| < |h.stale|
  {
    var due := DueExists(h.stale);
    var n := GotThrough(|due|, 1);
    FrameReaches(past, h, due);
    h' := Build(past, h, due, n);
    FrameBuilds(past, h, due, n);
  }

  lemma FrameBuilds(past: FogTest, h: Horizon, due: seq<Pos>, n: nat)
    requires Clear(h) && AllCovered(past, h, true) && h.stale != {} && FirstOf(h.stale, due) && n == GotThrough(|due|, 1)
    ensures var h' := Build(past, h, due, n);
      Clear(h') && AllCovered(past, h', true) && h' == h.(stale := h'.stale, shown := h'.shown) && |h'.stale| < |h.stale|
  {
    var h' := Build(past, h, due, n);
    BuildKeeps(past, h, due, n, true);
    BuildMeans(past, h, due, n);
    NothingHeld(past, h, h');
    NotEmpty(h.stale);
    DueShrinks(h.stale, due, n);
  }

  lemma NothingHeld(past: FogTest, h: Horizon, h': Horizon)
    requires Clear(h) && h'.reach == h.reach && forall p :: p in h'.beyond ==> p in h.beyond || PastTheFog(past, h', p)
    ensures h'.beyond == {}
  {
  }

  /** In clear air everything that waits can be built. */
  lemma CanSettle(past: FogTest, h: Horizon) returns (h': Horizon)
    requires Reachable(past, h) && Clear(h) && AllCovered(past, h, true)
    ensures Reachable(past, h') && Clear(h') && AllCovered(past, h', true) && h'.stale == {}
    ensures h' == h.(stale := {}, shown := h'.shown)
    decreases |h.stale|
  {
    if h.stale == {} {
      h' := h;
    } else {
      var next := FrameExists(past, h);
      h' := CanSettle(past, next);
    }
  }

  /** Reachable and in clear air, with a summary that is wrong and that nobody
      will look at again. */
  ghost predicate Lost(past: FogTest, h: Horizon, p: Pos) {
    Reachable(past, h) && Clear(h) && p in h.summaries && !Covered(past, h, p, false)
  }

  // ----- A hill left unburied -----

  const PEAK: Pos := Pos(0, 0, 0)
  const ROCK: Summary := Summary(1, map[Cell(0, 0, 0) := 1])

  lemma RockIsSolid()
    ensures ROCK.IsSolid() && !ROCK.IsEmpty()
  {
    assert ROCK.cells[Cell(0, 0, 0)] == 1;
    forall x, y, z | 0 <= x < ROCK.width && 0 <= y < ROCK.width && 0 <= z < ROCK.width
      ensures ROCK.At(Cell(x, y, z)) != AIR
    {
      assert Cell(x, y, z) == Cell(0, 0, 0);
    }
  }

  /** Rock at the peak and across its first `n` faces. */
  lemma RocksArrive(past: FogTest, n: nat) returns (h: Horizon)
    requires n <= 6
    ensures Reachable(past, h) && Clear(h) && AllCovered(past, h, true) && PEAK in h.summaries && h.summaries[PEAK] == ROCK
    ensures forall k: Face :: k < n ==> Side(PEAK, k) in h.summaries && h.summaries[Side(PEAK, k)] == ROCK
    decreases n
  {
    if n == 0 {
      ReachableStart(past);
      ReachableStep(past, NO_HORIZON, Arrives(PEAK, ROCK));
      ArriveKeeps(past, NO_HORIZON, PEAK, ROCK, true);
      h := Arrive(NO_HORIZON, PEAK, ROCK);
    } else {
      var g := RocksArrive(past, n - 1);
      var p := Side(PEAK, n - 1);
      ReachableStep(past, g, Arrives(p, ROCK));
      ArriveKeeps(past, g, p, ROCK, true);
      h := Arrive(g, p, ROCK);
    }
  }

  lemma HillStands(past: FogTest) returns (h: Horizon)
    ensures Reachable(past, h) && Clear(h) && AllCovered(past, h, true) && h.stale == {} && Side(PEAK, OVER) in h.summaries
    ensures PEAK in h.summaries && h.summaries[PEAK] == ROCK && Buried(h.summaries, PEAK) && PEAK !in h.shown
  {
    var g := RocksArrive(past, 6);
    RockIsSolid();
    h := CanSettle(past, g);
    assert forall k: Face :: Filled(h.summaries, Side(PEAK, k));
    assert Covered(past, h, PEAK, true);
  }

  /** Seven solid summaries arrive and are built; the one on top unloads, or is
      replaced by its chunk: the middle one is in the open and not drawn. */
  lemma UnloadingExposes(past: FogTest)
    ensures exists h :: Lost(past, h, PEAK)
  {
    var h := HillStands(past);
    var p := Side(PEAK, OVER);
    ReachableStep(past, h, Unloaded(p));
    RockIsSolid();
    var g := Unload(h, p);
    assert !Filled(g.summaries, Side(PEAK, OVER));
    assert Lost(past, g, PEAK);
  }

  lemma ReplacingExposes(past: FogTest)
    ensures exists h :: Lost(past, h, PEAK) && Side(PEAK, OVER) in h.chunks
  {
    var h := HillStands(past);
    var p := Side(PEAK, OVER);
    ReachableStep(past, h, Replaced(p));
    RockIsSolid();
    var g := Replace(h, p);
    assert !Filled(g.summaries, Side(PEAK, OVER));
    assert Lost(past, g, PEAK);
  }

  // ----- A sea without its surface -----

  const BRINE: int := 7
  const SEA: Summary := Summary(1, map[Cell(0, 0, 0) := BRINE])

  lemma SeaDrawn(h: Horizon)
    requires PEAK in h.summaries && h.summaries[PEAK] == SEA && Side(PEAK, UNDER) !in h.summaries && h.fluids == {BRINE}
    ensures !Hidden(h.summaries, PEAK)
    ensures (0, 0) in FarOf(h, PEAK).capped <==>
      SeaGoesOn(Get(h.summaries, Side(PEAK, OVER)), Get(h.fluid, Side(PEAK, OVER)), h.fluids, 1, 0, 0)
  {
    assert SEA.cells[Cell(0, 0, 0)] == BRINE;
    assert !Filled(h.summaries, Side(PEAK, UNDER));
  }

  /** Two summaries of sea, one on the other, as they are settled. */
  lemma SeaStands(past: FogTest) returns (h: Horizon)
    ensures Reachable(past, h) && Clear(h) && AllCovered(past, h, true) && h.stale == {} && h.fluids == {BRINE} && h.fluid == map[]
    ensures h.summaries == map[PEAK := SEA, Side(PEAK, OVER) := SEA]
  {
    ReachableStart(past);
    ReachableStep(past, NO_HORIZON, Tabled({BRINE}));
    var a := NO_HORIZON.(fluids := {BRINE});
    TableExact(past, NO_HORIZON, {BRINE}, true);
    ReachableStep(past, a, Arrives(PEAK, SEA));
    ArriveKeeps(past, a, PEAK, SEA, true);
    var b := Arrive(a, PEAK, SEA);
    ReachableStep(past, b, Arrives(Side(PEAK, OVER), SEA));
    ArriveKeeps(past, b, Side(PEAK, OVER), SEA, true);
    h := CanSettle(past, Arrive(b, Side(PEAK, OVER), SEA));
  }

  /** The upper one unloads: the lower one's top is the surface now, and is not
      drawn. */
  lemma UnloadingUncaps(past: FogTest)
    ensures exists h :: Lost(past, h, PEAK)
  {
    var h := SeaStands(past);
    var p := Side(PEAK, OVER);
    ReachableStep(past, h, Unloaded(p));
    var g := Unload(h, p);
    SeaDrawn(h);
    SeaDrawn(g);
    assert SEA.At(Cell(0, 0, 0)) == BRINE;
    assert SeaGoesOn(Some(SEA), Get(h.fluid, p), h.fluids, 1, 0, 0);
    assert !SeaGoesOn(None, Get(g.fluid, p), g.fluids, 1, 0, 0);
    assert Covered(past, h, PEAK, true);
    assert Lost(past, g, PEAK);
  }

  /** One summary of sea, settled with the chunk over it dry. */
  lemma ShallowSea(past: FogTest) returns (h: Horizon)
    ensures Reachable(past, h) && Clear(h) && AllCovered(past, h, true) && h.stale == {} && h.fluids == {BRINE} && h.fluid == map[]
    ensures h.summaries == map[PEAK := SEA]
  {
    ReachableStart(past);
    ReachableStep(past, NO_HORIZON, Tabled({BRINE}));
    var a := NO_HORIZON.(fluids := {BRINE});
    TableExact(past, NO_HORIZON, {BRINE}, true);
    ReachableStep(past, a, Arrives(PEAK, SEA));
    ArriveKeeps(past, a, PEAK, SEA, true);
    h := CanSettle(past, Arrive(a, PEAK, SEA));
  }

  const FLOOD: FluidLayer := map[Cell(8, 0, 8) := Fluid(1, 27)]

  /** Fluid comes for the position over it: its top is no surface now, and is
      still drawn as one. */
  lemma FloodingUncaps(past: FogTest)
    ensures exists h :: Lost(past, h, PEAK)
  {
    var h := ShallowSea(past);
    var p := Side(PEAK, OVER);
    ReachableStep(past, h, Flooded(p, FLOOD));
    assert !FLOOD[Cell(8, 0, 8)].IsEmpty();
    var g := Flood(h, p, FLOOD);
    SeaDrawn(h);
    SeaDrawn(g);
    assert BlockOver(0, 1) == 8;
    assert SeaGoesOn(None, Get(g.fluid, p), g.fluids, 1, 0, 0);
    assert !SeaGoesOn(None, Get(h.fluid, p), h.fluids, 1, 0, 0);
    assert Covered(past, h, PEAK, true);
    assert Lost(past, g, PEAK);
  }

  /** A table comes that draws the sea's material as no fluid: the sea is still
      drawn as one. */
  lemma TableUnheard(past: FogTest)
    ensures exists h :: Lost(past, h, PEAK)
  {
    var h := ShallowSea(past);
    ReachableStep(past, h, Tabled({}));
    var g := h.(fluids := {});
    SeaDrawn(h);
    assert SEA.cells[Cell(0, 0, 0)] == BRINE;
    assert BRINE in FarOf(h, PEAK).wet && FarOf(g, PEAK).wet == {};
    assert Covered(past, h, PEAK, true);
    assert Lost(past, g, PEAK);
  }

  // ----- Drawn, and still listed as held back -----

  /** Building a summary in sight does not take it off the list. */
  lemma FrameDraws(length: (real, real) -> real, h: Horizon, p: Pos)
    requires h.stale == {p} && !Judges(h) && p in h.summaries
    requires !Hidden(h.summaries, p) && !PastTheFog(Test(length), h, p)
    ensures FirstOf(Rejudge(Test(length), h).stale, [p])
    ensures Frame(Test(length), h, [p], 1) == h.(stale := {}, shown := h.shown[p := FarOf(h, p)])
  {
    var taken := h.(stale := h.stale - Members([p]));
    assert taken.stale == {};
    assert BuildAll(Test(length), taken, [p][..0]) == taken;
    assert BuildAll(Test(length), taken, [p]) == BuildOne(Test(length), taken, p);
    assert [p][..1] == [p] && [p][1..] == [];
    assert FarOf(taken, p) == FarOf(h, p);
    assert Members([p][1..]) == {};
  }

  const AGAIN: Horizon := CROSSED.(stale := {HILL})

  lemma HillAgain(length: (real, real) -> real)
    requires Measures(length)
    ensures Reachable(Test(length), AGAIN)
  {
    CrossingRuns(length);
    assert Reachable(Test(length), CROSSED);
    ReachableStep(Test(length), CROSSED, Arrives(HILL, HILLTOP));
    var again := Arrive(CROSSED, HILL, HILLTOP);
    assert CROSSED.summaries[HILL := HILLTOP] == map[HILL := HILLTOP];
    assert again.stale == {HILL} by {
      forall q | q in Sides(HILL) ensures q !in again.summaries {}
    }
    assert again == AGAIN;
  }

  lemma AgainInSight(length: (real, real) -> real)
    requires Measures(length)
    ensures !PastTheFog(Test(length), AGAIN, HILL) && !Judges(AGAIN) && !Hidden(AGAIN.summaries, HILL)
  {
    HillFromEdges(length);
    HilltopDrawn(AGAIN, HILL);
  }

  /** The hill that came into sight unjudged arrives once more. */
  lemma HillRedrawn(length: (real, real) -> real) returns (h: Horizon)
    requires Measures(length)
    ensures Reachable(Test(length), h) && h == AGAIN.(stale := {}, shown := map[HILL := FarOf(AGAIN, HILL)])
  {
    HillAgain(length);
    AgainInSight(length);
    FrameDraws(length, AGAIN, HILL);
    ReachableStep(Test(length), AGAIN, Drawn([HILL], 1));
    h := AGAIN.(stale := {}, shown := AGAIN.shown[HILL := FarOf(AGAIN, HILL)]);
  }

  /** A summary held back comes into sight, is drawn and stays listed as held
      back; then a table changes what it is worth.  It is in sight, drawn wrong
      and not waiting. */
  lemma DrawnWhileHeldBack(length: (real, real) -> real)
    requires Measures(length)
    ensures exists h ::
      && Reachable(Test(length), h) && HILL in h.summaries && !Covered(Test(length), h, HILL, false)
      && HILL in h.beyond && HILL in h.shown && HILL !in h.stale && !PastTheFog(Test(length), h, HILL)
  {
    var h := HillRedrawn(length);
    ReachableStep(Test(length), h, Tabled({1}));
    AgainInSight(length);
    var g := h.(fluids := {1});
    assert HILLTOP.cells[Cell(0, 0, 0)] == 1;
    assert 1 in FarOf(g, HILL).wet && FarOf(AGAIN, HILL).wet == {};
    assert PastTheFog(Test(length), g, HILL) == PastTheFog(Test(length), AGAIN, HILL);
    assert g.shown[HILL] != FarOf(g, HILL);
    assert !Covered(Test(length), g, HILL, false);
  }
}
