/** How smoothly frames come (`Pacing` in `crates/client/src/app.rs`): the worst
    figures of the last full second, held still while the next is gathered.
    Floats are reals; a frame's phases are an opaque value, zero by default. */
module Pacing {

  /** The largest figure noted and what was noted with it. */
  datatype Peak<T> = Peak(worst: real, with: T)

  datatype Cost = Cost(meshing: real, chunks: nat)

  datatype Figures = Figures(
    frame: Peak<int>,
    remesh: Peak<Cost>,
    correction: Peak<real>,
    divergence: real,
    unloaded: bool,
    footings: nat,
    presented: nat,
    conflicts: nat)

  const NOTHING: Figures := Figures(Peak(0.0, 0), Peak(0.0, Cost(0.0, 0)), Peak(0.0, 0.0), 0.0, false, 0, 0, 0)

  datatype Meter = Meter(elapsed: real, now: Figures, reported: Figures, lastFooting: bool, conflictsTotal: nat)

  const START: Meter := Meter(0.0, NOTHING, NOTHING, false, 0)

  const WINDOW: real := 1.0

  datatype Event =
    | Frame(dt: real, phases: int)
    | Remesh(millis: real, cost: Cost)
    | Correction(cells: real, vertical: real)
    | Divergence(cells: real)
    | Unloaded
    | Conflict
    | Presented
    | Footing(onGround: bool)

  function Raised<T>(p: Peak<T>, value: real, with: T): Peak<T> {
    if value > p.worst then Peak(value, with) else p
  }

  function Noted(m: Meter, e: Event): Meter {
    match e
    case Frame(dt, phases) =>
      var now := m.now.(frame := Raised(m.now.frame, dt * 1000.0, phases));
      if m.elapsed + dt >= WINDOW then m.(elapsed := 0.0, now := NOTHING, reported := now)
      else m.(elapsed := m.elapsed + dt, now := now)
    case Remesh(millis, cost) => m.(now := m.now.(remesh := Raised(m.now.remesh, millis, cost)))
    case Correction(cells, vertical) => m.(now := m.now.(correction := Raised(m.now.correction, cells, vertical)))
    case Divergence(cells) => m.(now := m.now.(divergence := if cells > m.now.divergence then cells else m.now.divergence))
    case Unloaded => m.(now := m.now.(unloaded := true))
    case Conflict => m.(now := m.now.(conflicts := m.now.conflicts + 1), conflictsTotal := m.conflictsTotal + 1)
    case Presented => m.(now := m.now.(presented := m.now.presented + 1))
    case Footing(onGround) =>
      if onGround == m.lastFooting then m
      else m.(now := m.now.(footings := m.now.footings + 1), lastFooting := onGround)
  }

  function After(es: seq<Event>): Meter
    decreases |es|
  {
    if es == [] then START else Noted(After(es[..|es| - 1]), es[|es| - 1])
  }

  // ----- The windows of a run -----

  function Elapsed(es: seq<Event>): real
    decreases |es|
  {
    if es == [] then 0.0
    else Elapsed(es[..|es| - 1]) + if es[|es| - 1].Frame? then es[|es| - 1].dt else 0.0
  }

  /** A run, cut where windows filled: all before the window last published, that
      window, and the one being gathered. */
  datatype History = History(before: seq<Event>, published: seq<Event>, window: seq<Event>)

  /** A frame that brings a window to its length closes it. */
  function Cut(h: History, e: Event): (c: History)
    ensures Run(c) == Run(h) + [e]
  {
    var window := h.window + [e];
    if e.Frame? && Elapsed(window) >= WINDOW then History(h.before + h.published, window, [])
    else h.(window := window)
  }

  function Run(h: History): seq<Event> {
    h.before + h.published + h.window
  }

  function Cuts(es: seq<Event>): (h: History)
    ensures Run(h) == es
    decreases |es|
  {
    if es == [] then History([], [], []) else Cut(Cuts(es[..|es| - 1]), es[|es| - 1])
  }

  // ----- What a window's figures mean -----

  /** The figure an event brings to each record, if any. */
  datatype Kind = OfFrame | OfRemesh | OfCorrection

  predicate Brings(k: Kind, e: Event) {
    match k case OfFrame => e.Frame? case OfRemesh => e.Remesh? case OfCorrection => e.Correction?
  }

  function Value(k: Kind, e: Event): real
    requires Brings(k, e)
  {
    match k case OfFrame => e.dt * 1000.0 case OfRemesh => e.millis case OfCorrection => e.cells
  }

  /** The record is the largest of the window, with the companions of the first
      event to reach it; nothing above zero leaves it as it began. */
  ghost predicate IsPeak<T(!new)>(k: Kind, window: seq<Event>, p: Peak<T>, with: Event -> T, none: T) {
    && (forall i :: 0 <= i < |window| && Brings(k, window[i]) ==> Value(k, window[i]) <= p.worst)
    && (if p.worst == 0.0 then p.with == none
        else p.worst > 0.0 && exists i :: FirstToReach(k, window, p.worst, i) && with(window[i]) == p.with)
  }

  ghost predicate FirstToReach(k: Kind, window: seq<Event>, worst: real, i: int) {
    && 0 <= i < |window| && Brings(k, window[i]) && Value(k, window[i]) == worst
    && forall j :: 0 <= j < i && Brings(k, window[j]) ==> Value(k, window[j]) < worst
  }

  function PhasesOf(e: Event): int { if e.Frame? then e.phases else 0 }
  function CostOf(e: Event): Cost { if e.Remesh? then e.cost else Cost(0.0, 0) }
  function VerticalOf(e: Event): real { if e.Correction? then e.vertical else 0.0 }

  /** How many events of the window pass a test. */
  function Count(window: seq<Event>, test: Event -> bool): nat
    decreases |window|
  {
    if window == [] then 0 else Count(window[..|window| - 1], test) + if test(window[|window| - 1]) then 1 else 0
  }

  /** The footing after some events, and how often it changed over them. */
  function FootingAfter(footing: bool, es: seq<Event>): bool
    decreases |es|
  {
    if es == [] then footing
    else if es[|es| - 1].Footing? then es[|es| - 1].onGround
    else FootingAfter(footing, es[..|es| - 1])
  }

  function Changes(footing: bool, es: seq<Event>): nat
    decreases |es|
  {
    if es == [] then 0
    else
      var front, e := es[..|es| - 1], es[|es| - 1];
      Changes(footing, front) + if e.Footing? && e.onGround != FootingAfter(footing, front) then 1 else 0
  }

  function IsConflict(e: Event): bool { e.Conflict? }
  function IsPresented(e: Event): bool { e.Presented? }
  function IsUnloaded(e: Event): bool { e.Unloaded? }

  ghost predicate IsWorst(window: seq<Event>, worst: real) {
    && worst >= 0.0 && (forall e :: e in window && e.Divergence? ==> e.cells <= worst)
    && (worst == 0.0 || exists e :: e in window && e.Divergence? && e.cells == worst)
  }

  ghost predicate Peaks(window: seq<Event>, f: Figures) {
    && IsPeak(OfFrame, window, f.frame, PhasesOf, 0)
    && IsPeak(OfRemesh, window, f.remesh, CostOf, Cost(0.0, 0))
    && IsPeak(OfCorrection, window, f.correction, VerticalOf, 0.0)
  }

  ghost predicate Tallies(window: seq<Event>, f: Figures) {
    && f.unloaded == (Count(window, IsUnloaded) > 0)
    && f.presented == Count(window, IsPresented)
    && f.conflicts == Count(window, IsConflict)
  }

  /** The figures of a window that began at this footing. */
  ghost predicate Describes(footing: bool, window: seq<Event>, f: Figures) {
    Peaks(window, f) && IsWorst(window, f.divergence) && Tallies(window, f) && f.footings == Changes(footing, window)
  }

  // ----- One event more -----

  lemma PeakWithout<T(!new)>(k: Kind, window: seq<Event>, p: Peak<T>, with: Event -> T, none: T, e: Event)
    requires IsPeak(k, window, p, with, none) && (Brings(k, e) ==> Value(k, e) <= p.worst)
    ensures IsPeak(k, window + [e], p, with, none)
  {
    var more := window + [e];
    if p.worst != 0.0 {
      var i :| FirstToReach(k, window, p.worst, i) && with(window[i]) == p.with;
      assert more[i] == window[i];
      assert FirstToReach(k, more, p.worst, i) by {
        forall j | 0 <= j < i && Brings(k, more[j]) ensures Value(k, more[j]) < p.worst { assert more[j] == window[j]; }
      }
    }
  }

  lemma PeakRaised<T(!new)>(k: Kind, window: seq<Event>, p: Peak<T>, with: Event -> T, none: T, e: Event)
    requires IsPeak(k, window, p, with, none) && Brings(k, e)
    ensures IsPeak(k, window + [e], Raised(p, Value(k, e), with(e)), with, none)
  {
    if Value(k, e) > p.worst {
      var more := window + [e];
      forall j | 0 <= j < |window| && Brings(k, more[j]) ensures Value(k, more[j]) < Value(k, e) {
        assert more[j] == window[j];
      }
      assert more[|window|] == e && FirstToReach(k, more, Value(k, e), |window|);
    } else {
      PeakWithout(k, window, p, with, none, e);
    }
  }

  function Counted(f: Figures, e: Event, changed: bool): Figures {
    match e
    case Frame(dt, phases) => f.(frame := Raised(f.frame, dt * 1000.0, phases))
    case Remesh(millis, cost) => f.(remesh := Raised(f.remesh, millis, cost))
    case Correction(cells, vertical) => f.(correction := Raised(f.correction, cells, vertical))
    case Divergence(cells) => f.(divergence := if cells > f.divergence then cells else f.divergence)
    case Unloaded => f.(unloaded := true)
    case Conflict => f.(conflicts := f.conflicts + 1)
    case Presented => f.(presented := f.presented + 1)
    case Footing(_) => if changed then f.(footings := f.footings + 1) else f
  }

  lemma PeaksNext(window: seq<Event>, f: Figures, e: Event, changed: bool)
    requires Peaks(window, f)
    ensures Peaks(window + [e], Counted(f, e, changed))
  {
    if e.Frame? { PeakRaised(OfFrame, window, f.frame, PhasesOf, 0, e); }
    else { PeakWithout(OfFrame, window, f.frame, PhasesOf, 0, e); }
    if e.Remesh? { PeakRaised(OfRemesh, window, f.remesh, CostOf, Cost(0.0, 0), e); }
    else { PeakWithout(OfRemesh, window, f.remesh, CostOf, Cost(0.0, 0), e); }
    if e.Correction? { PeakRaised(OfCorrection, window, f.correction, VerticalOf, 0.0, e); }
    else { PeakWithout(OfCorrection, window, f.correction, VerticalOf, 0.0, e); }
  }

  lemma WorstNext(window: seq<Event>, worst: real, e: Event)
    requires IsWorst(window, worst)
    ensures IsWorst(window + [e], if e.Divergence? && e.cells > worst then e.cells else worst)
  {
  }

  lemma TalliesNext(window: seq<Event>, f: Figures, e: Event, changed: bool)
    requires Tallies(window, f)
    ensures Tallies(window + [e], Counted(f, e, changed))
  {
  }

  lemma FootingNext(footing: bool, window: seq<Event>, e: Event)
    ensures Changes(footing, window + [e]) ==
      Changes(footing, window) + if e.Footing? && e.onGround != FootingAfter(footing, window) then 1 else 0
    ensures FootingAfter(footing, window + [e]) == if e.Footing? then e.onGround else FootingAfter(footing, window)
    ensures Elapsed(window + [e]) == Elapsed(window) + if e.Frame? then e.dt else 0.0
  {
    assert (window + [e])[..|window|] == window;
  }

  lemma DescribesNext(footing: bool, window: seq<Event>, f: Figures, e: Event)
    requires Describes(footing, window, f)
    ensures Describes(footing, window + [e], Counted(f, e, e.Footing? && e.onGround != FootingAfter(footing, window)))
  {
    var changed := e.Footing? && e.onGround != FootingAfter(footing, window);
    PeaksNext(window, f, e, changed);
    WorstNext(window, f.divergence, e);
    TalliesNext(window, f, e, changed);
    FootingNext(footing, window, e);
  }

  /** A window just opened has nothing in it. */
  lemma JustOpened(footing: bool)
    ensures Describes(footing, [], NOTHING)
  {
  }

  // ----- Every run -----

  lemma {:induction false} FootingJoin(footing: bool, a: seq<Event>, b: seq<Event>)
    ensures FootingAfter(footing, a + b) == FootingAfter(FootingAfter(footing, a), b)
    ensures Changes(footing, a + b) == Changes(footing, a) + Changes(FootingAfter(footing, a), b)
    decreases |b|
  {
    if b == [] {
      assert a + b == a;
    } else {
      var front, e := b[..|b| - 1], b[|b| - 1];
      assert a + b == (a + front) + [e] && b == front + [e];
      FootingJoin(footing, a, front);
      FootingNext(footing, a + front, e);
      FootingNext(FootingAfter(footing, a), front, e);
    }
  }

  /** The footing when the published window began, and when this one did. */
  function FootingBefore(h: History): bool { FootingAfter(false, h.before) }
  function FootingAtOpen(h: History): bool { FootingAfter(FootingBefore(h), h.published) }

  /** What is being gathered describes the window being gathered; what is
      reported describes exactly the window last filled. */
  ghost predicate Stands(h: History, m: Meter) {
    && m.elapsed == Elapsed(h.window)
    && Describes(FootingAtOpen(h), h.window, m.now)
    && Describes(FootingBefore(h), h.published, m.reported)
    && m.lastFooting == FootingAfter(FootingAtOpen(h), h.window)
  }

  lemma NextStands(h: History, m: Meter, e: Event)
    requires Stands(h, m)
    ensures Stands(Cut(h, e), Noted(m, e))
  {
    var changed := e.Footing? && e.onGround != m.lastFooting;
    DescribesNext(FootingAtOpen(h), h.window, m.now, e);
    FootingNext(FootingAtOpen(h), h.window, e);
    NotedMeans(m, e);
    if e.Frame? && Elapsed(h.window + [e]) >= WINDOW {
      FootingJoin(false, h.before, h.published);
      JustOpened(FootingAtOpen(Cut(h, e)));
    }
  }

  /** Noting is counting, and closing the window if it is full. */
  lemma NotedMeans(m: Meter, e: Event)
    ensures var changed := e.Footing? && e.onGround != m.lastFooting;
      var n, now := Noted(m, e), Counted(m.now, e, changed);
      && n.lastFooting == (if e.Footing? then e.onGround else m.lastFooting)
      && if e.Frame? && m.elapsed + e.dt >= WINDOW then n.elapsed == 0.0 && n.now == NOTHING && n.reported == now
         else n.elapsed == (m.elapsed + if e.Frame? then e.dt else 0.0) && n.now == now && n.reported == m.reported
  {
  }

  /** After every run of events. */
  lemma {:induction false} EveryRun(es: seq<Event>)
    ensures Stands(Cuts(es), After(es))
    decreases |es|
  {
    if es == [] {
      JustOpened(false);
    } else {
      EveryRun(es[..|es| - 1]);
      NextStands(Cuts(es[..|es| - 1]), After(es[..|es| - 1]), es[|es| - 1]);
    }
  }

  /** The session's total is every conflict ever noted. */
  lemma {:induction false} ConflictsAdd(es: seq<Event>)
    ensures After(es).conflictsTotal == Count(es, IsConflict)
    decreases |es|
  {
    if es != [] { ConflictsAdd(es[..|es| - 1]); }
  }

  /** Every change of footing falls in exactly one window: those before, the one
      published and the one being gathered make up the run's. */
  lemma FootingsAdd(es: seq<Event>)
    ensures var h, m := Cuts(es), After(es);
      Changes(false, es) == Changes(false, h.before) + m.reported.footings + m.now.footings
  {
    var h := Cuts(es);
    EveryRun(es);
    FootingJoin(false, h.before + h.published, h.window);
    FootingJoin(false, h.before, h.published);
  }

  // ----- The object -----

  class Meters {
    var elapsed: real
    var now: Figures
    var reported: Figures
    var lastFooting: bool
    var conflictsTotal: nat

    function Model(): Meter
      reads this
    {
      Meter(elapsed, now, reported, lastFooting, conflictsTotal)
    }

    constructor ()
      ensures Model() == START
    {
      elapsed, now, reported, lastFooting, conflictsTotal := 0.0, NOTHING, NOTHING, false, 0;
    }

    method NoteFrame(dt: real, phases: int)
      modifies this
      ensures Model() == Noted(old(Model()), Frame(dt, phases))
    {
      var millis := dt * 1000.0;
      if millis > now.frame.worst {
        now := now.(frame := Peak(millis, phases));
      }
      elapsed := elapsed + dt;
      if elapsed >= WINDOW {
        reported := now;
        now, elapsed := NOTHING, 0.0;
      }
    }

    method NoteRemesh(millis: real, cost: Cost)
      modifies this
      ensures Model() == Noted(old(Model()), Remesh(millis, cost))
    {
      if millis > now.remesh.worst {
        now := now.(remesh := Peak(millis, cost));
      }
    }

    method NoteCorrection(cells: real, vertical: real)
      modifies this
      ensures Model() == Noted(old(Model()), Correction(cells, vertical))
    {
      if cells > now.correction.worst {
        now := now.(correction := Peak(cells, vertical));
      }
    }

    method NoteDivergence(cells: real)
      modifies this
      ensures Model() == Noted(old(Model()), Divergence(cells))
    {
      if cells > now.divergence {
        now := now.(divergence := cells);
      }
    }

    method NoteUnloaded()
      modifies this
      ensures Model() == Noted(old(Model()), Unloaded)
    {
      now := now.(unloaded := true);
    }

    method NotePresented()
      modifies this
      ensures Model() == Noted(old(Model()), Presented)
    {
      now := now.(presented := now.presented + 1);
    }

    method NoteConflict()
      modifies this
      ensures Model() == Noted(old(Model()), Conflict)
    {
      now := now.(conflicts := now.conflicts + 1);
      conflictsTotal := conflictsTotal + 1;
    }

    method NoteFooting(onGround: bool)
      modifies this
      ensures Model() == Noted(old(Model()), Footing(onGround))
    {
      if onGround != lastFooting {
        now := now.(footings := now.footings + 1);
        lastFooting := onGround;
      }
    }
  }
}
