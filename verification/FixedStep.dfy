/** Frames into ticks (`crates/client/src/app.rs` `walk`): frame time gathered
    and spent in whole ticks, four at most a frame, what is over after four
    thrown away.  Seconds are reals. */
module FixedStep {

  const TICK_SECONDS: real := 1.0 / 20.0
  const MAX_CATCH_UP: nat := 4

  /** Time not yet spent, ticks run, and time thrown away, so far. */
  datatype Clock = Clock(carry: real, ticks: nat, abandoned: real)

  datatype Frame = Playing(dt: real) | Paused

  /** Whole ticks out of `carry`, up to the bound. */
  function Spend(carry: real, spent: nat): (real, nat)
    requires spent <= MAX_CATCH_UP
    decreases MAX_CATCH_UP - spent
  {
    if carry >= TICK_SECONDS && spent < MAX_CATCH_UP then Spend(carry - TICK_SECONDS, spent + 1) else (carry, spent)
  }

  function Walk(c: Clock, frame: Frame): Clock {
    match frame
    case Paused => c.(carry := 0.0, abandoned := c.abandoned + c.carry)
    case Playing(dt) =>
      var (left, spent) := Spend(c.carry + dt, 0);
      if spent == MAX_CATCH_UP then Clock(0.0, c.ticks + spent, c.abandoned + left)
      else Clock(left, c.ticks + spent, c.abandoned)
  }

  predicate Valid(c: Clock) {
    0.0 <= c.carry < TICK_SECONDS && c.abandoned >= 0.0
  }

  predicate Possible(frame: Frame) {
    frame.Playing? ==> frame.dt >= 0.0
  }

  lemma {:induction false} SpendConserves(carry: real, spent: nat)
    requires carry >= 0.0 && spent <= MAX_CATCH_UP
    ensures var (left, n) := Spend(carry, spent);
      && spent <= n <= MAX_CATCH_UP && left >= 0.0
      && left + n as real * TICK_SECONDS == carry + spent as real * TICK_SECONDS
      && (n < MAX_CATCH_UP ==> left < TICK_SECONDS)
    decreases MAX_CATCH_UP - spent
  {
    if carry >= TICK_SECONDS && spent < MAX_CATCH_UP {
      SpendConserves(carry - TICK_SECONDS, spent + 1);
    }
  }

  function Time(frame: Frame): real {
    if frame.Playing? then frame.dt else 0.0
  }

  /** No time is lost or made: what came in was run, is carried, or was thrown
      away, and only a paused frame or one at the cap throws any away. */
  lemma FrameConserves(c: Clock, frame: Frame)
    requires Valid(c) && Possible(frame)
    ensures var c' := Walk(c, frame);
      && Valid(c') && c.ticks <= c'.ticks <= c.ticks + MAX_CATCH_UP
      && c'.ticks as real * TICK_SECONDS + c'.carry + c'.abandoned
         == c.ticks as real * TICK_SECONDS + c.carry + c.abandoned + Time(frame)
      && (c'.abandoned != c.abandoned ==> frame.Paused? || c'.ticks == c.ticks + MAX_CATCH_UP)
  {
    if frame.Playing? {
      SpendConserves(c.carry + frame.dt, 0);
    }
  }

  function Run(c: Clock, frames: seq<Frame>): Clock
    decreases |frames|
  {
    if frames == [] then c else Run(Walk(c, frames[0]), frames[1..])
  }

  function Total(frames: seq<Frame>): real {
    if frames == [] then 0.0 else Time(frames[0]) + Total(frames[1..])
  }

  lemma {:induction false} RunConserves(c: Clock, frames: seq<Frame>)
    requires Valid(c) && forall i :: 0 <= i < |frames| ==> Possible(frames[i])
    ensures var c' := Run(c, frames);
      && Valid(c') && c'.ticks >= c.ticks && c'.abandoned >= c.abandoned
      && c'.ticks as real * TICK_SECONDS + c'.carry + c'.abandoned
         == c.ticks as real * TICK_SECONDS + c.carry + c.abandoned + Total(frames)
    decreases |frames|
  {
    if frames != [] {
      FrameConserves(c, frames[0]);
      AbandonedGrows(c, frames[0]);
      RunConserves(Walk(c, frames[0]), frames[1..]);
    }
  }

  lemma AbandonedGrows(c: Clock, frame: Frame)
    requires Valid(c) && Possible(frame)
    ensures Walk(c, frame).abandoned >= c.abandoned
  {
    if frame.Playing? {
      SpendConserves(c.carry + frame.dt, 0);
    }
  }

  const START: Clock := Clock(0.0, 0, 0.0)

  /** The ticks a run makes are the whole ticks in the time it did not throw
      away. */
  lemma TicksAreTheFloor(frames: seq<Frame>)
    requires forall i :: 0 <= i < |frames| ==> Possible(frames[i])
    ensures var c := Run(START, frames);
      c.ticks == ((Total(frames) - c.abandoned) / TICK_SECONDS).Floor
  {
    RunConserves(START, frames);
    var c := Run(START, frames);
    var spent := Total(frames) - c.abandoned;
    assert spent == c.ticks as real * TICK_SECONDS + c.carry;
    assert spent / TICK_SECONDS == c.ticks as real + c.carry / TICK_SECONDS;
    assert 0.0 <= c.carry / TICK_SECONDS < 1.0;
  }

  /** No frame of the run is paused or reaches the cap. */
  predicate Unhurried(c: Clock, frames: seq<Frame>)
    decreases |frames|
  {
    frames == [] ||
    (frames[0].Playing? && Walk(c, frames[0]).ticks < c.ticks + MAX_CATCH_UP && Unhurried(Walk(c, frames[0]), frames[1..]))
  }

  lemma {:induction false} UnhurriedKeepsTime(c: Clock, frames: seq<Frame>)
    requires Valid(c) && (forall i :: 0 <= i < |frames| ==> Possible(frames[i])) && Unhurried(c, frames)
    ensures Run(c, frames).abandoned == c.abandoned
    decreases |frames|
  {
    if frames != [] {
      FrameConserves(c, frames[0]);
      UnhurriedKeepsTime(Walk(c, frames[0]), frames[1..]);
    }
  }

  /** A fast machine and a slow one predict the same ticks: any two ways of
      cutting the same time into frames, neither reaching the cap, run the same
      number, and carry the same fraction. */
  lemma FrameRateDoesNotMatter(a: seq<Frame>, b: seq<Frame>)
    requires forall i :: 0 <= i < |a| ==> Possible(a[i])
    requires forall i :: 0 <= i < |b| ==> Possible(b[i])
    requires Unhurried(START, a) && Unhurried(START, b) && Total(a) == Total(b)
    ensures Run(START, a) == Run(START, b)
  {
    TicksAreTheFloor(a);
    TicksAreTheFloor(b);
    UnhurriedKeepsTime(START, a);
    UnhurriedKeepsTime(START, b);
    RunConserves(START, a);
    RunConserves(START, b);
  }

  /** At the cap it does matter: a fifth of a second and a little more as one
      frame throws the little away, and as two frames keeps it. */
  lemma CapThrowsTimeAway()
    ensures var whole, halves := [Playing(0.24), Playing(0.01)], [Playing(0.12), Playing(0.13)];
      Total(whole) == Total(halves) && Run(START, whole).ticks == 4 && Run(START, halves).ticks == 5
  {
    var whole, halves := [Playing(0.24), Playing(0.01)], [Playing(0.12), Playing(0.13)];
    assert whole[1..] == [Playing(0.01)] && halves[1..] == [Playing(0.13)];
    assert whole[1..][1..] == [] && halves[1..][1..] == [];
    SpendFour(0.24);
    assert Walk(START, Playing(0.24)) == Clock(0.0, 4, 0.04);
    assert Spend(0.01, 0) == (0.01, 0);
    SpendTwo(0.12);
    SpendThree(0.15);
  }

  lemma SpendTwo(t: real)
    requires 0.1 <= t < 0.15
    ensures Spend(t, 0) == (t - 0.1, 2)
  {
    assert Spend(t - 0.1, 2) == (t - 0.1, 2);
    assert Spend(t - 0.05, 1) == Spend(t - 0.1, 2);
  }

  lemma SpendThree(t: real)
    requires 0.15 <= t < 0.2
    ensures Spend(t, 0) == (t - 0.15, 3)
  {
    assert Spend(t - 0.15, 3) == (t - 0.15, 3);
    assert Spend(t - 0.1, 2) == Spend(t - 0.15, 3);
    assert Spend(t - 0.05, 1) == Spend(t - 0.1, 2);
  }

  lemma SpendFour(t: real)
    requires t >= 0.2
    ensures Spend(t, 0) == (t - 0.2, 4)
  {
    assert Spend(t - 0.2, 4) == (t - 0.2, 4);
    assert Spend(t - 0.15, 3) == Spend(t - 0.2, 4);
    assert Spend(t - 0.1, 2) == Spend(t - 0.15, 3);
    assert Spend(t - 0.05, 1) == Spend(t - 0.1, 2);
  }

  /** What a frame does: a pause drops what is carried; otherwise the whole ticks in
      what has gathered are run and the rest is carried, and from four ticks on,
      four are run and the rest is dropped. */
  lemma FrameExact(c: Clock, frame: Frame)
    requires Valid(c) && Possible(frame)
    ensures frame.Paused? ==> Walk(c, frame) == Clock(0.0, c.ticks, c.abandoned + c.carry)
    ensures frame.Playing? ==>
      var c', gathered := Walk(c, frame), c.carry + frame.dt;
      if gathered < 0.2 then
        && c'.ticks >= c.ticks && c'.abandoned == c.abandoned
        && c'.carry == gathered - (c'.ticks - c.ticks) as real / 20.0 && 0.0 <= c'.carry < 0.05
      else c' == Clock(0.0, c.ticks + 4, c.abandoned + (gathered - 0.2))
  {
    if frame.Playing? {
      SpendConserves(c.carry + frame.dt, 0);
    }
  }
}
