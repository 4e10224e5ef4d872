/** The client's tick in the form the frame loop keeps it: fields advanced one
    tick at a time (`crates/client/src/app.rs`). */
module TickClient {
  import opened InputQueue
  import opened TickSync
  import FixedStep

  class App<B(==)> {
    const sim: Sim<B>
    var tick: nat
    var predictor: Option<Predictor<B>>
    var previous: Intent
    var sent: seq<Input>
    var carry: real
    var paused: bool

    ghost function Model(): Client<B>
      reads this
    {
      Client(tick, predictor, previous, sent)
    }

    constructor (sim: Sim<B>, tick: nat, body: B, still: Intent)
      ensures Model() == Client(tick, Some(Predictor(body, tick, [])), still, []) && carry == 0.0 && !paused
      ensures this.sim == sim
    {
      this.sim, this.tick := sim, tick;
      predictor, previous, sent := Some(Predictor(body, tick, [])), still, [];
      carry, paused := 0.0, false;
    }

    /** One tick, simulated under its own number. */
    method StepTick(intent: Intent)
      modifies this`tick, this`predictor
      ensures Model() == Advance(sim, old(Model()), intent)
    {
      tick := tick + 1;
      if predictor.Some? {
        predictor := Some(Predict(sim, predictor.value, tick, intent));
      }
    }

    method SnapTo(want: nat)
      modifies this`tick, this`predictor
      ensures Model() == Snapped(old(Model()), want)
    {
      tick := want;
      if predictor.Some? {
        predictor := Some(Renumber(predictor.value, want));
      }
    }

    method ResynchroniseTick(server: nat)
      modifies this`tick, this`predictor
      ensures Model() == Resynchronised(sim, old(Model()), server)
    {
      var want := server + INPUT_LEAD;
      match ResyncPlan(tick, server)
      case Settled =>
        return;
      case Ahead =>
        SnapTo(want);
      case Behind(steps) =>
        var left := steps;
        while left > 0
          invariant left <= steps && previous == old(previous)
          invariant Skipped(sim, Model(), left) == Skipped(sim, old(Model()), steps)
        {
          StepTick(previous);
          left := left - 1;
        }
        if tick != want {
          SnapTo(want);
        }
    }

    method AcceptState(server: nat, body: B)
      modifies this`tick, this`predictor
      ensures Model() == Stated(sim, old(Model()), server, body)
    {
      ResynchroniseTick(server);
      if predictor.Some? {
        predictor := Some(Reconcile(sim, predictor.value, server, body));
      }
    }

    /** A frame: its time in whole ticks, each predicted and reported. */
    method Walk(intent: Intent, dt: real) returns (ghost spent: nat)
      modifies this
      ensures paused == old(paused)
      ensures var before := FixedStep.Clock(old(carry), 0, 0.0);
        var after := FixedStep.Walk(before, if paused then FixedStep.Paused else FixedStep.Playing(dt));
        carry == after.carry && spent == after.ticks
      ensures Model() == WalkAll(sim, old(Model()), seq(spent, _ => intent))
    {
      if paused {
        carry := 0.0;
        return 0;
      }
      carry := carry + dt;
      ghost var goal := FixedStep.Spend(carry, 0);
      spent := 0;
      var count := 0;
      while carry >= FixedStep.TICK_SECONDS && count < FixedStep.MAX_CATCH_UP
        invariant count <= FixedStep.MAX_CATCH_UP && spent == count
        invariant FixedStep.Spend(carry, count) == goal && paused == old(paused)
        invariant Model() == WalkAll(sim, old(Model()), seq(count, _ => intent))
        decreases FixedStep.MAX_CATCH_UP - count
      {
        WalkAllMore(sim, old(Model()), count, intent);
        carry := carry - FixedStep.TICK_SECONDS;
        count := count + 1;
        spent := count;
        StepTick(intent);
        previous := intent;
        sent := sent + [Input(tick, intent)];
      }
      if count == FixedStep.MAX_CATCH_UP {
        carry := 0.0;
      }
    }
  }

  lemma {:induction false} WalkAllMore<B>(sim: Sim<B>, c: Client<B>, n: nat, intent: Intent)
    ensures WalkAll(sim, c, seq(n + 1, _ => intent)) == Walked(sim, WalkAll(sim, c, seq(n, _ => intent)), intent)
    decreases n
  {
    var more, same := seq(n + 1, _ => intent), seq(n, _ => intent);
    if n == 0 {
      assert more[1..] == [];
    } else {
      assert more[1..] == same && same[1..] == seq(n - 1, _ => intent);
      WalkAllMore(sim, Walked(sim, c, intent), n - 1, intent);
    }
  }
}
