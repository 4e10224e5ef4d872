/** The queue as the server keeps it: filed, popped and answered in place
    (`crates/core/src/phys/input.rs`). */
module InputBuffer {
  import opened InputQueue

  class Buffer {
    var pending: map<nat, Intent>
    var lastApplied: nat
    var lastIntent: Intent
    var lastFresh: nat
    const neutral: Intent

    ghost function Model(): Queue
      reads this
    {
      Queue(pending, lastApplied, lastIntent, lastFresh, neutral)
    }

    constructor (start: nat, neutral: Intent)
      ensures Model() == New(start, neutral)
    {
      pending, lastApplied, lastIntent, lastFresh := map[], start, neutral, start;
      this.neutral := neutral;
    }

    method Offer(tick: nat, intent: Intent) returns (kept: bool)
      modifies this
      ensures (Model(), kept) == InputQueue.Offer(old(Model()), tick, intent)
    {
      if tick <= lastApplied || tick > lastApplied + MAX_LOOKAHEAD {
        return false;
      }
      if tick in pending {
        return false;
      }
      pending := pending[tick := intent];
      return true;
    }

    /** The oldest tick waiting. */
    method First() returns (t: nat)
      requires pending != map[]
      ensures t in pending && forall u :: u in pending ==> t <= u
    {
      t :| t in pending;
      var rest := pending.Keys - {t};
      while rest != {}
        invariant t in pending && rest <= pending.Keys
        invariant forall u :: u in pending && u !in rest ==> t <= u
        decreases |rest|
      {
        var u :| u in rest;
        if u < t {
          t := u;
        }
        rest := rest - {u};
      }
    }

    /** Pops everything due by `tick`, oldest first, keeping the last. */
    method PopDue(tick: nat) returns (heard: bool)
      modifies this`pending, this`lastIntent
      ensures heard <==> AnyDue(old(pending), tick)
      ensures pending == After(old(pending), tick)
      ensures lastIntent == if heard then old(pending)[Newest(old(pending), tick)] else old(lastIntent)
    {
      heard := false;
      ghost var all, newest := pending, 0;
      while pending != map[]
        invariant forall t :: t in pending ==> t in all && pending[t] == all[t]
        invariant forall t :: t in all && t > tick ==> t in pending
        invariant heard ==> newest in all && newest <= tick && lastIntent == all[newest]
        invariant heard ==> forall t :: t in all && t !in pending ==> t <= newest
        invariant heard ==> forall t :: t in pending ==> newest < t
        invariant !heard ==> pending == all && lastIntent == old(lastIntent)
        decreases |pending|
      {
        var first := First();
        if first > tick {
          break;
        }
        lastIntent := pending[first];
        newest := first;
        pending := pending - {first};
        heard := true;
      }
      if heard {
        NewestIs(all, tick, newest);
      }
    }

    method Take(tick: nat) returns (intent: Intent)
      modifies this
      ensures (Model(), intent) == InputQueue.Take(old(Model()), tick)
    {
      var heard := PopDue(tick);
      lastApplied := tick;
      if heard {
        lastFresh := tick;
      } else if tick > lastFresh && tick - lastFresh > MAX_REPEAT_TICKS {
        lastIntent := neutral;
      }
      return lastIntent;
    }
  }

  lemma NewestIs(pending: map<nat, Intent>, tick: nat, t: nat)
    requires IsNewest(pending, tick, t)
    ensures AnyDue(pending, tick) && Newest(pending, tick) == t
  {
  }
}
