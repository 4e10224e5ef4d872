/** The server's reorder buffer between a player's inputs and the ticks that
    apply them (`crates/core/src/phys/input.rs`).  An intent is opaque here:
    nothing in the queue looks inside one. */
module InputQueue {

  type Intent(==, !new)

  const MAX_LOOKAHEAD: nat := 64
  const MAX_REPEAT_TICKS: nat := 10

  datatype Queue = Queue(pending: map<nat, Intent>, lastApplied: nat, lastIntent: Intent, lastFresh: nat, neutral: Intent)

  function New(start: nat, neutral: Intent): Queue {
    Queue(map[], start, neutral, start, neutral)
  }

  // ----- Offering -----

  predicate InWindow(q: Queue, tick: nat) {
    q.lastApplied < tick <= q.lastApplied + MAX_LOOKAHEAD
  }

  function Offer(q: Queue, tick: nat, intent: Intent): (Queue, bool) {
    if !InWindow(q, tick) || tick in q.pending then (q, false)
    else (q.(pending := q.pending[tick := intent]), true)
  }

  datatype Input = Input(tick: nat, intent: Intent)

  function OfferAll(q: Queue, inputs: seq<Input>): Queue
    decreases |inputs|
  {
    if inputs == [] then q else OfferAll(Offer(q, inputs[0].tick, inputs[0].intent).0, inputs[1..])
  }

  /** Nothing waits for a tick already answered or too far ahead. */
  ghost predicate Valid(q: Queue) {
    (forall t :: t in q.pending ==> InWindow(q, t)) && q.lastFresh <= q.lastApplied
  }

  /** However it is driven, the queue holds at most the lookahead. */
  lemma Bounded(q: Queue)
    requires Valid(q)
    ensures |q.pending| <= MAX_LOOKAHEAD
  {
    AtMost(q.pending.Keys, q.lastApplied, MAX_LOOKAHEAD);
    assert |q.pending| == |q.pending.Keys|;
  }

  lemma {:induction false} AtMost(ticks: set<nat>, from: nat, n: nat)
    requires forall t :: t in ticks ==> from < t <= from + n
    ensures |ticks| <= n
  {
    if n == 0 {
      assert ticks == {};
    } else {
      AtMost(ticks - {from + n}, from, n - 1);
      assert ticks <= (ticks - {from + n}) + {from + n};
    }
  }

  /** Copies of one tick's input agree: what redundancy sends. */
  ghost predicate Agreeing(inputs: seq<Input>) {
    forall i, j :: 0 <= i < |inputs| && 0 <= j < |inputs| && inputs[i].tick == inputs[j].tick ==> inputs[i] == inputs[j]
  }

  /** What a batch of inputs leaves pending: all that is in the window, under its
      own tick, beside what was held. */
  ghost predicate Filed(q: Queue, inputs: seq<Input>, q': Queue) {
    && q' == q.(pending := q'.pending)
    && (forall t :: t in q.pending ==> t in q'.pending && q'.pending[t] == q.pending[t])
    && (forall t :: t in q'.pending && t !in q.pending ==> InWindow(q, t) && Input(t, q'.pending[t]) in inputs)
    && (forall i :: 0 <= i < |inputs| && InWindow(q, inputs[i].tick) ==> inputs[i].tick in q'.pending)
  }

  lemma {:induction false} OfferAllFiles(q: Queue, inputs: seq<Input>)
    ensures Filed(q, inputs, OfferAll(q, inputs))
    ensures Valid(q) ==> Valid(OfferAll(q, inputs))
    decreases |inputs|
  {
    if inputs != [] {
      var one := Offer(q, inputs[0].tick, inputs[0].intent).0;
      OfferAllFiles(one, inputs[1..]);
      var q' := OfferAll(q, inputs);
      assert inputs == [inputs[0]] + inputs[1..];
      forall t | t in q'.pending && t !in q.pending ensures Input(t, q'.pending[t]) in inputs {
        if t in one.pending {
          assert inputs[0] == Input(t, q'.pending[t]);
        }
      }
      forall i | 0 <= i < |inputs| && InWindow(q, inputs[i].tick) ensures inputs[i].tick in q'.pending {
        if i > 0 {
          assert inputs[i] == inputs[1..][i - 1];
        }
      }
    }
  }

  /** Reordering and repetition are absorbed: two deliveries of the same inputs,
      in any order and with any repeats, leave the same queue. */
  lemma OrderDoesNotMatter(q: Queue, a: seq<Input>, b: seq<Input>)
    requires Agreeing(a) && (forall x :: x in a <==> x in b)
    ensures OfferAll(q, a) == OfferAll(q, b)
  {
    OfferAllFiles(q, a);
    OfferAllFiles(q, b);
    var qa, qb := OfferAll(q, a), OfferAll(q, b);
    SameFiled(q, a, b, qa, qb);
    SameFiled(q, b, a, qb, qa);
    assert qa.pending == qb.pending;
  }

  lemma SameFiled(q: Queue, a: seq<Input>, b: seq<Input>, qa: Queue, qb: Queue)
    requires Filed(q, a, qa) && Filed(q, b, qb) && (forall x :: x in a <==> x in b)
    requires Agreeing(a) || Agreeing(b)
    ensures forall t :: t in qa.pending ==> t in qb.pending && qb.pending[t] == qa.pending[t]
  {
  }

  // ----- Taking -----

  /** The newest input due by `tick`. */
  ghost predicate IsNewest(pending: map<nat, Intent>, tick: nat, t: nat) {
    t in pending && t <= tick && forall u :: u in pending && u <= tick ==> u <= t
  }

  predicate AnyDue(pending: map<nat, Intent>, tick: nat) {
    exists t :: t in pending && t <= tick
  }

  ghost function Newest(pending: map<nat, Intent>, tick: nat): (t: nat)
    requires AnyDue(pending, tick)
    ensures IsNewest(pending, tick, t)
    decreases tick
  {
    if tick in pending then tick
    else
      var u :| u in pending && u <= tick;
      Newest(pending, tick - 1)
  }

  function After(pending: map<nat, Intent>, tick: nat): map<nat, Intent> {
    map t | t in pending && t > tick :: pending[t]
  }

  ghost function Take(q: Queue, tick: nat): (Queue, Intent) {
    var heard := AnyDue(q.pending, tick);
    var stale := !heard && tick > q.lastFresh && tick - q.lastFresh > MAX_REPEAT_TICKS;
    var intent := if heard then q.pending[Newest(q.pending, tick)] else if stale then q.neutral else q.lastIntent;
    (q.(pending := After(q.pending, tick), lastApplied := tick, lastIntent := intent,
        lastFresh := if heard then tick else q.lastFresh), intent)
  }

  lemma TakeValid(q: Queue, tick: nat)
    requires Valid(q) && tick >= q.lastApplied
    ensures Valid(Take(q, tick).0)
  {
  }

  /** The answers to the next `n` ticks. */
  ghost function Answers(q: Queue, n: nat): seq<Intent>
    decreases n
  {
    if n == 0 then [] else [Take(q, q.lastApplied + 1).1] + Answers(Take(q, q.lastApplied + 1).0, n - 1)
  }

  /** The newest input a tick could be repeating is at most the bound behind it. */
  ghost predicate HeardLately(q: Queue, t: nat) {
    exists f: nat :: HeardAt(q, f) && f < t && t - f <= MAX_REPEAT_TICKS
  }

  predicate HeardAt(q: Queue, f: nat) {
    f == q.lastFresh || f in q.pending
  }

  /** The tick of `log[k]` either has its own input waiting, or repeats the one
      before it and was spoken for lately. */
  ghost predicate SpokenAt(q: Queue, log: seq<Intent>, k: nat)
    requires k < |log|
  {
    var t := q.lastApplied + 1 + k;
    if t in q.pending then q.pending[t] == log[k]
    else log[k] == (if k == 0 then q.lastIntent else log[k - 1]) && HeardLately(q, t)
  }

  /** `log` is what a client did, tick by tick from the next one to be applied. */
  ghost predicate Spoken(q: Queue, log: seq<Intent>) {
    forall k: nat :: k < |log| ==> SpokenAt(q, log, k)
  }

  /** The queue plays back exactly what the client did, the ticks nobody spoke
      for included. */
  lemma {:induction false} PlaysBack(q: Queue, log: seq<Intent>)
    requires Valid(q) && Spoken(q, log)
    ensures Answers(q, |log|) == log
    decreases |log|
  {
    if log != [] {
      TakeValid(q, q.lastApplied + 1);
      SpokenStep(q, log);
      PlaysBack(Take(q, q.lastApplied + 1).0, log[1..]);
      assert log == [log[0]] + log[1..];
    }
  }

  lemma SpokenStep(q: Queue, log: seq<Intent>)
    requires Valid(q) && Spoken(q, log) && log != []
    ensures Take(q, q.lastApplied + 1).1 == log[0]
    ensures Spoken(Take(q, q.lastApplied + 1).0, log[1..])
  {
    var t := q.lastApplied + 1;
    var (q', intent) := Take(q, t);
    DueNext(q);
    assert SpokenAt(q, log, 0);
    assert intent == log[0];
    forall k: nat | k < |log[1..]| ensures SpokenAt(q', log[1..], k) {
      assert SpokenAt(q, log, k + 1);
      var u := q.lastApplied + 1 + (k + 1);
      if u !in q.pending {
        HeardStep(q, u);
      }
    }
  }

  /** Only the next tick's own input can be due at it; a tick heard lately is not
      a stale one. */
  lemma DueNext(q: Queue)
    requires Valid(q)
    ensures var t := q.lastApplied + 1;
      && (AnyDue(q.pending, t) <==> t in q.pending)
      && (t in q.pending ==> Newest(q.pending, t) == t)
      && (t !in q.pending && HeardLately(q, t) ==> t - q.lastFresh <= MAX_REPEAT_TICKS)
  {
  }

  lemma HeardStep(q: Queue, u: nat)
    requires Valid(q) && HeardLately(q, u) && u > q.lastApplied + 1
    ensures HeardLately(Take(q, q.lastApplied + 1).0, u)
  {
    var t := q.lastApplied + 1;
    var q' := Take(q, t).0;
    DueNext(q);
    var f: nat :| HeardAt(q, f) && f < u && u - f <= MAX_REPEAT_TICKS;
    if f in q.pending && f > t {
      assert HeardAt(q', f);
    } else {
      assert HeardAt(q', if t in q.pending then t else f);
    }
  }

  // ----- What a queue answers, whatever the client did -----

  /** The last tick before `t` that anything is known of. */
  ghost predicate IsLastHeard(q: Queue, t: nat, f: nat) {
    HeardAt(q, f) && f < t && forall g: nat :: HeardAt(q, g) && g < t ==> g <= f
  }

  /** What was said for it. */
  function Said(q: Queue, f: nat): Intent {
    if f in q.pending then q.pending[f] else q.lastIntent
  }

  /** The answer to a tick: its own input if one waits; the last input before it
      while that is no further back than the repeat bound; and past that neutral. */
  ghost predicate RightAnswer(q: Queue, t: nat, intent: Intent) {
    if t in q.pending then intent == q.pending[t]
    else forall f: nat :: IsLastHeard(q, t, f) ==> intent == if t - f <= MAX_REPEAT_TICKS then Said(q, f) else q.neutral
  }

  lemma TakeAnswers(q: Queue)
    requires Valid(q)
    ensures RightAnswer(q, q.lastApplied + 1, Take(q, q.lastApplied + 1).1)
  {
    DueNext(q);
    assert HeardAt(q, q.lastFresh);
  }

  /** What is right for a later tick before this one is answered is right after. */
  lemma RightAfter(q: Queue, t: nat, intent: Intent)
    requires Valid(q) && t > q.lastApplied + 1
    requires RightAnswer(Take(q, q.lastApplied + 1).0, t, intent)
    ensures RightAnswer(q, t, intent)
  {
    var u := q.lastApplied + 1;
    var q' := Take(q, u).0;
    DueNext(q);
    if t !in q.pending {
      forall f: nat | IsLastHeard(q, t, f)
        ensures intent == if t - f <= MAX_REPEAT_TICKS then Said(q, f) else q.neutral
      {
        assert HeardAt(q, q.lastFresh);
        assert u in q.pending ==> HeardAt(q, u);
        assert HeardAt(q', f);
        forall g: nat | HeardAt(q', g) && g < t ensures g <= f {
          assert HeardAt(q, g);
        }
        assert IsLastHeard(q', t, f);
      }
    }
  }

  /** Every answer of every valid queue is the right one. */
  lemma {:induction false} AnswersExact(q: Queue, n: nat, k: nat)
    requires Valid(q) && k < n
    ensures |Answers(q, n)| == n && RightAnswer(q, q.lastApplied + 1 + k, Answers(q, n)[k])
    decreases n
  {
    var next := Take(q, q.lastApplied + 1);
    TakeValid(q, q.lastApplied + 1);
    TakeAnswers(q);
    if n > 1 {
      AnswersExact(next.0, n - 1, if k > 0 then k - 1 else 0);
      if k > 0 {
        assert Answers(q, n)[k] == Answers(next.0, n - 1)[k - 1];
        RightAfter(q, q.lastApplied + 1 + k, Answers(q, n)[k]);
      }
    }
  }

  /** A client gone silent: its last intent up to the bound past the last tick it
      was heard of, and neutral from there on. */
  lemma Silence(q: Queue, n: nat, k: nat)
    requires Valid(q) && q.pending == map[] && k < n
    ensures |Answers(q, n)| == n
    ensures Answers(q, n)[k] == if q.lastApplied + 1 + k - q.lastFresh <= 10 then q.lastIntent else q.neutral
    ensures Answers(q, n)[k] == q.lastIntent <==>
      q.lastApplied + 1 + k - q.lastFresh <= 10 || q.lastIntent == q.neutral
  {
    AnswersExact(q, n, k);
    assert IsLastHeard(q, q.lastApplied + 1 + k, q.lastFresh);
  }

  /** The queue after `n` ticks. */
  ghost function Ticked(q: Queue, n: nat): Queue
    decreases n
  {
    if n == 0 then q else Ticked(Take(q, q.lastApplied + 1).0, n - 1)
  }

  lemma {:induction false} TickedValid(q: Queue, n: nat)
    requires Valid(q)
    ensures Valid(Ticked(q, n)) && Ticked(q, n).lastApplied == q.lastApplied + n && Ticked(q, n).neutral == q.neutral
    ensures forall t :: t in Ticked(q, n).pending <==> t in q.pending && t > q.lastApplied + n
    decreases n
  {
    if n > 0 {
      TakeValid(q, q.lastApplied + 1);
      TickedValid(Take(q, q.lastApplied + 1).0, n - 1);
    }
  }

  /** It is heard again: an input for a tick to come, after any silence, is the
      answer to that tick, and is repeated after it up to the bound. */
  lemma HeardAgain(q: Queue, n: nat, ahead: nat, intent: Intent, k: nat)
    requires Valid(q) && q.pending == map[] && 1 <= ahead <= MAX_LOOKAHEAD && ahead - 1 <= k
    ensures var silent := Ticked(q, n);
      var (spoken, kept) := Offer(silent, silent.lastApplied + ahead, intent);
      kept && |Answers(spoken, k + 1)| == k + 1
      && Answers(spoken, k + 1)[k] == if k + 1 - ahead <= 10 then intent else q.neutral
  {
    TickedValid(q, n);
    var silent := Ticked(q, n);
    var t := silent.lastApplied + ahead;
    var spoken := Offer(silent, t, intent).0;
    AnswersExact(spoken, k + 1, k);
    if k + 1 > ahead {
      assert IsLastHeard(spoken, spoken.lastApplied + 1 + k, t);
    }
  }
}
