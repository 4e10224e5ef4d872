/** Client and server together, over whole runs: the client walks and reports, its
    inputs arrive in any order and as often as may be, the server ticks, and its
    states come back in the order they were sent.  Once the client has heard of
    the last tick whose input was late, the body it shows at a tick is the body
    the server has when it gets to that tick, and no state moves it. */
module TickRun {
  import opened InputQueue
  import opened TickSync

  /** `log` is what the client did for each tick past `start`, and `first` what it
      was doing there.  `history` is the server's body by tick, `heard` the tick
      of the last state that came. */
  datatype Play<B> = Play(
    client: Client<B>,
    queue: Queue,
    body: B,
    history: map<nat, B>,
    start: nat,
    first: Intent,
    log: seq<Intent>,
    heard: nat)

  datatype Event = Walk(intent: Intent) | Arrival(input: Input) | ServerTick | State(tick: nat)

  // ----- Steps -----

  function Walks<B>(sim: Sim<B>, p: Play<B>, intent: Intent): Play<B> {
    p.(client := Walked(sim, p.client, intent), log := p.log + [intent])
  }

  /** Ticks the client simulates without reporting them. */
  function Skips<B>(sim: Sim<B>, p: Play<B>, n: nat): (s: Play<B>)
    ensures s == p.(client := s.client, log := s.log)
    decreases n
  {
    if n == 0 then p
    else Skips(sim, p.(client := Advance(sim, p.client, p.client.previous), log := p.log + [p.client.previous]), n - 1)
  }

  ghost function Answered<B>(sim: Sim<B>, p: Play<B>): Play<B> {
    var t := p.queue.lastApplied + 1;
    var (queue, intent) := Take(p.queue, t);
    var body := sim(p.body, intent);
    p.(queue := queue, body := body, history := p.history[t := body])
  }

  /** The log from a later tick on. */
  function Rebased<B>(p: Play<B>, t: nat): Play<B>
    requires p.start < t <= p.start + |p.log|
  {
    p.(start := t, first := Did(p, t), log := p.log[t - p.start..])
  }

  /** A tick of the server.  One whose input was late begins a new log. */
  ghost function Ticks<B>(sim: Sim<B>, p: Play<B>): Play<B> {
    var t := p.queue.lastApplied + 1;
    if p.start < t <= p.start + |p.log| && !Timely(p) then Rebased(Answered(sim, p), t) else Answered(sim, p)
  }

  function CatchUp(client: nat, server: nat): nat {
    if client < server + INPUT_LEAD then server + INPUT_LEAD - client else 0
  }

  function Reconciled<B>(sim: Sim<B>, p: Play<B>, t: nat): Play<B>
    requires t in p.history
  {
    p.(client := p.client.(predictor := if p.client.predictor.None? then None
                                        else Some(Reconcile(sim, p.client.predictor.value, t, p.history[t]))),
       heard := t)
  }

  /** A state: a renumber begins a new log. */
  function Hears<B>(sim: Sim<B>, p: Play<B>, t: nat): Play<B>
    requires t in p.history
  {
    if Renumbers(p.client.tick, t) then
      var c := Stated(sim, p.client, t, p.history[t]);
      p.(client := c, start := c.tick, first := c.previous, log := [], heard := t)
    else Reconciled(sim, Skips(sim, p, CatchUp(p.client.tick, t)), t)
  }

  ghost predicate Possible<B>(p: Play<B>, e: Event) {
    match e
    case Arrival(x) => x in p.client.sent
    case State(t) => t in p.history && p.heard <= t
    case _ => true
  }

  ghost function Step<B>(sim: Sim<B>, p: Play<B>, e: Event): Play<B>
    requires Possible(p, e)
  {
    match e
    case Walk(intent) => Walks(sim, p, intent)
    case Arrival(x) => p.(queue := Offer(p.queue, x.tick, x.intent).0)
    case ServerTick => Ticks(sim, p)
    case State(t) => Hears(sim, p, t)
  }

  lemma {:induction false} SkipsClient<B>(sim: Sim<B>, p: Play<B>, n: nat)
    ensures Skips(sim, p, n).client == Skipped(sim, p.client, n)
    decreases n
  {
    if n > 0 {
      SkipsClient(sim, p.(client := Advance(sim, p.client, p.client.previous), log := p.log + [p.client.previous]), n - 1);
    }
  }

  /** What a state does to the client is what `accept_player_state` does. */
  lemma HearsStates<B>(sim: Sim<B>, p: Play<B>, t: nat)
    requires t in p.history
    ensures Hears(sim, p, t).client == Stated(sim, p.client, t, p.history[t])
  {
    if !Renumbers(p.client.tick, t) {
      SkipsClient(sim, p, CatchUp(p.client.tick, t));
      ResyncLands(sim, p.client, t);
    }
  }

  // ----- What a run keeps -----

  /** What the client did for a tick of the log. */
  function Did<B>(p: Play<B>, t: nat): Intent
    requires p.start < t <= p.start + |p.log|
  {
    p.log[t - p.start - 1]
  }

  function Since<B>(p: Play<B>): nat {
    if p.heard > p.start then p.heard else p.start
  }

  /** What is in hand is of the log. */
  ghost predicate Logged<B>(p: Play<B>) {
    && p.start <= p.client.tick && |p.log| == p.client.tick - p.start
    && Covers(p.client, Since(p))
    && OfLog(p, p.client.predictor.value.pending)
  }

  /** What was reported since the start is what was done, and what was not
      reported repeats the tick before. */
  ghost predicate Reported<B>(p: Play<B>) {
    && (forall x :: x in p.client.sent ==> TrulyReported(p, x))
    && (forall k :: 0 <= k < |p.log| ==> ReportedOrRepeated(p, k))
    && p.client.previous == if p.log == [] then p.first else p.log[|p.log| - 1]
  }

  predicate TrulyReported<B>(p: Play<B>, x: Input) {
    x.tick > p.start ==> x.tick <= p.start + |p.log| && x.intent == Did(p, x.tick)
  }

  predicate ReportedOrRepeated<B>(p: Play<B>, k: int)
    requires 0 <= k < |p.log|
  {
    Input(p.start + 1 + k, p.log[k]) in p.client.sent || p.log[k] == if k == 0 then p.first else p.log[k - 1]
  }

  /** What waits in the server's queue for those ticks was reported. */
  ghost predicate Waiting<B>(p: Play<B>) {
    && Valid(p.queue)
    && forall t :: t in p.queue.pending && t > p.start ==> Input(t, p.queue.pending[t]) in p.client.sent
  }

  ghost predicate Recorded<B>(p: Play<B>) {
    && (forall t :: t in p.history ==> t <= p.queue.lastApplied)
    && p.queue.lastApplied in p.history && p.body == p.history[p.queue.lastApplied]
    && p.heard <= p.queue.lastApplied
  }

  /** The server, once past the start, has done what the client did. */
  ghost predicate Served<B>(sim: Sim<B>, p: Play<B>) {
    && Recorded(p)
    && (p.queue.lastApplied >= p.start ==>
          && p.queue.lastApplied <= p.start + |p.log|
          && (forall t :: p.start <= t <= p.queue.lastApplied ==> ServedAt(sim, p, t))
          && (p.queue.lastApplied > p.start ==> p.queue.lastIntent == Did(p, p.queue.lastApplied)))
  }

  ghost predicate ServedAt<B>(sim: Sim<B>, p: Play<B>, t: nat)
    requires p.start <= t <= p.start + |p.log|
  {
    t in p.history && p.start in p.history && p.history[t] == Simulated(sim, p.history[p.start], p.log[..t - p.start])
  }

  /** And the client, once it has heard of a tick past the start, shows what the
      log makes of the server's body there. */
  ghost predicate Foreseen<B>(sim: Sim<B>, p: Play<B>) {
    p.heard >= p.start ==>
      && p.client.predictor.Some? && p.start in p.history
      && p.client.predictor.value.body == Simulated(sim, p.history[p.start], p.log)
  }

  ghost predicate InStep<B>(sim: Sim<B>, p: Play<B>) {
    Logged(p) && Reported(p) && Waiting(p) && Served(sim, p) && Foreseen(sim, p)
  }

  /** The tick the server is about to answer is one the client has done: its input
      is there if it was reported, and if not an input came lately enough to be
      repeated, and is the one to repeat. */
  ghost predicate Timely<B>(p: Play<B>) {
    var t := p.queue.lastApplied + 1;
    t > p.start ==>
      && t <= p.start + |p.log|
      && if Input(t, Did(p, t)) in p.client.sent then t in p.queue.pending
         else t - p.queue.lastFresh <= MAX_REPEAT_TICKS && (t == p.start + 1 ==> p.queue.lastIntent == p.first)
  }

  /** The server does not get ahead of the client, and neither drifts too far. */
  ghost predicate Orderly<B>(p: Play<B>, e: Event) {
    match e
    case ServerTick => p.queue.lastApplied < p.start + |p.log|
    case State(t) => !Renumbers(p.client.tick, t)
    case _ => true
  }

  lemma {:induction false} SimulatedOn<B>(sim: Sim<B>, body: B, a: seq<Intent>, b: seq<Intent>)
    ensures Simulated(sim, Simulated(sim, body, a), b) == Simulated(sim, body, a + b)
    decreases |a|
  {
    if a == [] {
      assert a + b == b;
    } else {
      SimulatedOn(sim, sim(body, a[0]), a[1..], b);
      assert (a + b)[1..] == a[1..] + b;
    }
  }

  lemma SimulatedOne<B>(sim: Sim<B>, body: B, a: seq<Intent>, intent: Intent)
    ensures Simulated(sim, body, a + [intent]) == sim(Simulated(sim, body, a), intent)
  {
    SimulatedOn(sim, body, a, [intent]);
    var s := Simulated(sim, body, a);
    assert Simulated(sim, sim(s, intent), []) == sim(s, intent);
    assert [intent][1..] == [];
  }

  // ----- The client's ticks -----

  lemma AdvanceLogged<B>(sim: Sim<B>, p: Play<B>, intent: Intent, p': Play<B>)
    requires Logged(p) && p' == p.(client := p'.client, log := p.log + [intent])
    requires p'.client.tick == p.client.tick + 1 && p'.client.predictor == Advance(sim, p.client, intent).predictor
    ensures Logged(p')
  {
    AdvanceCovers(sim, p.client, Since(p), intent);
    assert Covers(p'.client, Since(p'));
    PendingOfLog(p, p', p.client.predictor.value.pending, Input(p.client.tick + 1, intent));
  }

  /** Every one of these past the start is of the log. */
  ghost predicate OfLog<B>(p: Play<B>, inputs: seq<Input>) {
    forall x :: x in inputs ==> TrulyReported(p, x)
  }

  lemma PendingOfLog<B>(p: Play<B>, p': Play<B>, pending: seq<Input>, next: Input)
    requires OfLog(p, pending) && p'.start == p.start && p'.log == p.log + [next.intent] && next.tick == p.start + |p.log| + 1
    ensures OfLog(p', Trimmed(pending + [next]))
  {
    forall x | x in Trimmed(pending + [next]) ensures TrulyReported(p', x) {
      assert x in pending + [next];
      assert x == next || TrulyReported(p, x);
    }
  }

  lemma LongerServed<B>(sim: Sim<B>, p: Play<B>, intent: Intent, p': Play<B>)
    requires Served(sim, p) && p' == p.(client := p'.client, log := p.log + [intent])
    ensures Served(sim, p')
  {
    if p.queue.lastApplied >= p.start {
      forall t | p.start <= t <= p.queue.lastApplied ensures ServedAt(sim, p', t) {
        assert ServedAt(sim, p, t);
        assert p'.log[..t - p.start] == p.log[..t - p.start];
      }
    }
  }

  lemma AdvanceForeseen<B>(sim: Sim<B>, p: Play<B>, intent: Intent, p': Play<B>)
    requires Foreseen(sim, p) && p' == p.(client := p'.client, log := p.log + [intent])
    requires p'.client.predictor == Advance(sim, p.client, intent).predictor
    ensures Foreseen(sim, p')
  {
    if p.heard >= p.start {
      SimulatedOne(sim, p.history[p.start], p.log, intent);
    }
  }

  lemma WalkKeeps<B>(sim: Sim<B>, p: Play<B>, intent: Intent)
    requires InStep(sim, p)
    ensures InStep(sim, Walks(sim, p, intent))
  {
    var p' := Walks(sim, p, intent);
    AdvanceLogged(sim, p, intent, p');
    LongerServed(sim, p, intent, p');
    AdvanceForeseen(sim, p, intent, p');
    WalkReported(sim, p, intent);
    assert forall x :: x in p.client.sent ==> x in p'.client.sent;
  }

  lemma WalkReported<B>(sim: Sim<B>, p: Play<B>, intent: Intent)
    requires Reported(p) && p.client.tick == p.start + |p.log|
    ensures Reported(Walks(sim, p, intent))
  {
    var p' := Walks(sim, p, intent);
    var next := Input(p.client.tick + 1, intent);
    assert p'.client.sent == p.client.sent + [next];
    forall x | x in p'.client.sent ensures TrulyReported(p', x) {
      assert x == next || TrulyReported(p, x);
    }
    forall k | 0 <= k < |p'.log| ensures ReportedOrRepeated(p', k) {
      if k < |p.log| {
        assert ReportedOrRepeated(p, k);
        assert p'.log[k] == p.log[k];
      }
    }
  }

  lemma {:induction false} SkipsKeep<B>(sim: Sim<B>, p: Play<B>, n: nat)
    requires InStep(sim, p)
    ensures InStep(sim, Skips(sim, p, n))
    decreases n
  {
    if n > 0 {
      var intent := p.client.previous;
      var p' := p.(client := Advance(sim, p.client, intent), log := p.log + [intent]);
      AdvanceLogged(sim, p, intent, p');
      LongerServed(sim, p, intent, p');
      AdvanceForeseen(sim, p, intent, p');
      SkipReported(sim, p);
      SkipsKeep(sim, p', n - 1);
    }
  }

  lemma SkipReported<B>(sim: Sim<B>, p: Play<B>)
    requires Reported(p)
    ensures Reported(p.(client := Advance(sim, p.client, p.client.previous), log := p.log + [p.client.previous]))
  {
    var p' := p.(client := Advance(sim, p.client, p.client.previous), log := p.log + [p.client.previous]);
    forall x | x in p'.client.sent ensures TrulyReported(p', x) {
      assert TrulyReported(p, x);
    }
    forall k | 0 <= k < |p'.log| ensures ReportedOrRepeated(p', k) {
      if k < |p.log| {
        assert ReportedOrRepeated(p, k);
        assert p'.log[k] == p.log[k];
      }
    }
  }

  // ----- States -----

  /** What is in hand past a tick, of a client that has at least that much in
      hand. */
  lemma InHand<B>(p: Play<B>, t: nat, pending: seq<Input>)
    requires Covers(p.client, Since(p)) && pending == p.client.predictor.value.pending
    requires Since(p) <= t <= p.client.tick && p.client.tick - t <= MAX_LOOKAHEAD
    ensures p.client.tick - t <= |pending| && Unconfirmed(pending, t) == pending[|pending| - (p.client.tick - t)..]
  {
    UnconfirmedTail(pending, p.client.tick, t);
  }

  /** Some of what is in hand is of the log too. */
  lemma PartOfLog<B>(p: Play<B>, p': Play<B>, pending: seq<Input>, part: seq<Input>)
    requires OfLog(p, pending) && p'.start == p.start && p'.log == p.log && forall x :: x in part ==> x in pending
    ensures OfLog(p', part)
  {
    forall x | x in part ensures TrulyReported(p', x) {
      assert TrulyReported(p, x);
    }
  }

  /** A state from before the start leaves all of the log in hand. */
  lemma OldStateKeeps<B>(sim: Sim<B>, p: Play<B>, t: nat)
    requires InStep(sim, p) && t in p.history && p.heard <= t < p.start
    ensures InStep(sim, Reconciled(sim, p, t))
  {
    var pending, p' := p.client.predictor.value.pending, Reconciled(sim, p, t);
    OldCovers(p.client, p'.client, p.start, t, pending);
    PartOfLog(p, p', pending, Unconfirmed(pending, t));
    SameRest(sim, p, p');
  }

  lemma OldCovers<B>(c: Client<B>, c': Client<B>, start: nat, t: nat, pending: seq<Input>)
    requires Covers(c, start) && t < start && pending == c.predictor.value.pending && c'.tick == c.tick
    requires c'.predictor.Some? && c'.predictor.value.pending == Unconfirmed(pending, t)
    ensures Covers(c', start) && forall x :: x in Unconfirmed(pending, t) ==> x in pending
  {
    UnconfirmedTail(pending, c.tick, t);
    var n := if c.tick - t >= |pending| then |pending| else c.tick - t;
    assert Unconfirmed(pending, t) == pending[|pending| - n..];
    TailLinked(pending, c.tick, n);
  }

  /** A state of a tick past the start: the body replayed is the one the log
      makes. */
  lemma ReplayForesees<B>(sim: Sim<B>, p: Play<B>, t: nat)
    requires InStep(sim, p) && t in p.history && p.heard <= t && p.start <= t
    requires p.client.tick - t <= MAX_LOOKAHEAD
    ensures t <= p.client.tick && p.start in p.history
    ensures Reconcile(sim, p.client.predictor.value, t, p.history[t]).body == Simulated(sim, p.history[p.start], p.log)
  {
    assert ServedAt(sim, p, t);
    var pending := p.client.predictor.value.pending;
    UnconfirmedIsLog(p, t, pending);
    ReplayOfTail(sim, p.history[p.start], p.history[t], Unconfirmed(pending, t), p.log, t - p.start);
  }

  lemma UnconfirmedIsLog<B>(p: Play<B>, t: nat, pending: seq<Input>)
    requires Logged(p) && pending == p.client.predictor.value.pending && p.start <= t
    requires Since(p) <= t <= p.client.tick && p.client.tick - t <= MAX_LOOKAHEAD
    ensures Intents(Unconfirmed(pending, t)) == p.log[t - p.start..]
  {
    InHand(p, t, pending);
    TailLinked(pending, p.client.tick, p.client.tick - t);
    TailIsLog(p, t, pending[|pending| - (p.client.tick - t)..]);
  }

  lemma TailIsLog<B>(p: Play<B>, t: nat, tail: seq<Input>)
    requires p.start <= t <= p.client.tick && |p.log| == p.client.tick - p.start && |tail| == p.client.tick - t
    requires LinkedTo(tail, p.client.tick) && OfLog(p, tail)
    ensures Intents(tail) == p.log[t - p.start..]
  {
    forall i | 0 <= i < |tail| ensures Intents(tail)[i] == p.log[t - p.start..][i] {
      assert TrulyReported(p, tail[i]);
    }
  }

  /** Replaying the end of the log over the body the rest of it makes. */
  lemma ReplayOfTail<B>(sim: Sim<B>, base: B, body: B, tail: seq<Input>, log: seq<Intent>, past: nat)
    requires past <= |log| && Intents(tail) == log[past..] && body == Simulated(sim, base, log[..past])
    ensures Replay(sim, body, tail) == Simulated(sim, base, log)
  {
    ReplayIsSimulation(sim, body, tail);
    SimulatedOn(sim, base, log[..past], log[past..]);
    assert log == log[..past] + log[past..];
  }

  lemma NewStateKeeps<B>(sim: Sim<B>, p: Play<B>, t: nat)
    requires InStep(sim, p) && t in p.history && p.heard <= t && p.start <= t
    requires p.client.tick - t <= MAX_LOOKAHEAD
    ensures InStep(sim, Reconciled(sim, p, t))
  {
    ReplayForesees(sim, p, t);
    var p' := Reconciled(sim, p, t);
    StateLogged(p, p', t, p.client.predictor.value.pending);
    SameRest(sim, p, p');
  }

  lemma StateLogged<B>(p: Play<B>, p': Play<B>, t: nat, pending: seq<Input>)
    requires Logged(p) && pending == p.client.predictor.value.pending && p.start <= t
    requires Since(p) <= t <= p.client.tick && p.client.tick - t <= MAX_LOOKAHEAD
    requires p' == p.(client := p.client.(predictor := p'.client.predictor), heard := t)
    requires p'.client.predictor.Some? && p'.client.predictor.value.pending == Unconfirmed(pending, t)
    ensures Logged(p')
  {
    PastCovers(p, p'.client, t, pending);
    PartOfLog(p, p', pending, Unconfirmed(pending, t));
  }

  lemma PastCovers<B>(p: Play<B>, c': Client<B>, t: nat, pending: seq<Input>)
    requires Covers(p.client, Since(p)) && pending == p.client.predictor.value.pending
    requires Since(p) <= t <= p.client.tick && p.client.tick - t <= MAX_LOOKAHEAD
    requires c'.tick == p.client.tick && c'.predictor.Some? && c'.predictor.value.pending == Unconfirmed(pending, t)
    ensures Covers(c', t) && forall x :: x in Unconfirmed(pending, t) ==> x in pending
  {
    InHand(p, t, pending);
    TailCovers(p.client, c', t, pending);
  }

  lemma TailCovers<B>(c: Client<B>, c': Client<B>, t: nat, pending: seq<Input>)
    requires c.predictor.Some? && Linked(c) && t <= c.tick && pending == c.predictor.value.pending
    requires c.tick - t <= |pending| && c'.tick == c.tick
    requires c'.predictor.Some? && c'.predictor.value.pending == pending[|pending| - (c.tick - t)..]
    ensures Covers(c', t)
  {
    TailLinked(pending, c.tick, c.tick - t);
  }

  lemma TailLinked(pending: seq<Input>, tick: nat, n: nat)
    requires LinkedTo(pending, tick) && n <= |pending|
    ensures LinkedTo(pending[|pending| - n..], tick)
  {
    var tail := pending[|pending| - n..];
    forall i | 0 <= i < |tail| ensures tail[i].tick == tick - |tail| + 1 + i {
      assert tail[i] == pending[|pending| - n + i];
    }
  }

  /** Nothing else looks at what is in hand or at what was heard. */
  lemma SameRest<B>(sim: Sim<B>, p: Play<B>, p': Play<B>)
    requires Reported(p) && Waiting(p) && Served(sim, p) && p'.heard in p'.history
    requires p' == p.(client := p.client.(predictor := p'.client.predictor), heard := p'.heard)
    ensures Reported(p') && Waiting(p') && Served(sim, p')
  {
    forall x | x in p'.client.sent ensures TrulyReported(p', x) {
      assert TrulyReported(p, x);
    }
    forall k | 0 <= k < |p'.log| ensures ReportedOrRepeated(p', k) {
      assert ReportedOrRepeated(p, k);
    }
    if p.queue.lastApplied >= p.start {
      forall t | p.start <= t <= p.queue.lastApplied ensures ServedAt(sim, p', t) {
        assert ServedAt(sim, p, t);
      }
    }
  }

  lemma StateKeeps<B>(sim: Sim<B>, p: Play<B>, t: nat)
    requires InStep(sim, p) && t in p.history && p.heard <= t && !Renumbers(p.client.tick, t)
    ensures InStep(sim, Hears(sim, p, t))
  {
    var n := CatchUp(p.client.tick, t);
    var s := Skips(sim, p, n);
    SkipsKeep(sim, p, n);
    SkipsClient(sim, p, n);
    SkippedSteps(sim, p.client, n);
    if t < p.start {
      OldStateKeeps(sim, s, t);
    } else {
      NewStateKeeps(sim, s, t);
    }
  }

  // ----- The server -----

  lemma ArrivalKeeps<B>(sim: Sim<B>, p: Play<B>, x: Input)
    requires InStep(sim, p) && x in p.client.sent
    ensures InStep(sim, p.(queue := Offer(p.queue, x.tick, x.intent).0))
  {
    var p' := p.(queue := Offer(p.queue, x.tick, x.intent).0);
    SameReports(p, p');
    if p.queue.lastApplied >= p.start {
      forall t | p.start <= t <= p.queue.lastApplied ensures ServedAt(sim, p', t) {
        assert ServedAt(sim, p, t);
      }
    }
    assert forall t :: t in p'.queue.pending && t !in p.queue.pending ==> Input(t, p'.queue.pending[t]) == x;
  }

  lemma SameReports<B>(p: Play<B>, p': Play<B>)
    requires Reported(p) && p' == p.(queue := p'.queue, body := p'.body, history := p'.history)
    ensures Reported(p')
  {
    forall x | x in p'.client.sent ensures TrulyReported(p', x) {
      assert TrulyReported(p, x);
    }
    forall k | 0 <= k < |p'.log| ensures ReportedOrRepeated(p', k) {
      assert ReportedOrRepeated(p, k);
    }
  }

  /** In time, the server answers a tick with what the client did for it. */
  lemma TimelyAnswer<B>(sim: Sim<B>, p: Play<B>)
    requires InStep(sim, p) && Timely(p) && p.queue.lastApplied + 1 > p.start
    ensures Take(p.queue, p.queue.lastApplied + 1).1 == Did(p, p.queue.lastApplied + 1)
  {
    var q, t := p.queue, p.queue.lastApplied + 1;
    DueNext(q);
    if t in q.pending {
      assert TrulyReported(p, Input(t, q.pending[t]));
    } else {
      assert ReportedOrRepeated(p, t - p.start - 1);
    }
  }

  lemma TickServes<B>(sim: Sim<B>, p: Play<B>)
    requires InStep(sim, p) && Timely(p)
    ensures Served(sim, Answered(sim, p))
  {
    var p', t := Answered(sim, p), p.queue.lastApplied + 1;
    if t > p.start {
      TimelyAnswer(sim, p);
      assert ServedAt(sim, p, t - 1);
      var done := p.log[..t - 1 - p.start];
      assert p.log[..t - p.start] == done + [Did(p, t)];
      SimulatedOne(sim, p.history[p.start], done, Did(p, t));
    }
    if t >= p.start {
      forall u | p.start <= u <= t ensures ServedAt(sim, p', u) {
        if u < t {
          assert ServedAt(sim, p, u);
        }
      }
    }
  }

  lemma TickKeeps<B>(sim: Sim<B>, p: Play<B>)
    requires InStep(sim, p) && p.queue.lastApplied < p.start + |p.log|
    ensures InStep(sim, Ticks(sim, p))
  {
    if Timely(p) {
      TimelyKeeps(sim, p);
    } else {
      LateKeeps(sim, p);
    }
  }

  lemma CoversFromLater<B>(c: Client<B>, before: nat, t: nat)
    requires Covers(c, before) && before <= t <= c.tick
    ensures Covers(c, t)
  {
  }

  lemma LateReported<B>(p: Play<B>, p': Play<B>, t: nat)
    requires Reported(p) && p.start < t <= p.start + |p.log| && p'.client == p.client
    requires p'.start == t && p'.first == Did(p, t) && p'.log == p.log[t - p.start..]
    ensures Reported(p')
    ensures forall x :: TrulyReported(p, x) ==> TrulyReported(p', x)
  {
    forall x | TrulyReported(p, x) ensures TrulyReported(p', x) {}
    forall k | 0 <= k < |p'.log| ensures ReportedOrRepeated(p', k) {
      assert ReportedOrRepeated(p, t - p.start + k);
    }
  }

  /** A late tick: the server has done something else, and what follows is judged
      from there. */
  lemma LateKeeps<B>(sim: Sim<B>, p: Play<B>)
    requires InStep(sim, p) && !Timely(p) && p.queue.lastApplied < p.start + |p.log|
    ensures InStep(sim, Ticks(sim, p))
  {
    var p', t := Ticks(sim, p), p.queue.lastApplied + 1;
    LateReported(p, p', t);
    TakeValid(p.queue, t);
    CoversFromLater(p.client, Since(p), t);
    assert Logged(p');
    assert Waiting(p');
    assert p'.log[..0] == [];
    assert ServedAt(sim, p', t);
  }

  lemma TimelyKeeps<B>(sim: Sim<B>, p: Play<B>)
    requires InStep(sim, p) && Timely(p)
    ensures InStep(sim, Answered(sim, p))
  {
    TickServes(sim, p);
    TakeValid(p.queue, p.queue.lastApplied + 1);
    var p' := Answered(sim, p);
    SameReports(p, p');
    assert Waiting(p');
    assert p.heard >= p.start ==> p.queue.lastApplied + 1 != p.start;
  }

  // ----- Whole runs -----

  lemma StepKeeps<B>(sim: Sim<B>, p: Play<B>, e: Event)
    requires InStep(sim, p) && Possible(p, e) && Orderly(p, e)
    ensures InStep(sim, Step(sim, p, e))
  {
    match e
    case Walk(intent) => WalkKeeps(sim, p, intent);
    case Arrival(x) => ArrivalKeeps(sim, p, x);
    case ServerTick => TickKeeps(sim, p);
    case State(t) => StateKeeps(sim, p, t);
  }

  ghost predicate IsRun<B>(sim: Sim<B>, p: Play<B>, es: seq<Event>)
    decreases |es|
  {
    es == [] || (Possible(p, es[0]) && Orderly(p, es[0]) && IsRun(sim, Step(sim, p, es[0]), es[1..]))
  }

  ghost function Played<B>(sim: Sim<B>, p: Play<B>, es: seq<Event>): Play<B>
    requires IsRun(sim, p, es)
    decreases |es|
  {
    if es == [] then p else Played(sim, Step(sim, p, es[0]), es[1..])
  }

  lemma {:induction false} RunKeeps<B>(sim: Sim<B>, p: Play<B>, es: seq<Event>)
    requires InStep(sim, p) && IsRun(sim, p, es)
    ensures InStep(sim, Played(sim, p, es))
    decreases |es|
  {
    if es != [] {
      StepKeeps(sim, p, es[0]);
      RunKeeps(sim, Step(sim, p, es[0]), es[1..]);
    }
  }

  /** Later is the same history and, unless a tick was late, a longer log from the
      same start. */
  ghost predicate Later<B>(p: Play<B>, p': Play<B>) {
    && p.start <= p'.start
    && (p'.start == p.start ==> |p.log| <= |p'.log| && p'.log[..|p.log|] == p.log)
    && p.queue.lastApplied <= p'.queue.lastApplied
    && forall t :: t in p.history ==> t in p'.history && p'.history[t] == p.history[t]
  }

  lemma {:induction false} SkipsLater<B>(sim: Sim<B>, p: Play<B>, n: nat)
    ensures Later(p, Skips(sim, p, n))
    decreases n
  {
    if n > 0 {
      var p' := p.(client := Advance(sim, p.client, p.client.previous), log := p.log + [p.client.previous]);
      SkipsLater(sim, p', n - 1);
      LaterStill(p, p', Skips(sim, p, n));
    }
  }

  lemma LaterStill<B>(p: Play<B>, q: Play<B>, r: Play<B>)
    requires Later(p, q) && Later(q, r)
    ensures Later(p, r)
  {
    if r.start == p.start {
      assert r.log[..|p.log|] == r.log[..|q.log|][..|p.log|];
    }
  }

  lemma StepLater<B>(sim: Sim<B>, p: Play<B>, e: Event)
    requires Recorded(p) && Possible(p, e) && Orderly(p, e)
    ensures Later(p, Step(sim, p, e))
  {
    if e.State? {
      SkipsLater(sim, p, CatchUp(p.client.tick, e.tick));
    }
  }

  lemma {:induction false} RunLater<B>(sim: Sim<B>, p: Play<B>, es: seq<Event>)
    requires InStep(sim, p) && IsRun(sim, p, es)
    ensures Later(p, Played(sim, p, es))
    decreases |es|
  {
    if es != [] {
      var next := Step(sim, p, es[0]);
      StepKeeps(sim, p, es[0]);
      StepLater(sim, p, es[0]);
      RunLater(sim, next, es[1..]);
      LaterStill(p, next, Played(sim, p, es));
    }
  }

  /** A client with nothing outstanding, newly there or newly renumbered, that the
      server has not got past, and of whose ticks to come the server holds
      nothing. */
  ghost predicate Starting<B>(p: Play<B>) {
    && p.client.predictor.Some? && p.client.predictor.value.pending == []
    && p.start == p.client.tick && p.log == [] && p.first == p.client.previous
    && Valid(p.queue) && Recorded(p) && p.queue.lastApplied <= p.start
    && (forall x :: x in p.client.sent ==> x.tick <= p.start)
    && (forall t :: t in p.queue.pending ==> t <= p.start)
    && (p.heard == p.start ==> p.client.predictor.value.body == p.body)
  }

  lemma StartsInStep<B>(sim: Sim<B>, p: Play<B>)
    requires Starting(p)
    ensures InStep(sim, p)
  {
    StartLogged(p);
    StartReported(p);
    assert Waiting(p);
    StartServed(sim, p);
    assert p.heard >= p.start ==> p.heard == p.start == p.queue.lastApplied;
    assert Foreseen(sim, p);
  }

  lemma StartLogged<B>(p: Play<B>)
    requires Starting(p)
    ensures Logged(p)
  {
    assert Since(p) == p.client.tick;
  }

  lemma StartReported<B>(p: Play<B>)
    requires Starting(p)
    ensures Reported(p)
  {
    forall x | x in p.client.sent ensures TrulyReported(p, x) {}
  }

  lemma StartServed<B>(sim: Sim<B>, p: Play<B>)
    requires Starting(p)
    ensures Served(sim, p)
  {
    if p.queue.lastApplied >= p.start {
      assert p.log[..0] == [];
      assert ServedAt(sim, p, p.start);
    }
  }

  /** The prediction is the future.  After any run from such a start, the body the
      client shows at its tick, once it has heard of the last tick that was late or
      of one past it, is the body the server has when, however the run goes on with
      none late, it gets there. */
  lemma ForeseesTheServer<B>(sim: Sim<B>, p: Play<B>, before: seq<Event>, after: seq<Event>)
    requires Starting(p) && IsRun(sim, p, before) && IsRun(sim, Played(sim, p, before), after)
    ensures var now := Played(sim, p, before);
      var later := Played(sim, now, after);
      var tick := now.client.tick;
      now.heard >= now.start == later.start && later.queue.lastApplied >= tick ==>
        now.client.predictor.Some? && tick in later.history && later.history[tick] == now.client.predictor.value.body
  {
    StartsInStep(sim, p);
    RunKeeps(sim, p, before);
    var now := Played(sim, p, before);
    RunKeeps(sim, now, after);
    RunLater(sim, now, after);
    var later := Played(sim, now, after);
    if now.heard >= now.start == later.start && later.queue.lastApplied >= now.client.tick {
      assert ServedAt(sim, later, now.client.tick);
      assert later.log[..|now.log|] == now.log;
    }
  }

  /** And nothing is corrected: a state that comes then leaves the body where
      bringing the tick up to it did. */
  lemma NothingToCorrect<B>(sim: Sim<B>, p: Play<B>, before: seq<Event>, t: nat)
    requires Starting(p) && IsRun(sim, p, before)
    ensures var now := Played(sim, p, before);
      now.heard >= now.start && Possible(now, State(t)) && !Renumbers(now.client.tick, t) ==>
        var stated := Stated(sim, now.client, t, now.history[t]);
        var caughtUp := Resynchronised(sim, now.client, t);
        stated.predictor.Some? && caughtUp.predictor.Some? && stated.predictor.value.body == caughtUp.predictor.value.body
  {
    StartsInStep(sim, p);
    RunKeeps(sim, p, before);
    var now := Played(sim, p, before);
    if now.heard >= now.start && Possible(now, State(t)) && !Renumbers(now.client.tick, t) {
      var n := CatchUp(now.client.tick, t);
      var s := Skips(sim, now, n);
      SkipsKeep(sim, now, n);
      SkipsClient(sim, now, n);
      SkippedSteps(sim, now.client, n);
      ResyncLands(sim, now.client, t);
      ReplayForesees(sim, s, t);
    }
  }

  // ----- How such a start comes about -----

  /** Nothing was reported past the client's tick, and the server holds nothing
      past it. */
  ghost predicate Grounded<B>(p: Play<B>) {
    && p.client.predictor.Some? && Valid(p.queue) && Recorded(p)
    && (forall x :: x in p.client.sent ==> x.tick <= p.client.tick)
    && (forall t :: t in p.queue.pending ==> t <= p.client.tick)
  }

  /** Whatever happens, late or not, keeps that so, but a client being set back. */
  lemma StepGrounded<B>(sim: Sim<B>, p: Play<B>, e: Event)
    requires Grounded(p) && Possible(p, e)
    requires e.State? ==> p.client.tick <= e.tick + INPUT_LEAD + MAX_LOOKAHEAD / 2
    ensures Grounded(Step(sim, p, e))
  {
    match e
    case Walk(_) =>
    case Arrival(x) =>
    case ServerTick => TakeValid(p.queue, p.queue.lastApplied + 1);
    case State(t) =>
      HearsStates(sim, p, t);
      SkipsClient(sim, p, CatchUp(p.client.tick, t));
      ResyncLands(sim, p.client, t);
      SkippedSteps(sim, p.client, CatchUp(p.client.tick, t));
      SkippedSteps(sim, p.client, MAX_RESYNC_CATCH_UP);
  }

  /** A client that fell too far behind and was renumbered is at such a start, if
      the server has not got past it meanwhile. */
  lemma StallStarts<B>(sim: Sim<B>, p: Play<B>, t: nat)
    requires Grounded(p) && Possible(p, State(t)) && p.client.tick + MAX_RESYNC_CATCH_UP < t + INPUT_LEAD
    requires p.queue.lastApplied <= t + INPUT_LEAD
    ensures Starting(Step(sim, p, State(t)))
  {
    StepGrounded(sim, p, State(t));
    ResyncLands(sim, p.client, t);
    SkippedSteps(sim, p.client, MAX_RESYNC_CATCH_UP);
  }

  /** One that ran ahead and was set back need not be: what the server still holds
      for a tick is what it answers with, whatever is reported for that tick
      anew. */
  lemma HeldInputAnswers(q: Queue, arrived: seq<Input>)
    requires Valid(q) && q.lastApplied + 1 in q.pending
    ensures Take(OfferAll(q, arrived), q.lastApplied + 1).1 == q.pending[q.lastApplied + 1]
  {
    OfferAllFiles(q, arrived);
    DueNext(OfferAll(q, arrived));
  }
}
