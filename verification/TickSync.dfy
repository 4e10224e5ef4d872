/** The client's tick against the server's (`crates/client/src/app.rs`
    `resynchronise_tick`, `resync_plan`; `crates/client/src/predict.rs`): how far
    ahead it is kept, what it re-simulates to stay there, and when the body it
    predicts is the one the server will have. */
module TickSync {
  import opened InputQueue

  datatype Option<+T> = None | Some(value: T)

  const INPUT_LEAD: nat := 4
  const MAX_RESYNC_CATCH_UP: nat := 4

  // ----- The plan -----

  datatype Resync = Settled | Ahead | Behind(steps: nat)

  function ResyncPlan(client: nat, server: nat): Resync {
    var want := server + INPUT_LEAD;
    if client > want + MAX_LOOKAHEAD / 2 then Ahead
    else if client >= want then Settled
    else
      var gap := want - client;
      Behind(if gap < MAX_RESYNC_CATCH_UP then gap else MAX_RESYNC_CATCH_UP)
  }

  // ----- The predictor -----

  /** One tick of the simulation, of which nothing is assumed. */
  type Sim<!B> = (B, Intent) -> B

  datatype Predictor<B> = Predictor(body: B, tick: nat, pending: seq<Input>)

  function Trimmed(pending: seq<Input>): seq<Input> {
    if |pending| > MAX_LOOKAHEAD then pending[|pending| - MAX_LOOKAHEAD..] else pending
  }

  function Predict<B>(sim: Sim<B>, p: Predictor<B>, tick: nat, intent: Intent): Predictor<B> {
    Predictor(sim(p.body, intent), tick, Trimmed(p.pending + [Input(tick, intent)]))
  }

  function Renumber<B>(p: Predictor<B>, tick: nat): Predictor<B> {
    p.(tick := tick, pending := [])
  }

  function Unconfirmed(pending: seq<Input>, confirmed: nat): seq<Input> {
    if pending == [] then []
    else if pending[0].tick > confirmed then [pending[0]] + Unconfirmed(pending[1..], confirmed)
    else Unconfirmed(pending[1..], confirmed)
  }

  function Replay<B>(sim: Sim<B>, body: B, inputs: seq<Input>): B
    decreases |inputs|
  {
    if inputs == [] then body else Replay(sim, sim(body, inputs[0].intent), inputs[1..])
  }

  function Reconcile<B>(sim: Sim<B>, p: Predictor<B>, confirmed: nat, body: B): Predictor<B> {
    var pending := Unconfirmed(p.pending, confirmed);
    p.(pending := pending, body := Replay(sim, body, pending))
  }

  // ----- The client -----

  datatype Client<B> = Client(tick: nat, predictor: Option<Predictor<B>>, previous: Intent, sent: seq<Input>)

  /** One simulated tick, predicted where there is a body to predict. */
  function Advance<B>(sim: Sim<B>, c: Client<B>, intent: Intent): Client<B> {
    c.(tick := c.tick + 1,
       predictor := if c.predictor.None? then None else Some(Predict(sim, c.predictor.value, c.tick + 1, intent)))
  }

  /** A tick of `walk`: predicted and reported. */
  function Walked<B>(sim: Sim<B>, c: Client<B>, intent: Intent): Client<B> {
    Advance(sim, c, intent).(previous := intent, sent := c.sent + [Input(c.tick + 1, intent)])
  }

  function Skipped<B>(sim: Sim<B>, c: Client<B>, steps: nat): Client<B>
    decreases steps
  {
    if steps == 0 then c else Skipped(sim, Advance(sim, c, c.previous), steps - 1)
  }

  function Snapped<B>(c: Client<B>, tick: nat): Client<B> {
    c.(tick := tick, predictor := if c.predictor.None? then None else Some(Renumber(c.predictor.value, tick)))
  }

  function Resynchronised<B>(sim: Sim<B>, c: Client<B>, server: nat): Client<B> {
    var want := server + INPUT_LEAD;
    match ResyncPlan(c.tick, server)
    case Settled => c
    case Ahead => Snapped(c, want)
    case Behind(steps) =>
      var caught := Skipped(sim, c, steps);
      if caught.tick != want then Snapped(caught, want) else caught
  }

  /** A state from the server: the tick is brought to it, then the body. */
  function Stated<B>(sim: Sim<B>, c: Client<B>, server: nat, body: B): Client<B> {
    var r := Resynchronised(sim, c, server);
    r.(predictor := if r.predictor.None? then None else Some(Reconcile(sim, r.predictor.value, server, body)))
  }

  // ----- Where a resync lands -----

  /** The client drifted too far, either way, to be simulated back. */
  predicate Renumbers(client: nat, server: nat) {
    client > server + INPUT_LEAD + MAX_LOOKAHEAD / 2 || client + MAX_RESYNC_CATCH_UP < server + INPUT_LEAD
  }

  lemma {:induction false} SkippedSteps<B>(sim: Sim<B>, c: Client<B>, steps: nat)
    ensures var s := Skipped(sim, c, steps);
      s.tick == c.tick + steps && s.sent == c.sent && s.previous == c.previous && (s.predictor.None? <==> c.predictor.None?)
    decreases steps
  {
    if steps > 0 {
      SkippedSteps(sim, Advance(sim, c, c.previous), steps - 1);
    }
  }

  /** After any server state the client leads by at least the input lead and by
      no more than the lead and half the lookahead; it is left alone when it
      already did, stepped as many ticks as it was behind up to four, and
      renumbered, its outstanding inputs dropped, exactly when that does not do. */
  lemma ResyncLands<B>(sim: Sim<B>, c: Client<B>, server: nat)
    ensures var r := Resynchronised(sim, c, server);
      && server + INPUT_LEAD <= r.tick <= server + INPUT_LEAD + MAX_LOOKAHEAD / 2
      && (server + INPUT_LEAD <= c.tick <= server + INPUT_LEAD + MAX_LOOKAHEAD / 2 ==> r == c)
      && (Renumbers(c.tick, server) ==> r.tick == server + INPUT_LEAD && (r.predictor.Some? ==> r.predictor.value.pending == []))
      && (c.tick > server + INPUT_LEAD + MAX_LOOKAHEAD / 2 ==> r == Snapped(c, server + INPUT_LEAD))
      && (c.tick + MAX_RESYNC_CATCH_UP < server + INPUT_LEAD ==>
            r == Snapped(Skipped(sim, c, MAX_RESYNC_CATCH_UP), server + INPUT_LEAD))
      && (!Renumbers(c.tick, server) && c.tick < server + INPUT_LEAD ==> r == Skipped(sim, c, server + INPUT_LEAD - c.tick))
      && r.sent == c.sent
  {
    var gap := server + INPUT_LEAD - c.tick;
    SkippedSteps(sim, c, if gap < 0 then 0 else gap);
    SkippedSteps(sim, c, MAX_RESYNC_CATCH_UP);
  }

  // ----- Inputs in the window -----

  function WalkAll<B>(sim: Sim<B>, c: Client<B>, intents: seq<Intent>): Client<B>
    decreases |intents|
  {
    if intents == [] then c else WalkAll(sim, Walked(sim, c, intents[0]), intents[1..])
  }

  lemma {:induction false} WalkedSends<B>(sim: Sim<B>, c: Client<B>, intents: seq<Intent>)
    ensures var w := WalkAll(sim, c, intents);
      && w.tick == c.tick + |intents| && |w.sent| == |c.sent| + |intents| && w.sent[..|c.sent|] == c.sent
      && forall k :: 0 <= k < |intents| ==> w.sent[|c.sent| + k] == Input(c.tick + 1 + k, intents[k])
    decreases |intents|
  {
    if intents != [] {
      var one := Walked(sim, c, intents[0]);
      WalkedSends(sim, one, intents[1..]);
      var w := WalkAll(sim, c, intents);
      assert w.sent[..|c.sent|] == w.sent[..|one.sent|][..|c.sent|];
      forall k | 0 <= k < |intents| ensures w.sent[|c.sent| + k] == Input(c.tick + 1 + k, intents[k]) {
        if k == 0 {
          assert w.sent[|c.sent|] == w.sent[..|one.sent|][|c.sent|];
        } else {
          assert intents[1..][k - 1] == intents[k];
        }
      }
    }
  }

  /** Any input sent within half the lookahead less the lead of a state is in the
      server's window as that state showed it; and the server keeps it, whenever
      it arrives, exactly when its tick has not passed and no earlier copy is
      held. */
  lemma InputsAreInTime<B>(sim: Sim<B>, c: Client<B>, server: nat, intents: seq<Intent>, k: nat, q: Queue)
    requires k < |intents| <= MAX_LOOKAHEAD / 2 - INPUT_LEAD && q.lastApplied >= server
    ensures var r := Resynchronised(sim, c, server);
      var w := WalkAll(sim, r, intents);
      |w.sent| == |r.sent| + |intents| &&
      var input := w.sent[|r.sent| + k];
      && server + INPUT_LEAD + k < input.tick <= server + MAX_LOOKAHEAD
      && (Offer(q, input.tick, input.intent).1 <==> q.lastApplied < input.tick && input.tick !in q.pending)
  {
    ResyncLands(sim, c, server);
    var r := Resynchronised(sim, c, server);
    WalkedSends(sim, r, intents);
    assert WalkAll(sim, r, intents).sent[|r.sent| + k] == Input(r.tick + 1 + k, intents[k]);
  }

  // ----- What the predictor remembers -----

  /** The outstanding inputs are for consecutive ticks ending at the client's. */
  ghost predicate Linked<B>(c: Client<B>) {
    c.predictor.Some? ==> LinkedTo(c.predictor.value.pending, c.tick)
  }

  ghost predicate LinkedTo(pending: seq<Input>, tick: nat) {
    && |pending| <= MAX_LOOKAHEAD
    && forall i :: 0 <= i < |pending| ==> pending[i].tick == tick - |pending| + 1 + i
  }

  lemma AdvanceLinked<B>(sim: Sim<B>, c: Client<B>, intent: Intent)
    requires Linked(c)
    ensures Linked(Advance(sim, c, intent))
  {
  }

  lemma {:induction false} SkippedLinked<B>(sim: Sim<B>, c: Client<B>, steps: nat)
    requires Linked(c)
    ensures Linked(Skipped(sim, c, steps))
    decreases steps
  {
    if steps > 0 {
      AdvanceLinked(sim, c, c.previous);
      SkippedLinked(sim, Advance(sim, c, c.previous), steps - 1);
    }
  }

  /** What is unconfirmed of a linked list is its tail past the confirmed tick. */
  lemma {:induction false} UnconfirmedTail(pending: seq<Input>, tick: nat, confirmed: nat)
    requires forall i :: 0 <= i < |pending| ==> pending[i].tick == tick - |pending| + 1 + i
    ensures var drop := if tick <= confirmed then |pending|
                        else if tick - confirmed >= |pending| then 0 else |pending| - (tick - confirmed);
      0 <= drop <= |pending| && Unconfirmed(pending, confirmed) == pending[drop..]
    decreases |pending|
  {
    if pending != [] {
      forall i | 0 <= i < |pending[1..]| ensures pending[1..][i].tick == tick - |pending[1..]| + 1 + i {
        assert pending[1..][i] == pending[i + 1];
      }
      UnconfirmedTail(pending[1..], tick, confirmed);
      if pending[0].tick > confirmed {
        assert Unconfirmed(pending[1..], confirmed) == pending[1..];
        assert pending == [pending[0]] + pending[1..];
      }
    }
  }

  /** Every step keeps the outstanding inputs linked to the client's tick. */
  lemma StepsLinked<B>(sim: Sim<B>, c: Client<B>, intent: Intent, server: nat, body: B)
    requires Linked(c)
    ensures Linked(Walked(sim, c, intent)) && Linked(Stated(sim, c, server, body))
  {
    AdvanceLinked(sim, c, intent);
    var r := Resynchronised(sim, c, server);
    match ResyncPlan(c.tick, server) {
      case Behind(steps) => SkippedLinked(sim, c, steps);
      case _ =>
    }
    assert Linked(r);
    if r.predictor.Some? {
      UnconfirmedTail(r.predictor.value.pending, r.tick, server);
    }
  }

  // ----- Prediction against the server -----

  /** Every tick past `confirmed` is in hand, to be replayed, or as many of them as
      are ever kept. */
  ghost predicate Covers<B>(c: Client<B>, confirmed: nat) {
    && c.predictor.Some? && Linked(c) && confirmed <= c.tick
    && (|c.predictor.value.pending| >= c.tick - confirmed || |c.predictor.value.pending| == MAX_LOOKAHEAD)
  }

  lemma AdvanceCovers<B>(sim: Sim<B>, c: Client<B>, confirmed: nat, intent: Intent)
    requires Covers(c, confirmed)
    ensures Covers(Advance(sim, c, intent), confirmed)
  {
    AdvanceLinked(sim, c, intent);
  }

  lemma {:induction false} SkippedCovers<B>(sim: Sim<B>, c: Client<B>, confirmed: nat, steps: nat)
    requires Covers(c, confirmed)
    ensures Covers(Skipped(sim, c, steps), confirmed)
    decreases steps
  {
    if steps > 0 {
      AdvanceCovers(sim, c, confirmed, c.previous);
      SkippedCovers(sim, Advance(sim, c, c.previous), confirmed, steps - 1);
    }
  }

  /** A state keeps every tick since it in hand exactly when it does not renumber
      the client; and then what is in hand is just those ticks. */
  lemma StateCovers<B>(sim: Sim<B>, c: Client<B>, before: nat, server: nat, body: B)
    requires Covers(c, before) && before <= server
    ensures var s := Stated(sim, c, server, body);
      && (Covers(s, server) <==> !Renumbers(c.tick, server))
      && (Covers(s, server) ==> |s.predictor.value.pending| == s.tick - server
                                && s.predictor.value.body == Replay(sim, body, s.predictor.value.pending))
  {
    ResyncLands(sim, c, server);
    StepsLinked(sim, c, c.previous, server, body);
    var r := Resynchronised(sim, c, server);
    if !Renumbers(c.tick, server) {
      if c.tick < server + INPUT_LEAD {
        SkippedCovers(sim, c, before, server + INPUT_LEAD - c.tick);
      }
      assert Covers(r, before);
      UnconfirmedTail(r.predictor.value.pending, r.tick, server);
    }
  }

  function Intents(inputs: seq<Input>): seq<Intent> {
    seq(|inputs|, i requires 0 <= i < |inputs| => inputs[i].intent)
  }

  /** The server's own stepping, from its body at the state it sent. */
  function Simulated<B>(sim: Sim<B>, body: B, intents: seq<Intent>): B
    decreases |intents|
  {
    if intents == [] then body else Simulated(sim, sim(body, intents[0]), intents[1..])
  }

  lemma {:induction false} ReplayIsSimulation<B>(sim: Sim<B>, body: B, inputs: seq<Input>)
    ensures Replay(sim, body, inputs) == Simulated(sim, body, Intents(inputs))
    decreases |inputs|
  {
    if inputs != [] {
      ReplayIsSimulation(sim, sim(body, inputs[0].intent), inputs[1..]);
      assert Intents(inputs)[1..] == Intents(inputs[1..]);
    }
  }

  /** If the server's queue is spoken for as the client acted, the body the client
      shows now is the body the server will have when it gets there. */
  lemma SpokenIsTheFuture<B>(sim: Sim<B>, c: Client<B>, before: nat, server: nat, body: B, q: Queue)
    requires Covers(c, before) && before <= server
    requires !Renumbers(c.tick, server) && Valid(q) && q.lastApplied == server
    requires var s := Stated(sim, c, server, body); s.predictor.Some? && Spoken(q, Intents(s.predictor.value.pending))
    ensures var s := Stated(sim, c, server, body);
      s.predictor.value.body == Simulated(sim, body, Answers(q, s.tick - server))
  {
    StateCovers(sim, c, before, server, body);
    var pending := Stated(sim, c, server, body).predictor.value.pending;
    PlaysBack(q, Intents(pending));
    ReplayIsSimulation(sim, body, pending);
  }

  // ----- From what was sent to what is spoken for -----

  /** A tick that was not reported repeats the one before it. */
  ghost predicate RepeatsOnly(pending: seq<Input>, sent: seq<Input>) {
    forall i :: 0 < i < |pending| && pending[i] !in sent ==> pending[i].intent == pending[i - 1].intent
  }

  /** And the client goes on with what it last did. */
  ghost predicate Continues<B>(c: Client<B>) {
    c.predictor.Some? ==>
      && RepeatsOnly(c.predictor.value.pending, c.sent)
      && (c.predictor.value.pending != [] ==> c.predictor.value.pending[|c.predictor.value.pending| - 1].intent == c.previous)
  }

  lemma TrimmedRepeats(pending: seq<Input>, next: Input, sent: seq<Input>)
    requires RepeatsOnly(pending, sent)
    requires next in sent || pending == [] || next.intent == pending[|pending| - 1].intent
    ensures var p := Trimmed(pending + [next]); RepeatsOnly(p, sent) && p != [] && p[|p| - 1] == next
  {
    var whole := pending + [next];
    var p := Trimmed(whole);
    var cut := |whole| - |p|;
    forall i | 0 < i < |p| && p[i] !in sent ensures p[i].intent == p[i - 1].intent {
      assert p[i] == whole[cut + i] && p[i - 1] == whole[cut + i - 1];
    }
  }

  lemma WalkedContinues<B>(sim: Sim<B>, c: Client<B>, intent: Intent)
    requires Continues(c)
    ensures Continues(Walked(sim, c, intent))
  {
    if c.predictor.Some? {
      var next := Input(c.tick + 1, intent);
      assert next in c.sent + [next];
      assert forall x :: x in c.sent ==> x in c.sent + [next];
      TrimmedRepeats(c.predictor.value.pending, next, c.sent + [next]);
    }
  }

  lemma {:induction false} SkippedContinues<B>(sim: Sim<B>, c: Client<B>, steps: nat)
    requires Continues(c)
    ensures Continues(Skipped(sim, c, steps))
    decreases steps
  {
    if steps > 0 {
      if c.predictor.Some? {
        TrimmedRepeats(c.predictor.value.pending, Input(c.tick + 1, c.previous), c.sent);
      }
      SkippedContinues(sim, Advance(sim, c, c.previous), steps - 1);
    }
  }

  lemma ResyncContinues<B>(sim: Sim<B>, c: Client<B>, server: nat)
    requires Linked(c) && Continues(c)
    ensures var r := Resynchronised(sim, c, server); Linked(r) && Continues(r) && r.sent == c.sent
  {
    match ResyncPlan(c.tick, server) {
      case Behind(steps) =>
        SkippedContinues(sim, c, steps);
        SkippedLinked(sim, c, steps);
        SkippedSteps(sim, c, steps);
      case _ =>
    }
  }

  lemma UnconfirmedRepeats(pending: seq<Input>, tick: nat, server: nat, sent: seq<Input>)
    requires LinkedTo(pending, tick) && RepeatsOnly(pending, sent)
    ensures var tail := Unconfirmed(pending, server);
      RepeatsOnly(tail, sent) && (tail != [] ==> pending != [] && tail[|tail| - 1] == pending[|pending| - 1])
  {
    UnconfirmedTail(pending, tick, server);
    var tail := Unconfirmed(pending, server);
    assert tail == pending[|pending| - |tail|..];
    TailRepeats(pending, tail, sent);
  }

  lemma ReconcileContinues<B>(sim: Sim<B>, r: Client<B>, server: nat, body: B)
    requires Linked(r) && Continues(r)
    ensures Continues(r.(predictor := if r.predictor.None? then None else Some(Reconcile(sim, r.predictor.value, server, body))))
  {
    if r.predictor.Some? {
      UnconfirmedRepeats(r.predictor.value.pending, r.tick, server, r.sent);
    }
  }

  /** Every step keeps that so. */
  lemma StepsContinue<B>(sim: Sim<B>, c: Client<B>, intent: Intent, server: nat, body: B)
    requires Linked(c) && Continues(c)
    ensures Continues(Walked(sim, c, intent)) && Continues(Stated(sim, c, server, body))
    ensures Stated(sim, c, server, body).sent == c.sent
  {
    WalkedContinues(sim, c, intent);
    ResyncContinues(sim, c, server);
    ReconcileContinues(sim, Resynchronised(sim, c, server), server, body);
  }

  lemma TailRepeats(pending: seq<Input>, tail: seq<Input>, sent: seq<Input>)
    requires RepeatsOnly(pending, sent) && |tail| <= |pending| && tail == pending[|pending| - |tail|..]
    ensures RepeatsOnly(tail, sent)
    ensures tail != [] ==> tail[|tail| - 1] == pending[|pending| - 1]
  {
    var cut := |pending| - |tail|;
    forall i | 0 < i < |tail| && tail[i] !in sent ensures tail[i].intent == tail[i - 1].intent {
      assert tail[i] == pending[cut + i] && tail[i - 1] == pending[cut + i - 1];
    }
  }

  /** Every input the client sent for these ticks was delivered, in any order and
      as often as may be, to a queue that held nothing for them that was not the
      client's; and nothing else for them was. */
  ghost predicate Delivered(q: Queue, pending: seq<Input>, sent: seq<Input>, arrived: seq<Input>) {
    && (forall i :: 0 <= i < |pending| && pending[i] in sent ==> pending[i] in arrived)
    && (forall x, i :: x in arrived && 0 <= i < |pending| && x.tick == pending[i].tick ==> x == pending[i] && x in sent)
    && (forall i :: 0 <= i < |pending| && pending[i].tick in q.pending ==>
          q.pending[pending[i].tick] == pending[i].intent && pending[i] in sent)
  }

  /** No tick goes unreported for longer than the server repeats one: the tick of
      some reported input, or of the last the server heard, is near before it. */
  ghost predicate KeepsTalking(q: Queue, pending: seq<Input>, sent: seq<Input>) {
    forall k :: 0 <= k < |pending| && pending[k] !in sent ==>
      || (q.lastFresh < pending[k].tick && pending[k].tick - q.lastFresh <= MAX_REPEAT_TICKS)
      || exists j :: 0 <= j < k && pending[j] in sent && k - j <= MAX_REPEAT_TICKS
  }

  /** The server's queue then speaks for every one of those ticks. */
  lemma DeliveredIsSpoken(q: Queue, pending: seq<Input>, sent: seq<Input>, arrived: seq<Input>)
    requires Valid(q) && |pending| <= MAX_LOOKAHEAD
    requires forall i :: 0 <= i < |pending| ==> pending[i].tick == q.lastApplied + 1 + i
    requires RepeatsOnly(pending, sent) && Delivered(q, pending, sent, arrived) && KeepsTalking(q, pending, sent)
    requires pending != [] && pending[0] !in sent ==> pending[0].intent == q.lastIntent
    ensures Valid(OfferAll(q, arrived)) && Spoken(OfferAll(q, arrived), Intents(pending))
  {
    OfferAllFiles(q, arrived);
    forall k: nat | k < |pending| ensures SpokenAt(OfferAll(q, arrived), Intents(pending), k) {
      TickIsSpoken(q, pending, sent, arrived, k);
    }
  }

  lemma TickIsSpoken(q: Queue, pending: seq<Input>, sent: seq<Input>, arrived: seq<Input>, k: nat)
    requires |pending| <= MAX_LOOKAHEAD && k < |pending|
    requires forall i :: 0 <= i < |pending| ==> pending[i].tick == q.lastApplied + 1 + i
    requires RepeatsOnly(pending, sent) && Delivered(q, pending, sent, arrived) && KeepsTalking(q, pending, sent)
    requires pending[0] !in sent ==> pending[0].intent == q.lastIntent
    requires Filed(q, arrived, OfferAll(q, arrived))
    ensures SpokenAt(OfferAll(q, arrived), Intents(pending), k)
  {
    HeldExactly(q, pending, sent, arrived, k);
    var filed := OfferAll(q, arrived);
    assert pending[k].tick == q.lastApplied + 1 + k && filed.lastApplied == q.lastApplied && filed.lastIntent == q.lastIntent;
    if pending[k] !in sent {
      HeardNear(q, pending, sent, arrived, k);
      IntentsFollow(q, pending, sent, k);
    }
  }

  lemma IntentsFollow(q: Queue, pending: seq<Input>, sent: seq<Input>, k: nat)
    requires k < |pending| && RepeatsOnly(pending, sent) && pending[k] !in sent
    requires pending[0] !in sent ==> pending[0].intent == q.lastIntent
    ensures Intents(pending)[k] == if k == 0 then q.lastIntent else Intents(pending)[k - 1]
  {
  }

  /** What the queue holds for a tick is what the client reported for it. */
  lemma HeldExactly(q: Queue, pending: seq<Input>, sent: seq<Input>, arrived: seq<Input>, k: nat)
    requires |pending| <= MAX_LOOKAHEAD && k < |pending| && pending[k].tick == q.lastApplied + 1 + k
    requires Delivered(q, pending, sent, arrived) && Filed(q, arrived, OfferAll(q, arrived))
    ensures var filed, t := OfferAll(q, arrived), pending[k].tick;
      (t in filed.pending <==> pending[k] in sent) && (t in filed.pending ==> filed.pending[t] == pending[k].intent)
  {
    var filed, t := OfferAll(q, arrived), pending[k].tick;
    if pending[k] in sent {
      var n :| 0 <= n < |arrived| && arrived[n] == pending[k];
      assert InWindow(q, arrived[n].tick);
    }
    if t in filed.pending && t !in q.pending {
      var x := Input(t, filed.pending[t]);
      assert x in arrived && x.tick == pending[k].tick;
    }
  }

  lemma HeardNear(q: Queue, pending: seq<Input>, sent: seq<Input>, arrived: seq<Input>, k: nat)
    requires |pending| <= MAX_LOOKAHEAD && k < |pending| && pending[k] !in sent
    requires forall i :: 0 <= i < |pending| ==> pending[i].tick == q.lastApplied + 1 + i
    requires Delivered(q, pending, sent, arrived) && KeepsTalking(q, pending, sent) && Filed(q, arrived, OfferAll(q, arrived))
    ensures HeardLately(OfferAll(q, arrived), pending[k].tick)
  {
    var filed, t := OfferAll(q, arrived), pending[k].tick;
    if q.lastFresh < t && t - q.lastFresh <= MAX_REPEAT_TICKS {
      assert HeardAt(filed, q.lastFresh);
    } else {
      var j :| 0 <= j < k && pending[j] in sent && k - j <= MAX_REPEAT_TICKS;
      HeldExactly(q, pending, sent, arrived, j);
      assert HeardAt(filed, pending[j].tick);
    }
  }

  /** A client that was not renumbered, whose reported inputs have all reached the
      server since the state, that went unreported for no longer than the server
      repeats an input, and began with what the server last applied: the body it
      shows now is the body the server will have when it gets there. */
  lemma PredictionIsTheFuture<B>(sim: Sim<B>, c: Client<B>, before: nat, server: nat, body: B, q: Queue, arrived: seq<Input>)
    requires Covers(c, before) && before <= server
    requires !Renumbers(c.tick, server) && Continues(c) && Valid(q) && q.lastApplied == server
    requires var s := Stated(sim, c, server, body); s.predictor.Some? ==>
      var pending := s.predictor.value.pending;
      && Delivered(q, pending, c.sent, arrived) && KeepsTalking(q, pending, c.sent)
      && (pending != [] && pending[0] !in c.sent ==> pending[0].intent == q.lastIntent)
    ensures var s := Stated(sim, c, server, body);
      s.predictor.Some? && s.predictor.value.body == Simulated(sim, body, Answers(OfferAll(q, arrived), s.tick - server))
  {
    var s := Stated(sim, c, server, body);
    StateCovers(sim, c, before, server, body);
    StepsContinue(sim, c, c.previous, server, body);
    var pending := s.predictor.value.pending;
    DeliveredIsSpoken(q, pending, c.sent, arrived);
    OfferAllFiles(q, arrived);
    SpokenIsTheFuture(sim, c, before, server, body, OfferAll(q, arrived));
  }
}
