/** The bridge between a script and its bot: the script thread
    (`Channel::call` and the locked `call` of `crates/bot/src/script.rs`), the
    thread that forwards commands, and the driver (`drive` in
    `crates/bot/src/runner.rs`).  Each sends on, receives from or drops an end of
    a channel in one step; what the bot does with a command is any answer. */
module Bridge {

  datatype Option<+T> = None | Some(value: T)

  /** Calls are numbered as they are made. */
  datatype Command = Command(id: nat, disconnect: bool)

  datatype Reply = Reply(command: nat, failed: bool)

  /** How a call came back: with a reply, or because the bot stopped. */
  datatype Outcome = Replied(reply: Reply) | BotStopped

  datatype Finished = Finished(command: Command, outcome: Outcome)

  datatype Script = Idle | Waiting(command: Command) | HungUp

  /** The forwarder is between commands, holds one, or has ended. */
  datatype Forwarder = Listening | Holding(command: Command) | Ended

  /** The driver is between commands, carries one out, has left its loop, has
      dropped its queue, or has dropped its end of the replies too. */
  datatype Driver = Ready | Executing(command: Command) | Leaving | QueueDropped | Stopped

  datatype System = System(
    script: Script,
    commands: seq<Command>,
    forwarder: Forwarder,
    queue: seq<Command>,
    driver: Driver,
    replies: seq<Reply>,
    calls: nat,
    closed: Option<nat>,
    finished: seq<Finished>)

  /** `closed` is how many calls had been made when a `Disconnect` was answered. */
  const START: System := System(Idle, [], Listening, [], Ready, [], 0, None, [])

  datatype Event =
    | Call(disconnect: bool)
    | HangUp
    | Receive
    | GiveUp
    | Take
    | Pass
    | ForwarderEnds
    | Begin
    | Answer(failed: bool)
    | NoMore
    | DropQueue
    | DropReplies

  predicate Live(d: Driver) { d.Ready? || d.Executing? }

  /** The driver still has its end of the queue. */
  predicate Reading(d: Driver) { Live(d) || d.Leaving? }

  predicate Enabled(s: System, e: Event) {
    match e
    case Call(_) => s.script.Idle?
    case HangUp => s.script.Idle?
    case Receive => s.script.Waiting? && s.replies != []
    case GiveUp => s.script.Waiting? && s.replies == [] && s.driver.Stopped?
    case Take => s.forwarder.Listening? && s.commands != []
    case Pass => s.forwarder.Holding?
    case ForwarderEnds => s.forwarder.Listening? && s.commands == [] && s.script.HungUp?
    case Begin => s.driver.Ready? && s.queue != []
    case Answer(_) => s.driver.Executing?
    case NoMore => s.driver.Ready? && s.queue == [] && s.forwarder.Ended?
    case DropQueue => s.driver.Leaving?
    case DropReplies => s.driver.QueueDropped?
  }

  function Step(s: System, e: Event): System
    requires Enabled(s, e)
  {
    match e
    case Call(disconnect) =>
      var c := Command(s.calls, disconnect);
      var called := s.(calls := s.calls + 1);
      // Sending fails once the forwarder has dropped its end.
      if s.forwarder.Ended? then called.(finished := s.finished + [Finished(c, BotStopped)])
      else called.(script := Waiting(c), commands := s.commands + [c])
    case HangUp => s.(script := HungUp)
    case Receive =>
      s.(script := Idle, replies := s.replies[1..],
         finished := s.finished + [Finished(s.script.command, Replied(s.replies[0]))])
    case GiveUp =>
      s.(script := Idle, finished := s.finished + [Finished(s.script.command, BotStopped)])
    case Take => s.(commands := s.commands[1..], forwarder := Holding(s.commands[0]))
    case Pass =>
      if Reading(s.driver) then s.(queue := s.queue + [s.forwarder.command], forwarder := Listening)
      else s.(forwarder := Ended, commands := [])
    case ForwarderEnds => s.(forwarder := Ended)
    case Begin => s.(queue := s.queue[1..], driver := Executing(s.queue[0]))
    case Answer(failed) =>
      var c := s.driver.command;
      if s.script.HungUp? then s.(driver := Leaving)
      else s.(replies := s.replies + [Reply(c.id, failed)], driver := if c.disconnect then Leaving else Ready,
              closed := if c.disconnect then Some(s.calls) else s.closed)
    case NoMore => s.(driver := Leaving)
    case DropQueue => s.(driver := QueueDropped, queue := [])
    case DropReplies => s.(driver := Stopped)
  }

  // ----- What every step keeps -----

  function Carried(f: Forwarder): seq<Command> {
    if f.Holding? then [f.command] else []
  }

  function Underway(d: Driver): seq<Command> {
    if d.Executing? then [d.command] else []
  }

  /** Every command on its way to the bot. */
  function Outgoing(s: System): seq<Command> {
    s.commands + Carried(s.forwarder) + s.queue + Underway(s.driver)
  }

  /** While the driver is live, one call is somewhere on its way round, or none. */
  ghost predicate OneAtATime(s: System) {
    Live(s.driver) ==>
      if !s.script.Waiting? then Outgoing(s) == [] && s.replies == []
      else (Outgoing(s) == [s.script.command] && s.replies == []) ||
           (Outgoing(s) == [] && |s.replies| == 1 && s.replies[0].command == s.script.command.id)
  }

  /** Made after a `Disconnect` was answered. */
  predicate TooLate(s: System, id: nat) {
    s.closed.Some? && id >= s.closed.value
  }

  /** Once it is not, only a call made before can still have a reply to come. */
  ghost predicate LastReply(s: System) {
    !Live(s.driver) && s.replies != [] ==>
      && s.script.Waiting? && |s.replies| == 1 && s.replies[0].command == s.script.command.id
      && !TooLate(s, s.script.command.id)
  }

  ghost predicate Ends(s: System) {
    && (s.forwarder.Ended? ==> s.script.HungUp? || !Reading(s.driver))
    && (!Live(s.driver) ==> s.script.HungUp? || s.closed.Some?)
    && (s.closed.Some? ==> !Live(s.driver) && s.closed.value <= s.calls)
    && (s.script.Waiting? ==> s.script.command.id < s.calls)
  }

  ghost predicate RightlyAnswered(s: System, f: Finished) {
    && f.command.id < s.calls
    && (f.outcome.Replied? ==> f.outcome.reply.command == f.command.id)
    && (TooLate(s, f.command.id) ==> f.outcome == BotStopped)
  }

  /** Each call that has come back came back with the reply to its own command;
      those made after a `Disconnect` came back with none. */
  ghost predicate Answered(s: System) {
    forall i :: 0 <= i < |s.finished| ==> RightlyAnswered(s, s.finished[i])
  }

  ghost predicate Inv(s: System) {
    OneAtATime(s) && LastReply(s) && Ends(s) && Answered(s)
  }

  /** A driver carrying out a command has someone waiting for the answer. */
  lemma SomeoneListens(s: System)
    requires OneAtATime(s) && s.driver.Executing?
    ensures s.script == Waiting(s.driver.command)
    ensures s.commands == [] && !s.forwarder.Holding? && s.queue == [] && s.replies == []
  {
    assert s.driver.command in Outgoing(s);
    OnlyOne(s.commands + Carried(s.forwarder) + s.queue, s.driver.command, s.script.command);
    assert s.commands + Carried(s.forwarder) + s.queue == [];
  }

  lemma OnlyOne(front: seq<Command>, last: Command, c: Command)
    requires front + [last] == [c]
    ensures front == [] && last == c
  {
    assert |front + [last]| == 1;
    assert (front + [last])[0] == last;
  }

  lemma {:induction false} AnsweredKept(s: System, t: System)
    requires Answered(s) && t.finished == s.finished && t.calls >= s.calls
    requires t.closed == s.closed || t.closed == Some(s.calls)
    ensures Answered(t)
  {
  }

  lemma CallKeeps(s: System, disconnect: bool)
    requires Inv(s) && Enabled(s, Call(disconnect))
    ensures Inv(Step(s, Call(disconnect)))
  {
  }

  lemma ScriptKeeps(s: System, e: Event)
    requires Inv(s) && Enabled(s, e) && (e.Receive? || e.GiveUp? || e.HangUp?)
    ensures Inv(Step(s, e))
  {
  }

  lemma ForwarderKeeps(s: System, e: Event)
    requires Inv(s) && Enabled(s, e) && (e.Take? || e.Pass? || e.ForwarderEnds?)
    ensures Inv(Step(s, e))
  {
  }

  lemma DriverKeeps(s: System, e: Event)
    requires Inv(s) && Enabled(s, e) && (e.Begin? || e.Answer? || e.NoMore? || e.DropQueue? || e.DropReplies?)
    ensures Inv(Step(s, e))
  {
    var t := Step(s, e);
    AnsweredKept(s, t);
    match e
    case Begin => Begun(s);
    case Answer(failed) => SomeoneListens(s);
    case NoMore =>
    case DropQueue =>
    case DropReplies =>
  }

  lemma Begun(s: System)
    requires OneAtATime(s) && Enabled(s, Begin)
    ensures Outgoing(Step(s, Begin)) == Outgoing(s)
  {
  }

  /** Whichever of the three moves next, the bridge stays in order. */
  lemma StepKeeps(s: System, e: Event)
    requires Inv(s) && Enabled(s, e)
    ensures Inv(Step(s, e))
  {
    if e.Call? { CallKeeps(s, e.disconnect); }
    else if e.Receive? || e.GiveUp? || e.HangUp? { ScriptKeeps(s, e); }
    else if e.Take? || e.Pass? || e.ForwarderEnds? { ForwarderKeeps(s, e); }
    else { DriverKeeps(s, e); }
  }

  ghost predicate IsRun(s: System, es: seq<Event>)
    decreases |es|
  {
    es == [] || (Enabled(s, es[0]) && IsRun(Step(s, es[0]), es[1..]))
  }

  function After(s: System, es: seq<Event>): System
    requires IsRun(s, es)
    decreases |es|
  {
    if es == [] then s else After(Step(s, es[0]), es[1..])
  }

  lemma {:induction false} RunKeeps(s: System, es: seq<Event>)
    requires Inv(s) && IsRun(s, es)
    ensures Inv(After(s, es))
    decreases |es|
  {
    if es != [] {
      StepKeeps(s, es[0]);
      RunKeeps(Step(s, es[0]), es[1..]);
    }
  }

  /** In every interleaving: while the bot is there at most one command or reply
      is under way; every call that came back with a reply came back with its
      own; and every call made after a `Disconnect` was answered came back with
      the error. */
  lemma EachCallItsOwnReply(es: seq<Event>, f: Finished)
    requires IsRun(START, es)
    ensures var s := After(START, es);
      && (Live(s.driver) ==> |Outgoing(s)| + |s.replies| <= 1)
      && (f in s.finished && f.outcome.Replied? ==> f.outcome.reply.command == f.command.id)
      && (f in s.finished && TooLate(s, f.command.id) ==> f.outcome == BotStopped)
  {
    RunKeeps(START, es);
  }

  // ----- Every call ends -----

  /** How much the three of them can still do before the waiting call ends. */
  function Work(s: System): nat {
    5 * |s.commands| + 4 * |Carried(s.forwarder)| + 3 * |s.queue| + |s.replies|
    + (if s.forwarder.Ended? then 0 else 1)
    + (match s.driver
       case Ready => 4
       case Executing(_) => 6
       case Leaving => 2
       case QueueDropped => 1
       case Stopped => 0)
    + (if s.script.Waiting? then 1 else 0)
  }

  lemma EveryStepCounts(s: System, e: Event)
    requires Inv(s) && s.script.Waiting? && Enabled(s, e)
    ensures Work(Step(s, e)) < Work(s)
  {
    if e.Answer? { SomeoneListens(s); }
  }

  /** A waiting call never leaves all three waiting for each other. */
  lemma NeverStuck(s: System) returns (e: Event)
    requires Inv(s) && s.script.Waiting?
    ensures Enabled(s, e)
  {
    if s.replies != [] { return Receive; }
    match s.driver
    case Stopped => return GiveUp;
    case QueueDropped => return DropReplies;
    case Leaving => return DropQueue;
    case Executing(_) => return Answer(false);
    case Ready =>
      if s.queue != [] { return Begin; }
      if s.forwarder.Holding? { return Pass; }
      assert s.script.command in Outgoing(s);
      return Take;
  }

  /** The call is still the one that was waiting. */
  ghost predicate StillWaiting(s: System, es: seq<Event>)
    requires IsRun(s, es)
    decreases |es|
  {
    s.script.Waiting? && (es == [] || StillWaiting(Step(s, es[0]), es[1..]))
  }

  /** However the three are scheduled, a call comes back within that many steps. */
  lemma {:induction false} CallEnds(s: System, es: seq<Event>)
    requires Inv(s) && IsRun(s, es) && StillWaiting(s, es)
    ensures |es| <= Work(s)
    decreases |es|
  {
    if es != [] {
      EveryStepCounts(s, es[0]);
      StepKeeps(s, es[0]);
      CallEnds(Step(s, es[0]), es[1..]);
    }
  }

  // ----- What the bot is given, and what it gives back -----

  /** The replies a script has had, in order. */
  function Had(finished: seq<Finished>): seq<Reply>
    decreases |finished|
  {
    if finished == [] then []
    else
      var last := finished[|finished| - 1];
      Had(finished[..|finished| - 1]) + if last.outcome.Replied? then [last.outcome.reply] else []
  }

  lemma HadNext(finished: seq<Finished>, f: Finished)
    ensures Had(finished + [f]) == Had(finished) + if f.outcome.Replied? then [f.outcome.reply] else []
  {
    assert (finished + [f])[..|finished|] == finished;
  }

  /** The reply one event has the bot give: what it made of the command it was
      carrying out, to anyone still there. */
  function GivenBy(s: System, e: Event): seq<Reply>
    requires Enabled(s, e)
  {
    if e.Answer? && !s.script.HungUp? then [Reply(s.driver.command.id, e.failed)] else []
  }

  function Given(s: System, es: seq<Event>): seq<Reply>
    requires IsRun(s, es)
    decreases |es|
  {
    if es == [] then [] else GivenBy(s, es[0]) + Given(Step(s, es[0]), es[1..])
  }

  /** Every reply the bot gives reaches the script, as it was given and in order,
      or is on its way; and no other does. */
  lemma {:induction false} RepliesAreGiven(s: System, es: seq<Event>)
    requires IsRun(s, es)
    ensures var end := After(s, es); Had(end.finished) + end.replies == Had(s.finished) + s.replies + Given(s, es)
    decreases |es|
  {
    if es != [] {
      var e, t := es[0], Step(s, es[0]);
      OneGiven(s, e);
      RepliesAreGiven(t, es[1..]);
      Regrouped(Had(s.finished) + s.replies, GivenBy(s, e), Given(t, es[1..]));
    }
  }

  lemma Regrouped(a: seq<Reply>, b: seq<Reply>, c: seq<Reply>)
    ensures a + b + c == a + (b + c)
  {
  }

  lemma OneGiven(s: System, e: Event)
    requires Enabled(s, e)
    ensures var t := Step(s, e); Had(t.finished) + t.replies == Had(s.finished) + s.replies + GivenBy(s, e)
  {
    if e.Receive? {
      OneReceived(s);
    } else if e.Call? || e.GiveUp? {
      NoneGiven(s, e);
    } else {
      assert Step(s, e).finished == s.finished;
      assert Had(s.finished) + (s.replies + GivenBy(s, e)) == Had(s.finished) + s.replies + GivenBy(s, e);
    }
  }

  lemma OneReceived(s: System)
    requires Enabled(s, Receive)
    ensures var t := Step(s, Receive); Had(t.finished) + t.replies == Had(s.finished) + s.replies
  {
    var t := Step(s, Receive);
    HadNext(s.finished, t.finished[|s.finished|]);
    assert s.replies == [s.replies[0]] + s.replies[1..];
  }

  lemma NoneGiven(s: System, e: Event)
    requires Enabled(s, e) && (e.Call? || e.GiveUp?)
    ensures var t := Step(s, e); t.replies == s.replies && Had(t.finished) == Had(s.finished)
  {
    var t := Step(s, e);
    if t.finished != s.finished {
      HadNext(s.finished, t.finished[|s.finished|]);
    }
  }

  /** What is on its way to the bot, the next first. */
  function Coming(s: System): seq<Command> {
    s.queue + Carried(s.forwarder) + s.commands
  }

  /** What one event has the bot begin, and what it has the script send. */
  function BegunBy(s: System, e: Event): seq<Command>
    requires Enabled(s, e)
  {
    if e.Begin? then [s.queue[0]] else []
  }

  function SentBy(s: System, e: Event): seq<Command>
    requires Enabled(s, e)
  {
    if e.Call? && !s.forwarder.Ended? then [Command(s.calls, e.disconnect)] else []
  }

  function AllBegun(s: System, es: seq<Event>): seq<Command>
    requires IsRun(s, es)
    decreases |es|
  {
    if es == [] then [] else BegunBy(s, es[0]) + AllBegun(Step(s, es[0]), es[1..])
  }

  function AllSent(s: System, es: seq<Event>): seq<Command>
    requires IsRun(s, es)
    decreases |es|
  {
    if es == [] then [] else SentBy(s, es[0]) + AllSent(Step(s, es[0]), es[1..])
  }

  /** Once it no longer reads, the bot begins nothing. */
  lemma {:induction false} NoneBegun(s: System, es: seq<Event>)
    requires IsRun(s, es) && !Reading(s.driver)
    ensures AllBegun(s, es) == []
    decreases |es|
  {
    if es != [] {
      NoneBegun(Step(s, es[0]), es[1..]);
    }
  }

  /** The bot begins what the script sent, in the order it was sent, none twice and
      none passed over. */
  lemma {:induction false} BegunInOrder(s: System, es: seq<Event>)
    requires IsRun(s, es)
    ensures AllBegun(s, es) <= Coming(s) + AllSent(s, es)
    ensures Reading(After(s, es).driver) ==> AllBegun(s, es) + Coming(After(s, es)) == Coming(s) + AllSent(s, es)
    decreases |es|
  {
    if es != [] {
      var e, t := es[0], Step(s, es[0]);
      BegunInOrder(t, es[1..]);
      if Reading(t.driver) {
        OneComes(s, e);
        Chained(BegunBy(s, e), AllBegun(t, es[1..]), Coming(s), Coming(t), SentBy(s, e), AllSent(t, es[1..]), Coming(After(t, es[1..])));
      } else {
        NoneBegun(t, es[1..]);
        StillNotReading(t, es[1..]);
      }
    }
  }

  lemma Chained(b: seq<Command>, c: seq<Command>, before: seq<Command>, next: seq<Command>, x: seq<Command>, y: seq<Command>, end: seq<Command>)
    requires b + next == before + x
    ensures c <= next + y ==> b + c <= before + (x + y)
    ensures c + end == next + y ==> (b + c) + end == before + (x + y)
  {
    assert before + (x + y) == (before + x) + y == b + (next + y);
    assert (b + c) + end == b + (c + end);
  }

  lemma {:induction false} StillNotReading(s: System, es: seq<Event>)
    requires IsRun(s, es) && !Reading(s.driver)
    ensures !Reading(After(s, es).driver)
    decreases |es|
  {
    if es != [] {
      StillNotReading(Step(s, es[0]), es[1..]);
    }
  }

  lemma OneComes(s: System, e: Event)
    requires Enabled(s, e) && Reading(Step(s, e).driver)
    ensures BegunBy(s, e) + Coming(Step(s, e)) == Coming(s) + SentBy(s, e)
  {
    match e
    case Begin => assert s.queue == [s.queue[0]] + s.queue[1..];
    case Take => assert s.commands == [s.commands[0]] + s.commands[1..];
    case _ =>
  }

  /** No call ends in the error while the bot is there to answer. */
  ghost predicate NoneRefused(s: System) {
    Live(s.driver) ==> forall i :: 0 <= i < |s.finished| ==> s.finished[i].outcome.Replied?
  }

  lemma {:induction false} ErrorMeansStopped(s: System, es: seq<Event>)
    requires Inv(s) && NoneRefused(s) && IsRun(s, es)
    ensures NoneRefused(After(s, es))
    decreases |es|
  {
    if es != [] {
      StepKeeps(s, es[0]);
      ErrorMeansStopped(Step(s, es[0]), es[1..]);
    }
  }

  /** From the start: what the script has had and is about to is what the bot gave,
      what the bot began is what the script sent, in order, and an error means the
      bot has stopped. */
  lemma FaithfulBridge(es: seq<Event>)
    requires IsRun(START, es)
    ensures var end := After(START, es);
      && Had(end.finished) + end.replies == Given(START, es)
      && AllBegun(START, es) <= AllSent(START, es)
      && (Reading(end.driver) ==> AllBegun(START, es) + Coming(end) == AllSent(START, es))
      && NoneRefused(end)
  {
    RepliesAreGiven(START, es);
    BegunInOrder(START, es);
    ErrorMeansStopped(START, es);
    assert Had(START.finished) + START.replies == [] && Coming(START) == [];
    assert [] + Given(START, es) == Given(START, es) && [] + AllSent(START, es) == AllSent(START, es);
  }
}
