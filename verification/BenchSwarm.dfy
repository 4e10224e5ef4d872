/** All the bots at once.  A schedule is any interleaving of their sessions; the
    server applies one command at a time.  Whatever the schedule, no dig finds
    air, no placement lacks its material, and the world ends as it began. */
module BenchSwarm {
  import opened BenchSession

  /** Solid cells and what they hold, each bot's units, and how much of its
      session each bot has run. */
  datatype Swarm = Swarm(world: imap<Cell, nat>, units: seq<nat>, done: seq<nat>)

  /** What one benchmark fixes: the grid, the length, the material underfoot. */
  datatype Plan = Plan(bots: nat, side: nat, rounds: nat, material: nat, ground: imap<Cell, nat>, purse: seq<nat>)
  {
    ghost predicate Valid() {
      && bots <= MAX_BOTS && IsSide(side, bots) && |purse| == bots
      && forall i: nat, c :: i < bots && OnPlot(Home(i, side), c) ==> c in ground && ground[c] == material
    }

    function SessionOf(i: nat): seq<Recorded>
      requires side >= 1
    {
      Session(Home(i, side), rounds, material)
    }
  }

  /** What the server requires of a command: solid to dig, air and units to
      fill. */
  ghost predicate Granted(w: imap<Cell, nat>, units: nat, command: Command, material: nat) {
    && (IsDig(command) ==> forall c :: Touches(command, c) ==> c in w && w[c] == material)
    && (IsPlace(command) ==>
          && units >= CellCount(command)
          && (forall c :: Touches(command, c) ==> c !in w))
  }

  ghost function Applied(w: imap<Cell, nat>, command: Command, material: nat): imap<Cell, nat> {
    if IsDig(command) then imap c | c in w && !Touches(command, c) :: w[c]
    else imap c | c in w || (IsPlace(command) && Touches(command, c)) :: if IsPlace(command) && Touches(command, c) then material else w[c]
  }

  function Purse(units: nat, command: Command): nat
    requires IsPlace(command) ==> units >= CellCount(command)
  {
    if IsDig(command) then units + CellCount(command)
    else if IsPlace(command) then units - CellCount(command)
    else units
  }

  /** Bot `i` has a command left. */
  predicate CanAct(p: Plan, s: Swarm, i: nat)
    requires p.side >= 1
  {
    i < p.bots && |s.done| == p.bots && |s.units| == p.bots && s.done[i] < |p.SessionOf(i)|
  }

  function Next(p: Plan, s: Swarm, i: nat): Command
    requires p.side >= 1 && CanAct(p, s, i)
  {
    p.SessionOf(i)[s.done[i]].command
  }

  ghost function Act(p: Plan, s: Swarm, i: nat): Swarm
    requires p.side >= 1 && CanAct(p, s, i) && Granted(s.world, s.units[i], Next(p, s, i), p.material)
  {
    var command := Next(p, s, i);
    Swarm(Applied(s.world, command, p.material), s.units[i := Purse(s.units[i], command)], s.done[i := s.done[i] + 1])
  }

  ghost function Start(p: Plan): Swarm {
    Swarm(p.ground, p.purse, seq(p.bots, _ => 0))
  }

  /** A cell is in a block if it is one of its three by three by three. */
  lemma BlockCells(b: BlockPos, c: Cell)
    ensures InBlock(c, b) <==>
      3 * b.x <= c.x <= 3 * b.x + 2 && 3 * b.y <= c.y <= 3 * b.y + 2 && 3 * b.z <= c.z <= 3 * b.z + 2
  {
  }

  /** What a granted command does: a dig takes what it touches out of the world
      into the bot's hands, a placement puts it back, a walk moves nothing; and no
      other bot's hands or place in its session change. */
  lemma ActDoes(p: Plan, s: Swarm, i: nat)
    requires p.side >= 1 && CanAct(p, s, i) && Granted(s.world, s.units[i], Next(p, s, i), p.material)
    ensures var s', command := Act(p, s, i), Next(p, s, i);
      && (forall c :: c in s'.world <==> (c in s.world && !(IsDig(command) && Touches(command, c))) || (IsPlace(command) && Touches(command, c)))
      && (forall c :: c in s'.world ==> s'.world[c] == if IsPlace(command) && Touches(command, c) then p.material else s.world[c])
      && (command.DigBlock? ==> s'.units[i] == s.units[i] + 27) && (command.DigSubNode? ==> s'.units[i] == s.units[i] + 1)
      && (command.Place? ==> s'.units[i] == s.units[i] - 27) && (command.PlaceSubNode? ==> s'.units[i] == s.units[i] - 1)
      && (command.MoveTo? ==> s'.units[i] == s.units[i])
      && s'.done[i] == s.done[i] + 1
      && forall j :: 0 <= j < p.bots && j != i ==> s'.units[j] == s.units[j] && s'.done[j] == s.done[j]
  {
  }

  // ----- Holes -----

  /** The dig bot `i` has made and not yet undone, after `k` commands. */
  predicate Open(session: seq<Recorded>, k: nat)
  {
    0 < k <= |session| && IsDig(session[k - 1].command)
  }

  predicate InHole(session: seq<Recorded>, k: nat, c: Cell) {
    Open(session, k) && Touches(session[k - 1].command, c)
  }

  function HoleUnits(session: seq<Recorded>, k: nat): nat {
    if Open(session, k) then CellCount(session[k - 1].command) else 0
  }

  ghost predicate Missing(p: Plan, s: Swarm, c: Cell)
    requires p.side >= 1 && |s.done| == p.bots
  {
    exists i :: 0 <= i < p.bots && InHole(p.SessionOf(i), s.done[i], c)
  }

  /** The world is the ground less the holes now open, and each bot carries what
      it started with and what its own hole gave it. */
  ghost predicate Inv(p: Plan, s: Swarm) {
    && p.Valid() && |s.done| == p.bots && |s.units| == p.bots
    && (forall i :: 0 <= i < p.bots ==> s.done[i] <= |p.SessionOf(i)| && s.units[i] == p.purse[i] + HoleUnits(p.SessionOf(i), s.done[i]))
    && (forall c :: c in s.world <==> c in p.ground && !Missing(p, s, c))
    && (forall c :: c in s.world ==> s.world[c] == p.ground[c])
  }

  lemma StartInv(p: Plan)
    requires p.Valid()
    ensures Inv(p, Start(p))
  {
  }

  /** Only the bot whose plot it is ever opens a hole there. */
  lemma HoleOnPlot(p: Plan, i: nat, k: nat, c: Cell)
    requires p.Valid() && i < p.bots && InHole(p.SessionOf(i), k, c)
    ensures OnPlot(Home(i, p.side), c)
  {
    SessionPaired(Home(i, p.side), p.rounds, p.material);
  }

  lemma MissingIsOwn(p: Plan, s: Swarm, i: nat, c: Cell)
    requires Inv(p, s) && i < p.bots && OnPlot(Home(i, p.side), c)
    ensures Missing(p, s, c) <==> InHole(p.SessionOf(i), s.done[i], c)
  {
    if Missing(p, s, c) {
      var j :| 0 <= j < p.bots && InHole(p.SessionOf(j), s.done[j], c);
      HoleOnPlot(p, j, s.done[j], c);
      if j != i {
        PlotsApart(i, j, p.side, c);
      }
    }
  }

  /** Whatever has happened so far, the next command of any bot is granted. */
  lemma AlwaysGranted(p: Plan, s: Swarm, i: nat)
    requires Inv(p, s) && CanAct(p, s, i)
    ensures Granted(s.world, s.units[i], Next(p, s, i), p.material)
  {
    var session, k := p.SessionOf(i), s.done[i];
    var command := Next(p, s, i);
    SessionPaired(Home(i, p.side), p.rounds, p.material);
    forall c | Touches(command, c)
      ensures IsDig(command) ==> c in s.world && s.world[c] == p.material
      ensures IsPlace(command) ==> c !in s.world
    {
      assert OnPlot(Home(i, p.side), c);
      MissingIsOwn(p, s, i, c);
      if IsDig(command) {
        assert !Open(session, k);
      }
      if IsPlace(command) {
        assert k > 0 && IsDig(session[k - 1].command);
        assert Undoes(session[k - 1].command, command, p.material);
      }
    }
    if IsPlace(command) {
      assert k > 0 && IsDig(session[k - 1].command);
      assert Undoes(session[k - 1].command, command, p.material);
    }
  }

  /** What bot `i`'s step does to its own hole: a dig opens exactly the cells it
      touches, a placement closes exactly the cells that were open. */
  lemma HoleStep(p: Plan, s: Swarm, i: nat, c: Cell)
    requires Inv(p, s) && CanAct(p, s, i)
    ensures var session, k, command := p.SessionOf(i), s.done[i], Next(p, s, i);
      && (InHole(session, k + 1, c) <==> IsDig(command) && Touches(command, c))
      && (InHole(session, k, c) <==> IsPlace(command) && Touches(command, c))
      && HoleUnits(session, k + 1) == (if IsDig(command) then CellCount(command) else 0)
      && HoleUnits(session, k) == (if IsPlace(command) then CellCount(command) else 0)
  {
    SessionPaired(Home(i, p.side), p.rounds, p.material);
    var session, k, command := p.SessionOf(i), s.done[i], Next(p, s, i);
    if Open(session, k) {
      assert Undoes(session[k - 1].command, command, p.material);
    }
    if IsPlace(command) {
      assert k > 0 && IsDig(session[k - 1].command);
    }
  }

  /** One cell, before and after bot `i`'s step. */
  lemma CellStep(p: Plan, s: Swarm, i: nat, c: Cell)
    requires Inv(p, s) && CanAct(p, s, i) && Granted(s.world, s.units[i], Next(p, s, i), p.material)
    ensures var s' := Act(p, s, i);
      && (c in s'.world <==> c in p.ground && !Missing(p, s', c))
      && (c in s'.world ==> s'.world[c] == p.ground[c])
  {
    var s', command := Act(p, s, i), Next(p, s, i);
    HoleStep(p, s, i, c);
    MissingStep(p, s, s', i, c);
    if Touches(command, c) {
      SessionPaired(Home(i, p.side), p.rounds, p.material);
      assert OnPlot(Home(i, p.side), c);
      MissingIsOwn(p, s, i, c);
    }
  }

  lemma HandsKept(p: Plan, s: Swarm, i: nat)
    requires Inv(p, s) && CanAct(p, s, i) && Granted(s.world, s.units[i], Next(p, s, i), p.material)
    ensures var s' := Act(p, s, i);
      forall j :: 0 <= j < p.bots ==> s'.done[j] <= |p.SessionOf(j)| && s'.units[j] == p.purse[j] + HoleUnits(p.SessionOf(j), s'.done[j])
  {
    HoleStep(p, s, i, Cell(0, 0, 0));
  }

  lemma ActKeeps(p: Plan, s: Swarm, i: nat)
    requires Inv(p, s) && CanAct(p, s, i) && Granted(s.world, s.units[i], Next(p, s, i), p.material)
    ensures Inv(p, Act(p, s, i))
  {
    var s' := Act(p, s, i);
    HandsKept(p, s, i);
    forall c
      ensures c in s'.world <==> c in p.ground && !Missing(p, s', c)
      ensures c in s'.world ==> s'.world[c] == p.ground[c]
    {
      CellStep(p, s, i, c);
    }
  }

  /** Two bots never have the same cell out at once. */
  lemma HolesApart(p: Plan, i: nat, k: nat, j: nat, l: nat, c: Cell)
    requires p.Valid() && i < p.bots && j < p.bots && i != j && InHole(p.SessionOf(i), k, c)
    ensures !InHole(p.SessionOf(j), l, c)
  {
    HoleOnPlot(p, i, k, c);
    PlotsApart(i, j, p.side, c);
    if InHole(p.SessionOf(j), l, c) {
      HoleOnPlot(p, j, l, c);
    }
  }

  /** After bot `i`'s step a cell is missing through its hole or another's. */
  lemma MissingStep(p: Plan, s: Swarm, s': Swarm, i: nat, c: Cell)
    requires Inv(p, s) && CanAct(p, s, i) && s'.done == s.done[i := s.done[i] + 1]
    ensures Missing(p, s', c) <==>
      InHole(p.SessionOf(i), s.done[i] + 1, c) || (Missing(p, s, c) && !InHole(p.SessionOf(i), s.done[i], c))
  {
    if Missing(p, s', c) {
      MissingAfter(p, s, s', i, c);
    }
    if InHole(p.SessionOf(i), s.done[i] + 1, c) {
      assert InHole(p.SessionOf(i), s'.done[i], c);
    }
    if Missing(p, s, c) && !InHole(p.SessionOf(i), s.done[i], c) {
      var j :| 0 <= j < p.bots && InHole(p.SessionOf(j), s.done[j], c);
      assert j != i && s'.done[j] == s.done[j];
      assert InHole(p.SessionOf(j), s'.done[j], c);
    }
  }

  lemma MissingAfter(p: Plan, s: Swarm, s': Swarm, i: nat, c: Cell)
    requires Inv(p, s) && CanAct(p, s, i) && s'.done == s.done[i := s.done[i] + 1] && Missing(p, s', c)
    ensures InHole(p.SessionOf(i), s.done[i] + 1, c) || (Missing(p, s, c) && !InHole(p.SessionOf(i), s.done[i], c))
  {
    var j :| 0 <= j < p.bots && InHole(p.SessionOf(j), s'.done[j], c);
    if j != i {
      assert InHole(p.SessionOf(j), s.done[j], c);
      HolesApart(p, j, s.done[j], i, s.done[i], c);
    }
  }

  // ----- Schedules -----

  /** A schedule names the bot that acts at each step; it fits when each bot it
      names still has a command. */
  predicate Fits(p: Plan, done: seq<nat>, schedule: seq<nat>)
    requires p.side >= 1
    decreases |schedule|
  {
    schedule == [] ||
    (schedule[0] < p.bots && |done| == p.bots && done[schedule[0]] < |p.SessionOf(schedule[0])|
     && Fits(p, done[schedule[0] := done[schedule[0]] + 1], schedule[1..]))
  }

  /** Running it, stopping where the server refuses a command. */
  ghost function Run(p: Plan, s: Swarm, schedule: seq<nat>): (r: (Swarm, seq<nat>))
    requires p.side >= 1 && Fits(p, s.done, schedule) && |s.done| == p.bots && |s.units| == p.bots
    ensures |r.0.done| == p.bots && |r.0.units| == p.bots
    decreases |schedule|
  {
    if schedule == [] then (s, [])
    else if !Granted(s.world, s.units[schedule[0]], Next(p, s, schedule[0]), p.material) then (s, schedule)
    else Run(p, Act(p, s, schedule[0]), schedule[1..])
  }

  lemma {:induction false} RunKeeps(p: Plan, s: Swarm, schedule: seq<nat>)
    requires Inv(p, s) && Fits(p, s.done, schedule)
    ensures var (end, refused) := Run(p, s, schedule); Inv(p, end) && refused == []
    decreases |schedule|
  {
    if schedule != [] {
      AlwaysGranted(p, s, schedule[0]);
      ActKeeps(p, s, schedule[0]);
      RunKeeps(p, Act(p, s, schedule[0]), schedule[1..]);
    }
  }

  predicate AllOver(p: Plan, s: Swarm)
    requires p.side >= 1 && |s.done| == p.bots
  {
    forall i :: 0 <= i < p.bots ==> s.done[i] == |p.SessionOf(i)|
  }

  lemma RestoredAtEnd(p: Plan, s: Swarm)
    requires Inv(p, s) && AllOver(p, s)
    ensures s.world == p.ground && s.units == p.purse
  {
  }

  /** Every schedule of every benchmark runs to its end without a refusal; and
      once each bot's session is over, the ground is whole and each bot carries
      exactly what it brought. */
  lemma NoBotInterferes(p: Plan, schedule: seq<nat>)
    requires p.Valid() && Fits(p, Start(p).done, schedule)
    ensures var (end, refused) := Run(p, Start(p), schedule);
      && refused == []
      && (AllOver(p, end) ==> end.world == p.ground && end.units == p.purse)
  {
    StartInv(p);
    RunKeeps(p, Start(p), schedule);
    var (end, refused) := Run(p, Start(p), schedule);
    if AllOver(p, end) {
      RestoredAtEnd(p, end);
    }
  }
}
