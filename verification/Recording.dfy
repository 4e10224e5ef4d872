/** Recordings of bot sessions (`crates/bot/src/replay.rs`): one command a line,
    parsed and rendered back.  How a float is written is a parameter: any text
    that reads back as the same value will do. */
module Recording {
  import opened RecordingText

  type Coordinate = n: int | -0x8000_0000 <= n <= 0x7FFF_FFFF
  type Material = n: nat | n <= 0xFFFF
  type Tick = n: nat | n <= 0xFFFF_FFFF_FFFF_FFFF

  const MAX_TICK: nat := 0xFFFF_FFFF_FFFF_FFFF
  const MAX_MATERIAL: nat := 0xFFFF

  datatype Position = Position(x: Coordinate, y: Coordinate, z: Coordinate)

  /** The recordable commands, and `Control` for every other one. */
  datatype Command<F> =
    | Action(id: string, pressed: bool)
    | DigBlock(pos: Position)
    | DigSubNode(pos: Position)
    | Place(pos: Position, material: Material)
    | PlaceSubNode(pos: Position, material: Material)
    | MoveTo(x: F, y: F, z: F)
    | Chat(text: string)
    | Control(name: string)

  datatype Recorded<F> = Recorded(tick: Tick, command: Command<F>)

  datatype Floats<!F> = Floats(show: F -> string, read: string -> Option<F>)

  ghost predicate Faithful<F(!new)>(floats: Floats<F>) {
    forall x :: IsWord(floats.show(x)) && floats.read(floats.show(x)) == Some(x)
  }

  datatype Fault =
    | BadTick | MissingVerb | UnknownVerb
    | MissingId | BadEdge
    | MissingCoordinates | BadCoordinate | BadNumber
    | MissingMaterial | BadMaterial
    | Backwards(earlier: Tick, later: Tick)

  datatype Result<+T> = Ok(value: T) | Err(line: nat, fault: Fault)

  /** The recordable verbs and how each is spelt. */
  datatype Verb = DoAction | DoDigBlock | DoDigSubNode | DoPlace | DoPlaceSubNode | DoMoveTo | DoChat

  function Spelt(v: Verb): string {
    match v
    case DoAction => "action"
    case DoDigBlock => "dig_block"
    case DoDigSubNode => "dig_subnode"
    case DoPlace => "place"
    case DoPlaceSubNode => "place_subnode"
    case DoMoveTo => "move_to"
    case DoChat => "chat"
  }

  function ReadVerb(s: string): Option<Verb> {
    if s == "action" then Some(DoAction)
    else if s == "dig_block" then Some(DoDigBlock)
    else if s == "dig_subnode" then Some(DoDigSubNode)
    else if s == "place" then Some(DoPlace)
    else if s == "place_subnode" then Some(DoPlaceSubNode)
    else if s == "move_to" then Some(DoMoveTo)
    else if s == "chat" then Some(DoChat)
    else None
  }

  lemma VerbReads(v: Verb)
    ensures IsWord(Spelt(v)) && ReadVerb(Spelt(v)) == Some(v)
  {
  }

  // ----- Parsing -----

  function ReadCoordinates(parts: seq<string>, line: nat): Result<Position> {
    if |parts| < 3 then Err(line, MissingCoordinates)
    else
      match (ReadSigned(parts[0]), ReadSigned(parts[1]), ReadSigned(parts[2]))
      case (Some(x), Some(y), Some(z)) =>
        SignedRange(parts[0]); SignedRange(parts[1]); SignedRange(parts[2]);
        Ok(Position(x, y, z))
      case _ => Err(line, BadCoordinate)
  }

  lemma SignedRange(s: string)
    ensures ReadSigned(s).Some? ==> -0x8000_0000 <= ReadSigned(s).value <= 0x7FFF_FFFF
  {
  }

  function ReadMaterial(parts: seq<string>, line: nat): Result<Material> {
    if |parts| < 4 then Err(line, MissingMaterial)
    else match ReadUnsigned(parts[3], MAX_MATERIAL)
      case None => Err(line, BadMaterial)
      case Some(m) => Ok(m)
  }

  function ReadFloats<F>(floats: Floats<F>, parts: seq<string>, line: nat): Result<(F, F, F)> {
    if |parts| < 3 then Err(line, MissingCoordinates)
    else match (floats.read(parts[0]), floats.read(parts[1]), floats.read(parts[2]))
      case (Some(x), Some(y), Some(z)) => Ok((x, y, z))
      case _ => Err(line, BadNumber)
  }

  function ReadAction<F>(rest: seq<string>, line: nat): Result<Command<F>> {
    if rest == [] then Err(line, MissingId)
    else
      var edge := if |rest| > 1 then rest[1] else "down";
      if edge == "down" then Ok(Action(rest[0], true))
      else if edge == "up" then Ok(Action(rest[0], false))
      else Err(line, BadEdge)
  }

  function ReadPlacement<F>(verb: Verb, rest: seq<string>, line: nat): Result<Command<F>> {
    match ReadCoordinates(rest, line)
    case Err(l, f) => Err(l, f)
    case Ok(pos) =>
      match ReadMaterial(rest, line)
      case Err(l, f) => Err(l, f)
      case Ok(m) => Ok(if verb.DoPlace? then Place(pos, m) else PlaceSubNode(pos, m))
  }

  function ReadDig<F>(verb: Verb, rest: seq<string>, line: nat): Result<Command<F>> {
    match ReadCoordinates(rest, line)
    case Err(l, f) => Err(l, f)
    case Ok(pos) => Ok(if verb.DoDigBlock? then DigBlock(pos) else DigSubNode(pos))
  }

  function ReadMove<F>(floats: Floats<F>, rest: seq<string>, line: nat): Result<Command<F>> {
    match ReadFloats(floats, rest, line)
    case Err(l, f) => Err(l, f)
    case Ok((x, y, z)) => Ok(MoveTo(x, y, z))
  }

  function ReadCommand<F>(floats: Floats<F>, verb: Verb, rest: seq<string>, line: nat): Result<Command<F>> {
    match verb
    case DoAction => ReadAction(rest, line)
    case DoDigBlock => ReadDig(verb, rest, line)
    case DoDigSubNode => ReadDig(verb, rest, line)
    case DoPlace => ReadPlacement(verb, rest, line)
    case DoPlaceSubNode => ReadPlacement(verb, rest, line)
    case DoMoveTo => ReadMove(floats, rest, line)
    case DoChat => Ok(Chat(Join(rest)))
  }

  function ReadLine<F>(floats: Floats<F>, words: seq<string>, line: nat): Result<Recorded<F>>
    requires words != []
  {
    match ReadUnsigned(words[0], MAX_TICK)
    case None => Err(line, BadTick)
    case Some(tick) =>
      if |words| == 1 then Err(line, MissingVerb)
      else match ReadVerb(words[1])
        case None => Err(line, UnknownVerb)
        case Some(verb) =>
          match ReadCommand(floats, verb, words[2..], line)
          case Err(l, f) => Err(l, f)
          case Ok(command) => Ok(Recorded(tick, command))
  }

  /** Blank lines and comments hold no command. */
  predicate Ignored(line: string) {
    Trim(line) == "" || Trim(line)[0] == '#'
  }

  /** One line of the file: an entry, nothing, or a fault. */
  function ReadEntry<F>(floats: Floats<F>, line: string, number: nat): Result<Option<Recorded<F>>> {
    if Ignored(line) then Ok(None)
    else
      TrimWords(line);
      TrimWords(Trim(line));
      match ReadLine(floats, Words(Trim(line)), number)
      case Err(l, f) => Err(l, f)
      case Ok(entry) => Ok(Some(entry))
  }

  type Reader<!E> = (string, nat) -> Result<Option<E>>

  /** Line after line, numbered from `number`, up to the first fault. */
  function Collect<E>(read: Reader<E>, lines: seq<string>, number: nat): Result<seq<E>>
    decreases |lines|
  {
    if lines == [] then Ok([])
    else match read(lines[0], number)
      case Err(l, f) => Err(l, f)
      case Ok(found) =>
        match Collect(read, lines[1..], number + 1)
        case Err(l, f) => Err(l, f)
        case Ok(rest) => Ok(if found.Some? then [found.value] + rest else rest)
  }

  function ReadLines<F>(floats: Floats<F>, lines: seq<string>, number: nat): Result<seq<Recorded<F>>> {
    Collect((line, n) => ReadEntry(floats, line, n), lines, number)
  }

  /** The first pair of neighbours whose ticks go backwards, from index `i`. */
  function FirstFall<F>(rs: seq<Recorded<F>>, i: nat): Option<nat>
    decreases |rs| - i
  {
    if i + 1 >= |rs| then None
    else if rs[i + 1].tick < rs[i].tick then Some(i)
    else FirstFall(rs, i + 1)
  }

  function InOrder<F>(rs: seq<Recorded<F>>): Result<seq<Recorded<F>>> {
    FallIsThere(rs, 0);
    match FirstFall(rs, 0)
    case None => Ok(rs)
    case Some(i) => Err(0, Backwards(rs[i].tick, rs[i + 1].tick))
  }

  lemma FallIsThere<F>(rs: seq<Recorded<F>>, i: nat)
    ensures FirstFall(rs, i).Some? ==> i <= FirstFall(rs, i).value < |rs| - 1
    ensures FirstFall(rs, i).None? <==> forall k :: i <= k < |rs| - 1 ==> rs[k].tick <= rs[k + 1].tick
    decreases |rs| - i
  {
  }

  function Parsed<F>(floats: Floats<F>, text: string): Result<seq<Recorded<F>>> {
    match ReadLines(floats, Lines(text), 1)
    case Err(l, f) => Err(l, f)
    case Ok(rs) => InOrder(rs)
  }

  // ----- Rendering -----

  function Coordinates(p: Position): string {
    Signed(p.x) + " " + Signed(p.y) + " " + Signed(p.z)
  }

  predicate Recordable<F>(command: Command<F>) {
    !command.Control?
  }

  function VerbOf<F>(command: Command<F>): Verb
    requires Recordable(command)
  {
    match command
    case Action(_, _) => DoAction
    case DigBlock(_) => DoDigBlock
    case DigSubNode(_) => DoDigSubNode
    case Place(_, _) => DoPlace
    case PlaceSubNode(_, _) => DoPlaceSubNode
    case MoveTo(_, _, _) => DoMoveTo
    case Chat(_) => DoChat
  }

  /** What follows the verb. */
  function Arguments<F>(floats: Floats<F>, command: Command<F>): string
    requires Recordable(command)
  {
    match command
    case Action(id, pressed) => id + " " + if pressed then "down" else "up"
    case DigBlock(p) => Coordinates(p)
    case DigSubNode(p) => Coordinates(p)
    case Place(p, m) => Coordinates(p) + " " + Decimal(m)
    case PlaceSubNode(p, m) => Coordinates(p) + " " + Decimal(m)
    case MoveTo(x, y, z) => floats.show(x) + " " + floats.show(y) + " " + floats.show(z)
    case Chat(text) => text
  }

  /** The line an entry renders to, without its newline. */
  function Line<F>(floats: Floats<F>, entry: Recorded<F>): string
    requires Recordable(entry.command)
  {
    Decimal(entry.tick) + " " + (Spelt(VerbOf(entry.command)) + " " + Arguments(floats, entry.command))
  }

  function ShowEntry<F>(floats: Floats<F>, entry: Recorded<F>): string {
    if Recordable(entry.command) then Line(floats, entry) + "\n" else ""
  }

  function Rendered<F>(floats: Floats<F>, rs: seq<Recorded<F>>): string {
    if rs == [] then "" else ShowEntry(floats, rs[0]) + Rendered(floats, rs[1..])
  }

  /** What a recording keeps of a session. */
  function Kept<F>(rs: seq<Recorded<F>>): seq<Recorded<F>> {
    if rs == [] then []
    else if Recordable(rs[0].command) then [rs[0]] + Kept(rs[1..])
    else Kept(rs[1..])
  }

  // ----- The loops -----

  method Ints(parts: seq<string>, line: nat) returns (r: Result<Position>)
    ensures r == ReadCoordinates(parts, line)
  {
    if |parts| < 3 {
      return Err(line, MissingCoordinates);
    }
    var out := new int[3];
    var index := 0;
    while index < 3
      invariant 0 <= index <= 3
      invariant forall k :: 0 <= k < index ==> ReadSigned(parts[k]) == Some(out[k])
    {
      match ReadSigned(parts[index])
      case None =>
        return Err(line, BadCoordinate);
      case Some(v) =>
        out[index] := v;
        index := index + 1;
    }
    SignedRange(parts[0]);
    SignedRange(parts[1]);
    SignedRange(parts[2]);
    return Ok(Position(out[0], out[1], out[2]));
  }

  method Parse<F>(floats: Floats<F>, text: string) returns (r: Result<seq<Recorded<F>>>)
    ensures r == Parsed(floats, text)
  {
    r := CollectAll((line, n) => ReadEntry(floats, line, n), Lines(text));
    if r.Ok? {
      r := CheckOrder(r.value);
    }
  }

  /** The loop over lines; the first bad one ends it. */
  method CollectAll<E>(read: Reader<E>, lines: seq<string>) returns (r: Result<seq<E>>)
    ensures r == Collect(read, lines, 1)
  {
    var out: seq<E> := [];
    var index := 0;
    assert lines[0..] == lines;
    PrefixedNone(Collect(read, lines, 1));
    while index < |lines|
      invariant index <= |lines|
      invariant Prefixed(out, Collect(read, lines[index..], index + 1)) == Collect(read, lines, 1)
    {
      assert lines[index..][0] == lines[index] && lines[index..][1..] == lines[index + 1..];
      var found := read(lines[index], index + 1);
      if found.Err? {
        return Err(found.line, found.fault);
      }
      if found.value.Some? {
        PrefixedMore(out, found.value.value, Collect(read, lines[index + 1..], index + 2));
        out := out + [found.value.value];
      }
      index := index + 1;
    }
    assert lines[index..] == [] && out + [] == out;
    return Ok(out);
  }

  method CheckOrder<F>(out: seq<Recorded<F>>) returns (r: Result<seq<Recorded<F>>>)
    ensures r == InOrder(out)
  {
    var index := 0;
    FallIsThere(out, 0);
    while index + 1 < |out|
      invariant FirstFall(out, index) == FirstFall(out, 0)
    {
      if out[index + 1].tick < out[index].tick {
        return Err(0, Backwards(out[index].tick, out[index + 1].tick));
      }
      index := index + 1;
    }
    return Ok(out);
  }

  function Prefixed<E>(out: seq<E>, r: Result<seq<E>>): Result<seq<E>> {
    match r
    case Err(l, f) => Err(l, f)
    case Ok(rest) => Ok(out + rest)
  }

  lemma PrefixedNone<E>(r: Result<seq<E>>)
    ensures Prefixed([], r) == r
  {
    if r.Ok? {
      assert [] + r.value == r.value;
    }
  }

  lemma PrefixedMore<E>(out: seq<E>, entry: E, r: Result<seq<E>>)
    ensures r.Ok? ==> Prefixed(out, Ok([entry] + r.value)) == Prefixed(out + [entry], r)
    ensures r.Err? ==> Prefixed(out, r) == Prefixed(out + [entry], r)
  {
    if r.Ok? {
      assert out + ([entry] + r.value) == out + [entry] + r.value;
    }
  }

  lemma RenderedHead<F>(floats: Floats<F>, rs: seq<Recorded<F>>, i: nat)
    requires i < |rs|
    ensures Rendered(floats, rs[i..]) == ShowEntry(floats, rs[i]) + Rendered(floats, rs[i + 1..])
  {
  }

  lemma Regrouped(a: string, b: string, c: string)
    ensures a + (b + c) == (a + b) + c
  {
  }

  method Render<F>(floats: Floats<F>, rs: seq<Recorded<F>>) returns (out: string)
    ensures out == Rendered(floats, rs)
  {
    out := "";
    var i := 0;
    assert rs[0..] == rs;
    while i < |rs|
      invariant i <= |rs| && out + Rendered(floats, rs[i..]) == Rendered(floats, rs)
    {
      RenderedHead(floats, rs, i);
      Regrouped(out, ShowEntry(floats, rs[i]), Rendered(floats, rs[i + 1..]));
      out := out + ShowEntry(floats, rs[i]);
      i := i + 1;
    }
    assert rs[i..] == [];
  }
}
