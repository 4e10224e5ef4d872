/** The line format, written out: how each command is spelt, what each fault
    means, and which lines, faults and orders a whole text comes to. */
module RecordingFormat {
  import opened RecordingText
  import opened Recording

  // ----- Numbers -----

  /** Decimal digits, the most significant first, without leading noughts. */
  lemma DecimalNext(n: nat, d: nat)
    requires d < 10
    ensures Decimal(d) == ["0123456789"[d]]
    ensures n > 0 ==> Decimal(10 * n + d) == Decimal(n) + ["0123456789"[d]]
  {
    assert (10 * n + d) / 10 == n && (10 * n + d) % 10 == d;
  }

  lemma NumbersKnown()
    ensures Signed(-120) == "-120" && Signed(7) == "7" && Signed(0) == "0"
  {
    assert Decimal(1) == "1" && Decimal(12) == Decimal(1) + "2" == "12" && Decimal(120) == Decimal(12) + "0" == "120";
  }

  // ----- Lines -----

  function Three(a: string, b: string, c: string): string {
    a + " " + b + " " + c
  }

  /** What each command is written as, after its tick and a space. */
  function Written<F>(floats: Floats<F>, command: Command<F>): Option<string> {
    match command
    case Action(id, pressed) => Some("action " + (id + if pressed then " down" else " up"))
    case DigBlock(p) => Some("dig_block " + Three(Signed(p.x), Signed(p.y), Signed(p.z)))
    case DigSubNode(p) => Some("dig_subnode " + Three(Signed(p.x), Signed(p.y), Signed(p.z)))
    case Place(p, m) => Some("place " + (Three(Signed(p.x), Signed(p.y), Signed(p.z)) + " " + Decimal(m)))
    case PlaceSubNode(p, m) => Some("place_subnode " + (Three(Signed(p.x), Signed(p.y), Signed(p.z)) + " " + Decimal(m)))
    case MoveTo(x, y, z) => Some("move_to " + Three(floats.show(x), floats.show(y), floats.show(z)))
    case Chat(text) => Some("chat " + text)
    case Control(_) => None
  }

  lemma Joined(a: string, b: string, c: string)
    ensures a + b + c == a + (b + c)
  {
  }

  /** Each entry is one line, tick first, or nothing if it is not recordable. */
  lemma LineText<F>(floats: Floats<F>, entry: Recorded<F>)
    ensures entry.command.Control? <==> Written(floats, entry.command).None?
    ensures entry.command.Control? ==> ShowEntry(floats, entry) == ""
    ensures !entry.command.Control? ==>
      ShowEntry(floats, entry) == Decimal(entry.tick) + " " + Written(floats, entry.command).value + "\n"
  {
    if !entry.command.Control? {
      CommandText(floats, entry.command);
    }
  }

  /** The verb and what follows it are what is written. */
  predicate Matches<F>(floats: Floats<F>, command: Command<F>)
    requires !command.Control?
  {
    Spelt(VerbOf(command)) + " " + Arguments(floats, command) == Written(floats, command).value
  }

  lemma CommandText<F>(floats: Floats<F>, command: Command<F>)
    requires !command.Control?
    ensures Matches(floats, command)
  {
    if command.Place? || command.PlaceSubNode? {
      PlacedText(floats, command);
    } else if command.DigBlock? || command.DigSubNode? {
      DugText(floats, command);
    } else if command.Action? {
      ActionText(floats, command.id, command.pressed);
    }
  }

  lemma PlacedText<F>(floats: Floats<F>, command: Command<F>)
    requires command.Place? || command.PlaceSubNode?
    ensures Matches(floats, command)
  {
    PlaceText(floats, command.pos);
  }

  lemma DugText<F>(floats: Floats<F>, command: Command<F>)
    requires command.DigBlock? || command.DigSubNode?
    ensures Matches(floats, command)
  {
    PlaceText(floats, command.pos);
  }

  lemma ActionText<F>(floats: Floats<F>, id: string, pressed: bool)
    ensures Arguments(floats, Action(id, pressed)) == id + if pressed then " down" else " up"
  {
    var edge := if pressed then "down" else "up";
    Joined(id, " ", edge);
    assert " " + edge == if pressed then " down" else " up";
  }

  lemma PlaceText<F>(floats: Floats<F>, p: Position)
    ensures Coordinates(p) == Three(Signed(p.x), Signed(p.y), Signed(p.z))
  {
  }

  // ----- Faults -----

  const VERBS: set<string> := {"action", "dig_block", "dig_subnode", "place", "place_subnode", "move_to", "chat"}

  /** The faults a line's first two words can have, before what follows matters. */
  lemma HeadFaults<F>(floats: Floats<F>, words: seq<string>, line: nat)
    requires words != []
    ensures var r := ReadLine(floats, words, line);
      && (r == Err(line, BadTick) <==> ReadUnsigned(words[0], 0xFFFF_FFFF_FFFF_FFFF).None?)
      && (r == Err(line, MissingVerb) <==> r != Err(line, BadTick) && |words| == 1)
      && (r == Err(line, UnknownVerb) <==> r != Err(line, BadTick) && |words| > 1 && words[1] !in VERBS)
      && (r.Err? ==> r.line == line)
      && (r.Ok? ==> Some(r.value.tick) == ReadUnsigned(words[0], 0xFFFF_FFFF_FFFF_FFFF))
  {
  }

  /** Line `words`, whose tick and verb are sound, read as `command` or `fault`. */
  ghost predicate Reads<F>(floats: Floats<F>, words: seq<string>, line: nat, command: Command<F>) {
    words != [] && ReadLine(floats, words, line).Ok? && ReadLine(floats, words, line).value.command == command
  }

  ghost predicate Fails<F>(floats: Floats<F>, words: seq<string>, line: nat, fault: Fault) {
    words != [] && ReadLine(floats, words, line) == Err(line, fault)
  }

  ghost predicate Sound(words: seq<string>, verb: string) {
    |words| >= 2 && ReadUnsigned(words[0], 0xFFFF_FFFF_FFFF_FFFF).Some? && words[1] == verb
  }

  /** An action needs an id; its edge is down unless it says otherwise. */
  lemma ActionLine<F>(floats: Floats<F>, words: seq<string>, line: nat)
    requires Sound(words, "action")
    ensures |words| == 2 ==> Fails(floats, words, line, MissingId)
    ensures |words| == 3 ==> Reads(floats, words, line, Action(words[2], true))
    ensures |words| > 3 && words[3] == "down" ==> Reads(floats, words, line, Action(words[2], true))
    ensures |words| > 3 && words[3] == "up" ==> Reads(floats, words, line, Action(words[2], false))
    ensures |words| > 3 && words[3] != "down" && words[3] != "up" ==> Fails(floats, words, line, BadEdge)
  {
  }

  /** Words two, three and four as coordinates. */
  ghost predicate Coordinated(words: seq<string>, p: Position) {
    |words| >= 5 && ReadSigned(words[2]) == Some(p.x) && ReadSigned(words[3]) == Some(p.y) && ReadSigned(words[4]) == Some(p.z)
  }

  predicate Uncoordinated(words: seq<string>)
    requires |words| >= 5
  {
    ReadSigned(words[2]).None? || ReadSigned(words[3]).None? || ReadSigned(words[4]).None?
  }

  lemma CoordinatesLine(words: seq<string>, line: nat)
    requires |words| >= 2
    ensures |words| < 5 ==> ReadCoordinates(words[2..], line) == Err(line, MissingCoordinates)
    ensures |words| >= 5 && Uncoordinated(words) ==> ReadCoordinates(words[2..], line) == Err(line, BadCoordinate)
    ensures forall p :: Coordinated(words, p) ==> ReadCoordinates(words[2..], line) == Ok(p)
  {
  }

  /** A dig needs three whole numbers of thirty-two bits, and ignores the rest. */
  lemma DigLine<F>(floats: Floats<F>, words: seq<string>, line: nat)
    requires Sound(words, "dig_block") || Sound(words, "dig_subnode")
    ensures |words| < 5 ==> Fails(floats, words, line, MissingCoordinates)
    ensures |words| >= 5 && Uncoordinated(words) ==> Fails(floats, words, line, BadCoordinate)
    ensures forall p :: Coordinated(words, p) ==>
      Reads(floats, words, line, if words[1] == "dig_block" then DigBlock(p) else DigSubNode(p))
  {
    CoordinatesLine(words, line);
  }

  /** A placement needs a material of sixteen bits besides. */
  lemma PlaceLine<F>(floats: Floats<F>, words: seq<string>, line: nat)
    requires Sound(words, "place") || Sound(words, "place_subnode")
    ensures |words| < 5 ==> Fails(floats, words, line, MissingCoordinates)
    ensures |words| >= 5 && Uncoordinated(words) ==> Fails(floats, words, line, BadCoordinate)
    ensures |words| == 5 && !Uncoordinated(words) ==> Fails(floats, words, line, MissingMaterial)
    ensures |words| > 5 && !Uncoordinated(words) && ReadUnsigned(words[5], 65535).None? ==> Fails(floats, words, line, BadMaterial)
    ensures forall p, m: Material :: Coordinated(words, p) && |words| > 5 && ReadUnsigned(words[5], 65535) == Some(m) ==>
      Reads(floats, words, line, if words[1] == "place" then Place(p, m) else PlaceSubNode(p, m))
  {
    CoordinatesLine(words, line);
  }

  /** A move needs three numbers. */
  lemma MoveLine<F>(floats: Floats<F>, words: seq<string>, line: nat)
    requires Sound(words, "move_to")
    ensures |words| < 5 ==> Fails(floats, words, line, MissingCoordinates)
    ensures |words| >= 5 ==>
      var (x, y, z) := (floats.read(words[2]), floats.read(words[3]), floats.read(words[4]));
      if x.Some? && y.Some? && z.Some? then Reads(floats, words, line, MoveTo(x.value, y.value, z.value))
      else Fails(floats, words, line, BadNumber)
  {
  }

  /** Chat is the words that follow, a space between each. */
  lemma ChatLine<F>(floats: Floats<F>, words: seq<string>, line: nat)
    requires Sound(words, "chat")
    ensures Reads(floats, words, line, Chat(Join(words[2..])))
  {
  }

  // ----- Texts -----

  /** A line without words, or whose first begins with a hash, is passed over; any
      other is read by its words. */
  lemma EntryExact<F>(floats: Floats<F>, line: string, number: nat)
    ensures var ws := Words(line);
      if ws == [] || ws[0][0] == '#' then ReadEntry(floats, line, number) == Ok(None)
      else match ReadLine(floats, ws, number)
           case Err(l, f) => ReadEntry(floats, line, number) == Err(l, f)
           case Ok(entry) => ReadEntry(floats, line, number) == Ok(Some(entry))
  {
    TrimWords(line);
  }

  lemma CollectFirst<E>(read: Reader<E>, lines: seq<string>, number: nat)
    requires lines != []
    ensures Collect(read, lines, number) ==
      match read(lines[0], number)
      case Err(l, f) => Err(l, f)
      case Ok(found) =>
        match Collect(read, lines[1..], number + 1)
        case Err(l, f) => Err(l, f)
        case Ok(rest) => Ok(if found.Some? then [found.value] + rest else rest)
  {
  }

  lemma CollectNone<E>(read: Reader<E>, number: nat)
    ensures Collect(read, [], number) == Ok([])
  {
  }

  /** Lines are read from the top: one line more adds its entry, if it has one, to
      those before it; the first fault stands, whatever follows. */
  lemma {:induction false} CollectNext<E>(read: Reader<E>, lines: seq<string>, line: string, number: nat)
    ensures var before, found := Collect(read, lines, number), read(line, number + |lines|);
      Collect(read, lines + [line], number) ==
        if before.Err? then before
        else match found
             case Err(l, f) => Err(l, f)
             case Ok(entry) => Ok(if entry.Some? then before.value + [entry.value] else before.value)
    decreases |lines|
  {
    var all := lines + [line];
    if lines == [] {
      assert all == [line] && all[0] == line && all[1..] == [];
      CollectFirst(read, all, number);
      CollectNone(read, number);
      CollectNone(read, number + 1);
      assert number + |lines| == number;
      var found := read(line, number);
      if found.Ok? && found.value.Some? {
        var none: seq<E> := [];
        assert [found.value.value] + none == none + [found.value.value];
      }
    } else {
      assert all[0] == lines[0] && all[1..] == lines[1..] + [line];
      assert number + 1 + |lines[1..]| == number + |lines|;
      CollectNext(read, lines[1..], line, number + 1);
      CollectFirst(read, all, number);
      CollectFirst(read, lines, number);
      var rest := Collect(read, lines[1..], number + 1);
      if rest.Ok? && read(line, number + |lines|).Ok? {
        var entry, found := read(lines[0], number), read(line, number + |lines|).value;
        if entry.Ok? && entry.value.Some? && found.Some? {
          assert [entry.value.value] + (rest.value + [found.value]) == ([entry.value.value] + rest.value) + [found.value];
        }
      }
    }
  }

  /** Ticks fall after entry `k`, and nowhere between `i` and there. */
  ghost predicate FallsFirst<F>(rs: seq<Recorded<F>>, i: int, k: int) {
    && i <= k < |rs| - 1 && 0 <= i && rs[k + 1].tick < rs[k].tick
    && forall j :: i <= j < k ==> rs[j].tick <= rs[j + 1].tick
  }

  /** The order is right, or the first pair that falls is named. */
  lemma OrderExact<F>(rs: seq<Recorded<F>>) returns (k: nat)
    ensures InOrder(rs).Ok? <==> forall j :: 0 <= j < |rs| - 1 ==> rs[j].tick <= rs[j + 1].tick
    ensures InOrder(rs).Ok? ==> InOrder(rs).value == rs
    ensures InOrder(rs).Err? ==>
      FallsFirst(rs, 0, k) && InOrder(rs).line == 0 && InOrder(rs).fault == Backwards(rs[k].tick, rs[k + 1].tick)
  {
    k := 0;
    FallIsThere(rs, 0);
    if InOrder(rs).Err? {
      FallIsFirst(rs, 0);
      k := FirstFall(rs, 0).value;
    }
  }

  lemma {:induction false} FallIsFirst<F>(rs: seq<Recorded<F>>, i: nat)
    requires FirstFall(rs, i).Some?
    ensures FallsFirst(rs, i, FirstFall(rs, i).value)
    decreases |rs| - i
  {
    if rs[i + 1].tick >= rs[i].tick {
      FallIsFirst(rs, i + 1);
    }
  }

  /** Line `n` of a text, counted from one, is what its first fault names; with no
      fault the entries are those of its lines. */
  lemma ParseExact<F>(floats: Floats<F>, text: string)
    ensures var found := ReadLines(floats, Lines(text), 1);
      Parsed(floats, text) == if found.Ok? then InOrder(found.value) else Err(found.line, found.fault)
    ensures ReadLines(floats, [], 1) == Ok([])
  {
  }

  /** One line more. */
  lemma LinesNext<F>(floats: Floats<F>, lines: seq<string>, line: string, number: nat)
    ensures var before, found := ReadLines(floats, lines, number), ReadEntry(floats, line, number + |lines|);
      ReadLines(floats, lines + [line], number) ==
        if before.Err? then before
        else if found.Err? then Err(found.line, found.fault)
        else Ok(if found.value.Some? then before.value + [found.value.value] else before.value)
  {
    var read: Reader<Recorded<F>> := (line: string, n: nat) => ReadEntry(floats, line, n);
    CollectNext(read, lines, line, number);
    ReadsSame(floats, read, lines, number);
    ReadsSame(floats, read, lines + [line], number);
  }

  lemma {:induction false} ReadsSame<F>(floats: Floats<F>, read: Reader<Recorded<F>>, lines: seq<string>, number: nat)
    requires forall line, n: nat :: read(line, n) == ReadEntry(floats, line, n)
    ensures ReadLines(floats, lines, number) == Collect(read, lines, number)
    decreases |lines|
  {
    if lines != [] {
      ReadsSame(floats, read, lines[1..], number + 1);
    }
  }

  /** Lines end at a newline, with or without a carriage return before it, and what
      follows the last one is a line if there is any of it. */
  lemma LinesExact(line: string, rest: string)
    requires forall i :: 0 <= i < |line| ==> line[i] != '\n' && line[i] != '\r'
    ensures Lines(line + "\n" + rest) == [line] + Lines(rest)
    ensures Lines(line + "\r\n" + rest) == [line] + Lines(rest)
    ensures line != "" ==> Lines(line) == [line]
    ensures Lines("") == []
  {
    FirstLine(line, rest);
    ReturnedLine(line, rest);
    if line != "" {
      LastLine(line);
    }
  }

  lemma ReturnedLine(line: string, rest: string)
    requires OneLine(line)
    ensures Lines(line + "\r\n" + rest) == [line] + Lines(rest)
  {
    FirstLine(line + "\r", rest);
    CarriageReturned(line);
    assert (line + "\r") + "\n" + rest == line + "\r\n" + rest;
  }

  lemma CarriageReturned(line: string)
    ensures WithoutReturn(line + "\r") == line
  {
  }

  lemma LastLine(line: string)
    requires OneLine(line) && line != ""
    ensures Lines(line) == [line]
  {
    assert LineLength(line) == |line|;
  }
}
