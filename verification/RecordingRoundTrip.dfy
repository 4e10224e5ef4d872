/** Rendering and parsing undo each other, exactly as far as they can. */
module RecordingRoundTrip {
  import opened RecordingText
  import opened Recording

  /** A command the line format can carry: a one-word id, chat whose only white
      space is single spaces between words. */
  predicate Carried<F>(command: Command<F>) {
    match command
    case Action(id, _) => IsWord(id)
    case Chat(text) => text == Join(Words(text))
    case Control(_) => false
    case _ => true
  }

  ghost predicate Normal<F>(rs: seq<Recorded<F>>) {
    && (forall i :: 0 <= i < |rs| ==> Carried(rs[i].command))
    && (forall i :: 0 <= i < |rs| - 1 ==> rs[i].tick <= rs[i + 1].tick)
  }

  // ----- One line -----

  lemma TwoWords(a: string, b: string)
    requires IsWord(a) && IsWord(b)
    ensures Words(a + " " + b) == [a, b]
  {
    WordsMeet(a, b);
    WordIsItsWords(a);
    WordIsItsWords(b);
  }

  lemma ThreeWords(a: string, b: string, c: string)
    requires IsWord(a) && IsWord(b) && IsWord(c)
    ensures Words(a + " " + b + " " + c) == [a, b, c]
  {
    WordsMeet(a + " " + b, c);
    WordsMeet(a, b);
    WordIsItsWords(a);
    WordIsItsWords(b);
    WordIsItsWords(c);
  }

  lemma CoordinatesRead(p: Position, line: nat, more: seq<string>)
    ensures Words(Coordinates(p)) == [Signed(p.x), Signed(p.y), Signed(p.z)]
    ensures ReadCoordinates([Signed(p.x), Signed(p.y), Signed(p.z)] + more, line) == Ok(p)
    ensures ReadCoordinates([Signed(p.x), Signed(p.y), Signed(p.z)], line) == Ok(p)
  {
    SignedReads(p.x);
    SignedReads(p.y);
    SignedReads(p.z);
    ThreeWords(Signed(p.x), Signed(p.y), Signed(p.z));
  }

  /** The command reads back as itself. */
  ghost predicate Returns<F>(floats: Floats<F>, command: Command<F>, line: nat)
    requires Recordable(command)
  {
    ReadCommand(floats, VerbOf(command), Words(Arguments(floats, command)), line) == Ok(command)
  }

  /** Each carried command does. */
  lemma CommandReads<F(!new)>(floats: Floats<F>, command: Command<F>, line: nat)
    requires Faithful(floats) && Carried(command)
    ensures Returns(floats, command, line)
  {
    match command
    case Action(id, pressed) => ActionReads(floats, id, pressed, line);
    case DigBlock(p) => DigReads(floats, p, line);
    case DigSubNode(p) => DigReads(floats, p, line);
    case Place(p, m) => PlaceReads(floats, p, m, line);
    case PlaceSubNode(p, m) => PlaceReads(floats, p, m, line);
    case MoveTo(x, y, z) => MoveReads(floats, x, y, z, line);
    case Chat(text) =>
  }

  lemma ActionReads<F>(floats: Floats<F>, id: string, pressed: bool, line: nat)
    requires IsWord(id)
    ensures Returns(floats, Action(id, pressed), line)
  {
    var edge := if pressed then "down" else "up";
    TwoWords(id, edge);
    assert ReadAction<F>([id, edge], line) == Ok(Action(id, pressed));
  }

  lemma DigReads<F>(floats: Floats<F>, p: Position, line: nat)
    ensures Returns(floats, DigBlock(p), line) && Returns(floats, DigSubNode(p), line)
  {
    CoordinatesRead(p, line, []);
  }

  lemma PlaceReads<F>(floats: Floats<F>, p: Position, m: Material, line: nat)
    ensures Returns(floats, Place(p, m), line) && Returns(floats, PlaceSubNode(p, m), line)
  {
    PlacementReads(p, m, line);
    PlacementMade<F>(Words(Coordinates(p) + " " + Decimal(m)), p, m, line);
  }

  lemma PlacementMade<F>(ws: seq<string>, p: Position, m: Material, line: nat)
    requires ReadCoordinates(ws, line) == Ok(p) && ReadMaterial(ws, line) == Ok(m)
    ensures ReadPlacement<F>(DoPlace, ws, line) == Ok(Place(p, m))
    ensures ReadPlacement<F>(DoPlaceSubNode, ws, line) == Ok(PlaceSubNode(p, m))
  {
  }

  lemma PlacementReads(p: Position, m: Material, line: nat)
    ensures var ws := Words(Coordinates(p) + " " + Decimal(m));
      ReadCoordinates(ws, line) == Ok(p) && ReadMaterial(ws, line) == Ok(m)
  {
    var three, last := [Signed(p.x), Signed(p.y), Signed(p.z)], [Decimal(m)];
    WordsMeet(Coordinates(p), Decimal(m));
    DecimalReads(m, MAX_MATERIAL);
    WordIsItsWords(Decimal(m));
    CoordinatesRead(p, line, last);
    assert (three + last)[3] == Decimal(m);
  }

  lemma MoveReads<F(!new)>(floats: Floats<F>, x: F, y: F, z: F, line: nat)
    requires Faithful(floats)
    ensures Returns(floats, MoveTo(x, y, z), line)
  {
    ThreeWords(floats.show(x), floats.show(y), floats.show(z));
  }

  // ----- Whole texts -----

  /** Nothing in the text but words and plain spaces. */
  predicate Plain(s: string) {
    forall i :: 0 <= i < |s| ==> s[i] == ' ' || !IsSpace(s[i])
  }

  lemma Spaced(a: string, b: string)
    requires Plain(a) && Plain(b)
    ensures Plain(a + " " + b)
  {
  }

  lemma {:induction false} JoinPlain(ws: seq<string>)
    requires forall i :: 0 <= i < |ws| ==> IsWord(ws[i])
    ensures Plain(Join(ws))
  {
    if |ws| > 1 {
      JoinPlain(ws[1..]);
      Spaced(ws[0], Join(ws[1..]));
    }
  }

  lemma ThreePlain(a: string, b: string, c: string)
    requires IsWord(a) && IsWord(b) && IsWord(c)
    ensures Plain(a + " " + b + " " + c)
  {
  }

  lemma CoordinatesPlain(p: Position)
    ensures Plain(Coordinates(p))
  {
  }

  lemma PlacementPlain(p: Position, m: Material)
    ensures Plain(Coordinates(p) + " " + Decimal(m))
  {
    CoordinatesPlain(p);
    DecimalReads(m, MAX_MATERIAL);
    Spaced(Coordinates(p), Decimal(m));
  }

  lemma ArgumentsPlain<F(!new)>(floats: Floats<F>, command: Command<F>)
    requires Faithful(floats) && Carried(command)
    ensures Plain(Arguments(floats, command))
  {
    match command
    case Action(id, pressed) => Spaced(id, if pressed then "down" else "up");
    case DigBlock(p) => CoordinatesPlain(p);
    case DigSubNode(p) => CoordinatesPlain(p);
    case Place(p, m) => PlacementPlain(p, m);
    case PlaceSubNode(p, m) => PlacementPlain(p, m);
    case MoveTo(x, y, z) => ThreePlain(floats.show(x), floats.show(y), floats.show(z));
    case Chat(text) => JoinPlain(Words(text));
  }

  lemma PlainLine(s: string)
    requires Plain(s)
    ensures OneLine(s) && WithoutReturn(s) == s
  {
  }

  lemma LinePlain<F(!new)>(floats: Floats<F>, entry: Recorded<F>)
    requires Faithful(floats) && Carried(entry.command)
    ensures Plain(Line(floats, entry))
  {
    var verb, rest := Spelt(VerbOf(entry.command)), Arguments(floats, entry.command);
    DecimalReads(entry.tick, MAX_TICK);
    VerbReads(VerbOf(entry.command));
    ArgumentsPlain(floats, entry.command);
    Spaced(verb, rest);
    Spaced(Decimal(entry.tick), verb + " " + rest);
  }

  lemma LineWords<F>(floats: Floats<F>, entry: Recorded<F>)
    requires Recordable(entry.command)
    ensures Words(Line(floats, entry)) == [Decimal(entry.tick), Spelt(VerbOf(entry.command))] + Words(Arguments(floats, entry.command))
  {
    DecimalReads(entry.tick, MAX_TICK);
    VerbReads(VerbOf(entry.command));
    HeadedWords(Decimal(entry.tick), Spelt(VerbOf(entry.command)), Arguments(floats, entry.command));
  }

  lemma HeadedWords(a: string, b: string, rest: string)
    requires IsWord(a) && IsWord(b)
    ensures Words(a + " " + (b + " " + rest)) == [a, b] + Words(rest)
  {
    WordsMeet(a, b + " " + rest);
    WordsMeet(b, rest);
    WordIsItsWords(a);
    WordIsItsWords(b);
  }

  lemma LineReads<F(!new)>(floats: Floats<F>, entry: Recorded<F>, number: nat)
    requires Faithful(floats) && Carried(entry.command)
    ensures var line := Line(floats, entry);
      OneLine(line) && WithoutReturn(line) == line && ReadEntry(floats, line, number) == Ok(Some(entry))
  {
    var line := Line(floats, entry);
    LinePlain(floats, entry);
    PlainLine(line);
    LineWords(floats, entry);
    TrimWords(line);
    DecimalReads(entry.tick, MAX_TICK);
    VerbReads(VerbOf(entry.command));
    CommandReads(floats, entry.command, number);
    assert Words(line)[2..] == Words(Arguments(floats, entry.command));
  }

  lemma {:induction false} RenderedReads<F(!new)>(floats: Floats<F>, rs: seq<Recorded<F>>, number: nat)
    requires Faithful(floats) && forall i :: 0 <= i < |Kept(rs)| ==> Carried(Kept(rs)[i].command)
    ensures ReadLines(floats, Lines(Rendered(floats, rs)), number) == Ok(Kept(rs))
    decreases |rs|
  {
    if rs != [] {
      var rest := Rendered(floats, rs[1..]);
      if Recordable(rs[0].command) {
        assert Kept(rs)[0] == rs[0] && Kept(rs)[1..] == Kept(rs[1..]);
        assert forall i :: 0 <= i < |Kept(rs[1..])| ==> Kept(rs[1..])[i] == Kept(rs)[i + 1];
        var line := Line(floats, rs[0]);
        LineReads(floats, rs[0], number);
        FirstLine(line, rest);
        assert Rendered(floats, rs) == line + "\n" + rest;
        RenderedReads(floats, rs[1..], number + 1);
        var lines := Lines(Rendered(floats, rs));
        assert lines[0] == line && lines[1..] == Lines(rest);
      } else {
        assert Rendered(floats, rs) == rest;
        RenderedReads(floats, rs[1..], number);
      }
    }
  }

  // ----- What a parse can produce -----

  lemma SliceWords(words: seq<string>, i: nat)
    requires i <= |words| && forall k :: 0 <= k < |words| ==> IsWord(words[k])
    ensures forall k :: 0 <= k < |words[i..]| ==> IsWord(words[i..][k])
  {
  }

  lemma CommandCarried<F>(floats: Floats<F>, verb: Verb, rest: seq<string>, line: nat)
    requires forall i :: 0 <= i < |rest| ==> IsWord(rest[i])
    ensures var r := ReadCommand(floats, verb, rest, line); r.Ok? ==> Carried(r.value)
  {
    WordsOfJoin(rest);
  }

  lemma LineCarried<F>(floats: Floats<F>, words: seq<string>, line: nat)
    requires words != [] && forall i :: 0 <= i < |words| ==> IsWord(words[i])
    ensures var r := ReadLine(floats, words, line); r.Ok? ==> Carried(r.value.command)
  {
    if |words| > 1 {
      SliceWords(words, 2);
      match ReadVerb(words[1])
      case None =>
      case Some(verb) => CommandCarried(floats, verb, words[2..], line);
    }
  }

  lemma EntryCarried<F>(floats: Floats<F>, line: string, number: nat)
    ensures var r := ReadEntry(floats, line, number); r.Ok? && r.value.Some? ==> Carried(r.value.value.command)
  {
    if !Ignored(line) {
      TrimWords(line);
      TrimWords(Trim(line));
      LineCarried(floats, Words(Trim(line)), number);
    }
  }

  /** What holds of every entry read holds of all that is collected. */
  lemma {:induction false} CollectedAll<E>(read: Reader<E>, lines: seq<string>, number: nat, good: E -> bool)
    requires forall line, n :: read(line, n).Ok? && read(line, n).value.Some? ==> good(read(line, n).value.value)
    ensures var r := Collect(read, lines, number); r.Ok? ==> forall i :: 0 <= i < |r.value| ==> good(r.value[i])
    decreases |lines|
  {
    if lines != [] {
      CollectedAll(read, lines[1..], number + 1, good);
    }
  }

  lemma LinesCarried<F>(floats: Floats<F>, lines: seq<string>, number: nat)
    ensures var r := ReadLines(floats, lines, number);
      r.Ok? ==> forall i :: 0 <= i < |r.value| ==> Carried(r.value[i].command)
  {
    forall line, n ensures var r := ReadEntry(floats, line, n); r.Ok? && r.value.Some? ==> Carried(r.value.value.command) {
      EntryCarried(floats, line, n);
    }
    CollectedAll((line, n) => ReadEntry(floats, line, n), lines, number, (e: Recorded<F>) => Carried(e.command));
  }

  lemma ParsedNormal<F>(floats: Floats<F>, text: string)
    ensures var r := Parsed(floats, text); r.Ok? ==> Normal(r.value)
  {
    LinesCarried(floats, Lines(text), 1);
    var r := ReadLines(floats, Lines(text), 1);
    if r.Ok? {
      FallIsThere(r.value, 0);
    }
  }

  lemma NormalIsKept<F>(rs: seq<Recorded<F>>)
    requires forall i :: 0 <= i < |rs| ==> Carried(rs[i].command)
    ensures Kept(rs) == rs
  {
  }

  // ----- The main results -----

  /** A session survives rendering and parsing, less its session control, exactly
      when its recordable commands fit the format and their ticks are in order. */
  lemma RoundTripExact<F(!new)>(floats: Floats<F>, rs: seq<Recorded<F>>)
    requires Faithful(floats)
    ensures Parsed(floats, Rendered(floats, rs)) == Ok(Kept(rs)) <==> Normal(Kept(rs))
  {
    ParsedNormal(floats, Rendered(floats, rs));
    if Normal(Kept(rs)) {
      RenderedReads(floats, rs, 1);
      FallIsThere(Kept(rs), 0);
    }
  }

  /** Every text a parse accepts is carried by the normal form of it. */
  lemma ParseSurvivesRendering<F(!new)>(floats: Floats<F>, text: string)
    requires Faithful(floats)
    ensures var r := Parsed(floats, text); r.Ok? ==> Parsed(floats, Rendered(floats, r.value)) == r
  {
    var r := Parsed(floats, text);
    if r.Ok? {
      ParsedNormal(floats, text);
      NormalIsKept(r.value);
      RoundTripExact(floats, r.value);
    }
  }

  /** Rendering what was parsed is a normal form: doing it twice changes
      nothing. */
  lemma RenderingIsNormalForm<F(!new)>(floats: Floats<F>, text: string)
    requires Faithful(floats)
    ensures var r := Parsed(floats, text);
      r.Ok? ==> var again := Parsed(floats, Rendered(floats, r.value));
        again.Ok? && Rendered(floats, again.value) == Rendered(floats, r.value)
  {
    ParseSurvivesRendering(floats, text);
  }

  /** The rendering promises a round trip; chat with a double space is where it
      breaks: what is read back has a single one. */
  lemma DoubleSpaceIsLost<F(!new)>(floats: Floats<F>, tick: Tick, a: string, b: string)
    requires Faithful(floats) && IsWord(a) && IsWord(b)
    ensures var said := [Recorded(tick, Chat(a + " " + (" " + b)))];
      Parsed(floats, Rendered(floats, said)) != Ok(said)
  {
    var text := a + " " + (" " + b);
    WordsMeet(a, " " + b);
    WordIsItsWords(a);
    assert (" " + b)[1..] == b;
    WordIsItsWords(b);
    assert Words(text) == [a, b];
    assert |Join([a, b])| == |a| + 1 + |b| by { assert [a, b][1..] == [b]; }
    var said: seq<Recorded<F>> := [Recorded(tick, Chat(text))];
    assert Kept(said) == said by { assert said[1..] == []; }
    assert !Carried(said[0].command);
    RoundTripExact(floats, said);
  }
}
