/** The text underneath a recording: lines, words and decimal numbers, as the
    standard library of the source reads and writes them. */
module RecordingText {

  datatype Option<+T> = None | Some(value: T)

  /** Unicode `White_Space`. */
  predicate IsSpace(c: char) {
    var n := c as int;
    9 <= n <= 13 || n == 32 || n == 0x85 || n == 0xA0 || n == 0x1680 || 0x2000 <= n <= 0x200A
    || n == 0x2028 || n == 0x2029 || n == 0x202F || n == 0x205F || n == 0x3000
  }

  /** A non-empty run without white space. */
  predicate IsWord(s: string) {
    s != "" && forall i :: 0 <= i < |s| ==> !IsSpace(s[i])
  }

  // ----- split_whitespace -----

  function WordLength(s: string): (n: nat)
    ensures n <= |s| && (forall i :: 0 <= i < n ==> !IsSpace(s[i])) && (n < |s| ==> IsSpace(s[n]))
  {
    if s == "" || IsSpace(s[0]) then 0 else 1 + WordLength(s[1..])
  }

  function Words(s: string): (ws: seq<string>)
    ensures forall i :: 0 <= i < |ws| ==> IsWord(ws[i])
    decreases |s|
  {
    if s == "" then []
    else if IsSpace(s[0]) then Words(s[1..])
    else [s[..WordLength(s)]] + Words(s[WordLength(s)..])
  }

  lemma WordLengthUnique(s: string, n: nat)
    requires n <= |s| && (forall i :: 0 <= i < n ==> !IsSpace(s[i])) && (n < |s| ==> IsSpace(s[n]))
    ensures WordLength(s) == n
  {
    assert WordLength(s) == n;
  }

  /** A space between two texts is where their words meet. */
  lemma {:induction false} WordsMeet(a: string, b: string)
    ensures Words(a + " " + b) == Words(a) + Words(b)
    decreases |a|
  {
    var s := a + " " + b;
    if a == "" {
      assert s[1..] == b;
    } else if IsSpace(a[0]) {
      assert s[1..] == a[1..] + " " + b;
      WordsMeet(a[1..], b);
    } else {
      var n := WordLength(a);
      WordLengthUnique(s, n);
      assert s[..n] == a[..n] && s[n..] == a[n..] + " " + b;
      WordsMeet(a[n..], b);
    }
  }

  lemma WordIsItsWords(w: string)
    requires IsWord(w)
    ensures Words(w) == [w]
  {
    WordLengthUnique(w, |w|);
    assert w[..|w|] == w && w[|w|..] == "";
  }

  function Join(ws: seq<string>): string {
    if ws == [] then "" else if |ws| == 1 then ws[0] else ws[0] + " " + Join(ws[1..])
  }

  lemma {:induction false} WordsOfJoin(ws: seq<string>)
    requires forall i :: 0 <= i < |ws| ==> IsWord(ws[i])
    ensures Words(Join(ws)) == ws
  {
    if |ws| == 1 {
      WordIsItsWords(ws[0]);
    } else if |ws| > 1 {
      WordsMeet(ws[0], Join(ws[1..]));
      WordIsItsWords(ws[0]);
      WordsOfJoin(ws[1..]);
      assert ws == [ws[0]] + ws[1..];
    }
  }

  // ----- trim -----

  function TrimStart(s: string): string {
    if s != "" && IsSpace(s[0]) then TrimStart(s[1..]) else s
  }

  function TrimEnd(s: string): string {
    if s != "" && IsSpace(s[|s| - 1]) then TrimEnd(s[..|s| - 1]) else s
  }

  function Trim(s: string): string {
    TrimEnd(TrimStart(s))
  }

  lemma {:induction false} TrimStartWords(s: string)
    ensures Words(TrimStart(s)) == Words(s)
    ensures TrimStart(s) == "" || !IsSpace(TrimStart(s)[0])
    ensures Words(s) == [] ==> TrimStart(s) == ""
  {
    if s != "" && IsSpace(s[0]) {
      TrimStartWords(s[1..]);
    }
  }

  lemma {:induction false} TrailingSpace(s: string)
    requires s != "" && IsSpace(s[|s| - 1])
    ensures Words(s[..|s| - 1]) == Words(s)
    decreases |s|
  {
    var t := s[..|s| - 1];
    if |s| == 1 {
      assert s[1..] == "" && t == "";
    } else if IsSpace(s[0]) {
      TrailingSpace(s[1..]);
      assert s[1..][..|s| - 2] == t[1..];
    } else {
      var n := WordLength(s);
      assert n < |s|;
      WordLengthUnique(t, n);
      assert t[..n] == s[..n];
      var rest := s[n..];
      assert rest[|rest| - 1] == s[|s| - 1];
      TrailingSpace(rest);
      assert rest[..|rest| - 1] == t[n..];
    }
  }

  lemma {:induction false} TrimEndWords(s: string)
    requires s == "" || !IsSpace(s[0])
    ensures Words(TrimEnd(s)) == Words(s)
    ensures TrimEnd(s) == "" <==> s == ""
    ensures s != "" ==> TrimEnd(s)[0] == s[0]
    decreases |s|
  {
    if s != "" && IsSpace(s[|s| - 1]) {
      assert |s| > 1;
      TrailingSpace(s);
      TrimEndWords(s[..|s| - 1]);
    }
  }

  /** Trimming a line loses none of its words and starts where they do. */
  lemma TrimWords(s: string)
    ensures Words(Trim(s)) == Words(s)
    ensures Trim(s) == "" <==> Words(s) == []
    ensures Trim(s) != "" ==> Words(s)[0][0] == Trim(s)[0]
  {
    TrimStartWords(s);
    TrimEndWords(TrimStart(s));
    var t := Trim(s);
    if t != "" {
      assert !IsSpace(t[0]) && WordLength(t) > 0;
      assert Words(t)[0] == t[..WordLength(t)];
    }
  }

  // ----- lines -----

  predicate OneLine(s: string) {
    forall i :: 0 <= i < |s| ==> s[i] != '\n'
  }

  function LineLength(s: string): (n: nat)
    ensures n <= |s| && OneLine(s[..n]) && (n < |s| ==> s[n] == '\n')
  {
    if s == "" || s[0] == '\n' then 0
    else
      assert s[..1 + LineLength(s[1..])] == [s[0]] + s[1..][..LineLength(s[1..])];
      1 + LineLength(s[1..])
  }

  function WithoutReturn(s: string): string {
    if s != "" && s[|s| - 1] == '\r' then s[..|s| - 1] else s
  }

  /** Lines end at a newline, less a carriage return before it; what follows the
      last newline is a line only when it is not empty. */
  function Lines(s: string): seq<string>
    decreases |s|
  {
    if s == "" then []
    else
      var n := LineLength(s);
      if n == |s| then [s] else [WithoutReturn(s[..n])] + Lines(s[n + 1..])
  }

  lemma FirstLine(line: string, rest: string)
    requires OneLine(line)
    ensures Lines(line + "\n" + rest) == [WithoutReturn(line)] + Lines(rest)
  {
    var s := line + "\n" + rest;
    var n := LineLength(s);
    assert s[|line|] == '\n' && forall i :: 0 <= i < |line| ==> s[i] == line[i];
    assert forall i :: 0 <= i < n ==> s[..n][i] == s[i];
    assert n == |line|;
    assert s[..n] == line && s[n + 1..] == rest;
  }

  // ----- numbers -----

  function Digit(d: nat): char
    requires d < 10
  {
    '0' + d as char
  }

  predicate IsDigit(c: char) {
    '0' <= c <= '9'
  }

  function Decimal(n: nat): (s: string)
    ensures s != "" && forall i :: 0 <= i < |s| ==> IsDigit(s[i])
  {
    if n < 10 then [Digit(n)] else Decimal(n / 10) + [Digit(n % 10)]
  }

  /** The value of a run of digits, whatever its length. */
  function Value(s: string): Option<nat> {
    if s == "" || !IsDigit(s[|s| - 1]) then None
    else
      var d := s[|s| - 1] as int - '0' as int;
      if |s| == 1 then Some(d)
      else match Value(s[..|s| - 1])
        case None => None
        case Some(v) => Some(v * 10 + d)
  }

  lemma {:induction false} ValueOfDecimal(n: nat)
    ensures Value(Decimal(n)) == Some(n)
  {
    if n >= 10 {
      ValueOfDecimal(n / 10);
      var s := Decimal(n);
      assert s[..|s| - 1] == Decimal(n / 10);
    }
  }

  /** An unsigned number of at most `max`: a plus sign is allowed, a minus is
      not, and overflow is an error. */
  function ReadUnsigned(s: string, max: nat): Option<nat> {
    var digits := if s != "" && s[0] == '+' then s[1..] else s;
    match Value(digits)
    case None => None
    case Some(v) => if v <= max then Some(v) else None
  }

  function ReadSigned(s: string): Option<int> {
    if s != "" && s[0] == '-' then
      match Value(s[1..])
      case None => None
      case Some(v) => if v <= 0x8000_0000 then var n: int := v; Some(-n) else None
    else
      match ReadUnsigned(s, 0x7FFF_FFFF)
      case None => None
      case Some(v) => Some(v)
  }

  function Signed(n: int): string {
    if n < 0 then "-" + Decimal(-n) else Decimal(n)
  }

  lemma DecimalReads(n: nat, max: nat)
    requires n <= max
    ensures ReadUnsigned(Decimal(n), max) == Some(n) && IsWord(Decimal(n))
    ensures Decimal(n)[0] != '#'
  {
    ValueOfDecimal(n);
    assert IsDigit(Decimal(n)[0]);
  }

  lemma SignedReads(n: int)
    requires -0x8000_0000 <= n <= 0x7FFF_FFFF
    ensures ReadSigned(Signed(n)) == Some(n) && IsWord(Signed(n))
  {
    if n < 0 {
      NegativeReads(-n);
    } else {
      DecimalReads(n, 0x7FFF_FFFF);
      var s := Decimal(n);
      assert IsDigit(s[0]);
    }
  }

  lemma NegativeReads(n: nat)
    requires n <= 0x8000_0000
    ensures ReadSigned("-" + Decimal(n)) == Some(-(n as int)) && IsWord("-" + Decimal(n))
  {
  }
}
