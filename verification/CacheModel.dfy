/** The content cache as values (`crates/client/src/cache.rs`): a directory of
    files named by the hash of their bytes, a memo of which were verified and how
    each looked then, and which files were read how often.  The hash is any
    function at all. */
module CacheModel {

  datatype Option<+T> = None | Some(value: T)

  type Hash = nat
  type Bytes = seq<nat>
  type Hasher = Bytes -> Hash

  const MAX_ITEM_BYTES: nat := 16 * 1024 * 1024

  /** A file: its bytes, and the modification time where the system has one. */
  datatype File = File(bytes: Bytes, modified: Option<nat>)

  datatype Stamp = Stamp(len: nat, modified: Option<nat>)

  function StampOf(f: File): Stamp {
    Stamp(|f.bytes|, f.modified)
  }

  datatype Cache = Cache(disk: map<Hash, File>, verified: map<Hash, Stamp>, readings: multiset<Hash>)

  /** What the system answers during one call. */
  datatype Io = Io(memoStat: bool, stat: bool, read: bool, remove: bool)

  const SOUND: Io := Io(true, true, true, true)

  datatype CacheError = IoError | HashMismatch | TooLarge(len: nat)

  /** "Present and intact": what reading the file and hashing it would say. */
  predicate Good(H: Hasher, h: Hash, f: File) {
    |f.bytes| <= MAX_ITEM_BYTES && H(f.bytes) == h
  }

  predicate Intact(H: Hasher, c: Cache, h: Hash) {
    h in c.disk && Good(H, h, c.disk[h])
  }

  function Discard(c: Cache, h: Hash, io: Io): Cache {
    c.(disk := if io.remove then c.disk - {h} else c.disk, verified := c.verified - {h})
  }

  function Get(H: Hasher, c: Cache, h: Hash, io: Io): (Cache, Option<Bytes>) {
    if h !in c.disk || !io.stat then (c, None)
    else
      var f := c.disk[h];
      if |f.bytes| > MAX_ITEM_BYTES then (Discard(c, h, io), None)
      else
        var looked := c.(readings := c.readings + multiset{h});
        if !io.read then (looked, None)
        else if H(f.bytes) == h then (looked.(verified := c.verified[h := StampOf(f)]), Some(f.bytes))
        else (Discard(looked, h, io), None)
  }

  function Contains(H: Hasher, c: Cache, h: Hash, io: Io): (Cache, bool) {
    if h in c.verified && !(h in c.disk && io.memoStat) then (c.(verified := c.verified - {h}), false)
    else if h in c.verified && StampOf(c.disk[h]) == c.verified[h] then (c, true)
    else
      var (c', bytes) := Get(H, c, h, io);
      (c', bytes.Some?)
  }

  /** `moved` says the file was written beside and renamed into place, at time
      `now`; `seen` that it could be looked at afterwards. */
  function Put(H: Hasher, c: Cache, h: Hash, bytes: Bytes, moved: bool, seen: bool, now: Option<nat>): (Cache, Option<CacheError>) {
    if |bytes| > MAX_ITEM_BYTES then (c, Some(TooLarge(|bytes|)))
    else if H(bytes) != h then (c, Some(HashMismatch))
    else if !moved then (c, Some(IoError))
    else
      var f := File(bytes, now);
      (c.(disk := c.disk[h := f], verified := if seen then c.verified[h := StampOf(f)] else c.verified), None)
  }

  /** The filter `missing` runs: each wanted hash asked about in turn. */
  function Ask(H: Hasher, c: Cache, wanted: seq<Hash>, io: Io): (Cache, seq<Hash>)
    decreases |wanted|
  {
    if wanted == [] then (c, [])
    else
      var (c', held) := Contains(H, c, wanted[0], io);
      var (end, rest) := Ask(H, c', wanted[1..], io);
      (end, if held then rest else [wanted[0]] + rest)
  }

  // ----- The environment -----

  function Overwrite(c: Cache, h: Hash, f: File): Cache {
    c.(disk := c.disk[h := f])
  }

  function Erase(c: Cache, h: Hash): Cache {
    c.(disk := c.disk - {h})
  }

  // ----- Runs -----

  datatype Event =
    | DoGet(h: Hash, io: Io)
    | DoContains(h: Hash, io: Io)
    | DoMissing(wanted: seq<Hash>, io: Io)
    | DoPut(h: Hash, bytes: Bytes, moved: bool, seen: bool, now: Option<nat>)
    | EnvWrite(h: Hash, file: File)
    | EnvDelete(h: Hash)

  function Step(H: Hasher, c: Cache, e: Event): Cache {
    match e
    case DoGet(h, io) => Get(H, c, h, io).0
    case DoContains(h, io) => Contains(H, c, h, io).0
    case DoMissing(wanted, io) => Ask(H, c, wanted, io).0
    case DoPut(h, bytes, moved, seen, now) => Put(H, c, h, bytes, moved, seen, now).0
    case EnvWrite(h, f) => Overwrite(c, h, f)
    case EnvDelete(h) => Erase(c, h)
  }

  /** The memo speaks for a file only while the file is intact. */
  ghost predicate Trusted(H: Hasher, c: Cache) {
    forall h :: h in c.verified && h in c.disk && StampOf(c.disk[h]) == c.verified[h] ==> Intact(H, c, h)
  }

  /** An outside write shows a stamp other than the remembered one, unless what
      it wrote is right anyway. */
  predicate Visible(H: Hasher, c: Cache, e: Event) {
    e.EnvWrite? && e.h in c.verified && StampOf(e.file) == c.verified[e.h] ==> Good(H, e.h, e.file)
  }

  // ----- One step -----

  /** Asking changes nothing about which items are intact: what is discarded
      never was. */
  lemma GetKeeps(H: Hasher, c: Cache, h: Hash, io: Io)
    ensures var (c', r) := Get(H, c, h, io);
      && (forall g :: Intact(H, c', g) <==> Intact(H, c, g))
      && (Trusted(H, c) ==> Trusted(H, c'))
      && (r.Some? ==> H(r.value) == h && Intact(H, c, h) && r.value == c.disk[h].bytes)
      && (io.stat && io.read ==> (r.Some? <==> Intact(H, c, h)))
  {
  }

  lemma ContainsKeeps(H: Hasher, c: Cache, h: Hash, io: Io)
    requires Trusted(H, c)
    ensures var (c', r) := Contains(H, c, h, io);
      && (forall g :: Intact(H, c', g) <==> Intact(H, c, g)) && Trusted(H, c')
      && (r ==> Intact(H, c, h))
      && (io.memoStat && io.stat && io.read ==> (r <==> Intact(H, c, h)))
  {
  }

  lemma {:induction false} AskKeeps(H: Hasher, c: Cache, wanted: seq<Hash>, io: Io)
    requires Trusted(H, c)
    ensures var (c', out) := Ask(H, c, wanted, io);
      && (forall g :: Intact(H, c', g) <==> Intact(H, c, g)) && Trusted(H, c')
      && (forall h :: h in out ==> h in wanted)
      && (forall h :: h in wanted && !Intact(H, c, h) ==> h in out)
      && (io.memoStat && io.stat && io.read ==> forall h :: h in out ==> !Intact(H, c, h))
    decreases |wanted|
  {
    if wanted != [] {
      ContainsKeeps(H, c, wanted[0], io);
      AskKeeps(H, Contains(H, c, wanted[0], io).0, wanted[1..], io);
    }
  }

  /** Every step but an outside write keeps the memo honest; an outside write
      keeps it so exactly when its stamp gives it away or its bytes are right. */
  lemma StepExact(H: Hasher, c: Cache, e: Event)
    requires Trusted(H, c)
    ensures Trusted(H, Step(H, c, e)) <==> Visible(H, c, e)
  {
    match e
    case DoGet(h, io) => GetKeeps(H, c, h, io);
    case DoContains(h, io) => ContainsKeeps(H, c, h, io);
    case DoMissing(wanted, io) => AskKeeps(H, c, wanted, io);
    case DoPut(h, bytes, moved, seen, now) =>
    case EnvWrite(h, f) =>
      var c' := Step(H, c, e);
      if Visible(H, c, e) {
        forall g | g in c'.verified && g in c'.disk && StampOf(c'.disk[g]) == c'.verified[g] ensures Intact(H, c', g) {
          assert g != h ==> Intact(H, c, g);
        }
      } else {
        assert h in c'.verified && h in c'.disk;
      }
    case EnvDelete(h) =>
  }

  /** And where the memo is fooled, `contains` is: it vouches for a file that
      reading would reject. */
  lemma HiddenWriteFools(H: Hasher, c: Cache, h: Hash, f: File)
    requires !Visible(H, c, EnvWrite(h, f))
    ensures var c' := Overwrite(c, h, f);
      Contains(H, c', h, SOUND).1 && !Intact(H, c', h) && Get(H, c', h, SOUND).1 == None
  {
  }

  // ----- What each call leaves -----

  /** A store gives each error for its own reason, and then leaves all as it was;
      otherwise the item is there, whole and under its name, and every other file
      is as it was. */
  lemma PutExact(H: Hasher, c: Cache, h: Hash, bytes: Bytes, moved: bool, seen: bool, now: Option<nat>)
    ensures var (c', e) := Put(H, c, h, bytes, moved, seen, now);
      && (e == Some(TooLarge(|bytes|)) <==> |bytes| > 16777216)
      && (e == Some(HashMismatch) <==> |bytes| <= 16777216 && H(bytes) != h)
      && (e == Some(IoError) <==> |bytes| <= 16777216 && H(bytes) == h && !moved)
      && (e == None <==> |bytes| <= 16777216 && H(bytes) == h && moved)
      && (e != None ==> c' == c)
      && (e == None ==> Intact(H, c', h) && c'.disk[h] == File(bytes, now))
      && (e == None ==> OfItem(c', h).1 == if seen then Some(Stamp(|bytes|, now)) else OfItem(c, h).1)
      && (forall g :: g != h ==> OfItem(c', g) == OfItem(c, g)) && c'.readings == c.readings
  {
  }

  /** What is known of one item: its file and what the memo says of it. */
  function OfItem(c: Cache, h: Hash): (Option<File>, Option<Stamp>) {
    (if h in c.disk then Some(c.disk[h]) else None, if h in c.verified then Some(c.verified[h]) else None)
  }

  /** What was stored is handed back byte for byte; and once it was looked at,
      asking for it costs no reading. */
  lemma StoredIsThere(H: Hasher, c: Cache, h: Hash, bytes: Bytes, seen: bool, now: Option<nat>)
    requires |bytes| <= MAX_ITEM_BYTES && H(bytes) == h
    ensures var c' := Put(H, c, h, bytes, true, seen, now).0;
      && Get(H, c', h, SOUND).1 == Some(bytes)
      && (seen ==> Contains(H, c', h, SOUND) == (c', true))
      && (seen ==> Ask(H, c', [h], SOUND).1 == [])
      && (Trusted(H, c) ==> Contains(H, c', h, SOUND).1)
  {
  }

  /** A read leaves each other item as it was; it counts a reading when there was
      a file of a size to read; it remembers a file it found right as it looked;
      and one it found wrong, or too large, it forgets and removes if it can. */
  lemma GetLeaves(H: Hasher, c: Cache, h: Hash, io: Io)
    ensures var (c', r) := Get(H, c, h, io);
      && (forall g :: g != h ==> OfItem(c', g) == OfItem(c, g))
      && c'.readings == (if h in c.disk && io.stat && |c.disk[h].bytes| <= 16777216 then c.readings + multiset{h} else c.readings)
      && (r.Some? <==> Intact(H, c, h) && io.stat && io.read)
      && (r.Some? ==> r.value == c.disk[h].bytes && OfItem(c', h) == (Some(c.disk[h]), Some(Stamp(|c.disk[h].bytes|, c.disk[h].modified))))
      && (r.None? ==> OfItem(c', h) == if Rejected(H, c, h, io) then (if io.remove then None else Some(c.disk[h]), None) else OfItem(c, h))
  {
  }

  /** Found, and found wrong. */
  predicate Rejected(H: Hasher, c: Cache, h: Hash, io: Io) {
    h in c.disk && io.stat && (|c.disk[h].bytes| > 16777216 || (io.read && H(c.disk[h].bytes) != h))
  }

  /** A question the memo can answer reads nothing and changes nothing but to
      forget a file that is gone; any other is a read. */
  lemma ContainsLeaves(H: Hasher, c: Cache, h: Hash, io: Io)
    ensures var (c', r) := Contains(H, c, h, io);
      if h in c.verified && (h !in c.disk || !io.memoStat) then !r && c' == c.(verified := c.verified - {h})
      else if h in c.verified && c.verified[h] == Stamp(|c.disk[h].bytes|, c.disk[h].modified) then r && c' == c
      else c' == Get(H, c, h, io).0 && (r <==> Intact(H, c, h) && io.stat && io.read)
  {
  }

  // ----- Whole runs -----

  ghost predicate AllVisible(H: Hasher, c: Cache, run: seq<Event>)
    decreases |run|
  {
    run == [] || (Visible(H, c, run[0]) && AllVisible(H, Step(H, c, run[0]), run[1..]))
  }

  function After(H: Hasher, c: Cache, run: seq<Event>): Cache
    decreases |run|
  {
    if run == [] then c else After(H, Step(H, c, run[0]), run[1..])
  }

  lemma {:induction false} RunTrusted(H: Hasher, c: Cache, run: seq<Event>)
    requires Trusted(H, c) && AllVisible(H, c, run)
    ensures Trusted(H, After(H, c, run))
    decreases |run|
  {
    if run != [] {
      StepExact(H, c, run[0]);
      RunTrusted(H, Step(H, c, run[0]), run[1..]);
    }
  }

  /** After any run from a cache just opened on any directory, in which outside
      writes show: the memoised question and the honest one have one answer; and
      after any run whatever, `get` hands out nothing but the item asked for. */
  lemma MemoAgreesWithDisk(H: Hasher, disk: map<Hash, File>, run: seq<Event>, h: Hash, io: Io)
    ensures var c := After(H, Cache(disk, map[], multiset{}), run);
      && (AllVisible(H, Cache(disk, map[], multiset{}), run) ==> (Contains(H, c, h, SOUND).1 <==> Intact(H, c, h)))
      && (AllVisible(H, Cache(disk, map[], multiset{}), run) ==> (Contains(H, c, h, io).1 ==> Intact(H, c, h)))
      && (Get(H, c, h, io).1.Some? ==> H(Get(H, c, h, io).1.value) == h)
      && (Get(H, c, h, SOUND).1.Some? <==> Intact(H, c, h))
  {
    var c := After(H, Cache(disk, map[], multiset{}), run);
    GetKeeps(H, c, h, io);
    GetKeeps(H, c, h, SOUND);
    if AllVisible(H, Cache(disk, map[], multiset{}), run) {
      RunTrusted(H, Cache(disk, map[], multiset{}), run);
      ContainsKeeps(H, c, h, io);
      ContainsKeeps(H, c, h, SOUND);
    }
  }

  // ----- How often the disk is read -----

  /** Files the memo does not yet speak for. */
  predicate Unsettled(c: Cache, h: Hash) {
    h in c.disk && !(h in c.verified && c.verified[h] == StampOf(c.disk[h]))
  }

  /** A read of `h` that is still to be paid for. */
  function Owed(c: Cache, h: Hash): nat {
    if Unsettled(c, h) then 1 else 0
  }

  /** Questions and stores only, with nothing failing: what a join does. */
  predicate Quiet(e: Event) {
    match e
    case DoContains(_, io) => io == SOUND
    case DoMissing(_, io) => io == SOUND
    case DoPut(_, _, moved, seen, _) => moved && seen
    case _ => false
  }

  function Asked(e: Event): set<Hash> {
    match e
    case DoContains(h, _) => {h}
    case DoMissing(wanted, _) => set h | h in wanted
    case _ => {}
  }

  function AskedIn(run: seq<Event>): set<Hash> {
    if run == [] then {} else Asked(run[0]) + AskedIn(run[1..])
  }

  /** A read settles the file it was for, and no other file is read. */
  lemma ContainsPays(H: Hasher, c: Cache, asked: Hash, h: Hash)
    ensures var c' := Contains(H, c, asked, SOUND).0;
      c'.readings[h] + Owed(c', h) <= c.readings[h] + Owed(c, h) && (h != asked ==> c'.readings[h] == c.readings[h])
  {
  }

  lemma {:induction false} AskPays(H: Hasher, c: Cache, wanted: seq<Hash>, h: Hash)
    ensures var c' := Ask(H, c, wanted, SOUND).0;
      c'.readings[h] + Owed(c', h) <= c.readings[h] + Owed(c, h) && (h !in wanted ==> c'.readings[h] == c.readings[h])
    decreases |wanted|
  {
    if wanted != [] {
      ContainsPays(H, c, wanted[0], h);
      AskPays(H, Contains(H, c, wanted[0], SOUND).0, wanted[1..], h);
    }
  }

  lemma {:induction false} RunPays(H: Hasher, c: Cache, run: seq<Event>, h: Hash)
    requires forall i :: 0 <= i < |run| ==> Quiet(run[i])
    ensures var c' := After(H, c, run);
      c'.readings[h] + Owed(c', h) <= c.readings[h] + Owed(c, h) && (h !in AskedIn(run) ==> c'.readings[h] == c.readings[h])
    decreases |run|
  {
    if run != [] {
      assert Quiet(run[0]);
      match run[0] {
        case DoContains(asked, io) => ContainsPays(H, c, asked, h);
        case DoMissing(wanted, io) => AskPays(H, c, wanted, h);
        case DoPut(_, bytes, moved, seen, now) =>
      }
      RunPays(H, Step(H, c, run[0]), run[1..], h);
    }
  }

  /** However the questions and stores of a run repeat and interleave, each file
      is read at most once, and only if it was asked about, was there, and the
      memo did not already speak for it. */
  lemma EachFileReadOnce(H: Hasher, c: Cache, run: seq<Event>, h: Hash)
    requires forall i :: 0 <= i < |run| ==> Quiet(run[i])
    ensures After(H, c, run).readings[h] <= c.readings[h] + (if h in AskedIn(run) && Unsettled(c, h) then 1 else 0)
  {
    RunPays(H, c, run, h);
  }
}
