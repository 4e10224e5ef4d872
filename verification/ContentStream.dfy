/** Content arriving in slices, many items at once (`collect_content` in
    `crates/bot/src/client.rs`).  The digest is any function at all; a slice that
    does not decompress carries nothing. */
module ContentStream {
  import opened CacheModel

  datatype Message =
    | Other
    | Slice(hash: Hash, offset: nat, total: nat, data: Option<Bytes>)

  datatype Item = Item(hash: Hash, bytes: Bytes)

  datatype Failure = NotCompressed | OutOfOrder | WrongHash | ConnectionLost

  datatype Result<+T> = Ok(value: T) | Err(error: Failure)

  /** How the wait ends when no more messages come: time runs out, or the
      connection does. */
  datatype Ending = Elapsed | Lost

  datatype State = State(partial: map<Hash, Bytes>, complete: seq<Item>)

  const START: State := State(map[], [])

  function Held(s: State, h: Hash): Bytes {
    if h in s.partial then s.partial[h] else []
  }

  /** One message taken in. */
  function Took(H: Hasher, s: State, m: Message): Result<State> {
    if m.Other? then Ok(s)
    else if m.data.None? then Err(NotCompressed)
    else if |Held(s, m.hash)| != m.offset then Err(OutOfOrder)
    else
      var bytes := Held(s, m.hash) + m.data.value;
      if |bytes| < m.total then Ok(s.(partial := s.partial[m.hash := bytes]))
      else if H(bytes) != m.hash then Err(WrongHash)
      else Ok(State(s.partial - {m.hash}, s.complete + [Item(m.hash, bytes)]))
  }

  /** All the messages taken in, in order. */
  function TookAll(H: Hasher, ms: seq<Message>): Result<State>
    decreases |ms|
  {
    if ms == [] then Ok(START)
    else
      var before := TookAll(H, ms[..|ms| - 1]);
      if before.Err? then before else Took(H, before.value, ms[|ms| - 1])
  }

  // ----- Nothing is lost, moved or made up -----

  /** The bytes one message carries for `h`. */
  function Carried(m: Message, h: Hash): Bytes {
    if m.Slice? && m.hash == h && m.data.Some? then m.data.value else []
  }

  /** The bytes of every slice sent for `h`, end to end. */
  function Sent(ms: seq<Message>, h: Hash): Bytes
    decreases |ms|
  {
    if ms == [] then [] else Sent(ms[..|ms| - 1], h) + Carried(ms[|ms| - 1], h)
  }

  /** The bytes of every finished item of that name, end to end. */
  function Joined(items: seq<Item>, h: Hash): Bytes
    decreases |items|
  {
    if items == [] then []
    else
      var last := items[|items| - 1];
      Joined(items[..|items| - 1], h) + if last.hash == h then last.bytes else []
  }

  lemma JoinedOneMore(items: seq<Item>, item: Item, h: Hash)
    ensures Joined(items + [item], h) == Joined(items, h) + if item.hash == h then item.bytes else []
  {
  }

  /** Conservation: for every name, the finished items and what is held of the
      next are the slices sent, byte for byte and in order; and every finished
      item hashes to its name. */
  lemma {:induction false} Accounted(H: Hasher, ms: seq<Message>, h: Hash)
    requires TookAll(H, ms).Ok?
    ensures var s := TookAll(H, ms).value; Joined(s.complete, h) + Held(s, h) == Sent(ms, h)
    decreases |ms|
  {
    if ms != [] {
      var front, m := ms[..|ms| - 1], ms[|ms| - 1];
      Accounted(H, front, h);
      AccountedStep(H, TookAll(H, front).value, m, h);
      var s := TookAll(H, front).value;
      Regrouped(Joined(s.complete, h), Held(s, h), Carried(m, h));
    }
  }

  lemma Regrouped(a: Bytes, b: Bytes, c: Bytes)
    ensures a + (b + c) == (a + b) + c
  {
  }

  lemma AccountedStep(H: Hasher, s: State, m: Message, h: Hash)
    requires Took(H, s, m).Ok?
    ensures var t := Took(H, s, m).value;
      Joined(t.complete, h) + Held(t, h) == Joined(s.complete, h) + (Held(s, h) + Carried(m, h))
  {
    if m.Slice? {
      var bytes := Held(s, m.hash) + m.data.value;
      if |bytes| >= m.total {
        JoinedOneMore(s.complete, Item(m.hash, bytes), h);
      }
    }
  }

  ghost predicate AllGenuine(H: Hasher, items: seq<Item>) {
    forall i :: 0 <= i < |items| ==> H(items[i].bytes) == items[i].hash
  }

  lemma {:induction false} Genuine(H: Hasher, ms: seq<Message>)
    requires TookAll(H, ms).Ok?
    ensures AllGenuine(H, TookAll(H, ms).value.complete)
    decreases |ms|
  {
    if ms != [] { Genuine(H, ms[..|ms| - 1]); }
  }

  /** What is held of an item is what was sent of it and not yet finished; so a
      slice is refused as out of order exactly when its offset says otherwise. */
  lemma RefusedExactly(H: Hasher, ms: seq<Message>, m: Message)
    requires TookAll(H, ms).Ok? && m.Slice? && m.data.Some?
    ensures var held := |Sent(ms, m.hash)| - |Joined(TookAll(H, ms).value.complete, m.hash)|;
      TookAll(H, ms + [m]) == Err(OutOfOrder) <==> m.offset != held
  {
    Accounted(H, ms, m.hash);
    assert (ms + [m])[..|ms|] == ms;
  }

  // ----- Items sent whole -----

  /** The next message for items sent once each, in order: its slice starts where
      the last one of its item stopped and gives the item's true length. */
  predicate SentNext(content: map<Hash, Bytes>, ms: seq<Message>, m: Message) {
    m.Slice? ==>
      && m.hash in content && m.data.Some?
      && var whole, sofar := content[m.hash], Sent(ms, m.hash);
      && m.total == |whole| && m.offset == |sofar|
      && sofar + m.data.value <= whole
      && !AllSent(content, ms, m.hash)
  }

  predicate Mentions(ms: seq<Message>, h: Hash) {
    exists i :: 0 <= i < |ms| && ms[i].Slice? && ms[i].hash == h
  }

  /** The whole of an item has gone, in one slice at least. */
  predicate AllSent(content: map<Hash, Bytes>, ms: seq<Message>, h: Hash) {
    h in content && Mentions(ms, h) && Sent(ms, h) == content[h]
  }

  ghost predicate WellSent(content: map<Hash, Bytes>, ms: seq<Message>) {
    forall n :: 0 <= n < |ms| ==> SentNext(content, ms[..n], ms[n])
  }

  ghost predicate Named(H: Hasher, content: map<Hash, Bytes>) {
    forall h :: h in content ==> H(content[h]) == h
  }

  predicate IsComplete(items: seq<Item>, h: Hash) {
    exists i :: 0 <= i < |items| && items[i].hash == h
  }

  ghost predicate Once(items: seq<Item>) {
    forall i, j :: 0 <= i < j < |items| ==> items[i].hash != items[j].hash
  }

  /** One name is finished exactly when its item is wholly sent, and otherwise
      held as far as it has been. */
  ghost predicate Tracks(content: map<Hash, Bytes>, ms: seq<Message>, s: State, h: Hash) {
    && (IsComplete(s.complete, h) <==> AllSent(content, ms, h))
    && Held(s, h) == if AllSent(content, ms, h) then [] else Sent(ms, h)
  }

  ghost predicate OwnBytes(content: map<Hash, Bytes>, items: seq<Item>) {
    forall i :: 0 <= i < |items| ==> items[i].hash in content && items[i].bytes == content[items[i].hash]
  }

  /** Where the collection stands: finished exactly the items wholly sent, once
      each and with their own bytes, and holding the rest so far. */
  ghost predicate InStep(content: map<Hash, Bytes>, ms: seq<Message>, s: State) {
    Once(s.complete) && OwnBytes(content, s.complete) && forall h :: Tracks(content, ms, s, h)
  }

  lemma MentionedNext(ms: seq<Message>, m: Message, h: Hash)
    ensures Mentions(ms + [m], h) <==> Mentions(ms, h) || (m.Slice? && m.hash == h)
    ensures Sent(ms + [m], h) == Sent(ms, h) + Carried(m, h)
  {
    var more := ms + [m];
    assert more[..|ms|] == ms;
    if Mentions(ms, h) {
      var i :| 0 <= i < |ms| && ms[i].Slice? && ms[i].hash == h;
      assert more[i] == ms[i];
    }
    if m.Slice? && m.hash == h { assert more[|ms|] == m; }
  }

  lemma CompleteNext(items: seq<Item>, item: Item, h: Hash)
    ensures IsComplete(items + [item], h) <==> IsComplete(items, h) || item.hash == h
  {
    var more := items + [item];
    if IsComplete(items, h) {
      var i :| 0 <= i < |items| && items[i].hash == h;
      assert more[i] == items[i];
    }
    if item.hash == h { assert more[|items|] == item; }
  }

  lemma TracksOther(content: map<Hash, Bytes>, ms: seq<Message>, m: Message, s: State, t: State, h: Hash)
    requires Tracks(content, ms, s, h) && !(m.Slice? && m.hash == h)
    requires Held(t, h) == Held(s, h) && (IsComplete(t.complete, h) <==> IsComplete(s.complete, h))
    ensures Tracks(content, ms + [m], t, h)
  {
  }

  /** What a well sent slice brings the buffer to. */
  lemma BufferAfter(content: map<Hash, Bytes>, ms: seq<Message>, s: State, m: Message)
    requires m.Slice? && Tracks(content, ms, s, m.hash) && SentNext(content, ms, m)
    ensures Held(s, m.hash) == Sent(ms, m.hash)
    ensures Held(s, m.hash) + m.data.value == Sent(ms + [m], m.hash)
    ensures |Held(s, m.hash) + m.data.value| >= m.total <==> Sent(ms + [m], m.hash) == content[m.hash]
    ensures Mentions(ms + [m], m.hash)
  {
    MentionedNext(ms, m, m.hash);
    PrefixWhole(Held(s, m.hash) + m.data.value, content[m.hash]);
  }

  lemma PrefixWhole(a: Bytes, b: Bytes)
    requires a <= b
    ensures |a| >= |b| <==> a == b
  {
  }

  lemma Continues(content: map<Hash, Bytes>, ms: seq<Message>, s: State, m: Message, bytes: Bytes)
    requires InStep(content, ms, s) && m.Slice? && !AllSent(content, ms, m.hash)
    requires bytes == Sent(ms + [m], m.hash) && !AllSent(content, ms + [m], m.hash)
    ensures InStep(content, ms + [m], s.(partial := s.partial[m.hash := bytes]))
  {
    var t := s.(partial := s.partial[m.hash := bytes]);
    forall h ensures Tracks(content, ms + [m], t, h) {
      assert Tracks(content, ms, s, h);
      if h != m.hash { TracksOther(content, ms, m, s, t, h); }
    }
  }

  lemma Finishes(content: map<Hash, Bytes>, ms: seq<Message>, s: State, m: Message, item: Item)
    requires InStep(content, ms, s) && m.Slice? && item.hash == m.hash && m.hash in content
    requires item.bytes == content[m.hash] && !AllSent(content, ms, m.hash)
    requires AllSent(content, ms + [m], m.hash)
    ensures InStep(content, ms + [m], State(s.partial - {m.hash}, s.complete + [item]))
  {
    var t := State(s.partial - {m.hash}, s.complete + [item]);
    assert Tracks(content, ms, s, m.hash);
    forall h ensures Tracks(content, ms + [m], t, h) {
      assert Tracks(content, ms, s, h);
      CompleteNext(s.complete, item, h);
      if h != m.hash { TracksOther(content, ms, m, s, t, h); }
    }
    OnceMore(s.complete, item);
  }

  lemma OnceMore(items: seq<Item>, item: Item)
    requires Once(items) && !IsComplete(items, item.hash)
    ensures Once(items + [item])
  {
  }

  lemma StayInStep(H: Hasher, content: map<Hash, Bytes>, ms: seq<Message>, s: State, m: Message)
    requires Named(H, content) && InStep(content, ms, s) && SentNext(content, ms, m)
    ensures Took(H, s, m).Ok? && InStep(content, ms + [m], Took(H, s, m).value)
  {
    if m.Other? {
      forall h ensures Tracks(content, ms + [m], s, h) {
        assert Tracks(content, ms, s, h);
        TracksOther(content, ms, m, s, s, h);
      }
    } else {
      var bytes := Held(s, m.hash) + m.data.value;
      assert Tracks(content, ms, s, m.hash);
      BufferAfter(content, ms, s, m);
      if |bytes| >= m.total {
        Finishes(content, ms, s, m, Item(m.hash, bytes));
      } else {
        Continues(content, ms, s, m, bytes);
      }
    }
  }

  /** Items sent once each, in order and with their true lengths, however their
      slices are interleaved with each other and with anything else: none is
      refused, and each finishes exactly once, with its own bytes, as soon as
      the last of it arrives. */
  lemma {:induction false} EachCompletesOnce(H: Hasher, content: map<Hash, Bytes>, ms: seq<Message>)
    requires Named(H, content) && WellSent(content, ms)
    ensures TookAll(H, ms).Ok? && InStep(content, ms, TookAll(H, ms).value)
    decreases |ms|
  {
    if ms != [] {
      var front, m := ms[..|ms| - 1], ms[|ms| - 1];
      forall n | 0 <= n < |front| ensures SentNext(content, front[..n], front[n]) {
        assert SentNext(content, ms[..n], ms[n]) && ms[..n] == front[..n];
      }
      EachCompletesOnce(H, content, front);
      assert SentNext(content, ms[..|front|], ms[|front|]);
      StayInStep(H, content, front, TookAll(H, front).value, m);
      assert front + [m] == ms;
    }
  }

  // ----- The call -----

  /** The fewest messages that settle the matter: enough items, or a refusal. */
  ghost predicate Settles(H: Hasher, wanted: nat, ms: seq<Message>, n: nat) {
    && n <= |ms|
    && (forall k :: 0 <= k < n ==> TookAll(H, ms[..k]).Ok? && |TookAll(H, ms[..k]).value.complete| < wanted)
    && (TookAll(H, ms[..n]).Err? || |TookAll(H, ms[..n]).value.complete| >= wanted || n == |ms|)
  }

  /** Collects until `wanted` items are finished or nothing more comes. */
  method CollectContent(H: Hasher, wanted: nat, inbox: seq<Message>, ending: Ending)
    returns (r: Result<seq<Item>>, ghost n: nat)
    ensures Settles(H, wanted, inbox, n)
    ensures var took := TookAll(H, inbox[..n]);
      r == if took.Err? then Err(took.error)
           else if |took.value.complete| < wanted && ending.Lost? then Err(ConnectionLost)
           else Ok(took.value.complete)
    ensures r.Ok? ==> |r.value| <= wanted
  {
    var partial: map<Hash, Bytes> := map[];
    var complete: seq<Item> := [];
    n := 0;
    var next := 0;
    while |complete| < wanted
      invariant next == n <= |inbox| && |complete| <= wanted
      invariant TookAll(H, inbox[..n]) == Ok(State(partial, complete))
      invariant forall k :: 0 <= k < n ==> TookAll(H, inbox[..k]).Ok? && |TookAll(H, inbox[..k]).value.complete| < wanted
      decreases |inbox| - next
    {
      if next == |inbox| {
        if ending.Lost? {
          return Err(ConnectionLost), n;
        }
        break;
      }
      var message := inbox[next];
      assert inbox[..next + 1][..next] == inbox[..next];
      next, n := next + 1, n + 1;
      if message.Other? {
        continue;
      }
      if message.data.None? {
        return Err(NotCompressed), n;
      }
      var buffer := if message.hash in partial then partial[message.hash] else [];
      if |buffer| != message.offset {
        return Err(OutOfOrder), n;
      }
      buffer := buffer + message.data.value;
      if |buffer| >= message.total {
        partial := partial - {message.hash};
        if H(buffer) != message.hash {
          return Err(WrongHash), n;
        }
        complete := complete + [Item(message.hash, buffer)];
      } else {
        partial := partial[message.hash := buffer];
      }
    }
    r := Ok(complete);
  }

  lemma WellSentSoFar(content: map<Hash, Bytes>, ms: seq<Message>, n: nat)
    requires WellSent(content, ms) && n <= |ms|
    ensures WellSent(content, ms[..n])
  {
    forall k | 0 <= k < n ensures SentNext(content, ms[..n][..k], ms[..n][k]) {
      assert SentNext(content, ms[..k], ms[k]) && ms[..n][..k] == ms[..k];
    }
  }

  /** Asked for as many items as are sent, the call returns each of them once,
      with its own bytes. */
  lemma FullCollection(H: Hasher, content: map<Hash, Bytes>, ms: seq<Message>, n: nat)
    requires Named(H, content) && WellSent(content, ms) && Settles(H, |content|, ms, n)
    requires forall h :: h in content ==> AllSent(content, ms, h)
    ensures TookAll(H, ms[..n]).Ok?
    ensures var items := TookAll(H, ms[..n]).value.complete;
      |items| == |content| && Once(items) && OwnBytes(content, items)
  {
    WellSentSoFar(content, ms, n);
    EachCompletesOnce(H, content, ms[..n]);
    var items := TookAll(H, ms[..n]).value.complete;
    NamesOf(items, content.Keys);
    if |items| < |content| {
      assert ms[..n] == ms;
      forall h | h in content ensures IsComplete(items, h) {
        assert Tracks(content, ms, TookAll(H, ms).value, h);
      }
      AllNamed(items, content.Keys);
    }
  }

  function Names(items: seq<Item>): set<Hash> {
    set i | 0 <= i < |items| :: items[i].hash
  }

  lemma {:induction false} NamesOf(items: seq<Item>, all: set<Hash>)
    requires Once(items) && forall i :: 0 <= i < |items| ==> items[i].hash in all
    ensures |items| == |Names(items)| <= |all|
    decreases |items|
  {
    if items != [] {
      var front, last := items[..|items| - 1], items[|items| - 1];
      NamesOf(front, all - {last.hash});
      assert Names(items) == Names(front) + {last.hash};
    }
  }

  lemma AllNamed(items: seq<Item>, all: set<Hash>)
    requires Once(items) && (forall i :: 0 <= i < |items| ==> items[i].hash in all)
    requires forall h :: h in all ==> IsComplete(items, h)
    ensures |items| == |all|
  {
    NamesOf(items, all);
    assert Names(items) == all;
  }

  /** Each refusal has its own reason: a slice that does not decompress, one out of
      its turn, or one that completes an item of the wrong bytes. */
  lemma RefusalsExact(H: Hasher, ms: seq<Message>, m: Message)
    requires TookAll(H, ms).Ok? && m.Slice?
    ensures var held, next := Held(TookAll(H, ms).value, m.hash), TookAll(H, ms + [m]);
      && (next == Err(NotCompressed) <==> m.data.None?)
      && (next == Err(OutOfOrder) <==> m.data.Some? && m.offset != |held|)
      && (next == Err(WrongHash) <==>
            m.data.Some? && m.offset == |held| && |held + m.data.value| >= m.total && H(held + m.data.value) != m.hash)
      && next != Err(ConnectionLost)
  {
    assert (ms + [m])[..|ms|] == ms;
  }
}
