/** The cache as the client keeps it: one object over a directory, shared by
    every clone of it (`crates/client/src/cache.rs`). */
module ContentCache {
  import opened CacheModel

  class Directory {
    var files: map<Hash, File>
  }

  class Shared {
    const hasher: Hasher
    const root: Directory
    var verified: map<Hash, Stamp>
    var readCount: nat
    ghost var readings: multiset<Hash>

    /** The count is of the reads there were. */
    ghost predicate Counts()
      reads this
    {
      readCount == |readings|
    }

    constructor (hasher: Hasher, root: Directory)
      ensures this.hasher == hasher && this.root == root
      ensures Model() == Cache(root.files, map[], multiset{}) && Counts()
    {
      this.hasher, this.root := hasher, root;
      verified, readCount, readings := map[], 0, multiset{};
    }

    ghost function Model(): Cache
      reads this, root
    {
      Cache(root.files, verified, readings)
    }

    method Get(h: Hash, io: Io) returns (r: Option<Bytes>)
      requires Counts()
      modifies this, root
      ensures Counts()
      ensures (Model(), r) == CacheModel.Get(hasher, old(Model()), h, io)
    {
      if h !in root.files || !io.stat {
        return None;
      }
      var metadata := root.files[h];
      if |metadata.bytes| > MAX_ITEM_BYTES {
        RemoveFile(h, io);
        Forget(h);
        return None;
      }
      readCount, readings := readCount + 1, readings + multiset{h};
      if !io.read {
        return None;
      }
      var bytes := root.files[h].bytes;
      if hasher(bytes) == h {
        verified := verified[h := StampOf(metadata)];
        return Some(bytes);
      }
      RemoveFile(h, io);
      Forget(h);
      return None;
    }

    method RemoveFile(h: Hash, io: Io)
      modifies root
      ensures root.files == if io.remove then old(root.files) - {h} else old(root.files)
    {
      if io.remove {
        root.files := root.files - {h};
      }
    }

    method Forget(h: Hash)
      modifies this
      ensures verified == old(verified) - {h} && readCount == old(readCount) && readings == old(readings)
    {
      verified := verified - {h};
    }

    method Contains(h: Hash, io: Io) returns (r: bool)
      requires Counts()
      modifies this, root
      ensures Counts()
      ensures (Model(), r) == CacheModel.Contains(hasher, old(Model()), h, io)
    {
      if h in verified {
        if !(h in root.files && io.memoStat) {
          Forget(h);
          return false;
        }
        if StampOf(root.files[h]) == verified[h] {
          return true;
        }
      }
      var bytes := Get(h, io);
      return bytes.Some?;
    }

    method Put(h: Hash, bytes: Bytes, moved: bool, seen: bool, now: Option<nat>) returns (r: Option<CacheError>)
      requires Counts()
      modifies this, root
      ensures Counts()
      ensures (Model(), r) == CacheModel.Put(hasher, old(Model()), h, bytes, moved, seen, now)
    {
      if |bytes| > MAX_ITEM_BYTES {
        return Some(TooLarge(|bytes|));
      }
      if hasher(bytes) != h {
        return Some(HashMismatch);
      }
      if !moved {
        return Some(IoError);
      }
      root.files := root.files[h := File(bytes, now)];
      if seen {
        verified := verified[h := StampOf(root.files[h])];
      }
      return None;
    }

    /** The filter of `missing`: each wanted hash asked about in turn. */
    method AskEach(wanted: seq<Hash>, io: Io) returns (out: seq<Hash>)
      requires Counts()
      modifies this, root
      ensures Counts()
      ensures (Model(), out) == Ask(hasher, old(Model()), wanted, io)
    {
      ghost var goal := Ask(hasher, Model(), wanted, io);
      out := [];
      var i := 0;
      assert wanted[0..] == wanted && [] + goal.1 == goal.1;
      while i < |wanted|
        invariant i <= |wanted| && Counts()
        invariant goal == (Ask(hasher, Model(), wanted[i..], io).0, out + Ask(hasher, Model(), wanted[i..], io).1)
      {
        assert wanted[i..][0] == wanted[i] && wanted[i..][1..] == wanted[i + 1..];
        ghost var before := out;
        var held := Contains(wanted[i], io);
        ghost var more := Ask(hasher, Model(), wanted[i + 1..], io).1;
        if !held {
          assert before + ([wanted[i]] + more) == before + [wanted[i]] + more;
          out := out + [wanted[i]];
        }
        i := i + 1;
      }
      assert wanted[i..] == [] && out + [] == out;
    }

    /** What to ask a server for: the wanted hashes with no intact file, in
        order and without repeats. */
    method Missing(wanted: seq<Hash>, io: Io) returns (missing: seq<Hash>)
      requires Counts()
      modifies this, root
      ensures Counts()
      ensures Model() == Ask(hasher, old(Model()), wanted, io).0
      ensures forall h :: h in missing <==> h in Ask(hasher, old(Model()), wanted, io).1
      ensures forall i, j :: 0 <= i < j < |missing| ==> missing[i] < missing[j]
      ensures old(Trusted(hasher, Model())) && io.memoStat && io.stat && io.read ==>
        forall h :: h in missing <==> h in wanted && !Intact(hasher, old(Model()), h)
    {
      ghost var start := Model();
      if Trusted(hasher, start) {
        AskKeeps(hasher, start, wanted, io);
      }
      var out := AskEach(wanted, io);
      missing := SortedOnce(out);
    }
  }

  /** `sort_unstable` and `dedup`. */
  method SortedOnce(s: seq<Hash>) returns (r: seq<Hash>)
    ensures forall i, j :: 0 <= i < j < |r| ==> r[i] < r[j]
    ensures forall h :: h in r <==> h in s
  {
    r := [];
    for i := 0 to |s|
      invariant forall a, b :: 0 <= a < b < |r| ==> r[a] < r[b]
      invariant forall h :: h in r <==> h in s[..i]
    {
      assert s[..i + 1] == s[..i] + [s[i]];
      r := Inserted(r, s[i]);
    }
    assert s[..|s|] == s;
  }

  method Inserted(s: seq<Hash>, x: Hash) returns (r: seq<Hash>)
    requires forall i, j :: 0 <= i < j < |s| ==> s[i] < s[j]
    ensures forall i, j :: 0 <= i < j < |r| ==> r[i] < r[j]
    ensures forall h :: h in r <==> h == x || h in s
  {
    var k := 0;
    while k < |s| && s[k] < x
      invariant k <= |s| && forall i :: 0 <= i < k ==> s[i] < x
    {
      k := k + 1;
    }
    if k < |s| && s[k] == x {
      return s;
    }
    r := s[..k] + [x] + s[k..];
    assert s == s[..k] + s[k..];
  }
}
