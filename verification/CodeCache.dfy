/** The cache of compiled code: least recently used, bounded by its entry count
    and by its bytes. The most recently used entry comes first. */
module CodeCaches {
  import opened Wrappers

  datatype Key = Key(worker: string, version: int)

  type Blob = seq<bv8>

  datatype Entry = Entry(key: Key, blob: Blob)

  function Total(entries: seq<Entry>): nat {
    if entries == [] then 0 else |entries[0].blob| + Total(entries[1..])
  }

  predicate Distinct(entries: seq<Entry>) {
    forall i, j :: 0 <= i < j < |entries| ==> entries[i].key != entries[j].key
  }

  predicate Has(entries: seq<Entry>, key: Key) {
    exists e :: e in entries && e.key == key
  }

  /** The entries of other keys, in their order. */
  function Others(entries: seq<Entry>, key: Key): seq<Entry> {
    if entries == [] then []
    else
      var rest := Others(entries[1..], key);
      if entries[0].key == key then rest else [entries[0]] + rest
  }

  lemma {:induction false} OthersAreTheRest(entries: seq<Entry>, key: Key)
    ensures forall e :: e in Others(entries, key) <==> e in entries && e.key != key
  {
    if entries != [] {
      OthersAreTheRest(entries[1..], key);
      assert forall e :: e in entries <==> e == entries[0] || e in entries[1..];
    }
  }

  lemma {:induction false} OthersStayDistinct(entries: seq<Entry>, key: Key)
    requires Distinct(entries)
    ensures Distinct(Others(entries, key))
  {
    if entries != [] {
      assert forall i :: 0 <= i < |entries[1..]| ==> entries[1..][i] == entries[i + 1];
      OthersStayDistinct(entries[1..], key);
      OthersAreTheRest(entries[1..], key);
      var rest := Others(entries[1..], key);
      forall k | 0 <= k < |rest| ensures rest[k].key != entries[0].key {
        assert rest[k] in entries[1..];
      }
    }
  }

  lemma {:induction false} NoneToRemove(entries: seq<Entry>, key: Key)
    requires forall i :: 0 <= i < |entries| ==> entries[i].key != key
    ensures Others(entries, key) == entries
  {
    if entries != [] {
      NoneToRemove(entries[1..], key);
      assert [entries[0]] + entries[1..] == entries;
    }
  }

  /** Within the entry limit and the byte budget. */
  predicate Fits(entries: seq<Entry>, maxEntries: nat, maxBytes: nat) {
    |entries| <= maxEntries && Total(entries) <= maxBytes
  }

  /** `kept` is the longest beginning of `all` that fits both bounds. */
  predicate LongestFit(kept: seq<Entry>, all: seq<Entry>, maxEntries: nat, maxBytes: nat) {
    && kept <= all && Fits(kept, maxEntries, maxBytes)
    && forall k :: |kept| < k <= |all| ==> !Fits(all[..k], maxEntries, maxBytes)
  }

  lemma {:induction false} TotalOfTwo(a: seq<Entry>, b: seq<Entry>)
    ensures Total(a + b) == Total(a) + Total(b)
  {
    if a == [] {
      assert a + b == b;
    } else {
      TotalOfTwo(a[1..], b);
      assert (a + b)[1..] == a[1..] + b;
    }
  }

  lemma TotalOfOne(entries: seq<Entry>)
    ensures |entries| == 1 ==> Total(entries) == |entries[0].blob|
  {
  }

  lemma TotalOfPrefix(entries: seq<Entry>, k: nat, m: nat)
    requires k <= m <= |entries|
    ensures Total(entries[..k]) <= Total(entries[..m])
  {
    TotalOfTwo(entries[..k], entries[k..m]);
    assert entries[..m] == entries[..k] + entries[k..m];
  }

  /** There is one such beginning only. */
  lemma LongestFitIsUnique(a: seq<Entry>, b: seq<Entry>, all: seq<Entry>, maxEntries: nat, maxBytes: nat)
    requires LongestFit(a, all, maxEntries, maxBytes) && LongestFit(b, all, maxEntries, maxBytes)
    ensures a == b
  {
    assert a == all[..|a|] && b == all[..|b|];
  }

  lemma {:induction false} OthersOfTwo(a: seq<Entry>, b: seq<Entry>, key: Key)
    ensures Others(a + b, key) == Others(a, key) + Others(b, key)
  {
    if a == [] {
      assert a + b == b && [] + Others(b, key) == Others(b, key);
    } else {
      OthersOfTwo(a[1..], b, key);
      assert (a + b)[1..] == a[1..] + b;
      assert [a[0]] + (Others(a[1..], key) + Others(b, key)) == ([a[0]] + Others(a[1..], key)) + Others(b, key);
    }
  }

  lemma OthersAround(entries: seq<Entry>, key: Key, i: nat)
    requires Distinct(entries) && i < |entries| && entries[i].key == key
    ensures Others(entries, key) == entries[..i] + entries[i + 1..]
  {
    var one := [entries[i]];
    assert entries == entries[..i] + (one + entries[i + 1..]);
    OthersOfTwo(entries[..i], one + entries[i + 1..], key);
    OthersOfTwo(one, entries[i + 1..], key);
    NoneToRemove(entries[..i], key);
    NoneToRemove(entries[i + 1..], key);
    assert Others(one, key) == [] by {
      assert one[1..] == [];
    }
    assert [] + entries[i + 1..] == entries[i + 1..];
  }

  /** The entry of `key` and the others make up the whole. */
  lemma OthersAndOne(entries: seq<Entry>, key: Key, i: nat)
    requires Distinct(entries) && i < |entries| && entries[i].key == key
    ensures Others(entries, key) == entries[..i] + entries[i + 1..]
    ensures Total(entries) == Total(Others(entries, key)) + |entries[i].blob|
  {
    OthersAround(entries, key, i);
    var one := [entries[i]];
    assert entries == entries[..i] + (one + entries[i + 1..]) && Total(one) == |entries[i].blob|;
    TotalOfTwo(entries[..i], one + entries[i + 1..]);
    TotalOfTwo(one, entries[i + 1..]);
    TotalOfTwo(entries[..i], entries[i + 1..]);
  }

  class CodeCache {
    const maxEntries: nat
    const maxBytes: nat
    var entries: seq<Entry>
    var bytes: nat

    ghost predicate Valid()
      reads this
    {
      0 < maxEntries && Distinct(entries) && bytes == Total(entries) && Fits(entries, maxEntries, maxBytes)
    }

    constructor (maxEntries: nat, maxBytes: nat)
      requires 0 < maxEntries
      ensures Valid() && entries == [] && this.maxEntries == maxEntries && this.maxBytes == maxBytes
    {
      this.maxEntries, this.maxBytes := maxEntries, maxBytes;
      entries, bytes := [], 0;
    }

    method Position(key: Key) returns (at: Option<nat>)
      ensures at.None? <==> !Has(entries, key)
      ensures at.Some? ==> at.value < |entries| && entries[at.value].key == key
    {
      for i := 0 to |entries|
        invariant forall j :: 0 <= j < i ==> entries[j].key != key
      {
        if entries[i].key == key {
          return Some(i);
        }
      }
      at := None;
    }

    /** The blob of `key`, whose entry becomes the most recently used. */
    method Get(key: Key) returns (blob: Option<Blob>)
      requires Valid()
      modifies this`entries
      ensures Valid()
      ensures blob.Some? <==> Has(old(entries), key)
      ensures blob.None? ==> entries == old(entries)
      ensures blob.Some? ==>
        Entry(key, blob.value) in old(entries) && entries == [Entry(key, blob.value)] + Others(old(entries), key)
    {
      var at := Position(key);
      if at.None? {
        return None;
      }
      var e := entries[at.value];
      OthersAround(entries, key, at.value);
      ToTheFront(entries, e);
      entries := [e] + (entries[..at.value] + entries[at.value + 1..]);
      blob := Some(e.blob);
    }

    /** Stores a blob, unless it alone is over the budget. Of the blob and what
        was there, the most recently used that fit both bounds stay, as many as
        can. */
    method Put(key: Key, blob: Blob)
      requires Valid()
      modifies this`entries, this`bytes
      ensures Valid()
      ensures |blob| > maxBytes ==> entries == old(entries)
      ensures |blob| <= maxBytes ==>
        LongestFit(entries, [Entry(key, blob)] + Others(old(entries), key), maxEntries, maxBytes)
      ensures |blob| <= maxBytes ==> entries != [] && entries[0] == Entry(key, blob)
    {
      if |blob| > maxBytes {
        return;
      }
      ghost var all := [Entry(key, blob)] + Others(entries, key);
      bytes := bytes + |blob|;
      Push(key, blob);
      Evict(all);
    }

    /** Drops the entry of `key`, or the least recently used one of a full
        cache; its bytes are gone. */
    method MakeRoom(key: Key)
      requires 0 < maxEntries && Distinct(entries) && |entries| <= maxEntries && bytes >= Total(entries)
      modifies this`entries, this`bytes
      ensures bytes - Total(entries) == old(bytes) - Total(old(entries))
      ensures Distinct(Others(old(entries), key)) && entries <= Others(old(entries), key)
      ensures |entries| < maxEntries
      ensures |entries| == |Others(old(entries), key)| || |entries| == maxEntries - 1
    {
      var at := Position(key);
      OthersStayDistinct(entries, key);
      if at.Some? {
        OthersAndOne(entries, key, at.value);
        bytes := bytes - |entries[at.value].blob|;
        entries := entries[..at.value] + entries[at.value + 1..];
        return;
      }
      NoneToRemove(entries, key);
      if |entries| == maxEntries {
        var last := |entries| - 1;
        TotalOfTwo(entries[..last], entries[last..]);
        assert entries[..last] + entries[last..] == entries && Total(entries[last..]) == |entries[last].blob|;
        bytes := bytes - |entries[last].blob|;
        entries := entries[..last];
      }
    }

    /** `push`: the entry of `key` comes first, in place of what it replaces or
        evicts. */
    method Push(key: Key, blob: Blob)
      requires 0 < maxEntries && Distinct(entries) && |entries| <= maxEntries && bytes == Total(entries) + |blob|
      modifies this`entries, this`bytes
      ensures Distinct(entries) && 0 < |entries| <= maxEntries && bytes == Total(entries)
      ensures var all := [Entry(key, blob)] + Others(old(entries), key);
        entries <= all && (|entries| == |all| || |entries| == maxEntries)
    {
      MakeRoom(key);
      OthersAreTheRest(old(entries), key);
      ghost var others := Others(old(entries), key);
      assert forall i :: 0 <= i < |entries| ==> entries[i] == others[i] && others[i] in others;
      TotalOfTwo([Entry(key, blob)], entries);
      entries := [Entry(key, blob)] + entries;
    }

    /** Drops the least recently used entries until the bytes fit. */
    method Evict(ghost all: seq<Entry>)
      requires 0 < maxEntries && Distinct(entries) && 0 < |entries| <= maxEntries && bytes == Total(entries)
      requires entries <= all && (|entries| == |all| || |entries| == maxEntries)
      requires |all[0].blob| <= maxBytes
      modifies this`entries, this`bytes
      ensures Valid() && LongestFit(entries, all, maxEntries, maxBytes) && entries != []
    {
      while bytes > maxBytes
        invariant 0 < |entries| <= maxEntries && bytes == Total(entries) && entries <= all && Distinct(entries)
        invariant forall k :: |entries| < k <= |all| ==> !Fits(all[..k], maxEntries, maxBytes)
        decreases |entries|
      {
        var last := |entries| - 1;
        TotalOfTwo(entries[..last], entries[last..]);
        assert entries[..last] + entries[last..] == entries && Total(entries[last..]) == |entries[last].blob|;
        assert entries[0] == all[0];
        TotalOfOne(entries);
        forall k | last < k <= |all| ensures !Fits(all[..k], maxEntries, maxBytes) {
          TotalOfPrefix(all, |entries|, k);
          assert all[..|entries|] == entries;
        }
        bytes := bytes - |entries[last].blob|;
        entries := entries[..last];
      }
    }
  }

  lemma ToTheFront(entries: seq<Entry>, e: Entry)
    requires Distinct(entries) && e in entries
    ensures Distinct([e] + Others(entries, e.key)) && Total([e] + Others(entries, e.key)) == Total(entries)
    ensures |[e] + Others(entries, e.key)| == |entries|
  {
    var i :| 0 <= i < |entries| && entries[i] == e;
    OthersAndOne(entries, e.key, i);
    OthersStayDistinct(entries, e.key);
    assert ([e] + Others(entries, e.key))[1..] == Others(entries, e.key);
  }
}
