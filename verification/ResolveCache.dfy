/** The cache of request resolutions: what a request names, and the worker it
    resolves to. Times are seconds. */
module ResolveCache {
  import opened Wrappers

  const TTL := 60

  /** What a request names. A key without a path stands for every path. */
  datatype Key = Key(host: Option<string>, worker: Option<string>, name: Option<string>, path: Option<string>)

  datatype Resolution = Resolution(worker: Option<string>, project: Option<string>, backend: string)

  datatype Entry = Entry(value: Option<Resolution>, at: int)

  type Entries = map<Key, Entry>

  /** A worker outside of any project, which the path cannot change. */
  predicate Standalone(value: Option<Resolution>) {
    value.Some? && value.value.project.None? && value.value.worker.Some?
  }

  /** The key under which a resolution is stored. */
  function Stored(key: Key, value: Option<Resolution>): Key {
    if Standalone(value) then key.(path := None) else key
  }

  predicate Fresh(entries: Entries, key: Key, now: int) {
    key in entries && now - entries[key].at < TTL
  }

  /** The entry that answers `key`: the one without a path, or its own. */
  function Found(entries: Entries, key: Key, now: int): Option<Key> {
    if Fresh(entries, key.(path := None), now) then Some(key.(path := None))
    else if Fresh(entries, key, now) then Some(key)
    else None
  }

  /** An answer is stored for every path if and only if it is a worker of no
      project; else it keeps its path. */
  lemma StoredForEveryPath(key: Key, value: Option<Resolution>)
    requires key.path.Some?
    ensures Stored(key, value).path.None? <==>
      value.Some? && value.value.project.None? && value.value.worker.Some?
    ensures Stored(key, value).path.Some? ==> Stored(key, value) == key
    ensures Stored(key, value).(path := key.path) == key
  {
  }

  /** An entry is found if and only if it is for the key without its path or for
      the key, and less than a minute old; the one without a path comes first. */
  lemma FoundExactly(entries: Entries, key: Key, now: int)
    ensures var pathless := key.(path := None);
      var general := pathless in entries && now - entries[pathless].at < 60;
      var special := key in entries && now - entries[key].at < 60;
      Found(entries, key, now) == if general then Some(pathless) else if special then Some(key) else None
  {
  }

  // The order of use, the most recent first

  predicate Distinct(order: seq<Key>) {
    forall i, j :: 0 <= i < j < |order| ==> order[i] != order[j]
  }

  /** The keys beside `key`, in their order. */
  function Others(order: seq<Key>, key: Key): seq<Key> {
    if order == [] then []
    else (if order[0] == key then [] else [order[0]]) + Others(order[1..], key)
  }

  lemma {:induction false} OthersAreTheRest(order: seq<Key>, key: Key)
    ensures forall k :: k in Others(order, key) <==> k in order && k != key
    ensures |Others(order, key)| <= |order| && (key in order ==> |Others(order, key)| < |order|)
  {
    if order != [] {
      OthersAreTheRest(order[1..], key);
      assert forall k :: k in order <==> k == order[0] || k in order[1..];
    }
  }

  lemma {:induction false} OthersStayDistinct(order: seq<Key>, key: Key)
    requires Distinct(order)
    ensures Distinct(Others(order, key))
  {
    if order != [] {
      var rest := Others(order[1..], key);
      OthersStayDistinct(order[1..], key);
      OthersAreTheRest(order[1..], key);
      forall i | 0 <= i < |rest| ensures rest[i] != order[0] {
        assert rest[i] in order[1..];
      }
    }
  }

  /** The order after `key` is looked up. */
  function Touched(order: seq<Key>, key: Key): seq<Key> {
    if key in order then [key] + Others(order, key) else order
  }

  /** The order after a look at the key without its path, and, if that gives no
      answer, at the key. */
  function Asked(order: seq<Key>, entries: Entries, key: Key, now: int): seq<Key> {
    var pathless := key.(path := None);
    if Fresh(entries, pathless, now) then Touched(order, pathless) else Touched(Touched(order, pathless), key)
  }

  /** The order after `key` is put in a cache for `capacity` keys: the least
      recently used one goes from a full cache. */
  function Pushed(order: seq<Key>, key: Key, capacity: nat): seq<Key>
    requires 0 < capacity
  {
    var others := Others(order, key);
    if |others| < capacity then [key] + others else [key] + others[..|others| - 1]
  }

  lemma TouchedIsGood(order: seq<Key>, key: Key)
    requires Distinct(order)
    ensures Distinct(Touched(order, key)) && |Touched(order, key)| <= |order|
    ensures forall k :: k in Touched(order, key) <==> k in order
  {
    OthersAreTheRest(order, key);
    OthersStayDistinct(order, key);
  }

  lemma PushedIsGood(order: seq<Key>, key: Key, capacity: nat)
    requires Distinct(order) && |order| <= capacity && 0 < capacity
    ensures Distinct(Pushed(order, key, capacity)) && |Pushed(order, key, capacity)| <= capacity
    ensures forall k :: k in Pushed(order, key, capacity) ==> k == key || k in order
  {
    OthersAreTheRest(order, key);
    OthersStayDistinct(order, key);
    var others, pushed := Others(order, key), Pushed(order, key, capacity);
    assert forall i :: 1 <= i < |pushed| ==> pushed[i] == others[i - 1] && others[i - 1] in others;
  }

  class Cache {
    const capacity: nat
    var entries: Entries
    var order: seq<Key>
    var enabled: bool
    var generation: nat

    ghost predicate Valid()
      reads this
    {
      && 0 < capacity && Distinct(order) && |order| <= capacity
      && forall k :: k in order <==> k in entries
    }

    constructor (capacity: nat)
      requires 0 < capacity
      ensures Valid() && entries == map[] && order == [] && !enabled && generation == 0 && this.capacity == capacity
    {
      this.capacity := capacity;
      entries, order, enabled, generation := map[], [], false, 0;
    }

    /** One try of a lookup; an entry counts as used although it is too old. */
    method Try(key: Key, now: int) returns (answer: Option<Option<Resolution>>)
      requires Valid()
      modifies this`order
      ensures Valid() && order == Touched(old(order), key)
      ensures answer == if Fresh(entries, key, now) then Some(entries[key].value) else None
    {
      TouchedIsGood(order, key);
      if key !in entries {
        return None;
      }
      order := [key] + Others(order, key);
      answer := if now - entries[key].at < TTL then Some(entries[key].value) else None;
    }

    /** The answer in the cache, tried without the path first. */
    method Lookup(key: Key, now: int) returns (answer: Option<Option<Resolution>>)
      requires Valid()
      modifies this`order
      ensures Valid() && order == Asked(old(order), entries, key, now)
      ensures answer.None? <==> !Fresh(entries, key.(path := None), now) && !Fresh(entries, key, now)
      ensures answer.Some? ==> Found(entries, key, now).Some? &&
                               answer.value == entries[Found(entries, key, now).value].value
    {
      answer := None;
      var tries := [key.(path := None), key];
      for i := 0 to |tries|
        invariant Valid() && answer.None?
        invariant forall j :: 0 <= j < i ==> !Fresh(entries, tries[j], now)
        invariant i == 0 ==> order == old(order)
        invariant i == 1 ==> order == Touched(old(order), tries[0])
        invariant i == 2 ==> order == Touched(Touched(old(order), tries[0]), tries[1])
      {
        answer := Try(tries[i], now);
        if answer.Some? {
          assert i == 1 ==> !Fresh(entries, tries[0], now);
          return;
        }
      }
      assert !Fresh(entries, tries[0], now) && !Fresh(entries, tries[1], now);
    }

    /** Puts an answer in the cache if the cache is on and still at the generation
        `g`. A full cache gives up the least recently used of the others. */
    method Store(g: Option<nat>, key: Key, value: Option<Resolution>, now: int)
      requires Valid()
      modifies this`entries, this`order
      ensures Valid()
      ensures !(enabled && g == Some(generation)) ==> entries == old(entries) && order == old(order)
      ensures enabled && g == Some(generation) ==>
        && order == Pushed(old(order), Stored(key, value), capacity)
        && (forall k :: k in order ==> k == Stored(key, value) || k in old(entries))
        && entries == map k | k in order ::
             if k == Stored(key, value) then Entry(value, now) else old(entries)[k]
    {
      if enabled && g == Some(generation) {
        var k := Stored(key, value);
        PushedIsGood(order, k, capacity);
        OthersAreTheRest(order, k);
        var others := Others(order, k);
        var rest := entries;
        if |others| == capacity {
          others := others[..|others| - 1];
        }
        order := [k] + others;
        entries := map j | j in order :: if j == k then Entry(value, now) else rest[j];
      }
    }

    method Bump()
      modifies this`generation
      ensures generation == old(generation) + 1
    {
      generation := generation + 1;
    }

    method Clear()
      requires Valid()
      modifies this`entries, this`order
      ensures Valid() && entries == map[] && order == []
    {
      entries, order := map[], [];
    }
  }

  /** A store in a cache that is not full gives up nothing, and one in a full
      cache only the key that was used longest ago. */
  lemma OnlyTheOldestGoes(order: seq<Key>, key: Key, capacity: nat, k: Key)
    requires Distinct(order) && |order| <= capacity && 0 < capacity && k in order && k !in Pushed(order, key, capacity)
    ensures |order| == capacity && key !in order && k == order[|order| - 1]
  {
    OthersAreTheRest(order, key);
    if key !in order {
      NoOther(order, key);
    }
  }

  lemma {:induction false} NoOther(order: seq<Key>, key: Key)
    requires key !in order
    ensures Others(order, key) == order
  {
    if order != [] {
      NoOther(order[1..], key);
    }
  }

  // ---- The order is that of the last uses ----

  /** How many uses there were when `key` was last used; zero if it never was. */
  function LastUse(uses: seq<Key>, key: Key): (n: nat)
    ensures n <= |uses|
  {
    if uses == [] then 0
    else if uses[|uses| - 1] == key then |uses|
    else LastUse(uses[..|uses| - 1], key)
  }

  /** Of two keys, the one used later comes first. */
  ghost predicate ByUse(order: seq<Key>, uses: seq<Key>) {
    forall i, j :: 0 <= i < j < |order| ==> LastUse(uses, order[i]) > LastUse(uses, order[j])
  }

  lemma OneMoreUse(uses: seq<Key>, key: Key, k: Key)
    ensures LastUse(uses + [key], k) == if k == key then |uses| + 1 else LastUse(uses, k)
  {
    assert (uses + [key])[..|uses|] == uses;
  }

  lemma {:induction false} OthersStayByUse(order: seq<Key>, uses: seq<Key>, key: Key)
    requires ByUse(order, uses)
    ensures ByUse(Others(order, key), uses)
  {
    if order != [] {
      var rest := Others(order[1..], key);
      OthersStayByUse(order[1..], uses, key);
      OthersAreTheRest(order[1..], key);
      forall i | 0 <= i < |rest| ensures LastUse(uses, order[0]) > LastUse(uses, rest[i]) {
        assert rest[i] in order[1..];
      }
    }
  }

  /** A key that comes first is the last one used, before the others as they were. */
  lemma FirstByUse(order: seq<Key>, uses: seq<Key>, key: Key, n: nat)
    requires ByUse(order, uses) && n <= |Others(order, key)|
    ensures ByUse([key] + Others(order, key)[..n], uses + [key])
  {
    var first := [key] + Others(order, key)[..n];
    OthersStayByUse(order, uses, key);
    OthersAreTheRest(order, key);
    forall i, j | 0 <= i < j < |first| ensures LastUse(uses + [key], first[i]) > LastUse(uses + [key], first[j]) {
      OneMoreUse(uses, key, first[i]);
      OneMoreUse(uses, key, first[j]);
      assert first[j] == Others(order, key)[j - 1] && first[j] in Others(order, key);
      assert i > 0 ==> first[i] == Others(order, key)[i - 1] && first[i] in Others(order, key);
    }
  }

  /** A lookup that finds the key, and a store, keep the order that of the last
      uses: so what a full cache gives up was used longest ago. */
  lemma OrderIsOfLastUse(order: seq<Key>, uses: seq<Key>, key: Key, capacity: nat)
    requires Distinct(order) && ByUse(order, uses) && |order| <= capacity && 0 < capacity
    ensures key in order ==> ByUse(Touched(order, key), uses + [key])
    ensures ByUse(Pushed(order, key, capacity), uses + [key])
    ensures forall k :: k in order && k !in Pushed(order, key, capacity) ==>
      forall other :: other in order && other != k ==> LastUse(uses, k) < LastUse(uses, other)
  {
    var others := Others(order, key);
    assert others[..|others|] == others;
    FirstByUse(order, uses, key, |others|);
    FirstByUse(order, uses, key, if |others| < capacity then |others| else |others| - 1);
    forall k, other | k in order && k !in Pushed(order, key, capacity) && other in order && other != k
      ensures LastUse(uses, k) < LastUse(uses, other)
    {
      OnlyTheOldestGoes(order, key, capacity, k);
    }
  }
}
