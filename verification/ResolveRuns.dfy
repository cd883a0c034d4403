/** Every run of the resolution cache: any number of lookups and of
    invalidations, the listener that turns the cache on and off, and the
    database changing meanwhile. An atomic load or store is one step, so is a
    critical section of the cache lock, except that of a store, whose checks
    read the atomics one at a time. */
module ResolveRuns {
  import opened Wrappers
  import opened ResolveCache

  type Id = nat

  /** What the database answers for each key. */
  type Db = Key -> Option<Resolution>

  /** What a lookup read: the last invalidation it saw begin, and the version
      of the database its query saw. */
  datatype Origin = Origin(stamp: nat, version: nat)

  /** Where a lookup is. `Checking` to `Putting` hold the cache lock. */
  datatype Lookup =
    | Loading(key: Key)
    | Probing(key: Key, g: nat)
    | Querying(key: Key, begun: Option<nat>)
    | Storing(key: Key, begun: Option<nat>, value: Option<Resolution>, version: nat)
    | Checking(key: Key, g: nat, value: Option<Resolution>, version: nat)
    | Comparing(key: Key, g: nat, value: Option<Resolution>, version: nat)
    | Putting(key: Key, g: nat, value: Option<Resolution>, version: nat)

  /** Where the listener is: it clears the cache before it turns it on, after
      each notification, and once it stopped. `on` tells whether it had turned the
      cache on before it stopped. */
  datatype Listener =
    | Off
    | Connected(n: nat)
    | Ready
    | On
    | Notified(n: nat)
    | Stopping(n: nat, on: bool)
    | Stopped(on: bool)

  /** `history[v]` is the database at version `v`; `bumps[n]` is its version
      when the invalidation `n` raised the generation; an invalidation in
      `pending` has not cleared the cache yet. */
  datatype World = World(history: seq<Db>, generation: nat, bumps: seq<nat>, pending: set<nat>)

  /** `session` is the invalidation of the last connection of the listener, and
      `stop` that of its last stop. */
  datatype State = State(
    world: World,
    clock: int,
    enabled: bool,
    entries: Entries,
    origins: map<Key, Origin>,
    lookups: map<Id, Lookup>,
    locked: Option<Id>,
    listener: Listener,
    session: nat,
    stop: nat)

  datatype Step =
    | Tick(to: int)
    | Change(db: Db)
    | Evict(key: Key)
    | Begin(id: Id, key: Key)
    | LoadGeneration(id: Id)
    | Probe(id: Id)
    | Query(id: Id, ok: bool)
    | Lock(id: Id)
    | CheckEnabled(id: Id)
    | CheckGeneration(id: Id)
    | Put(id: Id)
    | Bump
    | Clear(n: nat)
    | Connect
    | Enable
    | Notify
    | Stop
    | Disable

  predicate Enabled(s: State, step: Step) {
    match step
    case Tick(to) => s.clock <= to
    case Change(_) => true
    case Evict(key) => s.locked.None?
    case Begin(id, key) => id !in s.lookups && key.path.Some?
    case LoadGeneration(id) => id in s.lookups && s.lookups[id].Loading?
    case Probe(id) => id in s.lookups && s.lookups[id].Probing? && s.locked.None?
    case Query(id, _) => id in s.lookups && s.lookups[id].Querying? && s.world.history != []
    case Lock(id) => id in s.lookups && s.lookups[id].Storing? && s.locked.None?
    case CheckEnabled(id) => id in s.lookups && s.lookups[id].Checking?
    case CheckGeneration(id) => id in s.lookups && s.lookups[id].Comparing?
    case Put(id) => id in s.lookups && s.lookups[id].Putting?
    case Bump => s.world.history != []
    case Clear(n) => n in s.world.pending && s.locked.None?
    case Connect => s.listener.Off? && s.world.history != []
    case Enable => s.listener.Ready?
    case Notify => s.listener.On? && s.world.history != []
    case Stop => (s.listener.Off? || s.listener.On?) && s.world.history != []
    case Disable => s.listener.Stopped?
  }

  function Go(s: State, id: Id, l: Lookup): State { s.(lookups := s.lookups[id := l]) }

  function Quit(s: State, id: Id): State { s.(lookups := s.lookups - {id}) }

  /** A new invalidation, before it clears the cache. */
  function Bumped(w: World): World
    requires w.history != []
  {
    w.(generation := w.generation + 1,
       bumps := w.bumps + [|w.history| - 1],
       pending := w.pending + {w.generation + 1})
  }

  /** The listener after the invalidation `n` cleared the cache. */
  function After(l: Listener, n: nat): Listener {
    match l
    case Connected(m) => if m == n then Ready else l
    case Notified(m) => if m == n then On else l
    case Stopping(m, on) => if m == n then Stopped(on) else l
    case _ => l
  }

  function PutIn(s: State, id: Id): State
    requires Enabled(s, Put(id))
  {
    var Putting(key, g, value, version) := s.lookups[id];
    var k := Stored(key, value);
    Quit(s.(entries := s.entries[k := Entry(value, s.clock)],
            origins := s.origins[k := Origin(g, version)],
            locked := None), id)
  }

  function Apply(s: State, step: Step): State
    requires Enabled(s, step)
  {
    match step
    case Tick(to) => s.(clock := to)
    case Change(db) => s.(world := s.world.(history := s.world.history + [db]))
    case Evict(key) => s.(entries := s.entries - {key}, origins := s.origins - {key})
    case Begin(id, key) => Go(s, id, if s.enabled then Loading(key) else Querying(key, None))
    case LoadGeneration(id) => Go(s, id, Probing(s.lookups[id].key, s.world.generation))
    case Probe(id) =>
      var Probing(key, g) := s.lookups[id];
      if Found(s.entries, key, s.clock).Some? then Quit(s, id) else Go(s, id, Querying(key, Some(g)))
    case Query(id, ok) =>
      var Querying(key, begun) := s.lookups[id];
      var version := |s.world.history| - 1;
      if ok then Go(s, id, Storing(key, begun, s.world.history[version](key), version)) else Quit(s, id)
    case Lock(id) =>
      var Storing(key, begun, value, version) := s.lookups[id];
      if begun.None? then Quit(s, id)
      else Go(s, id, Checking(key, begun.value, value, version)).(locked := Some(id))
    case CheckEnabled(id) =>
      var Checking(key, g, value, version) := s.lookups[id];
      if s.enabled then Go(s, id, Comparing(key, g, value, version)) else Quit(s, id).(locked := None)
    case CheckGeneration(id) =>
      var Comparing(key, g, value, version) := s.lookups[id];
      if s.world.generation == g then Go(s, id, Putting(key, g, value, version)) else Quit(s, id).(locked := None)
    case Put(id) => PutIn(s, id)
    case Bump => s.(world := Bumped(s.world))
    case Clear(n) =>
      s.(entries := map[], origins := map[], world := s.world.(pending := s.world.pending - {n}),
         listener := After(s.listener, n))
    case Connect =>
      var n := s.world.generation + 1;
      s.(world := Bumped(s.world), listener := Connected(n), session := n)
    case Enable => s.(enabled := true, listener := On)
    case Notify => s.(world := Bumped(s.world), listener := Notified(s.world.generation + 1))
    case Stop =>
      var n := s.world.generation + 1;
      s.(world := Bumped(s.world), listener := Stopping(n, s.listener.On?), stop := n)
    case Disable => s.(enabled := false, listener := Off)
  }

  /** A database that resolves a key to a worker of no project resolves it so for
      every path. */
  ghost predicate PathFree(db: Db) {
    forall k: Key, p: string ::
      k.path.Some? && db(k).Some? && db(k).value.project.None? && db(k).value.worker.Some? ==>
        db(k.(path := Some(p))) == db(k)
  }

  ghost predicate Run(states: seq<State>, steps: seq<Step>) {
    && |states| == |steps| + 1
    && Begins(states[0])
    && (forall i :: 0 <= i < |steps| ==> Enabled(states[i], steps[i]) && states[i + 1] == Apply(states[i], steps[i]))
    && (forall i :: 0 <= i < |steps| && steps[i].Change? ==> PathFree(steps[i].db))
  }

  ghost predicate Begins(s: State) {
    && |s.world.history| == 1 && PathFree(s.world.history[0]) && s.world.generation == 0 && s.world.bumps == [0]
    && |s.world.pending| == |s.entries| == |s.origins| == |s.lookups| == 0
    && s.locked.None? && !s.enabled && s.listener.Off? && s.session == 0 && s.stop == 0
  }

  // ---- What every step keeps ----

  ghost predicate Clocks(w: World) {
    && w.history != [] && (forall v :: 0 <= v < |w.history| ==> PathFree(w.history[v]))
    && |w.bumps| == w.generation + 1
    && (forall n :: 0 <= n < |w.bumps| ==> w.bumps[n] < |w.history|)
    && (forall m, n :: 0 <= m <= n < |w.bumps| ==> w.bumps[m] <= w.bumps[n])
    && (forall n :: n in w.pending ==> n <= w.generation)
  }

  /** What began at `g` and is still there is older than no invalidation that
      has cleared the cache. */
  ghost predicate NotCleared(w: World, g: nat) {
    g <= w.generation && forall n :: g < n <= w.generation ==> n in w.pending
  }

  /** A version read by a lookup that began at `g`. */
  ghost predicate ReadAfter(w: World, g: nat, version: nat) {
    g < |w.bumps| && w.bumps[g] <= version < |w.history|
  }

  /** `value` answers `key` on the database `db`, for every path if `key` has
      none. */
  ghost predicate Answers(db: Db, key: Key, value: Option<Resolution>) {
    if key.path.Some? then db(key) == value
    else forall p: string :: db(key.(path := Some(p))) == value
  }

  ghost predicate GoodEntry(w: World, k: Key, entry: Entry, origin: Origin) {
    NotCleared(w, origin.stamp) && ReadAfter(w, origin.stamp, origin.version)
    && Answers(w.history[origin.version], k, entry.value)
  }

  ghost predicate GoodEntries(w: World, entries: Entries, origins: map<Key, Origin>) {
    && origins.Keys == entries.Keys
    && forall k :: k in entries ==> GoodEntry(w, k, entries[k], origins[k])
  }

  ghost predicate GoodLookup(w: World, locked: bool, l: Lookup) {
    && l.key.path.Some?
    && (l.Checking? || l.Comparing? || l.Putting? <==> locked)
    && (l.Probing? ==> l.g <= w.generation)
    && (l.Querying? && l.begun.Some? ==> l.begun.value <= w.generation)
    && (l.Storing? ==> l.version < |w.history| && w.history[l.version](l.key) == l.value)
    && (l.Storing? && l.begun.Some? ==> ReadAfter(w, l.begun.value, l.version))
    && (l.Checking? || l.Comparing? || l.Putting? ==>
          ReadAfter(w, l.g, l.version) && w.history[l.version](l.key) == l.value)
    && (l.Putting? ==> NotCleared(w, l.g))
  }

  ghost predicate GoodLookups(w: World, locked: Option<Id>, lookups: map<Id, Lookup>) {
    && (locked.Some? ==> locked.value in lookups)
    && forall id :: id in lookups ==> GoodLookup(w, locked == Some(id), lookups[id])
  }

  /** The invalidation of the connection is over once the cache can be on, and
      that of the stop once the listener sleeps. */
  ghost predicate GoodListener(w: World, listener: Listener, session: nat, stop: nat) {
    && session <= w.generation && stop <= w.generation
    && (listener.Ready? || IsOn(listener) ==> session !in w.pending)
    && (listener.Connected? ==> listener.n == session)
    && (if listener.Stopping? then listener.n == stop else stop !in w.pending)
  }

  ghost predicate Inv(s: State) {
    && Clocks(s.world)
    && GoodEntries(s.world, s.entries, s.origins)
    && GoodLookups(s.world, s.locked, s.lookups)
    && GoodListener(s.world, s.listener, s.session, s.stop)
  }

  predicate Moves(step: Step) {
    step.Begin? || step.LoadGeneration? || step.Probe? || step.Query? || step.Lock? || step.CheckEnabled?
    || step.CheckGeneration?
  }

  predicate Bumps(step: Step) { step.Bump? || step.Connect? || step.Notify? || step.Stop? }

  /** What a lookup knows holds of it where it goes: on its way to its answer, */
  lemma ReadIsGood(s: State, step: Step)
    requires Clocks(s.world) && Enabled(s, step) && Moves(step)
    requires step.Begin? || step.LoadGeneration? || step.Probe? || step.Query?
    requires !step.Begin? ==> GoodLookup(s.world, false, s.lookups[step.id])
    ensures var s' := Apply(s, step);
      step.id in s'.lookups ==> GoodLookup(s.world, false, s'.lookups[step.id])
  {
  }

  /** and under the lock. */
  lemma StoreIsGood(s: State, step: Step)
    requires Clocks(s.world) && Enabled(s, step) && (step.Lock? || step.CheckEnabled? || step.CheckGeneration?)
    requires GoodLookup(s.world, !step.Lock?, s.lookups[step.id])
    ensures var s' := Apply(s, step);
      step.id in s'.lookups ==> GoodLookup(s.world, true, s'.lookups[step.id])
  {
  }

  lemma NextIsGood(s: State, step: Step)
    requires Clocks(s.world) && GoodLookups(s.world, s.locked, s.lookups) && Enabled(s, step) && Moves(step)
    ensures var s' := Apply(s, step);
      step.id in s'.lookups ==> GoodLookup(s.world, s'.locked == Some(step.id), s'.lookups[step.id])
  {
    if !step.Begin? {
      assert GoodLookup(s.world, s.locked == Some(step.id), s.lookups[step.id]);
    }
    if step.Lock? || step.CheckEnabled? || step.CheckGeneration? {
      StoreIsGood(s, step);
    } else {
      ReadIsGood(s, step);
    }
  }

  /** A lookup moves or ends, and takes the lock or gives it back; nothing else
      changes. */
  ghost predicate IsMove(s: State, s': State, id: Id) {
    && s'.world == s.world && s'.entries == s.entries && s'.origins == s.origins
    && s'.listener == s.listener && s'.session == s.session && s'.stop == s.stop
    && if id in s'.lookups then
         && s'.lookups == s.lookups[id := s'.lookups[id]]
         && (s'.locked == s.locked || (s.locked.None? && s'.locked == Some(id)))
       else
         && s'.lookups == s.lookups - {id}
         && s'.locked == if s.locked == Some(id) then None else s.locked
  }

  lemma ReadMovesAlone(s: State, step: Step)
    requires Enabled(s, step) && (step.Begin? || step.LoadGeneration? || step.Probe? || step.Query?)
    requires !step.Begin? ==> s.locked != Some(step.id)
    ensures IsMove(s, Apply(s, step), step.id)
  {
  }

  lemma StoreMovesAlone(s: State, step: Step)
    requires Enabled(s, step) && (step.Lock? || step.CheckEnabled? || step.CheckGeneration?)
    requires !step.Lock? ==> s.locked == Some(step.id)
    ensures IsMove(s, Apply(s, step), step.id)
  {
  }

  lemma MovesAlone(s: State, step: Step)
    requires GoodLookups(s.world, s.locked, s.lookups) && Enabled(s, step) && Moves(step)
    ensures IsMove(s, Apply(s, step), step.id)
  {
    if !step.Begin? {
      assert GoodLookup(s.world, s.locked == Some(step.id), s.lookups[step.id]);
    }
    if step.Lock? || step.CheckEnabled? || step.CheckGeneration? {
      StoreMovesAlone(s, step);
    } else {
      ReadMovesAlone(s, step);
    }
  }

  lemma MoveKeepsInv(s: State, step: Step)
    requires Inv(s) && Enabled(s, step) && Moves(step)
    ensures Inv(Apply(s, step))
  {
    NextIsGood(s, step);
    MovesAlone(s, step);
    MovedAreGood(s.world, s.locked, s.lookups, step.id, Apply(s, step).locked, Apply(s, step).lookups);
  }

  lemma MovedAreGood(w: World, locked: Option<Id>, lookups: map<Id, Lookup>,
                     id: Id, locked': Option<Id>, lookups': map<Id, Lookup>)
    requires GoodLookups(w, locked, lookups)
    requires if id in lookups' then
        && GoodLookup(w, locked' == Some(id), lookups'[id]) && lookups' == lookups[id := lookups'[id]]
        && (locked' == locked || (locked.None? && locked' == Some(id)))
      else
        lookups' == lookups - {id} && locked' == if locked == Some(id) then None else locked
    ensures GoodLookups(w, locked', lookups')
  {
  }

  lemma BumpedKeepsEntry(w: World, k: Key, entry: Entry, origin: Origin)
    requires w.history != [] && GoodEntry(w, k, entry, origin)
    ensures GoodEntry(Bumped(w), k, entry, origin)
  {
  }

  lemma BumpedKeepsEntries(w: World, entries: Entries, origins: map<Key, Origin>)
    requires w.history != [] && GoodEntries(w, entries, origins)
    ensures GoodEntries(Bumped(w), entries, origins)
  {
    forall k | k in entries ensures GoodEntry(Bumped(w), k, entries[k], origins[k]) {
      BumpedKeepsEntry(w, k, entries[k], origins[k]);
    }
  }

  lemma BumpedKeepsLookups(w: World, locked: Option<Id>, lookups: map<Id, Lookup>)
    requires Clocks(w) && GoodLookups(w, locked, lookups)
    ensures GoodLookups(Bumped(w), locked, lookups)
  {
    forall id | id in lookups ensures GoodLookup(Bumped(w), locked == Some(id), lookups[id]) {
      BumpedKeepsLookup(w, locked == Some(id), lookups[id]);
    }
  }

  lemma BumpedKeepsLookup(w: World, locked: bool, l: Lookup)
    requires Clocks(w) && GoodLookup(w, locked, l)
    ensures GoodLookup(Bumped(w), locked, l)
  {
    assert forall g :: NotCleared(w, g) ==> NotCleared(Bumped(w), g);
  }

  lemma BumpedKeepsClocks(w: World)
    requires Clocks(w)
    ensures Clocks(Bumped(w))
  {
  }

  lemma BumpKeepsInv(s: State, step: Step)
    requires Inv(s) && Enabled(s, step) && Bumps(step)
    ensures Inv(Apply(s, step))
  {
    BumpedKeepsClocks(s.world);
    BumpedKeepsEntries(s.world, s.entries, s.origins);
    BumpedKeepsLookups(s.world, s.locked, s.lookups);
  }

  lemma ClearKeepsInv(s: State, n: nat)
    requires Inv(s) && Enabled(s, Clear(n))
    ensures Inv(Apply(s, Clear(n)))
  {
  }

  /** What a lookup puts in the cache answers its key, for every path if it is
      a standalone worker. */
  lemma PutIsGood(w: World, l: Lookup, at: int)
    requires Clocks(w) && l.Putting? && GoodLookup(w, true, l)
    ensures GoodEntry(w, Stored(l.key, l.value), Entry(l.value, at), Origin(l.g, l.version))
  {
    var db := w.history[l.version];
    assert PathFree(db);
    if Standalone(l.value) {
      forall p: string ensures db(Stored(l.key, l.value).(path := Some(p))) == l.value {
        assert Stored(l.key, l.value).(path := Some(p)) == l.key.(path := Some(p));
      }
    }
  }

  lemma OneEntryMore(w: World, entries: Entries, origins: map<Key, Origin>, k: Key, entry: Entry, origin: Origin)
    requires GoodEntries(w, entries, origins) && GoodEntry(w, k, entry, origin)
    ensures GoodEntries(w, entries[k := entry], origins[k := origin])
  {
  }

  lemma PutKeepsInv(s: State, id: Id)
    requires Inv(s) && Enabled(s, Put(id))
    ensures Inv(PutIn(s, id))
  {
    var l := s.lookups[id];
    PutIsGood(s.world, l, s.clock);
    var k := Stored(l.key, l.value);
    OneEntryMore(s.world, s.entries, s.origins, k, Entry(l.value, s.clock), Origin(l.g, l.version));
    MovedAreGood(s.world, s.locked, s.lookups, id, None, s.lookups - {id});
  }

  lemma ChangeKeepsEntries(w: World, entries: Entries, origins: map<Key, Origin>, db: Db)
    requires GoodEntries(w, entries, origins)
    ensures GoodEntries(w.(history := w.history + [db]), entries, origins)
  {
    var w' := w.(history := w.history + [db]);
    forall k | k in entries ensures GoodEntry(w', k, entries[k], origins[k]) {
      assert GoodEntry(w, k, entries[k], origins[k]);
      assert w'.history[origins[k].version] == w.history[origins[k].version];
    }
  }

  lemma ChangeKeepsLookups(w: World, locked: Option<Id>, lookups: map<Id, Lookup>, db: Db)
    requires GoodLookups(w, locked, lookups)
    ensures GoodLookups(w.(history := w.history + [db]), locked, lookups)
  {
    var w' := w.(history := w.history + [db]);
    assert forall g :: NotCleared(w, g) ==> NotCleared(w', g);
  }

  lemma ChangeKeepsInv(s: State, db: Db)
    requires Inv(s) && PathFree(db)
    ensures Inv(Apply(s, Change(db)))
  {
    ChangeKeepsEntries(s.world, s.entries, s.origins, db);
    ChangeKeepsLookups(s.world, s.locked, s.lookups, db);
  }

  lemma OtherKeepsInv(s: State, step: Step)
    requires Inv(s) && Enabled(s, step) && (step.Tick? || step.Evict? || step.Enable? || step.Disable?)
    ensures Inv(Apply(s, step))
  {
  }

  lemma StepKeepsInv(s: State, step: Step)
    requires Inv(s) && Enabled(s, step) && (step.Change? ==> PathFree(step.db))
    ensures Inv(Apply(s, step))
  {
    if Moves(step) {
      MoveKeepsInv(s, step);
    } else if Bumps(step) {
      BumpKeepsInv(s, step);
    } else if step.Clear? {
      ClearKeepsInv(s, step.n);
    } else if step.Put? {
      PutKeepsInv(s, step.id);
    } else if step.Change? {
      ChangeKeepsInv(s, step.db);
    } else {
      OtherKeepsInv(s, step);
    }
  }

  // ---- Every run ----

  lemma BeginsGood(s: State)
    requires Begins(s)
    ensures Inv(s)
  {
  }

  lemma {:induction false} RunKeepsInv(states: seq<State>, steps: seq<Step>, i: nat)
    requires Run(states, steps) && i < |states|
    ensures Inv(states[i])
  {
    if i == 0 {
      BeginsGood(states[0]);
    } else {
      RunKeepsInv(states, steps, i - 1);
      StepKeepsInv(states[i - 1], steps[i - 1]);
    }
  }

  /** The invalidation `n`, which began at version `v`, cleared the cache. */
  predicate HasCleared(s: State, n: nat, v: nat) {
    n <= s.world.generation && n < |s.world.bumps| && s.world.bumps[n] == v && n !in s.world.pending
  }

  lemma StepKeepsCleared(s: State, step: Step, n: nat, v: nat)
    requires Enabled(s, step) && HasCleared(s, n, v)
    ensures HasCleared(Apply(s, step), n, v)
  {
  }

  /** An invalidation that cleared the cache has done so for good. */
  lemma {:induction false} ClearedStays(states: seq<State>, steps: seq<Step>, i: nat, j: nat, n: nat, v: nat)
    requires Run(states, steps) && i <= j < |states| && HasCleared(states[i], n, v)
    ensures HasCleared(states[j], n, v)
    decreases j
  {
    if i < j {
      var k := j - 1;
      ClearedStays(states, steps, i, k, n, v);
      assert states[k + 1] == Apply(states[k], steps[k]);
      StepKeepsCleared(states[k], steps[k], n, v);
    }
  }

  /** The invalidation `n` began at version `v`. */
  predicate HasBegun(w: World, n: nat, v: nat) { n < |w.bumps| && w.bumps[n] == v }

  lemma StepKeepsBegunAt(s: State, step: Step, n: nat, v: nat)
    requires Enabled(s, step) && HasBegun(s.world, n, v)
    ensures HasBegun(Apply(s, step).world, n, v)
  {
  }

  lemma {:induction false} BeginsForGood(states: seq<State>, steps: seq<Step>, i: nat, j: nat, n: nat, v: nat)
    requires Run(states, steps) && i <= j < |states| && HasBegun(states[i].world, n, v)
    ensures HasBegun(states[j].world, n, v)
    decreases j
  {
    if i < j {
      var k := j - 1;
      BeginsForGood(states, steps, i, k, n, v);
      assert states[k + 1] == Apply(states[k], steps[k]);
      StepKeepsBegunAt(states[k], steps[k], n, v);
    }
  }

  /** Every notification, connection and stop of the listener, and every other
      invalidation, has cleared the cache of what was read before it once its
      clear came. */
  lemma InvalidationsClear(states: seq<State>, steps: seq<Step>, i: nat, j: nat)
    requires Run(states, steps) && i < j < |steps|
    requires steps[i].Bump? || steps[i].Connect? || steps[i].Notify? || steps[i].Stop?
    requires steps[j] == Clear(states[i].world.generation + 1)
    ensures HasCleared(states[j + 1], states[i].world.generation + 1, |states[i].world.history| - 1)
  {
    var n, v, k := states[i].world.generation + 1, |states[i].world.history| - 1, i + 1;
    RunKeepsInv(states, steps, i);
    assert states[k] == Apply(states[i], steps[i]) && HasBegun(states[k].world, n, v);
    BeginsForGood(states, steps, k, j, n, v);
    RunKeepsInv(states, steps, j);
  }

  /** And while the listener is busy with a notification, it does not listen; it
      goes on once that one's clear came. */
  lemma ListenerWaits(states: seq<State>, steps: seq<Step>, i: nat)
    requires Run(states, steps) && i < |steps| && steps[i].Notify?
    ensures states[i + 1].listener == Notified(states[i].world.generation + 1)
    ensures states[i].world.generation + 1 in states[i + 1].world.pending
  {
  }

  /** The listener works on the invalidation `n`. */
  predicate WorksOn(l: Listener, n: nat) { l == Connected(n) || l == Notified(n) || (l.Stopping? && l.n == n) }

  lemma StepKeepsWork(s: State, step: Step, n: nat)
    requires Enabled(s, step) && n <= s.world.generation && (WorksOn(s.listener, n) || n !in s.world.pending)
    ensures WorksOn(Apply(s, step).listener, n) || n !in Apply(s, step).world.pending
  {
  }

  lemma {:induction false} WorkIsDone(states: seq<State>, steps: seq<Step>, i: nat, j: nat, n: nat)
    requires Run(states, steps) && i <= j < |states| && n <= states[i].world.generation
    requires WorksOn(states[i].listener, n)
    ensures n <= states[j].world.generation && (WorksOn(states[j].listener, n) || n !in states[j].world.pending)
    decreases j
  {
    if i < j {
      var k := j - 1;
      WorkIsDone(states, steps, i, k, n);
      assert states[k + 1] == Apply(states[k], steps[k]);
      StepKeepsWork(states[k], steps[k], n);
    }
  }

  /** The listener takes its invalidations one by one: it works on one until that
      one has cleared the cache. */
  lemma ListenerClears(states: seq<State>, steps: seq<Step>, i: nat, j: nat)
    requires Run(states, steps) && i < j < |states| && (steps[i].Connect? || steps[i].Notify? || steps[i].Stop?)
    ensures var n, v := states[i].world.generation + 1, |states[i].world.history| - 1;
      WorksOn(states[j].listener, n) || HasCleared(states[j], n, v)
  {
    var n, v, k := states[i].world.generation + 1, |states[i].world.history| - 1, i + 1;
    RunKeepsInv(states, steps, i);
    assert states[k] == Apply(states[i], steps[i]) && HasBegun(states[k].world, n, v);
    BeginsForGood(states, steps, k, j, n, v);
    WorkIsDone(states, steps, k, j, n);
  }

  /** A hit gives what the database resolved for that very path, on a version
      that is not older than any invalidation that cleared the cache before,
      however long ago, and within the time to live. */
  lemma HitsAreFresh(states: seq<State>, steps: seq<Step>, i: nat, j: nat, id: Id, n: nat, v: nat)
    requires Run(states, steps) && i <= j < |steps| && steps[j] == Probe(id)
    requires HasCleared(states[i], n, v)
    requires Found(states[j].entries, states[j].lookups[id].key, states[j].clock).Some?
    ensures var s := states[j];
      var key := s.lookups[id].key;
      var k := Found(s.entries, key, s.clock).value;
      && k in s.entries && k in s.origins
      && s.origins[k].version < |s.world.history|
      && s.entries[k].value == s.world.history[s.origins[k].version](key)
      && v <= s.origins[k].version && n <= s.origins[k].stamp
      && s.clock - s.entries[k].at < TTL
  {
    RunKeepsInv(states, steps, j);
    ClearedStays(states, steps, i, j, n, v);
    var s := states[j];
    var key := s.lookups[id].key;
    var k := Found(s.entries, key, s.clock).value;
    assert GoodLookup(s.world, s.locked == Some(id), s.lookups[id]);
    assert key == key.(path := Some(key.path.value));
    assert s.world.bumps[n] <= s.world.bumps[s.origins[k].stamp];
  }

  /** No lookup stores what it read before an invalidation that cleared the
      cache, although it checks the generation before it puts its answer. */
  lemma StoresAreFresh(states: seq<State>, steps: seq<Step>, i: nat, j: nat, id: Id, n: nat, v: nat)
    requires Run(states, steps) && i <= j < |steps| && steps[j] == Put(id)
    requires HasCleared(states[i], n, v)
    ensures n <= states[j].lookups[id].g && v <= states[j].lookups[id].version
  {
    RunKeepsInv(states, steps, j);
    ClearedStays(states, steps, i, j, n, v);
    var s := states[j];
    assert GoodLookup(s.world, s.locked == Some(id), s.lookups[id]);
    assert s.world.bumps[n] <= s.world.bumps[s.lookups[id].g];
  }

  /** While the cache is on, from the connection of the listener to the next
      start, it holds nothing that was read before that connection. */
  lemma NothingSurvivesASession(states: seq<State>, steps: seq<Step>, i: nat, k: Key)
    requires Run(states, steps) && i < |states| && k in states[i].entries
    requires states[i].listener.Ready? || IsOn(states[i].listener)
    ensures var s := states[i];
      && k in s.origins && s.session < |s.world.bumps|
      && s.session <= s.origins[k].stamp && s.world.bumps[s.session] <= s.origins[k].version
  {
    RunKeepsInv(states, steps, i);
    var s := states[i];
    assert s.world.bumps[s.session] <= s.world.bumps[s.origins[k].stamp];
  }

  /** The flag is set while the listener listens, and from the stop of a
      listener that did to the next start. */
  predicate IsOn(l: Listener) {
    l.On? || l.Notified? || (l.Stopping? && l.on) || (l.Stopped? && l.on)
  }

  lemma StepKeepsSwitched(s: State, step: Step)
    requires s.enabled == IsOn(s.listener) && Enabled(s, step)
    ensures Apply(s, step).enabled == IsOn(Apply(s, step).listener)
  {
  }

  /** The cache is on exactly while the listener listens, or sleeps after it did. */
  lemma {:induction false} OnWhileListening(states: seq<State>, steps: seq<Step>, i: nat)
    requires Run(states, steps) && i < |states|
    ensures states[i].enabled <==> IsOn(states[i].listener)
  {
    if i > 0 {
      OnWhileListening(states, steps, i - 1);
      StepKeepsSwitched(states[i - 1], steps[i - 1]);
    }
  }

  /** A lookup asks the cache exactly if it begins then. */
  lemma AsksExactly(states: seq<State>, steps: seq<Step>, i: nat, id: Id, key: Key)
    requires Run(states, steps) && i < |steps| && steps[i] == Begin(id, key)
    ensures id in states[i + 1].lookups
    ensures states[i + 1].lookups[id] == Querying(key, None) <==> !IsOn(states[i].listener)
  {
    OnWhileListening(states, steps, i);
  }

  /** A hit after a stop that cleared the cache was read after that stop began,
      so nothing the listener kept fresh before is served; but nobody keeps it
      fresh from there on, beyond the time to live. */
  lemma HitsAfterAStop(states: seq<State>, steps: seq<Step>, j: nat, id: Id)
    requires Run(states, steps) && j < |steps| && steps[j] == Probe(id) && !states[j].listener.Stopping?
    requires Found(states[j].entries, states[j].lookups[id].key, states[j].clock).Some?
    ensures var s := states[j];
      var k := Found(s.entries, s.lookups[id].key, s.clock).value;
      && k in s.origins && s.stop < |s.world.bumps|
      && s.stop <= s.origins[k].stamp && s.world.bumps[s.stop] <= s.origins[k].version
  {
    RunKeepsInv(states, steps, j);
    HitsAreFresh(states, steps, j, j, id, states[j].stop, states[j].world.bumps[states[j].stop]);
  }

  /** A lookup is answered from the cache if and only if an entry for its key, or
      for it without its path, is less than a minute old; else it asks the
      database. */
  lemma AnsweredExactly(states: seq<State>, steps: seq<Step>, i: nat, id: Id)
    requires Run(states, steps) && i < |steps| && steps[i] == Probe(id)
    ensures var s := states[i];
      var key, pathless := s.lookups[id].key, s.lookups[id].key.(path := None);
      id !in states[i + 1].lookups <==>
        || (key in s.entries && s.clock - s.entries[key].at < 60)
        || (pathless in s.entries && s.clock - s.entries[pathless].at < 60)
    ensures id in states[i + 1].lookups ==>
      states[i + 1].lookups[id] == Querying(states[i].lookups[id].key, Some(states[i].lookups[id].g))
  {
    FoundExactly(states[i].entries, states[i].lookups[id].key, states[i].clock);
  }

  // ---- What is read is stored ----

  /** The generation at which a lookup began, if it asked the cache. */
  function BegunAt(l: Lookup): Option<nat> {
    match l
    case Loading(_) => None
    case Probing(_, g) => Some(g)
    case Querying(_, begun) => begun
    case Storing(_, begun, _, _) => begun
    case Checking(_, g, _, _) => Some(g)
    case Comparing(_, g, _, _) => Some(g)
    case Putting(_, g, _, _) => Some(g)
  }

  lemma MoveKeepsBegun(s: State, step: Step, id: Id, g: nat)
    requires Enabled(s, step) && id in s.lookups && BegunAt(s.lookups[id]) == Some(g) && id in Apply(s, step).lookups
    requires Moves(step)
    ensures BegunAt(Apply(s, step).lookups[id]) == Some(g)
  {
  }

  lemma StepKeepsBegun(s: State, step: Step, id: Id, g: nat)
    requires Enabled(s, step) && id in s.lookups && BegunAt(s.lookups[id]) == Some(g) && id in Apply(s, step).lookups
    ensures BegunAt(Apply(s, step).lookups[id]) == Some(g)
  {
    if Moves(step) {
      MoveKeepsBegun(s, step, id, g);
    } else {
      assert Apply(s, step).lookups[id] == s.lookups[id];
    }
  }

  lemma StepCounts(s: State, step: Step)
    requires Enabled(s, step)
    ensures Apply(s, step).world.generation == s.world.generation + if Bumps(step) then 1 else 0
  {
  }

  lemma LoadBegins(s: State, id: Id)
    requires Enabled(s, LoadGeneration(id))
    ensures BegunAt(Apply(s, LoadGeneration(id)).lookups[id]) == Some(s.world.generation)
  {
  }

  /** The lookup `id` is there all the time. */
  ghost predicate Lasts(states: seq<State>, m: nat, i: nat, id: Id)
    requires i < |states|
  {
    forall k :: m < k <= i ==> id in states[k].lookups
  }

  lemma {:induction false} BegunStays(states: seq<State>, steps: seq<Step>, m: nat, i: nat, id: Id)
    requires Run(states, steps) && m < i < |states| && steps[m] == LoadGeneration(id) && Lasts(states, m, i, id)
    ensures BegunAt(states[i].lookups[id]) == Some(states[m].world.generation)
    decreases i
  {
    if m + 1 < i {
      var j := i - 1;
      BegunStays(states, steps, m, j, id);
      assert states[j + 1] == Apply(states[j], steps[j]) && id in states[j + 1].lookups;
      StepKeepsBegun(states[j], steps[j], id, states[m].world.generation);
    } else {
      LoadBegins(states[m], id);
    }
  }

  lemma {:induction false} GenerationCounts(states: seq<State>, steps: seq<Step>, m: nat, i: nat)
    requires Run(states, steps) && m <= i < |states|
    ensures states[m].world.generation <= states[i].world.generation
    ensures states[m].world.generation == states[i].world.generation <==> forall k :: m <= k < i ==> !Bumps(steps[k])
    decreases i
  {
    if m < i {
      var j := i - 1;
      GenerationCounts(states, steps, m, j);
      assert states[j + 1] == Apply(states[j], steps[j]);
      StepCounts(states[j], steps[j]);
      assert (forall k :: m <= k < i ==> !Bumps(steps[k]))
        <==> (forall k :: m <= k < j ==> !Bumps(steps[k])) && !Bumps(steps[j]);
    }
  }

  /** A lookup that asked the cache goes on to store its answer if and only if no
      invalidation began since. */
  lemma StoresExactly(states: seq<State>, steps: seq<Step>, m: nat, i: nat, id: Id)
    requires Run(states, steps) && m < i < |steps| && steps[m] == LoadGeneration(id) && steps[i] == CheckGeneration(id)
    requires Lasts(states, m, i, id)
    ensures id in states[i + 1].lookups <==> forall k :: m <= k < i ==> !Bumps(steps[k])
    ensures id in states[i + 1].lookups ==> states[i + 1].lookups[id].Putting?
  {
    BegunStays(states, steps, m, i, id);
    GenerationCounts(states, steps, m, i);
  }

  /** The answer of the lookup `id` is in the cache, beside what was there. */
  ghost predicate IsPut(s: State, s': State, id: Id)
    requires id in s.lookups && s.lookups[id].Putting?
  {
    var l := s.lookups[id];
    var k := Stored(l.key, l.value);
    && k in s'.entries && s'.entries[k].value == l.value && s'.entries[k].at == s.clock
    && k.(path := l.key.path) == l.key && Found(s'.entries, l.key, s'.clock).Some?
    && (forall other :: other != k ==> (other in s'.entries <==> other in s.entries))
    && (forall other :: other != k && other in s.entries ==> s'.entries[other] == s.entries[other])
    && id !in s'.lookups && s'.locked.None?
  }

  lemma PutStores(s: State, id: Id)
    requires Enabled(s, Put(id)) && s.lookups[id].key.path.Some?
    ensures IsPut(s, PutIn(s, id), id)
  {
    StoredForEveryPath(s.lookups[id].key, s.lookups[id].value);
    FoundExactly(PutIn(s, id).entries, s.lookups[id].key, s.clock);
  }

  /** And then its answer is in the cache, under its key or for every path. */
  lemma APutIsThere(states: seq<State>, steps: seq<Step>, j: nat, id: Id)
    requires Run(states, steps) && j < |steps| && steps[j] == Put(id)
    ensures IsPut(states[j], states[j + 1], id)
  {
    RunKeepsInv(states, steps, j);
    var s := states[j];
    assert GoodLookup(s.world, s.locked == Some(id), s.lookups[id]);
    PutStores(s, id);
  }

  // ---- A hit without a listener ----

  lemma Then(states: seq<State>, steps: seq<Step>, step: Step) returns (states': seq<State>, steps': seq<Step>)
    requires Run(states, steps) && Enabled(states[|steps|], step) && !step.Change?
    ensures Run(states', steps') && states'[|steps'|] == Apply(states[|steps|], step)
  {
    states', steps' := states + [Apply(states[|steps|], step)], steps + [step];
    assert Begins(states'[0]);
    forall i | 0 <= i < |steps'|
      ensures Enabled(states'[i], steps'[i]) && states'[i + 1] == Apply(states'[i], steps'[i])
      ensures steps'[i].Change? ==> PathFree(steps'[i].db)
    {
      if i < |steps| {
        assert states'[i] == states[i] && steps'[i] == steps[i] && states'[i + 1] == states[i + 1];
      }
    }
  }

  /** A database without workers. */
  function Nobody(key: Key): Option<Resolution> { None }

  const REQUEST := Key(Some("host"), None, None, Some("/"))

  lemma ABeginning() returns (states: seq<State>, steps: seq<Step>)
    ensures Run(states, steps)
    ensures states[|steps|] == State(World([Nobody], 0, [0], {}), 0, false, map[], map[], map[], None, Off, 0, 0)
  {
    var s := State(World([Nobody], 0, [0], {}), 0, false, map[], map[], map[], None, Off, 0, 0);
    assert PathFree(Nobody);
    assert Begins(s);
    states, steps := [s], [];
  }

  /** The listener connects, and turns the cache on. */
  lemma AConnection() returns (states: seq<State>, steps: seq<Step>)
    ensures Run(states, steps)
    ensures states[|steps|] == State(World([Nobody], 1, [0, 0], {}), 0, true, map[], map[], map[], None, On, 1, 0)
  {
    states, steps := ABeginning();
    states, steps := Then(states, steps, Connect);
    assert ({} + {1}) - {1} == {} && [0] + [0] == [0, 0];
    states, steps := Then(states, steps, Clear(1));
    states, steps := Then(states, steps, Enable);
  }

  /** Then it stops. */
  lemma AStop() returns (states: seq<State>, steps: seq<Step>)
    ensures Run(states, steps)
    ensures states[|steps|] ==
      State(World([Nobody], 2, [0, 0, 0], {}), 0, true, map[], map[], map[], None, Stopped(true), 1, 2)
  {
    states, steps := AConnection();
    states, steps := Then(states, steps, Stop);
    assert ({} + {2}) - {2} == {} && [0, 0] + [0] == [0, 0, 0];
    states, steps := Then(states, steps, Clear(2));
  }

  /** A lookup then finds nothing, */
  lemma AMissAfterIt() returns (states: seq<State>, steps: seq<Step>)
    ensures Run(states, steps)
    ensures states[|steps|] ==
      State(World([Nobody], 2, [0, 0, 0], {}), 0, true, map[], map[], map[1 := Querying(REQUEST, Some(2))],
            None, Stopped(true), 1, 2)
  {
    states, steps := AStop();
    states, steps := Then(states, steps, Begin(1, REQUEST));
    states, steps := Then(states, steps, LoadGeneration(1));
    states, steps := Then(states, steps, Probe(1));
  }

  /** reads its answer, */
  lemma AReadAfterIt() returns (states: seq<State>, steps: seq<Step>)
    ensures Run(states, steps)
    ensures states[|steps|] ==
      State(World([Nobody], 2, [0, 0, 0], {}), 0, true, map[], map[], map[1 := Storing(REQUEST, Some(2), None, 0)],
            None, Stopped(true), 1, 2)
  {
    states, steps := AMissAfterIt();
    states, steps := Then(states, steps, Query(1, true));
  }

  /** and stores it. */
  lemma AStoreAfterIt() returns (states: seq<State>, steps: seq<Step>)
    ensures Run(states, steps)
    ensures states[|steps|] ==
      State(World([Nobody], 2, [0, 0, 0], {}), 0, true, map[REQUEST := Entry(None, 0)], map[REQUEST := Origin(2, 0)],
            map[], None, Stopped(true), 1, 2)
  {
    states, steps := AReadAfterIt();
    states, steps := Then(states, steps, Lock(1));
    states, steps := Then(states, steps, CheckEnabled(1));
    states, steps := Then(states, steps, CheckGeneration(1));
    states, steps := Then(states, steps, Put(1));
  }

  /** A run in which the cache answers a request that began while no listener
      was connected. */
  lemma AHitWithoutAListener() returns (states: seq<State>, steps: seq<Step>, id: Id)
    ensures Run(states, steps)
    ensures var s := states[|steps|];
      && s.listener == Stopped(true) && Enabled(s, Probe(id))
      && Found(s.entries, s.lookups[id].key, s.clock).Some?
  {
    id := 2;
    states, steps := AStoreAfterIt();
    states, steps := Then(states, steps, Begin(2, REQUEST));
    states, steps := Then(states, steps, LoadGeneration(2));
    assert Fresh(states[|steps|].entries, REQUEST, 0);
  }
}
