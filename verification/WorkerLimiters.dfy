/** The per-worker semaphores of the pool, and the prune that keeps their map
    small. A semaphore lives as long as something refers to it. */
module WorkerLimiters {

  type SemaphoreId = nat
  type RefId = nat

  /** The map is not pruned below this many entries. */
  const MIN_PRUNE_AT: nat := 1024

  datatype Table = Table(semaphores: map<string, SemaphoreId>, pruneAt: nat, next: SemaphoreId)

  function NextPrune(kept: nat): nat { if 2 * kept > MIN_PRUNE_AT then 2 * kept else MIN_PRUNE_AT }

  /** The table without the semaphores that only it refers to. */
  function Pruned(t: Table, used: set<SemaphoreId>): Table {
    var kept := map w | w in t.semaphores && t.semaphores[w] in used :: t.semaphores[w];
    t.(semaphores := kept, pruneAt := NextPrune(|kept|))
  }

  /** The table when a semaphore is asked for. `used` are the semaphores that
      something beside the table refers to. */
  function Ready(t: Table, used: set<SemaphoreId>): Table {
    if |t.semaphores| >= t.pruneAt then Pruned(t, used) else t
  }

  function WithWorker(t: Table, worker: string): Table {
    if worker in t.semaphores then t
    else t.(semaphores := t.semaphores[worker := t.next], next := t.next + 1)
  }

  class Limiters {
    var semaphores: map<string, SemaphoreId>
    var pruneAt: nat
    var next: SemaphoreId

    ghost function View(): Table
      reads this
    {
      Table(semaphores, pruneAt, next)
    }

    constructor ()
      ensures View() == Table(map[], MIN_PRUNE_AT, 0)
    {
      semaphores, pruneAt, next := map[], MIN_PRUNE_AT, 0;
    }

    /** Gets or makes the semaphore of a worker. */
    method Get(worker: string, used: set<SemaphoreId>) returns (semaphore: SemaphoreId)
      modifies this
      ensures View() == WithWorker(Ready(old(View()), used), worker)
      ensures worker in semaphores && semaphores[worker] == semaphore
    {
      if |semaphores| >= pruneAt {
        semaphores := map w | w in semaphores && semaphores[w] in used :: semaphores[w];
        pruneAt := NextPrune(|semaphores|);
      }
      if worker !in semaphores {
        semaphores := semaphores[worker := next];
        next := next + 1;
      }
      semaphore := semaphores[worker];
    }
  }

  // ---- Every run ----

  /** A reference to the semaphore of a worker, with a permit of it or not. */
  datatype Ref = Ref(worker: string, semaphore: SemaphoreId, permit: bool)

  /** `kept` is how many semaphores the last prune kept. */
  datatype State = State(table: Table, refs: map<RefId, Ref>, kept: nat)

  datatype Step =
    | Get(id: RefId, worker: string)
    | Acquire(id: RefId)
    | Drop(id: RefId)

  function Used(s: State): set<SemaphoreId> { set r | r in s.refs :: s.refs[r].semaphore }

  ghost function Permits(s: State, semaphore: SemaphoreId): set<RefId> {
    set r | r in s.refs && s.refs[r].semaphore == semaphore && s.refs[r].permit
  }

  ghost predicate Enabled(s: State, step: Step, limit: nat) {
    match step
    case Get(id, _) => id !in s.refs
    case Acquire(id) => id in s.refs && !s.refs[id].permit && |Permits(s, s.refs[id].semaphore)| < limit
    case Drop(id) => id in s.refs
  }

  function Asked(s: State, worker: string): Table { WithWorker(Ready(s.table, Used(s)), worker) }

  ghost function Apply(s: State, step: Step, limit: nat): State
    requires Enabled(s, step, limit)
  {
    match step
    case Get(id, worker) =>
      var t := Asked(s, worker);
      State(t, s.refs[id := Ref(worker, t.semaphores[worker], false)],
            if |s.table.semaphores| >= s.table.pruneAt then |Ready(s.table, Used(s)).semaphores| else s.kept)
    case Acquire(id) => s.(refs := s.refs[id := s.refs[id].(permit := true)])
    case Drop(id) => s.(refs := s.refs - {id})
  }

  ghost predicate Run(states: seq<State>, steps: seq<Step>, limit: nat) {
    && |states| == |steps| + 1
    && |states[0].refs| == |states[0].table.semaphores| == 0
    && states[0].table.pruneAt == MIN_PRUNE_AT && states[0].kept == 0
    && forall i :: 0 <= i < |steps| ==>
         Enabled(states[i], steps[i], limit) && states[i + 1] == Apply(states[i], steps[i], limit)
  }

  /** No two workers share a semaphore. */
  ghost predicate Separate(t: Table) {
    && (forall w :: w in t.semaphores ==> t.semaphores[w] < t.next)
    && (forall v, w :: v in t.semaphores && w in t.semaphores && v != w ==> t.semaphores[v] != t.semaphores[w])
  }

  predicate Has(t: Table, ref: Ref) {
    ref.worker in t.semaphores && t.semaphores[ref.worker] == ref.semaphore
  }

  /** What is referred to is what the table has. */
  ghost predicate Mapped(s: State) {
    Separate(s.table) && forall r :: r in s.refs ==> Has(s.table, s.refs[r])
  }

  ghost predicate Inv(s: State, limit: nat) {
    && Mapped(s)
    && (forall m :: |Permits(s, m)| <= limit)
    && s.table.pruneAt == NextPrune(s.kept) && |s.table.semaphores| <= s.table.pruneAt
  }

  lemma GetKeepsMapped(s: State, id: RefId, worker: string, limit: nat)
    requires Mapped(s) && Enabled(s, Get(id, worker), limit)
    ensures Mapped(Apply(s, Get(id, worker), limit))
  {
    AskedIsSeparate(s.table, Used(s), worker);
    forall r | r in s.refs ensures Has(Asked(s, worker), s.refs[r]) {
      AskedHas(s.table, Used(s), worker, s.refs[r]);
    }
  }

  lemma AskedIsSeparate(t: Table, used: set<SemaphoreId>, worker: string)
    requires Separate(t)
    ensures Separate(WithWorker(Ready(t, used), worker))
  {
    var ready := Ready(t, used);
    assert forall w :: w in ready.semaphores ==> w in t.semaphores && ready.semaphores[w] == t.semaphores[w];
    assert Separate(ready);
  }

  /** A prune keeps what something refers to. */
  lemma AskedHas(t: Table, used: set<SemaphoreId>, worker: string, ref: Ref)
    requires Has(t, ref) && ref.semaphore in used
    ensures Has(WithWorker(Ready(t, used), worker), ref)
  {
    assert Has(Ready(t, used), ref);
  }

  lemma GetKeepsInv(s: State, id: RefId, worker: string, limit: nat)
    requires Inv(s, limit) && Enabled(s, Get(id, worker), limit)
    ensures Inv(Apply(s, Get(id, worker), limit), limit)
  {
    GetKeepsMapped(s, id, worker, limit);
    var s' := Apply(s, Get(id, worker), limit);
    forall m ensures |Permits(s', m)| <= limit {
      assert Permits(s', m) == Permits(s, m);
    }
    var ready := Ready(s.table, Used(s));
    assert |ready.semaphores| < ready.pruneAt;
  }

  lemma OnePermitMore(s: State, id: RefId, m: SemaphoreId)
    requires id in s.refs && !s.refs[id].permit
    ensures var s' := s.(refs := s.refs[id := s.refs[id].(permit := true)]);
      |Permits(s', m)| == |Permits(s, m)| + if m == s.refs[id].semaphore then 1 else 0
  {
    var s' := s.(refs := s.refs[id := s.refs[id].(permit := true)]);
    assert Permits(s', m) - {id} == Permits(s, m);
    assert id in Permits(s', m) <==> m == s.refs[id].semaphore;
  }

  lemma AcquireKeepsInv(s: State, id: RefId, limit: nat)
    requires Inv(s, limit) && Enabled(s, Acquire(id), limit)
    ensures Inv(Apply(s, Acquire(id), limit), limit)
  {
    var s' := Apply(s, Acquire(id), limit);
    assert Mapped(s');
    forall m ensures |Permits(s', m)| <= limit {
      OnePermitMore(s, id, m);
    }
  }

  lemma DropKeepsInv(s: State, id: RefId, limit: nat)
    requires Inv(s, limit) && id in s.refs
    ensures Inv(Apply(s, Drop(id), limit), limit)
  {
    var s' := Apply(s, Drop(id), limit);
    forall m ensures |Permits(s', m)| <= limit {
      assert Permits(s', m) == Permits(s, m) - {id};
    }
  }

  lemma {:induction false} RunKeepsInv(states: seq<State>, steps: seq<Step>, limit: nat, i: nat)
    requires Run(states, steps, limit) && i < |states|
    ensures Inv(states[i], limit)
  {
    if i == 0 {
      forall m ensures |Permits(states[0], m)| <= limit {
        assert Permits(states[0], m) == {};
      }
    } else {
      RunKeepsInv(states, steps, limit, i - 1);
      match steps[i - 1]
      case Get(id, worker) => GetKeepsInv(states[i - 1], id, worker, limit);
      case Acquire(id) => AcquireKeepsInv(states[i - 1], id, limit);
      case Drop(id) => DropKeepsInv(states[i - 1], id, limit);
    }
  }

  /** All references to the semaphores of one worker are to one semaphore, the
      one of the map, in spite of the prunes. */
  lemma OneSemaphorePerWorker(states: seq<State>, steps: seq<Step>, limit: nat, i: nat, a: RefId, b: RefId)
    requires Run(states, steps, limit) && i < |states| && a in states[i].refs && b in states[i].refs
    ensures states[i].refs[a].worker == states[i].refs[b].worker <==>
      states[i].refs[a].semaphore == states[i].refs[b].semaphore
    ensures states[i].refs[a].worker in states[i].table.semaphores
    ensures states[i].table.semaphores[states[i].refs[a].worker] == states[i].refs[a].semaphore
  {
    RunKeepsInv(states, steps, limit, i);
  }

  ghost function PermitsOf(s: State, worker: string): set<RefId> {
    set r | r in s.refs && s.refs[r].worker == worker && s.refs[r].permit
  }

  /** So a worker never has more permits out than its limit. */
  lemma PermitsWithinLimit(states: seq<State>, steps: seq<Step>, limit: nat, i: nat, worker: string)
    requires Run(states, steps, limit) && i < |states|
    ensures |PermitsOf(states[i], worker)| <= limit
  {
    RunKeepsInv(states, steps, limit, i);
    var s := states[i];
    if worker in s.table.semaphores {
      assert PermitsOf(s, worker) == Permits(s, s.table.semaphores[worker]);
    } else {
      assert PermitsOf(s, worker) == {};
    }
  }

  /** The map is no larger than 1024, or than twice what the last prune kept. */
  lemma MapStaysSmall(states: seq<State>, steps: seq<Step>, limit: nat, i: nat)
    requires Run(states, steps, limit) && i < |states|
    ensures |states[i].table.semaphores| <= MIN_PRUNE_AT || |states[i].table.semaphores| <= 2 * states[i].kept
  {
    RunKeepsInv(states, steps, limit, i);
  }

  /** A request for a semaphore gives up others only in a prune, which leaves
      exactly those that something refers to, beside the one that is asked for. */
  lemma PruneKeepsTheUsed(states: seq<State>, steps: seq<Step>, limit: nat, i: nat, w: string)
    requires Run(states, steps, limit) && i < |steps| && steps[i].Get? && w != steps[i].worker
    ensures var s, s' := states[i], states[i + 1];
      var due := |s.table.semaphores| >= s.table.pruneAt;
      && (!due ==> (w in s'.table.semaphores <==> w in s.table.semaphores))
      && (due ==> (w in s'.table.semaphores <==> exists r :: r in s.refs && s.refs[r].worker == w))
      && (w in s'.table.semaphores ==>
            w in s.table.semaphores && s'.table.semaphores[w] == s.table.semaphores[w])
  {
    RunKeepsInv(states, steps, limit, i);
    IsUsed(states[i], w);
  }

  /** A worker is referred to exactly if its semaphore in the map is used. */
  lemma IsUsed(s: State, w: string)
    requires Mapped(s)
    ensures (exists r :: r in s.refs && s.refs[r].worker == w) <==>
      w in s.table.semaphores && s.table.semaphores[w] in Used(s)
  {
    if r :| r in s.refs && s.refs[r].worker == w {
      assert Has(s.table, s.refs[r]) && s.refs[r].semaphore in Used(s);
    }
    if w in s.table.semaphores && s.table.semaphores[w] in Used(s) {
      var r :| r in s.refs && s.refs[r].semaphore == s.table.semaphores[w];
      assert Has(s.table, s.refs[r]);
    }
  }
}
