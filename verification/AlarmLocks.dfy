/** The map of alarm locks, one per object in use. A task clones the lock of
    its object, waits for it, works, frees it, and then removes the map entry
    if nobody else has a reference to the lock. Its own reference goes last,
    after it gave the map back. A task that is cancelled while it waits or works
    just goes, and never looks at the map. */
module AlarmLocks {

  datatype Key = Key(namespace: string, id: string)
  type LockId = nat
  type TaskId = nat

  datatype Stage = Waiting | Holding | Freed | Checked

  datatype Task = Task(key: Key, lock: LockId, stage: Stage)

  /** `owners[l]` is the object the lock `l` was made for. */
  datatype State = State(locks: map<Key, LockId>, tasks: map<TaskId, Task>, owners: seq<Key>)

  datatype Step =
    | Enter(id: TaskId, key: Key)
    | Acquire(id: TaskId)
    | Free(id: TaskId)
    | Check(id: TaskId)
    | Leave(id: TaskId)
    | Cancel(id: TaskId)

  function References(s: State, l: LockId): set<TaskId> {
    set t | t in s.tasks && s.tasks[t].lock == l
  }

  /** The reference count of a lock: the tasks that cloned it, and the map. */
  function StrongCount(s: State, l: LockId): nat {
    |References(s, l)| + if l in s.locks.Values then 1 else 0
  }

  predicate At(s: State, id: TaskId, stage: Stage) { id in s.tasks && s.tasks[id].stage == stage }

  predicate Enabled(s: State, step: Step) {
    match step
    case Enter(id, _) => id !in s.tasks
    case Acquire(id) =>
      && At(s, id, Waiting)
      && forall t :: t in s.tasks && s.tasks[t].lock == s.tasks[id].lock ==> !s.tasks[t].stage.Holding?
    case Free(id) => At(s, id, Holding)
    case Check(id) => At(s, id, Freed)
    case Leave(id) => At(s, id, Checked)
    case Cancel(id) => At(s, id, Waiting) || At(s, id, Holding)
  }

  function Moved(s: State, id: TaskId, stage: Stage): State
    requires id in s.tasks
  {
    s.(tasks := s.tasks[id := s.tasks[id].(stage := stage)])
  }

  function Apply(s: State, step: Step): State
    requires Enabled(s, step)
  {
    match step
    case Enter(id, key) =>
      if key in s.locks then s.(tasks := s.tasks[id := Task(key, s.locks[key], Waiting)])
      else State(s.locks[key := |s.owners|], s.tasks[id := Task(key, |s.owners|, Waiting)], s.owners + [key])
    case Acquire(id) => Moved(s, id, Holding)
    case Free(id) => Moved(s, id, Freed)
    case Check(id) =>
      var s1 := if StrongCount(s, s.tasks[id].lock) == 2 then s.(locks := s.locks - {s.tasks[id].key}) else s;
      Moved(s1, id, Checked)
    case Leave(id) => s.(tasks := s.tasks - {id})
    case Cancel(id) => s.(tasks := s.tasks - {id})
  }

  ghost predicate Run(states: seq<State>, steps: seq<Step>) {
    && |states| == |steps| + 1
    && |states[0].locks| == |states[0].tasks| == |states[0].owners| == 0
    && forall i :: 0 <= i < |steps| ==> Enabled(states[i], steps[i]) && states[i + 1] == Apply(states[i], steps[i])
  }

  /** A lock serves the object it was made for. */
  ghost predicate Owned(s: State) {
    && (forall k :: k in s.locks ==> s.locks[k] < |s.owners| && s.owners[s.locks[k]] == k)
    && (forall t :: t in s.tasks ==> s.tasks[t].lock < |s.owners| && s.owners[s.tasks[t].lock] == s.tasks[t].key)
  }

  /** A lock that is in use, or waited for, is the one of the map. */
  ghost predicate Mapped(s: State) {
    forall t :: t in s.tasks && !s.tasks[t].stage.Checked? ==>
      s.tasks[t].key in s.locks && s.locks[s.tasks[t].key] == s.tasks[t].lock
  }

  ghost predicate OneGuard(s: State) {
    forall t, u :: At(s, t, Holding) && At(s, u, Holding) && s.tasks[t].lock == s.tasks[u].lock ==> t == u
  }

  ghost predicate Inv(s: State) { Owned(s) && Mapped(s) && OneGuard(s) }

  /** A count of two leaves no other task a reference. */
  lemma OnlyReference(s: State, id: TaskId, t: TaskId)
    requires Inv(s) && At(s, id, Freed) && StrongCount(s, s.tasks[id].lock) == 2
    requires t in s.tasks && s.tasks[t].lock == s.tasks[id].lock
    ensures t == id
  {
    var l := s.tasks[id].lock;
    assert s.locks[s.tasks[id].key] == l && l in s.locks.Values;
    if t != id {
      assert {id, t} <= References(s, l);
      Fits({id, t}, References(s, l));
    }
  }

  lemma Fits(a: set<TaskId>, b: set<TaskId>)
    requires a <= b
    ensures |a| <= |b|
  {
    assert b == a + (b - a);
  }

  lemma CheckKeepsInv(s: State, id: TaskId)
    requires Inv(s) && Enabled(s, Check(id))
    ensures Inv(Apply(s, Check(id)))
  {
    if StrongCount(s, s.tasks[id].lock) == 2 {
      forall t | t in s.tasks && s.tasks[t].lock == s.tasks[id].lock ensures t == id {
        OnlyReference(s, id, t);
      }
    }
  }

  lemma EnterKeepsInv(s: State, id: TaskId, key: Key)
    requires Inv(s) && Enabled(s, Enter(id, key))
    ensures Inv(Apply(s, Enter(id, key)))
  {
    var s' := Apply(s, Enter(id, key));
    assert Owned(s');
    assert Mapped(s') && OneGuard(s');
  }

  lemma MoveKeepsInv(s: State, step: Step)
    requires Inv(s) && Enabled(s, step) && (step.Acquire? || step.Free? || step.Leave? || step.Cancel?)
    ensures Inv(Apply(s, step))
  {
  }

  lemma {:induction false} RunKeepsInv(states: seq<State>, steps: seq<Step>, i: nat)
    requires Run(states, steps) && i < |states|
    ensures Inv(states[i])
  {
    if i > 0 {
      RunKeepsInv(states, steps, i - 1);
      match steps[i - 1]
      case Enter(id, key) => EnterKeepsInv(states[i - 1], id, key);
      case Check(id) => CheckKeepsInv(states[i - 1], id);
      case _ => MoveKeepsInv(states[i - 1], steps[i - 1]);
    }
  }

  /** Two tasks never work on the alarm of one object at once, although the
      entries of the map come and go. */
  lemma LockedWorkIsExclusive(states: seq<State>, steps: seq<Step>, i: nat, t: TaskId, u: TaskId)
    requires Run(states, steps) && i < |states| && t in states[i].tasks && u in states[i].tasks
    requires states[i].tasks[t].key == states[i].tasks[u].key
    requires states[i].tasks[t].stage.Holding? && states[i].tasks[u].stage.Holding?
    ensures t == u
  {
    RunKeepsInv(states, steps, i);
  }

  /** A lock that a task waits for or works under is the lock of the map, so
      the next task of the object finds it. */
  lemma LockInUseIsMapped(states: seq<State>, steps: seq<Step>, i: nat, t: TaskId)
    requires Run(states, steps) && i < |states| && t in states[i].tasks
    requires states[i].tasks[t].stage.Waiting? || states[i].tasks[t].stage.Holding?
    ensures states[i].tasks[t].key in states[i].locks
    ensures states[i].locks[states[i].tasks[t].key] == states[i].tasks[t].lock
  {
    RunKeepsInv(states, steps, i);
  }

  /** Once the task that works on an object is done, or cancelled, nobody holds
      its lock, and whoever waits for it can have it. */
  lemma NextCanHaveIt(states: seq<State>, steps: seq<Step>, i: nat, t: TaskId)
    requires Run(states, steps) && i < |steps| && (steps[i].Free? || steps[i].Cancel?)
    requires At(states[i], steps[i].id, Holding) && At(states[i], t, Waiting)
    requires states[i].tasks[t].key == states[i].tasks[steps[i].id].key
    ensures Enabled(states[i + 1], Acquire(t)) && NobodyHolds(states[i + 1], states[i].tasks[t].key)
  {
    RunKeepsInv(states, steps, i);
    assert states[i + 1] == Apply(states[i], steps[i]);
  }

  ghost predicate NobodyHolds(s: State, key: Key) {
    forall u :: At(s, u, Holding) ==> s.tasks[u].key != key
  }

  /** A check removes the entry exactly when no other task has a reference. */
  lemma CheckRemovesExactly(states: seq<State>, steps: seq<Step>, i: nat)
    requires Run(states, steps) && i < |steps| && steps[i].Check?
    ensures var s, id := states[i], steps[i].id;
      s.tasks[id].key !in states[i + 1].locks <==> References(s, s.tasks[id].lock) == {id}
  {
    RunKeepsInv(states, steps, i);
    var s, id := states[i], steps[i].id;
    var l := s.tasks[id].lock;
    assert s.locks[s.tasks[id].key] == l && l in s.locks.Values;
    assert id in References(s, l);
    if t :| t in References(s, l) && t != id {
      Fits({id, t}, References(s, l));
    } else {
      assert References(s, l) == {id};
    }
  }

  /** The end of a task of the object `key`: its check, or its cancellation. */
  predicate Finishes(s: State, step: Step, key: Key) {
    (step.Check? || step.Cancel?) && step.id in s.tasks && s.tasks[step.id].key == key
  }

  ghost predicate AllChecked(s: State, key: Key) {
    forall t :: t in s.tasks && s.tasks[t].key == key ==> s.tasks[t].stage.Checked?
  }

  /** If the tasks of an object have all checked after a step that ends none of
      them, they had before it, and the step left the entry alone. */
  lemma ChecksComeLast(s: State, step: Step, key: Key)
    requires Enabled(s, step) && !Finishes(s, step, key) && AllChecked(Apply(s, step), key)
    ensures AllChecked(s, key) && (key in Apply(s, step).locks <==> key in s.locks)
  {
    var s' := Apply(s, step);
    forall t | t in s.tasks && s.tasks[t].key == key ensures s.tasks[t].stage.Checked? {
      assert t in s'.tasks ==> s'.tasks[t].key == key;
    }
    if step.Enter? {
      assert s'.tasks[step.id].stage.Waiting?;
    }
  }

  lemma {:induction false} NothingAfterTheLast(states: seq<State>, steps: seq<Step>, j: nat, i: nat, key: Key)
    requires Run(states, steps) && j <= i < |states| && AllChecked(states[i], key)
    requires forall k :: j <= k < i ==> !Finishes(states[k], steps[k], key)
    ensures AllChecked(states[j], key) && (key in states[i].locks <==> key in states[j].locks)
    decreases i - j
  {
    if j < i {
      NothingAfterTheLast(states, steps, j + 1, i, key);
      ChecksComeLast(states[j], steps[j], key);
    }
  }

  /** A task that is cancelled leaves the entry, which is there. */
  lemma CancelLeavesTheEntry(states: seq<State>, steps: seq<Step>, i: nat)
    requires Run(states, steps) && i < |steps| && steps[i].Cancel?
    ensures states[i].tasks[steps[i].id].key in states[i + 1].locks
  {
    RunKeepsInv(states, steps, i);
  }

  /** Once the tasks of an object are gone, its entry is left in the map if and
      only if the last of them to end was cancelled, or saw a reference of
      another task in its check. */
  lemma EntryLeftExactly(states: seq<State>, steps: seq<Step>, j: nat, i: nat, key: Key)
    requires Run(states, steps) && j < i < |states| && Finishes(states[j], steps[j], key)
    requires forall k :: j < k < i ==> !Finishes(states[k], steps[k], key)
    requires forall t :: t in states[i].tasks ==> states[i].tasks[t].key != key
    ensures var id := steps[j].id;
      key in states[i].locks <==>
        steps[j].Cancel? || References(states[j], states[j].tasks[id].lock) != {id}
  {
    NothingAfterTheLast(states, steps, j + 1, i, key);
    if steps[j].Check? {
      CheckRemovesExactly(states, steps, j);
    } else {
      CancelLeavesTheEntry(states, steps, j);
    }
  }

  lemma Then(states: seq<State>, steps: seq<Step>, step: Step) returns (states': seq<State>, steps': seq<Step>)
    requires Run(states, steps) && Enabled(states[|steps|], step)
    ensures Run(states', steps') && states'[|steps'|] == Apply(states[|steps|], step)
  {
    states', steps' := states + [Apply(states[|steps|], step)], steps + [step];
  }

  /** Two tasks worked on one object, and neither has checked the count yet. */
  lemma BothFreed(key: Key) returns (states: seq<State>, steps: seq<Step>)
    ensures Run(states, steps)
    ensures states[|steps|] ==
      State(map[key := 0], map[1 := Task(key, 0, Freed), 2 := Task(key, 0, Freed)], [key])
  {
    states, steps := [State(map[], map[], [])], [];
    states, steps := Then(states, steps, Enter(1, key));
    states, steps := Then(states, steps, Enter(2, key));
    states, steps := Then(states, steps, Acquire(1));
    states, steps := Then(states, steps, Free(1));
    states, steps := Then(states, steps, Acquire(2));
    states, steps := Then(states, steps, Free(2));
  }

  /** A run that leaves an entry without a user: each task still counts the
      reference of the other one. */
  lemma AnEntryCanStay(key: Key) returns (states: seq<State>, steps: seq<Step>)
    ensures Run(states, steps)
    ensures states[|steps|].tasks == map[] && key in states[|steps|].locks
  {
    states, steps := BothFreed(key);
    assert References(states[|steps|], 0) == {1, 2};
    states, steps := Then(states, steps, Check(1));
    assert References(states[|steps|], 0) == {1, 2};
    states, steps := Then(states, steps, Check(2));
    states, steps := Then(states, steps, Leave(1));
    states, steps := Then(states, steps, Leave(2));
  }
}
