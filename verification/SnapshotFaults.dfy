/** The conditions of `SnapshotRuns` are exact: a step that breaks one of them, and
    no other step, can be followed by steps that meet all of them and lose a
    commit that was stored as saved. */
module SnapshotFaults {
  import opened Wrappers
  import opened SnapshotRuns

  function End(states: seq<State>): State
    requires states != []
  {
    states[|states| - 1]
  }

  /** A step that meets every condition, whatever is promised or recorded. */
  predicate Plain(s: State, step: Step) {
    Fenced(s, step) && Clean(s, step) && Undisturbed(s, step) && (step.Start? ==> step.file.None?)
  }

  /** From the `k`-th step on, the steps are plain. */
  ghost predicate After(states: seq<State>, steps: seq<Step>, k: nat) {
    Steps(states, steps) && forall i :: k <= i < |steps| ==> Plain(states[i], steps[i])
  }

  /** More steps. */
  ghost predicate Longer(states: seq<State>, steps: seq<Step>, states': seq<State>, steps': seq<Step>) {
    states <= states' && steps <= steps'
  }

  lemma Then(states: seq<State>, steps: seq<Step>, k: nat, step: Step)
    returns (states': seq<State>, steps': seq<Step>)
    requires After(states, steps, k) && Enabled(End(states), step) && (Plain(End(states), step) || |steps| < k)
    ensures After(states', steps', k) && End(states') == Apply(End(states), step)
    ensures states' == states + [Apply(End(states), step)] && steps' == steps + [step]
  {
    states', steps' := states + [Apply(End(states), step)], steps + [step];
    forall i | 0 <= i < |steps'|
      ensures Enabled(states'[i], steps'[i]) && states'[i + 1] == Apply(states'[i], steps'[i])
      ensures k <= i ==> Plain(states'[i], steps'[i])
    {
      if i < |steps| {
        assert states'[i] == states[i] && states'[i + 1] == states[i + 1] && steps'[i] == steps[i];
      }
    }
  }

  function Put(s: State, r: nat, x: Runner): State
    requires r < |s.runners|
  {
    s.(runners := s.runners[r := x])
  }

  /** An action that changes its runner only. */
  predicate IsQuiet(a: Action) {
    !a.EndCommit? && !a.Store? && !a.BeginReset? && !a.Record? && !a.Forget?
  }

  lemma Moves(states: seq<State>, steps: seq<Step>, k: nat, r: nat, a: Action)
    returns (states': seq<State>, steps': seq<Step>)
    requires After(states, steps, k) && Enabled(End(states), Act(r, a)) && IsQuiet(a)
    requires Plain(End(states), Act(r, a)) || |steps| < k
    ensures After(states', steps', k) && Longer(states, steps + [Act(r, a)], states', steps')
    ensures End(states') == Put(End(states), r, Acted(r, End(states).runners[r], End(states).rows, a))
  {
    states', steps' := Then(states, steps, k, Act(r, a));
  }

  /** A commit that is counted reaches the file. */
  lemma Finishes(states: seq<State>, steps: seq<Step>, k: nat, r: nat)
    returns (states': seq<State>, steps': seq<Step>)
    requires After(states, steps, k) && Enabled(End(states), Act(r, EndCommit(true)))
    requires End(states).runners[r].entry.value.connection.ToFile?
    ensures After(states', steps', k) && Longer(states, steps, states', steps')
    ensures var s := End(states);
      var x, c := s.runners[r], Next(r, s.runners[r].entry.value);
      End(states') == Put(s.(made := s.made + {c}), r, x.(counted := false, file := Some(x.file.value + [c])))
  {
    states', steps' := Then(states, steps, k, Act(r, EndCommit(true)));
  }

  /** A runner that is free to serve: no entry, no pass, and no commit on its way. */
  predicate Free(s: State, r: nat) {
    r < |s.runners| && s.runners[r].entry.None? && s.runners[r].pass.Idle? && !s.runners[r].counted
  }

  function FileOf(s: State, r: nat): History
    requires r < |s.runners|
  {
    if s.runners[r].file.Some? then s.runners[r].file.value else Top(s.rows)
  }

  /** A runner that a call has just come to. */
  predicate IsCalled(s: State, r: nat, id: nat) {
    && r < |s.runners| && s.runners[r].entry == Some(Entry(id, 0, 0, 1, false, Closed))
    && s.runners[r].pass.Idle? && !s.runners[r].counted
  }

  /** The call opens the database and commits. */
  lemma Commits(states: seq<State>, steps: seq<Step>, k: nat, r: nat, id: nat)
    returns (states': seq<State>, steps': seq<Step>, c: Commit)
    requires After(states, steps, k) && IsCalled(End(states), r, id)
    ensures After(states', steps', k) && Longer(states, steps, states', steps')
    ensures var s := End(states);
      var x := s.runners[r];
      && c == Commit(r, id, 1)
      && End(states') == Put(s.(made := s.made + {c}), r,
           x.(entry := Some(Entry(id, 1, 0, 1, false, ToFile)), file := Some(FileOf(s, r) + [c])))
  {
    c := Commit(r, id, 1);
    states', steps' := Moves(states, steps, k, r, Open);
    states', steps' := Moves(states', steps', k, r, CountCommit);
    states', steps' := Finishes(states', steps', k, r);
  }

  /** A pass lists the database and copies its file. */
  lemma Copies(states: seq<State>, steps: seq<Step>, k: nat, r: nat)
    returns (states': seq<State>, steps': seq<Step>)
    requires After(states, steps, k) && r < |End(states).runners|
    requires var x := End(states).runners[r];
      x.pass.Idle? && x.entry.Some? && Unsaved(x.entry.value) && x.file.Some? && !x.counted
    ensures After(states', steps', k) && Longer(states, steps, states', steps')
    ensures var x := End(states).runners[r];
      End(states') == Put(End(states), r,
        x.(entry := Some(x.entry.value.(held := true)), pass := Copied(x.entry.value.commits, x.file.value)))
  {
    states', steps' := Moves(states, steps, k, r, List);
    states', steps' := Moves(states', steps', k, r, Load);
    states', steps' := Moves(states', steps', k, r, Copy);
  }

  lemma RecordChanges(s: State, r: nat)
    requires r < |s.runners| && s.runners[r].pass.Copied? && s.runners[r].entry.Some?
    ensures var x := s.runners[r];
      Apply(s, Act(r, Record(Answered))) ==
        Put(s.(rows := [x.pass.copy] + s.rows), r, x.(pass := Recorded(x.pass.covered)))
  {
  }

  /** The pass records its copy, */
  lemma Records(states: seq<State>, steps: seq<Step>, k: nat, r: nat)
    returns (states': seq<State>, steps': seq<Step>)
    requires After(states, steps, k) && r < |End(states).runners| && (IsNewest(End(states), r) || |steps| < k)
    requires End(states).runners[r].pass.Copied? && End(states).runners[r].entry.Some?
    ensures After(states', steps', k) && Longer(states, steps, states', steps')
    ensures var s := End(states);
      var x := s.runners[r];
      End(states') == Put(s.(rows := [x.pass.copy] + s.rows), r, x.(pass := Recorded(x.pass.covered)))
  {
    states', steps' := Then(states, steps, k, Act(r, Record(Answered)));
    RecordChanges(End(states), r);
  }

  /** and stores its count. */
  lemma Saves(states: seq<State>, steps: seq<Step>, k: nat, r: nat, c: Commit)
    returns (states': seq<State>, steps': seq<Step>)
    requires After(states, steps, k) && r < |End(states).runners| && IsNewest(End(states), r)
    requires End(states).runners[r].pass.Copied? && End(states).runners[r].entry.Some?
    requires var x := End(states).runners[r];
      c in End(states).made && Of(c, r, x.entry.value.id) && c.count <= x.pass.covered
    ensures After(states', steps', k) && Longer(states, steps, states', steps')
    ensures var s, s' := End(states), End(states');
      && c in s'.saved && s.saved <= s'.saved && s'.made == s.made && s'.discarded == s.discarded
      && s'.rows == [s.runners[r].pass.copy] + s.rows
      && |s'.runners| == |s.runners| && s'.runners == s.runners[r := s'.runners[r]]
  {
    states', steps' := Records(states, steps, k, r);
    states', steps' := Then(states', steps', k, Act(r, Store));
  }

  // ---- A commit between its count and the file ----

  /** A commit on its way is new. */
  lemma NotInFile(s: State, r: nat)
    requires Inv(s) && r < |s.runners| && IsNewest(s, r) && s.runners[r].counted && s.runners[r].file.Some?
    ensures s.runners[r].entry.Some? && s.runners[r].entry.value.connection.ToFile?
    ensures Next(r, s.runners[r].entry.value) !in s.runners[r].file.value
  {
    assert Good(r, s.runners[r], s.made, s.saved);
  }

  /** A copy of the newest runner that misses a counted commit can end in a pass
      that stores it as saved: it is lost. */
  lemma AMissedCommitCanBeLost(states: seq<State>, steps: seq<Step>, step: Step)
    returns (states': seq<State>, steps': seq<Step>, c: Commit)
    requires Steps(states, steps) && Inv(End(states)) && Enabled(End(states), step) && !Clean(End(states), step)
    ensures After(states', steps', |steps| + 1) && Longer(states, steps + [step], states', steps')
    ensures Lost(End(states'), c)
  {
    var r, k := step.r, |steps| + 1;
    c := Next(r, End(states).runners[r].entry.value);
    NotInFile(End(states), r);
    states', steps' := Moves(states, steps, k, r, Copy);
    states', steps' := EndsWithout(states', steps', k, r, c);
  }

  /** The commit that the copy missed is made, and saved. */
  lemma EndsWithout(states: seq<State>, steps: seq<Step>, k: nat, r: nat, c: Commit)
    returns (states': seq<State>, steps': seq<Step>)
    requires After(states, steps, k) && r < |End(states).runners| && IsNewest(End(states), r)
    requires var x := End(states).runners[r];
      && x.counted && x.file.Some? && x.entry.Some? && x.entry.value.connection.ToFile? && c == Next(r, x.entry.value)
      && x.pass.Copied? && x.pass.covered == x.entry.value.commits && c !in x.pass.copy
    ensures After(states', steps', k) && Longer(states, steps, states', steps') && Lost(End(states'), c)
  {
    states', steps' := Finishes(states, steps, k, r);
    states', steps' := Saves(states', steps', k, r, c);
  }

  // ---- A call in the middle of a reset ----

  /** What a call has committed to, once the file moved aside and the
      connection closed: an entry that counts a commit, and no file. */
  lemma MovesAway(states: seq<State>, steps: seq<Step>, k: nat, r: nat)
    returns (states': seq<State>, steps': seq<Step>)
    requires After(states, steps, k) && r < |End(states).runners|
    requires var x := End(states).runners[r];
      x.resetting && !x.counted && x.entry.Some? && x.entry.value == Entry(x.entry.value.id, 1, 0, 1, false, ToFile)
    ensures After(states', steps', k) && Longer(states, steps, states', steps')
    ensures var x := End(states).runners[r];
      End(states') == Put(End(states), r, x.(resetting := false, file := None,
        entry := Some(Entry(x.entry.value.id, 1, 0, 0, false, Closed))))
  {
    states', steps' := Moves(states, steps, k, r, EndReset(true));
    states', steps' := Moves(states', steps', k, r, Return);
    states', steps' := Moves(states', steps', k, r, Evict);
  }

  /** The next call restores the newest snapshot into that entry. */
  lemma Reopens(states: seq<State>, steps: seq<Step>, k: nat, r: nat)
    returns (states': seq<State>, steps': seq<Step>)
    requires After(states, steps, k) && r < |End(states).runners|
    requires var x := End(states).runners[r];
      x.file.None? && !x.resetting && x.entry.Some? && x.entry.value.connection.Closed?
    ensures After(states', steps', k) && Longer(states, steps, states', steps')
    ensures var x := End(states).runners[r];
      End(states') == Put(End(states), r, x.(file := Some(Top(End(states).rows)),
        entry := Some(x.entry.value.(callers := x.entry.value.callers + 1, connection := ToFile))))
  {
    states', steps' := Moves(states, steps, k, r, Call);
    states', steps' := Moves(states', steps', k, r, Open);
  }

  /** The newest runner serves nothing in the middle of a reset. */
  lemma ResettingIsFree(s: State, r: nat)
    requires Inv(s) && r < |s.runners| && IsNewest(s, r) && s.runners[r].resetting
    ensures Free(s, r) && Commit(r, s.runners[r].next, 1) !in Top(s.rows)
  {
    assert Good(r, s.runners[r], s.made, s.saved);
  }

  /** A call that comes to the newest runner in the middle of a reset can have
      its commit acknowledged, stored as saved, and lost. */
  lemma ACallInAResetCanBeLost(states: seq<State>, steps: seq<Step>, step: Step)
    returns (states': seq<State>, steps': seq<Step>, c: Commit)
    requires Steps(states, steps) && Inv(End(states)) && Enabled(End(states), step) && !Undisturbed(End(states), step)
    ensures After(states', steps', |steps| + 1) && Longer(states, steps + [step], states', steps')
    ensures Lost(End(states'), c)
  {
    var r, k := step.r, |steps| + 1;
    ResettingIsFree(End(states), r);
    states', steps' := Moves(states, steps, k, r, Call);
    states', steps', c := Commits(states', steps', k, r, End(states).runners[r].next);
    states', steps' := MovesAway(states', steps', k, r);
    states', steps' := Reopens(states', steps', k, r);
    states', steps' := Copies(states', steps', k, r);
    states', steps' := Saves(states', steps', k, r, c);
  }

  // ---- A start with an older file ----

  /** A promised commit is stored, if it was not. */
  lemma Stores(states: seq<State>, steps: seq<Step>, k: nat, c: Commit)
    returns (states': seq<State>, steps': seq<Step>)
    requires After(states, steps, k) && IsPromised(End(states), c)
    ensures After(states', steps', k) && Longer(states, steps, states', steps') && c in End(states').saved
    ensures |End(states').runners| == |End(states).runners|
    ensures forall q :: 0 <= q < |End(states).runners| && q != c.runner ==>
      End(states').runners[q] == End(states).runners[q]
  {
    states', steps' := states, steps;
    if c !in End(states).saved {
      states', steps' := Then(states, steps, k, Act(c.runner, Store));
    }
  }

  /** The last runner, which is new, commits and records its own file. */
  lemma RecordsItsOwn(states: seq<State>, steps: seq<Step>, k: nat, file: History)
    returns (states': seq<State>, steps': seq<Step>, d: Commit)
    requires After(states, steps, k) && End(states).runners != []
    requires End(states).runners[|End(states).runners| - 1] == Runner(None, Some(file), false, Idle, false, 0)
    ensures After(states', steps', k) && Longer(states, steps, states', steps')
    ensures d.runner == |End(states).runners| - 1 && End(states').saved == End(states).saved
    ensures Top(End(states').rows) == file + [d]
  {
    var r := |End(states).runners| - 1;
    states', steps' := Moves(states, steps, k, r, Call);
    states', steps', d := Commits(states', steps', k, r, 0);
    states', steps' := Copies(states', steps', k, r);
    states', steps' := Records(states', steps', k, r);
  }

  /** A runner that starts with a file that lacks a promised commit can record
      that file on top: the commit is lost. */
  lemma AnOldFileCanLose(states: seq<State>, steps: seq<Step>, step: Step)
    returns (states': seq<State>, steps': seq<Step>, c: Commit)
    requires Steps(states, steps) && Inv(End(states)) && Enabled(End(states), step) && !Holding(End(states), step)
    ensures After(states', steps', |steps| + 1) && Longer(states, steps + [step], states', steps')
    ensures Lost(End(states'), c)
  {
    var s, k, d := End(states), |steps| + 1, Commit(0, 0, 0);
    c :| IsPromised(s, c) && c !in step.file.value;
    assert Kept(s, c) && c.runner < |s.runners|;
    states', steps' := Then(states, steps, k, step);
    StillPromised(s, step, c);
    states', steps' := Stores(states', steps', k, c);
    states', steps', d := RecordsItsOwn(states', steps', k, step.file.value);
  }

  lemma StillPromised(s: State, step: Step, c: Commit)
    requires Enabled(s, step) && step.Start? && IsPromised(s, c)
    ensures IsPromised(Apply(s, step), c)
  {
    if c !in s.saved {
      assert Apply(s, step).runners[c.runner] == s.runners[c.runner];
    }
  }

  // ---- The conditions are exact ----

  /** From the `k`-th step on, the steps are fenced and sound. */
  ghost predicate SoundAfter(states: seq<State>, steps: seq<Step>, k: nat) {
    Steps(states, steps) && forall i :: k <= i < |steps| ==> Fenced(states[i], steps[i]) && Sound(states[i], steps[i])
  }

  ghost predicate SafeAfter(states: seq<State>, steps: seq<Step>, k: nat) {
    Steps(states, steps) && forall i :: k <= i < |steps| ==> Fenced(states[i], steps[i]) && Safe(states[i], steps[i])
  }

  /** Sound steps can follow `step` and lose a saved commit. */
  ghost predicate CanLose(states: seq<State>, steps: seq<Step>, step: Step) {
    exists states', steps', c ::
      && Longer(states, steps + [step], states', steps') && SoundAfter(states', steps', |steps| + 1)
      && states' != [] && Lost(End(states'), c)
  }

  /** A saved commit is lost, or the newest runner works on a file that does not
      begin with the newest snapshot. */
  ghost predicate Broken(s: State) { (exists c :: Lost(s, c)) || !FileHasTop(s) }

  /** Safe steps can follow `step` and break one of the two. */
  ghost predicate CanBreak(states: seq<State>, steps: seq<Step>, step: Step) {
    exists states', steps' ::
      && Longer(states, steps + [step], states', steps') && SafeAfter(states', steps', |steps| + 1)
      && states' != [] && Broken(End(states'))
  }

  /** A step that is not sound loses a commit within a few plain steps. */
  lemma UnsoundCanLose(states: seq<State>, steps: seq<Step>, step: Step)
    returns (states': seq<State>, steps': seq<Step>, c: Commit)
    requires Steps(states, steps) && Inv(End(states)) && Enabled(End(states), step) && !Sound(End(states), step)
    ensures After(states', steps', |steps| + 1) && Longer(states, steps + [step], states', steps')
    ensures Lost(End(states'), c)
  {
    if !Clean(End(states), step) {
      states', steps', c := AMissedCommitCanBeLost(states, steps, step);
    } else if !Undisturbed(End(states), step) {
      states', steps', c := ACallInAResetCanBeLost(states, steps, step);
    } else {
      states', steps', c := AnOldFileCanLose(states, steps, step);
    }
  }

  /** After a run of sound steps, a fenced step can be followed by sound steps to
      a state in which a saved commit is lost, if and only if it is not sound. */
  lemma LostExactly(states: seq<State>, steps: seq<Step>, step: Step)
    requires SoundAfter(states, steps, 0) && Enabled(End(states), step) && Fenced(End(states), step)
    ensures CanLose(states, steps, step) <==> !Sound(End(states), step)
  {
    RunKeepsInv(states, steps, |steps|);
    if Sound(End(states), step) {
      forall states', steps', c |
        Longer(states, steps + [step], states', steps') && SoundAfter(states', steps', |steps| + 1) && states' != []
        ensures !Lost(End(states'), c)
      {
        AllSound(states, steps, step, states', steps');
        SavedIsHeld(states', steps', |steps'|);
      }
    } else {
      var states', steps', c := UnsoundCanLose(states, steps, step);
      assert SoundAfter(states', steps', |steps| + 1);
    }
  }

  lemma AllSound(states: seq<State>, steps: seq<Step>, step: Step, states': seq<State>, steps': seq<Step>)
    requires SoundAfter(states, steps, 0) && Fenced(End(states), step) && Sound(End(states), step)
    requires Longer(states, steps + [step], states', steps') && SoundAfter(states', steps', |steps| + 1)
    ensures SoundAfter(states', steps', 0)
  {
    forall i | 0 <= i < |steps'| ensures Fenced(states'[i], steps'[i]) && Sound(states'[i], steps'[i]) {
      assert i <= |steps| ==> states'[i] == states[i] && steps'[i] == (steps + [step])[i];
    }
  }

  lemma AllSafe(states: seq<State>, steps: seq<Step>, step: Step, states': seq<State>, steps': seq<Step>)
    requires SafeAfter(states, steps, 0) && Fenced(End(states), step) && Safe(End(states), step)
    requires Longer(states, steps + [step], states', steps') && SafeAfter(states', steps', |steps| + 1)
    ensures SafeAfter(states', steps', 0)
  {
    forall i | 0 <= i < |steps'| ensures Fenced(states'[i], steps'[i]) && Safe(states'[i], steps'[i]) {
      assert i <= |steps| ==> states'[i] == states[i] && steps'[i] == (steps + [step])[i];
    }
  }

  /** After a run of safe steps, a fenced step can be followed by safe steps to a
      state in which a saved commit is lost or the newest runner works on a file
      that does not begin with the newest snapshot, if and only if it is not
      safe. */
  lemma BrokenExactly(states: seq<State>, steps: seq<Step>, step: Step)
    requires SafeAfter(states, steps, 0) && Enabled(End(states), step) && Fenced(End(states), step)
    ensures CanBreak(states, steps, step) <==> !Safe(End(states), step)
  {
    if Safe(End(states), step) {
      forall states', steps' |
        Longer(states, steps + [step], states', steps') && SafeAfter(states', steps', |steps| + 1) && states' != []
        ensures !Broken(End(states'))
      {
        AllSafe(states, steps, step, states', steps');
        PrefixDurability(states', steps', |steps'|);
        RunKeepsOrdered(states', steps', |steps'|);
      }
    } else {
      UnsafeCanBreak(states, steps, step);
    }
  }

  lemma UnsafeCanBreak(states: seq<State>, steps: seq<Step>, step: Step)
    requires SafeAfter(states, steps, 0) && Enabled(End(states), step) && !Safe(End(states), step)
    ensures CanBreak(states, steps, step)
  {
    RunKeepsOrdered(states, steps, |steps|);
    var states', steps', c;
    if !Current(End(states), step) {
      states', steps' := Then(states, steps, |steps| + 1, step);
      assert !FileHasTop(End(states'));
    } else {
      states', steps', c := UnsoundCanLose(states, steps, step);
      assert Lost(End(states'), c);
    }
    assert Longer(states, steps + [step], states', steps');
    assert Broken(End(states')) && SafeAfter(states', steps', |steps| + 1);
  }

  // ---- Runs ----

  lemma Begin() returns (states: seq<State>, steps: seq<Step>)
    ensures After(states, steps, 0)
    ensures End(states) == State([Runner(None, None, false, Idle, false, 0)], [], {}, {}, {})
  {
    states, steps := [State([], [], {}, {}, {})], [];
    states, steps := Then(states, steps, 0, Start(None));
  }

  /** A run of plain steps keeps what sound steps keep. */
  lemma PlainKeepsInv(states: seq<State>, steps: seq<Step>)
    requires After(states, steps, 0)
    ensures Inv(End(states))
  {
    RunKeepsInv(states, steps, |steps|);
  }

  /** Every step but the `k`-th is plain. */
  ghost predicate AllBut(states: seq<State>, steps: seq<Step>, k: nat) {
    Steps(states, steps) && k < |steps| && forall i :: 0 <= i < |steps| && i != k ==> Plain(states[i], steps[i])
  }

  lemma OneExcept(states: seq<State>, steps: seq<Step>, step: Step, states': seq<State>, steps': seq<Step>)
    requires After(states, steps, 0)
    requires After(states', steps', |steps| + 1) && Longer(states, steps + [step], states', steps')
    ensures AllBut(states', steps', |steps|) && states'[|steps|] == End(states) && steps'[|steps|] == step
  {
    forall i | 0 <= i < |steps'| && i != |steps| ensures Plain(states'[i], steps'[i]) {
      assert i < |steps| ==> states'[i] == states[i] && steps'[i] == (steps + [step])[i];
    }
  }

  /** A commit is counted and not yet in the file. */
  lemma ACountedCommit() returns (states: seq<State>, steps: seq<Step>)
    ensures After(states, steps, 0)
    ensures End(states) ==
      State([Runner(Some(Entry(0, 1, 0, 1, false, ToFile)), Some([]), true, Idle, false, 1)], [], {}, {}, {})
  {
    states, steps := Begin();
    states, steps := Moves(states, steps, 0, 0, Call);
    states, steps := Moves(states, steps, 0, 0, Open);
    states, steps := Moves(states, steps, 0, 0, CountCommit);
  }

  /** A pass reads its count. */
  lemma ACommitIsMissed() returns (states: seq<State>, steps: seq<Step>)
    ensures After(states, steps, 0)
    ensures End(states) ==
      State([Runner(Some(Entry(0, 1, 0, 1, true, ToFile)), Some([]), true, Loaded(1), false, 1)], [], {}, {}, {})
  {
    states, steps := ACountedCommit();
    states, steps := Moves(states, steps, 0, 0, List);
    states, steps := Moves(states, steps, 0, 0, Load);
  }

  /** A run that loses it, with no other step that breaks a condition. */
  lemma ACommitIsForgotten() returns (states: seq<State>, steps: seq<Step>, k: nat, c: Commit)
    ensures AllBut(states, steps, k) && !Clean(states[k], steps[k]) && Lost(End(states), c)
  {
    var states0, steps0 := ACommitIsMissed();
    PlainKeepsInv(states0, steps0);
    k := |steps0|;
    states, steps, c := AMissedCommitCanBeLost(states0, steps0, Act(0, Copy));
    OneExcept(states0, steps0, Act(0, Copy), states, steps);
  }

  /** A run that loses the commit of a call in the middle of a reset. */
  lemma AResetIsDisturbed() returns (states: seq<State>, steps: seq<Step>, k: nat, c: Commit)
    ensures AllBut(states, steps, k) && !Undisturbed(states[k], steps[k]) && Lost(End(states), c)
  {
    var states0, steps0 := Begin();
    states0, steps0 := Then(states0, steps0, 0, Act(0, BeginReset));
    PlainKeepsInv(states0, steps0);
    k := |steps0|;
    states, steps, c := ACallInAResetCanBeLost(states0, steps0, Act(0, Call));
    OneExcept(states0, steps0, Act(0, Call), states, steps);
  }

  /** A first runner saves a commit. */
  lemma ASave() returns (states: seq<State>, steps: seq<Step>, c: Commit)
    ensures After(states, steps, 0) && c in End(states).saved && |End(states).runners| == 1
  {
    states, steps := Begin();
    states, steps := Moves(states, steps, 0, 0, Call);
    states, steps, c := Commits(states, steps, 0, 0, 0);
    states, steps := Copies(states, steps, 0, 0);
    states, steps := Saves(states, steps, 0, 0, c);
  }

  /** A run that loses it to a second runner, which starts with an old, empty file. */
  lemma AnOldFileLosesACommit() returns (states: seq<State>, steps: seq<Step>, k: nat, c: Commit)
    ensures AllBut(states, steps, k) && !Holding(states[k], steps[k]) && Lost(End(states), c)
  {
    var states0, steps0, c0 := ASave();
    PlainKeepsInv(states0, steps0);
    assert IsPromised(End(states0), c0);
    k := |steps0|;
    states, steps, c := AnOldFileCanLose(states0, steps0, Start(Some([])));
    OneExcept(states0, steps0, Start(Some([])), states, steps);
  }

  /** A first runner commits and copies; a second one starts without a file. */
  lemma ASecondStarts() returns (states: seq<State>, steps: seq<Step>)
    ensures After(states, steps, 0)
    ensures var c := Commit(0, 0, 1);
      End(states) == State(
        [Runner(Some(Entry(0, 1, 0, 1, true, ToFile)), Some([c]), false, Copied(1, [c]), false, 1),
         Runner(None, None, false, Idle, false, 0)], [], {c}, {}, {})
  {
    var c;
    states, steps := Begin();
    states, steps := Moves(states, steps, 0, 0, Call);
    states, steps, c := Commits(states, steps, 0, 0, 0);
    assert [] + [c] == [c] && {} + {c} == {c};
    states, steps := Copies(states, steps, 0, 0);
    states, steps := Then(states, steps, 0, Start(None));
  }

  /** The fence is needed: a run with one record that is not fenced, in which the
      first runner puts its old copy on top of what the second one saved. */
  lemma WithoutTheFence() returns (states: seq<State>, steps: seq<Step>, k: nat, c: Commit)
    ensures AllBut(states, steps, k) && !Fenced(states[k], steps[k]) && Safe(states[k], steps[k])
    ensures Lost(End(states), c)
  {
    var states0, steps0 := ASecondStarts();
    states0, steps0 := Moves(states0, steps0, 0, 1, Call);
    states0, steps0, c := Commits(states0, steps0, 0, 1, 0);
    states0, steps0 := Copies(states0, steps0, 0, 1);
    states0, steps0 := Saves(states0, steps0, 0, 1, c);
    k := |steps0|;
    states, steps := Then(states0, steps0, k + 1, Act(0, Record(Answered)));
    OneExcept(states0, steps0, Act(0, Record(Answered)), states, steps);
  }
}
