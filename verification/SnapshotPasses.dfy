/** What a snapshot pass and a reset achieve, in every run of `SnapshotRuns`,
    whichever runners are fenced and whatever is lost. */
module SnapshotPasses {
  import opened Wrappers
  import opened SnapshotRuns

  // ---- A pass saves what was counted when it began ----

  /** A pass is under way exactly as long as the entry is held. */
  ghost predicate Held(s: State) {
    forall r :: 0 <= r < |s.runners| ==>
      (!s.runners[r].pass.Idle? <==> s.runners[r].entry.Some? && s.runners[r].entry.value.held)
  }

  lemma StepKeepsHeld(s: State, step: Step)
    requires Held(s) && Enabled(s, step)
    ensures Held(Apply(s, step))
  {
  }

  lemma {:induction false} RunKeepsHeld(states: seq<State>, steps: seq<Step>, i: nat)
    requires Steps(states, steps) && i < |states|
    ensures Held(states[i])
  {
    if i > 0 {
      var j := i - 1;
      RunKeepsHeld(states, steps, j);
      assert states[j + 1] == Apply(states[j], steps[j]);
      StepKeepsHeld(states[j], steps[j]);
    }
  }

  /** Whether it ended well or not, nothing but a pass under way keeps an entry
      without callers from eviction, and a pass always does. */
  lemma HeldExactly(states: seq<State>, steps: seq<Step>, i: nat, r: nat)
    requires Steps(states, steps) && i < |states| && r < |states[i].runners|
    requires states[i].runners[r].entry.Some? && states[i].runners[r].entry.value.callers == 0
    ensures Enabled(states[i], Act(r, Evict)) <==> states[i].runners[r].pass.Idle?
  {
    RunKeepsHeld(states, steps, i);
  }

  /** The pass of the runner has read the count. */
  predicate HasLoaded(s: State, r: nat) {
    r < |s.runners| && (s.runners[r].pass.Loaded? || s.runners[r].pass.Copied? || s.runners[r].pass.Recorded?)
  }

  ghost predicate Passing(states: seq<State>, i: nat, j: nat, r: nat)
    requires j < |states|
  {
    forall k :: i < k <= j ==> HasLoaded(states[k], r)
  }

  /** The runner `r` counts a commit in one of the steps from `i` to `j`. */
  ghost predicate Counts(steps: seq<Step>, i: nat, j: nat, r: nat)
    requires j <= |steps|
  {
    exists k :: i <= k < j && steps[k] == Act(r, CountCommit)
  }

  lemma StepKeepsCovered(s: State, step: Step, r: nat)
    requires Held(s) && Enabled(s, step) && HasLoaded(s, r) && HasLoaded(Apply(s, step), r)
    ensures var x, x' := s.runners[r], Apply(s, step).runners[r];
      && x.entry.Some? && x'.entry.Some? && x'.entry.value.id == x.entry.value.id && x'.pass.covered == x.pass.covered
      && x'.entry.value.commits == x.entry.value.commits + if step == Act(r, CountCommit) then 1 else 0
  {
  }

  /** From its load on, a pass has the count of that moment, and the entry has
      counted more exactly if the runner counted a commit since. */
  lemma {:induction false} CoveredStays(states: seq<State>, steps: seq<Step>, i: nat, j: nat, r: nat)
    requires Steps(states, steps) && i < j < |states| && steps[i] == Act(r, Load) && Passing(states, i, j, r)
    ensures states[i].runners[r].entry.Some? && states[j].runners[r].entry.Some?
    ensures var e, x := states[i].runners[r].entry.value, states[j].runners[r];
      && x.pass.covered == e.commits && x.entry.value.id == e.id && x.entry.value.commits >= e.commits
      && (x.entry.value.commits == e.commits <==> !Counts(steps, i, j, r))
    decreases j
  {
    var k := j - 1;
    assert states[k + 1] == Apply(states[k], steps[k]);
    if i < k {
      CoveredStays(states, steps, i, k, r);
      RunKeepsHeld(states, steps, k);
      StepKeepsCovered(states[k], steps[k], r);
      assert steps[k] == Act(r, CountCommit) ==> Counts(steps, i, j, r);
    }
  }

  /** A pass that ends has saved what its entry had counted when the pass read
      the count at step `i`; the entry has unsaved commits afterwards if and only
      if its runner counted one in between. */
  lemma PassSavesExactly(states: seq<State>, steps: seq<Step>, i: nat, j: nat, r: nat)
    requires Steps(states, steps) && i < j < |steps| && steps[i] == Act(r, Load) && steps[j] == Act(r, Store)
    requires Passing(states, i, j, r)
    ensures states[i].runners[r].entry.Some? && states[j + 1].runners[r].entry.Some?
    ensures var e, e' := states[i].runners[r].entry.value, states[j + 1].runners[r].entry.value;
      && e'.id == e.id && e'.saved == e.commits && !e'.held && states[j + 1].runners[r].pass.Idle?
      && (Unsaved(e') <==> Counts(steps, i, j, r))
  {
    CoveredStays(states, steps, i, j, r);
  }

  // ---- So the entry can go ----

  /** The entry is there, saved, and no pass is under way. */
  predicate IsQuiet(s: State, r: nat) {
    && r < |s.runners| && s.runners[r].pass.Idle?
    && s.runners[r].entry.Some? && s.runners[r].entry.value.commits == s.runners[r].entry.value.saved
  }

  lemma StepKeepsQuiet(s: State, step: Step, r: nat)
    requires Enabled(s, step) && IsQuiet(s, r) && step != Act(r, CountCommit)
    requires Apply(s, step).runners[r].entry.Some?
    ensures IsQuiet(Apply(s, step), r)
  {
  }

  /** The runner has its entry all the time. */
  ghost predicate HasEntry(states: seq<State>, i: nat, j: nat, r: nat)
    requires j < |states|
  {
    forall k :: i < k <= j ==> r < |states[k].runners| && states[k].runners[r].entry.Some?
  }

  lemma {:induction false} QuietStays(states: seq<State>, steps: seq<Step>, j: nat, k: nat, r: nat)
    requires Steps(states, steps) && j < k < |states| && IsQuiet(states[j + 1], r) && HasEntry(states, j, k, r)
    requires !Counts(steps, j, k, r)
    ensures IsQuiet(states[k], r)
    decreases k
  {
    if j + 1 < k {
      var m := k - 1;
      QuietStays(states, steps, j, m, r);
      assert states[m + 1] == Apply(states[m], steps[m]) && states[m + 1].runners[r].entry.Some?;
      assert steps[m] != Act(r, CountCommit);
      StepKeepsQuiet(states[m], steps[m], r);
    }
  }

  /** After a pass during which and since which its runner counted no commit, an
      eviction removes the entry. */
  lemma QuietPassLetsGo(states: seq<State>, steps: seq<Step>, i: nat, j: nat, k: nat, r: nat)
    requires Steps(states, steps) && i < j < k < |steps|
    requires steps[i] == Act(r, Load) && steps[j] == Act(r, Store) && steps[k] == Act(r, Evict)
    requires Passing(states, i, j, r) && HasEntry(states, j, k, r) && !Counts(steps, i, k, r)
    ensures states[k + 1].runners[r].entry.None?
  {
    assert !Counts(steps, i, j, r) && !Counts(steps, j, k, r);
    PassSavesExactly(states, steps, i, j, r);
    QuietStays(states, steps, j, k, r);
    QuietGoes(states[k], r);
    assert states[k + 1] == Apply(states[k], steps[k]);
  }

  lemma QuietGoes(s: State, r: nat)
    requires IsQuiet(s, r) && Enabled(s, Act(r, Evict))
    ensures Apply(s, Act(r, Evict)).runners[r].entry.None?
  {
  }

  // ---- A reset gives the newest snapshot ----

  lemma StepKeepsMissing(s: State, step: Step, r: nat)
    requires Enabled(s, step) && r < |s.runners| && s.runners[r].file.None? && step != Act(r, Open)
    ensures r < |Apply(s, step).runners| && Apply(s, step).runners[r].file.None?
  {
  }

  lemma {:induction false} MissingStays(states: seq<State>, steps: seq<Step>, j: nat, m: nat, r: nat)
    requires Steps(states, steps) && j < m < |states|
    requires r < |states[j + 1].runners| && states[j + 1].runners[r].file.None?
    requires forall k :: j < k < m ==> steps[k] != Act(r, Open)
    ensures r < |states[m].runners| && states[m].runners[r].file.None?
    decreases m
  {
    if j + 1 < m {
      var k := m - 1;
      MissingStays(states, steps, j, k, r);
      assert states[k + 1] == Apply(states[k], steps[k]);
      StepKeepsMissing(states[k], steps[k], r);
    }
  }

  /** The first call that opens the database after a reset moved its file finds
      the newest snapshot of that moment. */
  lemma ResetRestores(states: seq<State>, steps: seq<Step>, j: nat, m: nat, r: nat)
    requires Steps(states, steps) && j < m < |steps| && steps[j] == Act(r, EndReset(true)) && steps[m] == Act(r, Open)
    requires forall k :: j < k < m ==> steps[k] != Act(r, Open)
    ensures states[m + 1].runners[r].file ==
      Some(if states[m].rows == [] then [] else states[m].rows[0])
  {
    assert states[j + 1].runners[r].file.None?;
    MissingStays(states, steps, j, m, r);
  }

  /** A reset takes the entry out of the map, and gives up the commits of its
      runner that the newest snapshot lacks. */
  lemma ResetTakesTheEntry(states: seq<State>, steps: seq<Step>, i: nat, r: nat)
    requires Steps(states, steps) && i < |steps| && steps[i] == Act(r, BeginReset)
    ensures states[i + 1].runners[r].entry.None? && states[i + 1].runners[r].resetting
    ensures forall c :: c in states[i].made && c.runner == r && c !in Top(states[i].rows) ==>
      c in states[i + 1].discarded
  {
  }

  /** A file changes only by a commit to its end, or when a reset moves it. */
  lemma FileChangesExactly(states: seq<State>, steps: seq<Step>, i: nat, r: nat)
    requires Steps(states, steps) && i < |steps| && r < |states[i].runners| && states[i].runners[r].file.Some?
    ensures r < |states[i + 1].runners|
    ensures var x, file, file' := states[i].runners[r], states[i].runners[r].file, states[i + 1].runners[r].file;
      && (file'.None? <==> steps[i] == Act(r, EndReset(true)))
      && (file'.Some? && file' != file ==>
            && steps[i] == Act(r, EndCommit(true)) && x.entry.Some?
            && file' == Some(file.value + [Commit(r, x.entry.value.id, x.entry.value.commits)]))
  {
    assert states[i + 1] == Apply(states[i], steps[i]);
  }
}
