/** Whether the handler runs for a set: an alarm leaves the file when it is set
    again or deleted, or after a run of its handler. That run may have started
    before the set, if both are for the same time. */
module AlarmSets {
  import opened Wrappers
  import opened Alarms
  import opened AlarmRuns
  import opened AlarmDeliveries

  /** A step that puts an alarm in the file. */
  predicate SetsFile(s: State, step: Step) {
    && step.WriteFile? && !step.write.NotApplied?
    && step.id in s.places && s.places[step.id].SetFile? && s.places[step.id].target.Some?
  }

  /** How many steps there were when the last set reached the file, up to the
      state `i`; zero if none did. */
  function LastSet(states: seq<State>, steps: seq<Step>, i: nat): (n: nat)
    requires i <= |steps| < |states|
    ensures n <= i
  {
    if i == 0 then 0
    else if SetsFile(states[i - 1], steps[i - 1]) then i
    else LastSet(states, steps, i - 1)
  }

  /** And when the delivery `id` last went to its handler. */
  function LastStart(steps: seq<Step>, i: nat, id: Id): (n: nat)
    requires i <= |steps|
    ensures n <= i
  {
    if i == 0 then 0
    else if steps[i - 1] == CompareClock(id) then i
    else LastStart(steps, i - 1, id)
  }

  /** The step `i` takes a set out of the file after a run that started before it. */
  predicate Drops(states: seq<State>, steps: seq<Step>, i: nat)
    requires i < |steps| < |states|
  {
    var s, step := states[i], steps[i];
    && step.ClearFile? && !step.write.NotApplied? && step.id in s.places && s.places[step.id].EndClear?
    && s.file == Some(s.places[step.id].at) && LastStart(steps, i, step.id) < LastSet(states, steps, i)
  }

  /** The handler ran, or is running. */
  predicate IsRunning(p: Place) { p.Handle? || p.EndQueued? || p.EndRead? || p.EndClear? }

  /** It failed, and will run again. */
  predicate WillRetry(p: Place) { (p.EndQueued? || p.EndRead?) && p.failed && p.retries < MAX_RETRIES }

  /** A set for the time of a delivery whose handler started already, and may be
      its last run. */
  ghost predicate Clashes(s: State, step: Step) {
    && SetsFile(s, step)
    && exists i :: i in s.places && Meets(s.places[i], s.places[step.id].target.value)
  }

  predicate Meets(p: Place, at: int) { (p.Handle? || p.EndQueued?) && p.at == at && !WillRetry(p) }

  // ---- Without a clash ----

  /** What a delivery that runs would clear was set before it started. */
  ghost predicate InTime(states: seq<State>, steps: seq<Step>, i: nat, id: Id)
    requires i <= |steps| < |states| && id in states[i].places
  {
    var p := states[i].places[id];
    IsRunning(p) ==>
      LastSet(states, steps, i) <= LastStart(steps, i, id) || states[i].file != Some(p.at) || WillRetry(p)
  }

  ghost predicate AllInTime(states: seq<State>, steps: seq<Step>, i: nat)
    requires i <= |steps| < |states|
  {
    OneHolder(states[i]) && forall id :: id in states[i].places ==> InTime(states, steps, i, id)
  }

  lemma SetKeepsInTime(states: seq<State>, steps: seq<Step>, i: nat, id: Id)
    requires IsRun(states, steps) && i < |steps| && AllInTime(states, steps, i) && steps[i].WriteFile?
    requires !Clashes(states[i], steps[i]) && id in states[i + 1].places
    ensures InTime(states, steps, i + 1, id)
  {
    var s, p := states[i], states[i + 1].places[id];
    if IsRunning(p) {
      assert p == s.places[id] && InTime(states, steps, i, id);
      if SetsFile(s, steps[i]) {
        assert !Meets(p, s.places[steps[i].id].target.value);
      }
    }
  }

  lemma OtherKeepsInTime(states: seq<State>, steps: seq<Step>, i: nat, id: Id)
    requires IsRun(states, steps) && i < |steps| && AllInTime(states, steps, i) && !steps[i].WriteFile?
    requires id in states[i + 1].places
    ensures InTime(states, steps, i + 1, id)
  {
    assert states[i + 1] == Apply(states[i], steps[i]);
    if id in states[i].places {
      assert InTime(states, steps, i, id);
    }
  }

  lemma StepKeepsInTime(states: seq<State>, steps: seq<Step>, i: nat)
    requires IsRun(states, steps) && i < |steps| && AllInTime(states, steps, i) && !Clashes(states[i], steps[i])
    ensures AllInTime(states, steps, i + 1)
  {
    StepKeepsHolder(states[i], steps[i]);
    var j := i + 1;
    forall id | id in states[j].places ensures InTime(states, steps, j, id) {
      if steps[i].WriteFile? {
        SetKeepsInTime(states, steps, i, id);
      } else {
        OtherKeepsInTime(states, steps, i, id);
      }
    }
  }

  lemma {:induction false} RunKeepsInTime(states: seq<State>, steps: seq<Step>, i: nat)
    requires IsRun(states, steps) && i < |states| && AtRest(states[0])
    requires forall k :: 0 <= k < i ==> !Clashes(states[k], steps[k])
    ensures AllInTime(states, steps, i)
  {
    if i > 0 {
      RunKeepsInTime(states, steps, i - 1);
      StepKeepsInTime(states, steps, i - 1);
    }
  }

  /** An alarm leaves the file when a call sets it again or deletes it, or after a
      run of its handler that started once the last set was in the file, if no
      set clashes with a delivery. */
  lemma SetsAreServed(states: seq<State>, steps: seq<Step>, i: nat)
    requires IsRun(states, steps) && i < |steps| && AtRest(states[0])
    requires forall k :: 0 <= k < i ==> !Clashes(states[k], steps[k])
    requires states[i].file.Some? && states[i + 1].file != states[i].file
    ensures steps[i].WriteFile? || steps[i].ClearFile?
    ensures steps[i].ClearFile? ==>
      var id := steps[i].id;
      && states[i].file == Some(states[i].places[id].at) && !Drops(states, steps, i)
      && LastSet(states, steps, i) <= LastStart(steps, i, id)
  {
    RunKeepsInTime(states, steps, i);
    if steps[i].ClearFile? {
      assert InTime(states, steps, i, steps[i].id);
    }
  }

  // ---- With one ----

  /** From the `k`-th step on, no set clashes. */
  ghost predicate NoClashFrom(states: seq<State>, steps: seq<Step>, k: nat) {
    IsRun(states, steps) && forall i :: k <= i < |steps| ==> !Clashes(states[i], steps[i])
  }

  /** More steps, none of which goes to a handler or sets an alarm. */
  ghost predicate Goes(states: seq<State>, steps: seq<Step>, states': seq<State>, steps': seq<Step>) {
    && states <= states' && steps <= steps' && |steps'| < |states'|
    && forall i :: |steps| <= i < |steps'| ==> !steps'[i].CompareClock? && !steps'[i].WriteFile?
  }

  lemma Move(states: seq<State>, steps: seq<Step>, step: Step, k: nat)
    returns (states': seq<State>, steps': seq<Step>)
    requires NoClashFrom(states, steps, k) && Enabled(states[|steps|], step)
    requires !step.WriteFile? && !step.CompareClock?
    ensures NoClashFrom(states', steps', k) && Goes(states, steps, states', steps')
    ensures states'[|steps'|] == Apply(states[|steps|], step)
  {
    states', steps' := states + [Apply(states[|steps|], step)], steps + [step];
  }

  /** The two last times stay while nobody goes to a handler or sets an alarm. */
  lemma {:induction false} LastStay(states: seq<State>, steps: seq<Step>, states': seq<State>, steps': seq<Step>,
                                    i: nat, id: Id)
    requires |steps| < |states| && Goes(states, steps, states', steps') && i <= |steps'|
    ensures i <= |steps| ==>
      LastSet(states', steps', i) == LastSet(states, steps, i) && LastStart(steps', i, id) == LastStart(steps, i, id)
    ensures i >= |steps| ==>
      && LastSet(states', steps', i) == LastSet(states, steps, |steps|)
      && LastStart(steps', i, id) == LastStart(steps, |steps|, id)
    decreases i
  {
    if i > 0 {
      LastStay(states, steps, states', steps', i - 1, id);
      assert i <= |steps| ==> states'[i - 1] == states[i - 1] && steps'[i - 1] == steps[i - 1];
    }
  }

  /** The set ends, and gives the lock back. */
  lemma SetEnds(states: seq<State>, steps: seq<Step>, id: Id, k: nat) returns (states': seq<State>, steps': seq<Step>)
    requires NoClashFrom(states, steps, k) && OneHolder(states[|steps|])
    requires var s := states[|steps|]; s.holder.None? || (id in s.places && s.places[id].SetFollow?)
    ensures NoClashFrom(states', steps', k) && Goes(states, steps, states', steps')
    ensures var s, s' := states[|steps|], states'[|steps'|];
      && s'.holder.None? && s'.file == s.file
      && forall i :: i in s.places && i != id ==> i in s'.places && s'.places[i] == s.places[i]
  {
    states', steps' := states, steps;
    if states[|steps|].holder.Some? {
      states', steps' := Move(states, steps, Follow(id, Answered), k);
    }
  }

  /** The handler of the delivery ends, if it has not. */
  lemma HandlerEnds(states: seq<State>, steps: seq<Step>, id: Id, k: nat)
    returns (states': seq<State>, steps': seq<Step>)
    requires NoClashFrom(states, steps, k) && states[|steps|].holder.None? && states[|steps|].file.Some?
    requires var s := states[|steps|]; id in s.places && Meets(s.places[id], s.file.value)
    ensures NoClashFrom(states', steps', k) && Goes(states, steps, states', steps')
    ensures var s, s' := states[|steps|], states'[|steps'|];
      && s'.holder.None? && s'.file == s.file
      && id in s'.places && s'.places[id].EndQueued? && Meets(s'.places[id], s.file.value)
  {
    states', steps' := states, steps;
    if states[|steps|].places[id].Handle? {
      states', steps' := Move(states, steps, Run(id, Ok), k);
    }
  }

  /** Its delivery takes the alarm for its own, and is about to clear it. */
  lemma ReadsItsOwn(states: seq<State>, steps: seq<Step>, id: Id, k: nat)
    returns (states': seq<State>, steps': seq<Step>)
    requires NoClashFrom(states, steps, k) && states[|steps|].holder.None? && states[|steps|].file.Some?
    requires var s := states[|steps|]; id in s.places && s.places[id].EndQueued? && Meets(s.places[id], s.file.value)
    ensures NoClashFrom(states', steps', k) && Goes(states, steps, states', steps')
    ensures var s' := states'[|steps'|];
      id in s'.places && s'.places[id].EndClear? && s'.file == Some(s'.places[id].at)
  {
    states', steps' := Move(states, steps, Lock(id), k);
    states', steps' := Move(states', steps', ReadAgain(id, true), k);
  }

  lemma GoesOn(states: seq<State>, steps: seq<Step>, states1: seq<State>, steps1: seq<Step>,
               states2: seq<State>, steps2: seq<Step>)
    requires |steps| < |states| && Goes(states, steps, states1, steps1) && Goes(states1, steps1, states2, steps2)
    ensures Goes(states, steps, states2, steps2)
  {
    forall i | |steps| <= i < |steps2| ensures !steps2[i].CompareClock? && !steps2[i].WriteFile? {
      assert i < |steps1| ==> steps2[i] == steps1[i];
    }
  }

  /** From a set of its own time on, a delivery gets to where it clears it. */
  lemma GetsToClear(states: seq<State>, steps: seq<Step>, setter: Id, id: Id, k: nat)
    returns (states': seq<State>, steps': seq<Step>)
    requires NoClashFrom(states, steps, k) && OneHolder(states[|steps|])
    requires var s := states[|steps|];
      && (s.holder.None? || (setter in s.places && s.places[setter].SetFollow?))
      && s.file.Some? && id != setter && id in s.places && Meets(s.places[id], s.file.value)
    ensures NoClashFrom(states', steps', k) && Goes(states, steps, states', steps')
    ensures var s' := states'[|steps'|];
      id in s'.places && s'.places[id].EndClear? && s'.file == Some(s'.places[id].at)
  {
    var states1, steps1 := SetEnds(states, steps, setter, k);
    var states2, steps2 := HandlerEnds(states1, steps1, id, k);
    states', steps' := ReadsItsOwn(states2, steps2, id, k);
    GoesOn(states, steps, states1, steps1, states2, steps2);
    GoesOn(states, steps, states2, steps2, states', steps');
  }

  lemma ThenDrops(states: seq<State>, steps: seq<Step>, id: Id, k: nat)
    returns (states': seq<State>, steps': seq<Step>)
    requires NoClashFrom(states, steps, k)
    requires var s := states[|steps|]; id in s.places && s.places[id].EndClear? && s.file == Some(s.places[id].at)
    requires LastStart(steps, |steps|, id) < LastSet(states, steps, |steps|)
    ensures NoClashFrom(states', steps', k) && states <= states' && steps <= steps'
    ensures |steps'| > 0 && Drops(states', steps', |steps'| - 1)
  {
    var step := ClearFile(id, Answered);
    states', steps' := states + [Apply(states[|steps|], step)], steps + [step];
    assert Goes(states, steps, states', steps');
    LastStay(states, steps, states', steps', |steps|, id);
  }

  /** What a set leaves to a delivery that it meets. */
  lemma SetMeets(s: State, step: Step, id: Id)
    requires OneHolder(s) && Enabled(s, step) && SetsFile(s, step)
    requires id in s.places && Meets(s.places[id], s.places[step.id].target.value)
    ensures var s' := Apply(s, step);
      && OneHolder(s') && (s'.holder.None? || (step.id in s'.places && s'.places[step.id].SetFollow?))
      && s'.file.Some? && id != step.id && id in s'.places && Meets(s'.places[id], s'.file.value)
  {
    StepKeepsHolder(s, step);
  }

  /** A set that clashes can be dropped: no run of the handler starts after it. */
  lemma AClashCanDrop(states: seq<State>, steps: seq<Step>, step: Step)
    returns (states': seq<State>, steps': seq<Step>)
    requires IsRun(states, steps) && OneHolder(states[|steps|])
    requires Enabled(states[|steps|], step) && Clashes(states[|steps|], step)
    ensures NoClashFrom(states', steps', |steps| + 1) && states <= states' && steps + [step] <= steps'
    ensures Drops(states', steps', |steps'| - 1)
  {
    var s, k := states[|steps|], |steps| + 1;
    var id :| id in s.places && Meets(s.places[id], s.places[step.id].target.value);
    var states1, steps1 := states + [Apply(s, step)], steps + [step];
    assert NoClashFrom(states1, steps1, k);
    SetMeets(s, step, id);
    var states2, steps2 := GetsToClear(states1, steps1, step.id, id, k);
    LastStay(states1, steps1, states2, steps2, |steps2|, id);
    assert LastSet(states1, steps1, k) == k && LastStart(steps1, k, id) <= |steps|;
    states', steps' := ThenDrops(states2, steps2, id, k);
  }

  // ---- The condition is exact ----

  ghost predicate Longer(states: seq<State>, steps: seq<Step>, states': seq<State>, steps': seq<Step>) {
    states <= states' && steps <= steps'
  }

  /** Steps without a clash can follow `step`, and drop a set. */
  ghost predicate CanDrop(states: seq<State>, steps: seq<Step>, step: Step) {
    exists states', steps' ::
      && Longer(states, steps + [step], states', steps') && NoClashFrom(states', steps', |steps| + 1)
      && |steps'| > 0 && Drops(states', steps', |steps'| - 1)
  }

  /** After a run without a clash, a step can be followed by steps without one to
      where a set is dropped, if and only if it clashes. */
  lemma DropsExactly(states: seq<State>, steps: seq<Step>, step: Step)
    requires NoClashFrom(states, steps, 0) && AtRest(states[0]) && Enabled(states[|steps|], step)
    ensures CanDrop(states, steps, step) <==> Clashes(states[|steps|], step)
  {
    if Clashes(states[|steps|], step) {
      RunKeepsInTime(states, steps, |steps|);
      var states', steps' := AClashCanDrop(states, steps, step);
      assert Longer(states, steps + [step], states', steps');
    } else {
      forall states': seq<State>, steps': seq<Step> |
        && Longer(states, steps + [step], states', steps') && NoClashFrom(states', steps', |steps| + 1)
        && |steps'| > 0
        ensures !Drops(states', steps', |steps'| - 1)
      {
        forall i | 0 <= i < |steps'| ensures !Clashes(states'[i], steps'[i]) {
          assert i <= |steps| ==> states'[i] == states[i] && steps'[i] == (steps + [step])[i];
        }
        RunKeepsInTime(states', steps', |steps'| - 1);
        var id := if steps'[|steps'| - 1].ClearFile? then steps'[|steps'| - 1].id else 0;
        assert id in states'[|steps'| - 1].places ==> InTime(states', steps', |steps'| - 1, id);
      }
    }
  }

  /** The handler sets its own alarm again, for the same time; */
  lemma ASetForTheSameTime() returns (states: seq<State>, steps: seq<Step>)
    ensures IsRun(states, steps) && AtRest(states[0])
    ensures var s := states[|steps|];
      && OneHolder(s) && Enabled(s, WriteFile(2, Answered)) && Clashes(s, WriteFile(2, Answered))
  {
    states, steps := ADelivery();
    states, steps := Then(states, steps, Set(2, Some(5)));
    states, steps := Then(states, steps, Lock(2));
    states, steps := Then(states, steps, Lower(2, Answered));
    assert states[|steps|].places[1] == Handle(5, 0) && Meets(states[|steps|].places[1], 5);
  }

  /** a run in which no handler runs for it. */
  lemma ASetIsDropped() returns (states: seq<State>, steps: seq<Step>)
    ensures IsRun(states, steps) && AtRest(states[0]) && |steps| > 0 && Drops(states, steps, |steps| - 1)
  {
    var states0, steps0 := ASetForTheSameTime();
    states, steps := AClashCanDrop(states0, steps0, WriteFile(2, Answered));
  }
}
