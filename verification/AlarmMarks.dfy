/** The mark of the index row: when it means that a delivery is under way, and
    what becomes of an alarm whose mark was left behind. */
module AlarmMarks {
  import opened Wrappers
  import opened Alarms
  import opened AlarmRuns
  import opened AlarmDeliveries

  predicate Marked(s: State) { s.row.Some? && s.row.value.delivering }

  /** A marked row has its delivery. */
  ghost predicate Attended(s: State) { Marked(s) ==> UnderWay(s) }

  predicate Settles(step: Step) { step.SettleEarly? || step.SettleEnd? || step.SettleLater? }

  /** A step that leaves the mark behind: a crash, the end of the only delivery
      when its settle is not applied, or a claim that is applied unanswered. */
  ghost predicate Orphans(s: State, step: Step) {
    || (step.Crash? && Marked(s))
    || (Settles(step) && step.write.NotApplied? && Marked(s)
        && forall i :: i in s.places && Delivers(s.places[i]) ==> i == step.id)
    || (step.Claim? && step.write.Unanswered? && !UnderWay(s))
  }

  lemma SettleAttends(s: State, step: Step)
    requires Attended(s) && Enabled(s, step) && Settles(step)
    ensures Attended(Apply(s, step)) <==> !Orphans(s, step)
  {
    var s' := Apply(s, step);
    assert Delivers(s.places[step.id]);
    assert forall i :: i in s'.places ==> i in s.places && i != step.id && s'.places[i] == s.places[i];
    if i :| i in s.places && Delivers(s.places[i]) && i != step.id {
      assert i in s'.places;
    }
  }

  lemma SetAttends(s: State, step: Step)
    requires Attended(s) && Enabled(s, step) && (step.Set? || step.Lower? || step.WriteFile? || step.Follow?)
    ensures Attended(Apply(s, step))
  {
    if i :| i in s.places && Delivers(s.places[i]) {
      assert i in Apply(s, step).places && Delivers(Apply(s, step).places[i]);
    }
  }

  lemma OtherAttends(s: State, step: Step)
    requires Attended(s) && Enabled(s, step) && !Settles(step)
    requires !step.Set? && !step.Lower? && !step.WriteFile? && !step.Follow?
    ensures Attended(Apply(s, step)) <==> !Orphans(s, step)
  {
    var s' := Apply(s, step);
    if step.Claim? && step.write.Answered? {
      assert Delivers(s'.places[step.id]);
    } else if i :| i in s.places && Delivers(s.places[i]) {
      assert !step.Crash? ==> i in s'.places && Delivers(s'.places[i]);
    }
  }

  /** A step takes the delivery from a mark exactly if it leaves the mark behind. */
  lemma StepAttends(s: State, step: Step)
    requires Attended(s) && Enabled(s, step)
    ensures Attended(Apply(s, step)) <==> !Orphans(s, step)
  {
    if Settles(step) {
      SettleAttends(s, step);
    } else if step.Set? || step.Lower? || step.WriteFile? || step.Follow? {
      SetAttends(s, step);
    } else {
      OtherAttends(s, step);
    }
  }

  lemma {:induction false} RunAttends(states: seq<State>, steps: seq<Step>, i: nat)
    requires IsRun(states, steps) && i < |states| && Attended(states[0])
    requires forall k :: 0 <= k < i ==> !Orphans(states[k], steps[k])
    ensures Attended(states[i])
  {
    if i > 0 {
      RunAttends(states, steps, i - 1);
      StepAttends(states[i - 1], steps[i - 1]);
    }
  }

  /** In every state of a run a marked row has a delivery under way, if and only
      if no step leaves the mark behind. */
  lemma AttendedExactly(states: seq<State>, steps: seq<Step>)
    requires IsRun(states, steps) && Attended(states[0])
    ensures (forall i :: 0 <= i < |states| ==> Attended(states[i])) <==>
      (forall k :: 0 <= k < |steps| ==> !Orphans(states[k], steps[k]))
  {
    if forall k :: 0 <= k < |steps| ==> !Orphans(states[k], steps[k]) {
      forall i | 0 <= i < |states| ensures Attended(states[i]) {
        RunAttends(states, steps, i);
      }
    } else {
      var k :| 0 <= k < |steps| && Orphans(states[k], steps[k]);
      if Attended(states[k]) {
        StepAttends(states[k], steps[k]);
        assert !Attended(states[k + 1]);
      }
    }
  }

  /** So an alarm of the file is in the index in time, and its row is free to be
      claimed or being delivered, if no set lands in the window of an early
      delivery and no step leaves a mark behind. */
  lemma AlarmIsServed(states: seq<State>, steps: seq<Step>, i: nat)
    requires IsRun(states, steps) && i < |states| && AtRest(states[0]) && !Marked(states[0])
    requires forall k :: 0 <= k < |steps| ==> Undisturbed(states[k], steps[k]) && !Orphans(states[k], steps[k])
    ensures Covered(states[i])
    ensures states[i].file.Some? ==> states[i].row.Some? && (!states[i].row.value.delivering || UnderWay(states[i]))
  {
    FileAlarmIsIndexed(states, steps, i);
    RunAttends(states, steps, i);
  }

  // ---- A mark that was left behind ----

  ghost predicate Orphaned(s: State) { Marked(s) && !UnderWay(s) }

  /** A reset of the marks, or the end of a delete of the alarm. */
  predicate Frees(s: State, step: Step)
    requires Enabled(s, step)
  {
    step.Reset? || (step.Follow? && s.places[step.id].target.None? && !step.write.NotApplied?)
  }

  lemma StepKeepsOrphaned(s: State, step: Step)
    requires Orphaned(s) && Enabled(s, step) && !Frees(s, step)
    ensures Orphaned(Apply(s, step))
  {
    var s' := Apply(s, step);
    assert forall i :: i in s.places ==> !Delivers(s.places[i]);
    assert forall i :: i in s'.places ==> !Delivers(s'.places[i]);
  }

  /** No alarm of the object is claimed any more, however often it is set, until
      a runner starts or the alarm is deleted. */
  lemma {:induction false} StuckUntilFreed(states: seq<State>, steps: seq<Step>, i: nat, j: nat)
    requires IsRun(states, steps) && i <= j < |states| && Orphaned(states[i])
    requires forall k :: i <= k < j ==> !Frees(states[k], steps[k])
    ensures Orphaned(states[j]) && forall id, write :: !Enabled(states[j], Claim(id, write))
    decreases j
  {
    if i < j {
      StuckUntilFreed(states, steps, i, j - 1);
      StepKeepsOrphaned(states[j - 1], steps[j - 1]);
    }
  }

  /** A handler ran well, and the settle of its delivery was not applied. */
  lemma AnUnsettledDelivery() returns (states: seq<State>, steps: seq<Step>)
    ensures IsRun(states, steps) && AtRest(states[0])
    ensures states[|steps|] == State(None, Some(Row(5, 0, true)), None, 10, None, map[], 0, 0)
  {
    states, steps := ADelivery();
    states, steps := Then(states, steps, Run(1, Ok));
    states, steps := Then(states, steps, Lock(1));
    states, steps := Then(states, steps, ReadAgain(1, true));
    states, steps := Then(states, steps, ClearFile(1, Answered));
    states, steps := Then(states, steps, SettleEnd(1, NotApplied));
  }

  /** A run in which the next alarm is due, and stuck. */
  lemma AStuckAlarm() returns (states: seq<State>, steps: seq<Step>)
    ensures IsRun(states, steps) && AtRest(states[0])
    ensures var s := states[|steps|];
      Covered(s) && Orphaned(s) && s.file == Some(20) && s.row.value.at == 20 <= s.clock
  {
    states, steps := AnUnsettledDelivery();
    states, steps := Then(states, steps, Set(2, Some(20)));
    states, steps := Then(states, steps, Lock(2));
    states, steps := Then(states, steps, Lower(2, Answered));
    states, steps := Then(states, steps, WriteFile(2, Answered));
    states, steps := Then(states, steps, Follow(2, Answered));
    states, steps := Then(states, steps, Tick(30));
  }
}
