/** When two deliveries of the alarm of one object can be under way at once.
    The mark of the index row keeps a second one from being claimed, but a
    delete of the alarm removes the row together with its mark. */
module AlarmDeliveries {
  import opened Wrappers
  import opened Alarms
  import opened AlarmRuns

  predicate Delivers(p: Place) {
    !p.SetQueued? && !p.SetLower? && !p.SetFile? && !p.SetFollow?
  }

  ghost predicate UnderWay(s: State) {
    exists i :: i in s.places && Delivers(s.places[i])
  }

  /** One delivery at most, and the row is marked while it is under way. */
  ghost predicate OneDelivery(s: State) {
    && (forall i, j :: i in s.places && j in s.places && Delivers(s.places[i]) && Delivers(s.places[j]) ==> i == j)
    && (UnderWay(s) ==> s.row.Some? && s.row.value.delivering)
  }

  /** A step that takes the mark from under a delivery: the end of a delete of
      the alarm, or a reset of the marks, which a runner does as it starts. */
  ghost predicate Unmarks(s: State, step: Step) {
    && Enabled(s, step) && UnderWay(s)
    && (step.Reset? || (step.Follow? && s.places[step.id].target.None? && !step.write.NotApplied?))
  }

  lemma SettleKeepsOne(s: State, step: Step)
    requires OneDelivery(s) && Enabled(s, step) && (step.SettleEarly? || step.SettleEnd? || step.SettleLater?)
    ensures OneDelivery(Apply(s, step))
  {
    assert Delivers(s.places[step.id]);
  }

  lemma SetKeepsOne(s: State, step: Step)
    requires OneDelivery(s) && Enabled(s, step) && !Unmarks(s, step)
    requires step.Set? || step.Lower? || step.WriteFile? || step.Follow?
    ensures OneDelivery(Apply(s, step))
  {
    var s' := Apply(s, step);
    assert forall i :: i in s'.places && Delivers(s'.places[i]) ==> i in s.places && Delivers(s.places[i]);
  }

  lemma OtherKeepsOne(s: State, step: Step)
    requires OneDelivery(s) && Enabled(s, step) && !Unmarks(s, step)
    requires !step.Set? && !step.Lower? && !step.WriteFile? && !step.Follow?
    requires !step.SettleEarly? && !step.SettleEnd? && !step.SettleLater?
    ensures OneDelivery(Apply(s, step))
  {
    var s' := Apply(s, step);
    if step.Claim? {
      assert forall i :: i in s.places ==> !Delivers(s.places[i]);
    } else {
      assert forall i :: i in s'.places && Delivers(s'.places[i]) ==> i in s.places && Delivers(s.places[i]);
    }
  }

  lemma {:induction false} RunKeepsOne(states: seq<State>, steps: seq<Step>, i: nat)
    requires IsRun(states, steps) && i < |states| && AtRest(states[0])
    requires forall k :: 0 <= k < i ==> !Unmarks(states[k], steps[k])
    ensures OneDelivery(states[i])
  {
    if i > 0 {
      RunKeepsOne(states, steps, i - 1);
      var s, step := states[i - 1], steps[i - 1];
      if step.SettleEarly? || step.SettleEnd? || step.SettleLater? {
        SettleKeepsOne(s, step);
      } else if step.Set? || step.Lower? || step.WriteFile? || step.Follow? {
        SetKeepsOne(s, step);
      } else {
        OtherKeepsOne(s, step);
      }
    }
  }

  /** Deliveries exclude each other as long as no delete of the alarm ends, and
      no runner starts, while one is under way. */
  lemma DeliveriesExclude(states: seq<State>, steps: seq<Step>, i: nat, a: Id, b: Id)
    requires IsRun(states, steps) && i < |states| && AtRest(states[0])
    requires forall k :: 0 <= k < i ==> !Unmarks(states[k], steps[k])
    requires a in states[i].places && b in states[i].places
    requires Delivers(states[i].places[a]) && Delivers(states[i].places[b])
    ensures a == b
  {
    RunKeepsOne(states, steps, i);
  }

  lemma {:induction false} FreshId(ids: set<Id>) returns (n: Id)
    ensures forall i :: i in ids ==> i < n
    decreases |ids|
  {
    n := 0;
    if ids != {} {
      var i :| i in ids;
      n := FreshId(ids - {i});
      assert ids == (ids - {i}) + {i};
      n := if i < n then n else i + 1;
    }
  }

  /** A due row without its mark is claimed, whatever is under way. */
  lemma AnotherClaim(states: seq<State>, steps: seq<Step>)
    returns (states': seq<State>, steps': seq<Step>, another: Id)
    requires IsRun(states, steps) && states[|steps|].row.Some? && !states[|steps|].row.value.delivering
    ensures IsRun(states', steps') && states'[0] == states[0] && steps <= steps'
    ensures var s, s' := states[|steps|], states'[|steps'|];
      another !in s.places && s'.places == s.places[another := Fetch(s.row.value.retries)]
  {
    var s := states[|steps|];
    another := FreshId(s.places.Keys);
    states', steps' := Then(states, steps, Tick(if s.clock < s.row.value.at then s.row.value.at else s.clock));
    states', steps' := Then(states', steps', Claim(another, Answered));
  }

  /** The alarm is set again: its row is not marked. */
  lemma SetAgain(states: seq<State>, steps: seq<Step>) returns (states': seq<State>, steps': seq<Step>)
    requires IsRun(states, steps) && states[|steps|].row.None? && states[|steps|].holder.None?
    ensures IsRun(states', steps') && states'[0] == states[0] && steps <= steps'
    ensures var s, s' := states[|steps|], states'[|steps'|];
      && s'.row.Some? && !s'.row.value.delivering
      && forall i :: i in s.places ==> i in s'.places && s'.places[i] == s.places[i]
  {
    var s := states[|steps|];
    var id := FreshId(s.places.Keys);
    states', steps' := Then(states, steps, Set(id, Some(s.clock)));
    states', steps' := Then(states', steps', Lock(id));
    states', steps' := Then(states', steps', Lower(id, Answered));
  }

  /** A step that takes the mark leaves the delivery, and no marked row. */
  lemma UnmarkingLeaves(s: State, step: Step, first: Id)
    requires OneHolder(s) && OneDelivery(s) && Unmarks(s, step) && first in s.places && Delivers(s.places[first])
    ensures var s' := Apply(s, step);
      && first in s'.places && Delivers(s'.places[first])
      && if s'.row.Some? then !s'.row.value.delivering else s'.holder.None?
  {
  }

  /** The condition is needed: every step that takes the mark from under a
      delivery can be followed by a second delivery while the first is still
      under way. */
  lemma UnmarkingAllowsAnother(s: State, step: Step)
    returns (states: seq<State>, steps: seq<Step>, first: Id, second: Id)
    requires OneHolder(s) && OneDelivery(s) && Unmarks(s, step)
    ensures IsRun(states, steps) && states[0] == s && |steps| > 0 && steps[0] == step
    ensures var s' := states[|steps|];
      && first in s'.places && second in s'.places && first != second
      && Delivers(s'.places[first]) && Delivers(s'.places[second])
  {
    first :| first in s.places && Delivers(s.places[first]);
    UnmarkingLeaves(s, step, first);
    states, steps := [s, Apply(s, step)], [step];
    if states[1].row.None? {
      states, steps := SetAgain(states, steps);
    }
    states, steps, second := AnotherClaim(states, steps);
  }

  lemma ADelivery() returns (states: seq<State>, steps: seq<Step>)
    ensures IsRun(states, steps) && AtRest(states[0])
    ensures states[|steps|] == State(Some(5), Some(Row(5, 0, true)), None, 10, None, map[1 := Handle(5, 0)], 0, 0)
  {
    states, steps := [State(Some(5), Some(Row(5, 0, false)), None, 10, None, map[], 0, 0)], [];
    states, steps := Then(states, steps, Claim(1, Answered));
    states, steps := Then(states, steps, FetchNamespace(1, true));
    states, steps := Then(states, steps, ReadFile(1, true));
    states, steps := Then(states, steps, CompareClock(1));
  }

  /** A delivery whose row is deleted from under it. */
  lemma ADeleteUnmarks() returns (states: seq<State>, steps: seq<Step>)
    ensures IsRun(states, steps) && AtRest(states[0])
    ensures states[|steps|] == State(None, None, None, 10, None, map[1 := Handle(5, 0)], 0, 0)
  {
    states, steps := ADelivery();
    states, steps := Then(states, steps, Set(2, None));
    states, steps := Then(states, steps, Lock(2));
    states, steps := Then(states, steps, WriteFile(2, Answered));
    states, steps := Then(states, steps, Follow(2, Answered));
  }

  /** The handler deletes its alarm and sets it again, and a second delivery is
      claimed while the first one still runs. */
  lemma TwoDeliveries() returns (states: seq<State>, steps: seq<Step>)
    ensures IsRun(states, steps) && AtRest(states[0])
    ensures var s := states[|steps|];
      1 in s.places && 4 in s.places && Delivers(s.places[1]) && Delivers(s.places[4])
  {
    states, steps := ADeleteUnmarks();
    states, steps := Then(states, steps, Set(3, Some(7)));
    states, steps := Then(states, steps, Lock(3));
    states, steps := Then(states, steps, Lower(3, Answered));
    states, steps := Then(states, steps, WriteFile(3, Answered));
    states, steps := Then(states, steps, Follow(3, Answered));
    states, steps := Then(states, steps, Claim(4, Answered));
  }
}
