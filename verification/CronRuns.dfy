/** Every run of the claims of one cron, by any number of schedulers whose
    clocks need not agree, as long as nobody rewrites the cron. */
module CronRuns {
  import opened Wrappers

  type Id = nat

  /** The first run of a pattern after a time, if it has one. */
  type Pattern = int -> Option<int>

  /** A pattern that always answers a time after the one it is given. */
  ghost predicate GoesForward(pattern: Pattern) {
    forall now :: pattern(now).Some? ==> now < pattern(now).value
  }

  /** What a scheduler read: its clock, and the run that was due. */
  datatype Claim = Claim(now: int, due: int)

  /** The row of the cron, and the scheduled times of its recorded events, with
      the clocks of the claims that recorded them. */
  datatype State = State(
    next: Option<int>,
    deleted: bool,
    recorded: seq<int>,
    clocks: seq<int>,
    claims: map<Id, Claim>)

  datatype Step =
    | Select(id: Id, now: int)
    | Move(id: Id, commits: bool)
    | Delete

  predicate Enabled(s: State, step: Step) {
    match step
    case Select(id, now) => id !in s.claims && !s.deleted && s.next.Some? && s.next.value <= now
    case Move(id, _) => id in s.claims
    case Delete => true
  }

  /** The transaction of a claim: it moves the cron if nobody moved it since the
      claim read it, and records the event with that. A pattern without a next
      run stops the cron. */
  function Moved(s: State, pattern: Pattern, id: Id, commits: bool): State
    requires id in s.claims
  {
    var Claim(now, due) := s.claims[id];
    var s1 := s.(claims := s.claims - {id});
    if !commits || s.next != Some(due) then s1
    else if pattern(now).None? then s1.(next := None)
    else if s.deleted then s1
    else s1.(next := pattern(now), recorded := s.recorded + [due], clocks := s.clocks + [now])
  }

  function Apply(s: State, pattern: Pattern, step: Step): State
    requires Enabled(s, step)
  {
    match step
    case Select(id, now) => s.(claims := s.claims[id := Claim(now, s.next.value)])
    case Move(id, commits) => Moved(s, pattern, id, commits)
    case Delete => s.(deleted := true)
  }

  ghost predicate Run(states: seq<State>, steps: seq<Step>, pattern: Pattern) {
    && GoesForward(pattern)
    && |states| == |steps| + 1
    && |states[0].recorded| == |states[0].clocks| == |states[0].claims| == 0
    && forall i :: 0 <= i < |steps| ==>
         Enabled(states[i], steps[i]) && states[i + 1] == Apply(states[i], pattern, steps[i])
  }

  ghost predicate Inv(s: State) {
    && |s.clocks| == |s.recorded|
    && (forall id :: id in s.claims ==> s.claims[id].due <= s.claims[id].now)
    && (forall i :: 0 <= i < |s.recorded| ==> s.recorded[i] <= s.clocks[i])
    && (forall i, j :: 0 <= i < j < |s.recorded| ==> s.clocks[i] < s.recorded[j])
    && (s.next.Some? ==> forall i :: 0 <= i < |s.clocks| ==> s.clocks[i] < s.next.value)
  }

  lemma StepKeepsInv(s: State, pattern: Pattern, step: Step)
    requires Inv(s) && GoesForward(pattern) && Enabled(s, step)
    ensures Inv(Apply(s, pattern, step))
  {
  }

  lemma {:induction false} RunKeepsInv(states: seq<State>, steps: seq<Step>, pattern: Pattern, i: nat)
    requires Run(states, steps, pattern) && i < |states|
    ensures Inv(states[i])
  {
    if i > 0 {
      RunKeepsInv(states, steps, pattern, i - 1);
      StepKeepsInv(states[i - 1], pattern, steps[i - 1]);
    }
  }

  /** The scheduled times of a cron are recorded in increasing order, none
      twice, and none that is not after the clock of every claim before it: a
      cron that is late by any amount gives one event and then goes on. */
  lemma RecordedOnceInOrder(states: seq<State>, steps: seq<Step>, pattern: Pattern, i: nat, j: nat, k: nat)
    requires Run(states, steps, pattern) && i < |states| && j < k < |states[i].recorded|
    ensures states[i].recorded[j] < states[i].recorded[k]
    ensures |states[i].clocks| == |states[i].recorded|
    ensures states[i].recorded[j] <= states[i].clocks[j] < states[i].recorded[k]
  {
    RunKeepsInv(states, steps, pattern, i);
  }

  // ---- Nothing is skipped ----

  /** What a scheduler selected is what it claims. */
  lemma {:induction false} ClaimStays(states: seq<State>, steps: seq<Step>, pattern: Pattern, i: nat, j: nat, id: Id)
    requires Run(states, steps, pattern) && i < j < |states| && steps[i].Select? && steps[i].id == id
    requires forall k :: i < k <= j ==> id in states[k].claims
    ensures states[i].next.Some? && states[j].claims[id] == Claim(steps[i].now, states[i].next.value)
    decreases j
  {
    if i + 1 < j {
      ClaimStays(states, steps, pattern, i, j - 1, id);
    }
  }

  /** A claim of the scheduler that selected the cron at step `i` records the
      time it had then, and moves the cron to the next one after its clock, if
      and only if the transaction commits and the cron still has that time, has a
      next one and is not deleted. */
  lemma ClaimRecordsExactly(states: seq<State>, steps: seq<Step>, pattern: Pattern, i: nat, j: nat, id: Id)
    requires Run(states, steps, pattern) && i < j < |steps| && steps[i].Select? && steps[i].id == id
    requires (forall k :: i < k <= j ==> id in states[k].claims) && steps[j].Move? && steps[j].id == id
    ensures var records :=
        && steps[j].commits && !states[j].deleted && states[j].next == states[i].next
        && pattern(steps[i].now).Some?;
      && (records <==> |states[j + 1].recorded| > |states[j].recorded|)
      && (records ==> states[i].next.Some? && states[j + 1].recorded == states[j].recorded + [states[i].next.value]
                      && states[j + 1].next == pattern(steps[i].now))
  {
    ClaimStays(states, steps, pattern, i, j, id);
  }

  /** A step that changes the time of the cron to another records the time it
      had; no other step records; and only a claim that finds no next run stops
      the cron. */
  lemma MovesByRecording(states: seq<State>, steps: seq<Step>, pattern: Pattern, i: nat)
    requires Run(states, steps, pattern) && i < |steps|
    ensures var s, s' := states[i], states[i + 1];
      if s'.next == s.next then s'.recorded == s.recorded
      else if s'.next.Some? then s.next.Some? && s'.recorded == s.recorded + [s.next.value]
      else s'.recorded == s.recorded && steps[i].Move? && steps[i].id in s.claims
           && pattern(s.claims[steps[i].id].now).None?
  {
    RunKeepsInv(states, steps, pattern, i);
  }

  /** The claim of the step `k` stopped the cron at the time `t`. */
  predicate Stops(states: seq<State>, steps: seq<Step>, k: nat, t: int)
    requires k < |steps| < |states|
  {
    steps[k].Move? && states[k].next == Some(t) && states[k + 1].next.None?
  }

  ghost predicate WasStopped(states: seq<State>, steps: seq<Step>, i: nat, j: nat, t: int)
    requires j <= |steps| < |states|
  {
    exists k :: i <= k < j && Stops(states, steps, k, t)
  }

  /** Every time the cron ever had is recorded, or it has it still, or was stopped
      at it. */
  lemma {:induction false} EveryTimeIsRecorded(states: seq<State>, steps: seq<Step>, pattern: Pattern,
                                               i: nat, j: nat, t: int)
    requires Run(states, steps, pattern) && i <= j < |states| && states[i].next == Some(t)
    ensures t in states[j].recorded || states[j].next == Some(t) || WasStopped(states, steps, i, j, t)
    decreases j
  {
    if i < j {
      var m := j - 1;
      EveryTimeIsRecorded(states, steps, pattern, i, m, t);
      MovesByRecording(states, steps, pattern, m);
      if WasStopped(states, steps, i, m, t) {
        var k :| i <= k < m && Stops(states, steps, k, t);
      } else if states[m].next == Some(t) && states[m + 1].next.None? {
        assert Stops(states, steps, m, t);
      }
    }
  }

  /** Once a cron is deleted, it is not selected, and no claim records it any more. */
  lemma {:induction false} DeletedForGood(states: seq<State>, steps: seq<Step>, pattern: Pattern, i: nat, j: nat)
    requires Run(states, steps, pattern) && i < j < |states| && steps[i].Delete?
    ensures states[j].deleted && states[j].recorded == states[i].recorded
    ensures j < |steps| ==> !steps[j].Select?
    decreases j
  {
    var k := j - 1;
    assert states[k + 1] == Apply(states[k], pattern, steps[k]);
    if i < k {
      DeletedForGood(states, steps, pattern, i, k);
    }
  }
}
