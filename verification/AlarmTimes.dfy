/** The times of deliveries: a handler waits for its time, and what the index
    holds after each end of a delivery and after a set. */
module AlarmTimes {
  import opened Wrappers
  import opened Alarms
  import opened AlarmRuns
  import opened AlarmSets

  // ---- A handler waits for its time ----

  ghost predicate AllDue(s: State) {
    forall i :: i in s.places && IsRunning(s.places[i]) ==> s.places[i].at <= s.clock
  }

  lemma StepKeepsDue(s: State, step: Step)
    requires AllDue(s) && Enabled(s, step)
    ensures AllDue(Apply(s, step))
  {
  }

  lemma {:induction false} RunKeepsDue(states: seq<State>, steps: seq<Step>, i: nat)
    requires IsRun(states, steps) && i < |states| && AtRest(states[0])
    ensures AllDue(states[i])
  {
    if i > 0 {
      var j := i - 1;
      RunKeepsDue(states, steps, j);
      assert states[j + 1] == Apply(states[j], steps[j]);
      StepKeepsDue(states[j], steps[j]);
    }
  }

  /** No handler starts, runs or ends before the time of its alarm, however early
      the index is. */
  lemma HandlersAreDue(states: seq<State>, steps: seq<Step>, i: nat, id: Id)
    requires IsRun(states, steps) && i < |states| && AtRest(states[0])
    requires id in states[i].places
    requires var p := states[i].places[id]; p.Handle? || p.EndQueued? || p.EndRead? || p.EndClear?
    ensures states[i].places[id].at <= states[i].clock
  {
    RunKeepsDue(states, steps, i);
  }

  /** The delivery `id` has read the file, and not compared the clock. */
  ghost predicate Compares(states: seq<State>, r: nat, i: nat, id: Id)
    requires i < |states|
  {
    forall k :: r < k <= i ==> id in states[k].places && states[k].places[id].Compare?
  }

  lemma StepKeepsFound(s: State, step: Step, id: Id)
    requires Enabled(s, step) && id in s.places && s.places[id].Compare?
    requires id in Apply(s, step).places && Apply(s, step).places[id].Compare?
    ensures Apply(s, step).places[id].found == s.places[id].found
  {
  }

  lemma {:induction false} FoundStays(states: seq<State>, steps: seq<Step>, r: nat, i: nat, id: Id)
    requires IsRun(states, steps) && r < i < |states| && steps[r] == ReadFile(id, true) && Compares(states, r, i, id)
    ensures states[i].places[id].found == states[r].file
    decreases i
  {
    if r + 1 < i {
      var j := i - 1;
      FoundStays(states, steps, r, j, id);
      assert states[j + 1] == Apply(states[j], steps[j]);
      StepKeepsFound(states[j], steps[j], id);
    }
  }

  /** A delivery goes to the early settle if and only if the file it read at step
      `r` had no alarm, or one that lies after the clock of the step `i` at which
      it compares them; else it goes to the handler of that alarm. */
  lemma EarlyExactly(states: seq<State>, steps: seq<Step>, r: nat, i: nat, id: Id)
    requires IsRun(states, steps) && r < i < |steps| && steps[r] == ReadFile(id, true) && steps[i] == CompareClock(id)
    requires Compares(states, r, i, id)
    ensures var read, p := states[r].file, states[i + 1].places[id];
      && (p.EarlyQueued? <==> read.None? || read.value > states[i].clock)
      && (p.EarlyQueued? ==> p.found == read)
      && (!p.EarlyQueued? ==> p.Handle? && read == Some(p.at))
  {
    FoundStays(states, steps, r, i, id);
  }

  // ---- What a delivery starts from ----

  /** A delivery starts on a row that is due and that nobody delivers, with the
      failed runs that row counts, and marks it. */
  lemma StartsDue(states: seq<State>, steps: seq<Step>, i: nat, id: Id)
    requires IsRun(states, steps) && i < |steps|
    requires id !in states[i].places && id in states[i + 1].places && !states[i + 1].places[id].SetQueued?
    ensures var s, s' := states[i], states[i + 1];
      && s.row.Some? && !s.row.value.delivering && s.row.value.at <= s.clock
      && s'.row == Some(s.row.value.(delivering := true)) && s'.file == s.file
      && s'.places == s.places[id := Fetch(s.row.value.retries)]
  {
    assert states[i + 1] == Apply(states[i], steps[i]);
  }

  /** The delivery `id` goes on, all the time. */
  ghost predicate GoesOn(states: seq<State>, c: nat, i: nat, id: Id)
    requires i < |states|
  {
    forall k :: c < k <= i ==> id in states[k].places
  }

  /** A delivery that counts `n` failed runs, as far as it still tells. */
  predicate CountsFrom(p: Place, n: nat) {
    p.EndSettle? || (!p.SetQueued? && !p.SetLower? && !p.SetFile? && !p.SetFollow? && p.retries == n)
  }

  lemma StepKeepsCount(s: State, step: Step, id: Id, n: nat)
    requires Enabled(s, step) && id in s.places && id in Apply(s, step).places && CountsFrom(s.places[id], n)
    ensures CountsFrom(Apply(s, step).places[id], n)
  {
  }

  lemma {:induction false} CountStays(states: seq<State>, steps: seq<Step>, c: nat, i: nat, id: Id)
    requires IsRun(states, steps) && c < i < |states| && steps[c] == Claim(id, Answered) && GoesOn(states, c, i, id)
    ensures CountsFrom(states[i].places[id], states[c].row.value.retries)
    decreases i
  {
    if c + 1 < i {
      var j := i - 1;
      CountStays(states, steps, c, j, id);
      assert states[j + 1] == Apply(states[j], steps[j]);
      StepKeepsCount(states[j], steps[j], id, states[c].row.value.retries);
    }
  }

  predicate IsOf(step: Step, id: Id) { (step.FetchNamespace? || step.ReadFile? || step.Run?) && step.id == id }

  /** The namespace or the file cannot be read, or the object takes no event. */
  predicate CannotRun(step: Step) {
    ((step.FetchNamespace? || step.ReadFile?) && !step.ok) || (step.Run? && step.outcome.Refused?)
  }

  /** A delivery that was claimed at step `c` is put off at step `i` if and only if
      it cannot run; then it has the clock of that step, the failed runs of the row
      it was claimed from, and no run more is counted. */
  lemma DeferredExactly(states: seq<State>, steps: seq<Step>, c: nat, i: nat, id: Id)
    requires IsRun(states, steps) && c < i < |steps| && steps[c] == Claim(id, Answered) && GoesOn(states, c, i, id)
    requires IsOf(steps[i], id)
    ensures states[i + 1].places[id].LaterQueued? <==> CannotRun(steps[i])
    ensures CannotRun(steps[i]) ==>
      && states[i + 1].places[id] == LaterQueued(states[i].clock, states[c].row.value.retries)
      && states[i + 1].failures == states[i].failures
  {
    CountStays(states, steps, c, i, id);
  }

  // ---- What the index holds after an end ----

  /** The delivery `id` is about to settle, all the time. */
  ghost predicate Ending(states: seq<State>, r: nat, i: nat, id: Id)
    requires i < |states|
  {
    forall k :: r < k <= i ==> id in states[k].places && states[k].places[id].EndSettle?
  }

  /** While a delivery settles, nobody else changes the file. */
  lemma StepKeepsEnding(s: State, step: Step, id: Id)
    requires Enabled(s, step) && OneHolder(s) && id in s.places && s.places[id].EndSettle?
    requires id in Apply(s, step).places && Apply(s, step).places[id].EndSettle?
    ensures Apply(s, step).places[id] == s.places[id] && Apply(s, step).file == s.file
  {
  }

  lemma {:induction false} EndingStays(states: seq<State>, steps: seq<Step>, r: nat, i: nat, id: Id)
    requires IsRun(states, steps) && AtRest(states[0]) && r < i < |states| && Ending(states, r, i, id)
    ensures states[i].places[id] == states[r + 1].places[id] && states[i].file == states[r + 1].file
    decreases i
  {
    if r + 1 < i {
      var j := i - 1;
      EndingStays(states, steps, r, j, id);
      RunKeepsWatch(states, steps, j);
      assert states[j + 1] == Apply(states[j], steps[j]);
      StepKeepsEnding(states[j], steps[j], id);
    }
  }

  /** An alarm that replaced the one of a delivery, however that one went, is in
      the index at its own time once the delivery is settled, with no failed run
      and free to be claimed. */
  lemma ReplacementStartsAfresh(states: seq<State>, steps: seq<Step>, r: nat, i: nat, id: Id)
    requires IsRun(states, steps) && AtRest(states[0]) && r < i < |steps| && Ending(states, r, i, id)
    requires steps[r] == ReadAgain(id, true) && steps[i].SettleEnd? && steps[i].id == id && !steps[i].write.NotApplied?
    requires states[r].file.Some? && states[r].file != Some(states[r].places[id].at)
    ensures states[i + 1].file == states[r].file
    ensures states[i + 1].row == Some(Row(states[r].file.value, 0, false))
  {
    EndingStays(states, steps, r, i, id);
  }

  /** After an answered clear, file and index have the same: nothing, or an alarm
      that replaced the one of the delivery, with no failed run. */
  lemma ClearedIsSettled(states: seq<State>, steps: seq<Step>, r: nat, i: nat, id: Id)
    requires IsRun(states, steps) && AtRest(states[0]) && r < i < |steps| && Ending(states, r, i, id)
    requires steps[r] == ClearFile(id, Answered) && steps[i].SettleEnd? && steps[i].id == id
    requires !steps[i].write.NotApplied?
    ensures var file := states[i + 1].file;
      && (if states[r].file == Some(states[r].places[id].at) then file.None? else file == states[r].file)
      && states[i + 1].row == if file.Some? then Some(Row(file.value, 0, false)) else None
  {
    EndingStays(states, steps, r, i, id);
  }

  /** After a clear without an answer, the index waits as after as many failed
      runs as there were, and counts those. */
  lemma UnansweredClearWaits(states: seq<State>, steps: seq<Step>, r: nat, i: nat, id: Id)
    requires IsRun(states, steps) && AtRest(states[0]) && r < i < |steps| && Ending(states, r, i, id)
    requires steps[r].ClearFile? && steps[r].id == id && !steps[r].write.Answered?
    requires steps[i].SettleEnd? && steps[i].id == id && !steps[i].write.NotApplied?
    ensures var n := states[r].places[id].retries;
      states[i + 1].row == Some(Row(states[r].clock + 1000 * Pow2(if n <= 6 then n else 6), n, false))
  {
    EndingStays(states, steps, r, i, id);
    assert states[r + 1] == Apply(states[r], steps[r]) && states[i + 1] == Apply(states[i], steps[i]);
    UnansweredClearIsKept(states[r], id, steps[r].write);
    SettleEnds(states[i], id, steps[i].write);
  }

  lemma UnansweredClearIsKept(s: State, id: Id, write: Write)
    requires Enabled(s, ClearFile(id, write)) && !write.Answered?
    ensures var n, p := s.places[id].retries, Apply(s, ClearFile(id, write)).places[id];
      p.EndSettle? && p.alarm == Some((s.clock + 1000 * Pow2(if n <= 6 then n else 6), n))
  {
  }

  lemma SettleEnds(s: State, id: Id, write: Write)
    requires Enabled(s, SettleEnd(id, write)) && !write.NotApplied?
    ensures var alarm := s.places[id].alarm;
      Apply(s, SettleEnd(id, write)).row ==
        if alarm.Some? then Some(Row(alarm.value.0, alarm.value.1, false)) else None
  {
  }

  /** A delivery that could not start, or was refused, puts the index a second
      after its clock, with the count it had. */
  lemma DeferredWaitsASecond(states: seq<State>, steps: seq<Step>, i: nat, id: Id)
    requires IsRun(states, steps) && i < |steps| && steps[i].SettleLater? && steps[i].id == id
    requires !steps[i].write.NotApplied?
    ensures var p := states[i].places[id];
      states[i + 1].row == Some(Row(p.clock + 1000, p.retries, false))
  {
  }

  // ---- What the index holds after a set ----

  /** A set that is about to follow has written the file. */
  ghost predicate Followers(s: State) {
    forall i :: i in s.places && s.places[i].SetFollow? ==> s.file == s.places[i].target
  }

  lemma StepKeepsFollowers(s: State, step: Step)
    requires Followers(s) && OneHolder(s) && Enabled(s, step)
    ensures Followers(Apply(s, step))
  {
  }

  lemma {:induction false} RunKeepsFollowers(states: seq<State>, steps: seq<Step>, i: nat)
    requires IsRun(states, steps) && i < |states| && AtRest(states[0])
    ensures Followers(states[i])
  {
    if i > 0 {
      var j := i - 1;
      RunKeepsFollowers(states, steps, j);
      RunKeepsWatch(states, steps, j);
      assert states[j + 1] == Apply(states[j], steps[j]);
      StepKeepsFollowers(states[j], steps[j]);
    }
  }

  /** When a set ends well, file and index both have what was set: the time, with
      no failed run, or nothing. A row that is being delivered stays marked. */
  lemma SetIsIndexed(states: seq<State>, steps: seq<Step>, i: nat, id: Id)
    requires IsRun(states, steps) && i < |steps| && AtRest(states[0])
    requires steps[i] == Follow(id, Answered)
    ensures var target, s, s' := states[i].places[id].target, states[i], states[i + 1];
      && s'.file == target
      && (target.None? ==> s'.row.None?)
      && (target.Some? ==> s'.row == Some(Row(target.value, 0, s.row.Some? && s.row.value.delivering)))
      && id !in s'.places && s'.holder.None?
  {
    RunKeepsFollowers(states, steps, i);
  }
}
