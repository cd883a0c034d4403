/** The runs of one alarm that nobody sets again: how often its handler fails
    before the alarm is dropped, and what the index waits for in between. */
module AlarmRetries {
  import opened Wrappers
  import opened Alarms
  import opened AlarmRuns

  /** A step of such a run: no set, every write that ends a delivery or clears
      the file is answered, and a runner that starts finds no delivery under
      way. Reads, claims, the namespace and the handler can fail, the runner can
      refuse the alarm, and it can crash, at any time. */
  ghost predicate Quiet(s: State, step: Step) {
    && !step.Set?
    && (step.Reset? ==> forall i :: i !in s.places)
    && (step.SettleEarly? || step.SettleEnd? || step.SettleLater? || step.ClearFile? ==> step.write.Answered?)
  }

  /** A step that leaves no mark behind. */
  predicate Calm(step: Step) { !step.Crash? && !(step.Claim? && step.write.Unanswered?) }

  /** The alarm `at` was just set, and no delivery is under way. */
  predicate Armed(s: State, at: int) {
    && |s.places| == 0 && s.holder.None? && s.failures == 0 && s.cut == 0
    && s.file == Some(at) && s.row.Some? && s.row.value.retries == 0 && !s.row.value.delivering
  }

  /** The index counts the failed runs, but for `extra` ones and those that a
      crash cut off. */
  predicate Tally(s: State, at: int, extra: nat) {
    && s.file == Some(at) && s.row.Some? && s.row.value.retries <= MAX_RETRIES
    && s.row.value.retries + s.cut + extra == s.failures
  }

  predicate Bounded(s: State) { s.failures <= MAX_RETRIES + 1 + s.cut }

  /** What the one delivery under way carries, where the row has `n` retries. */
  predicate Carries(s: State, at: int, p: Place, n: nat) {
    match p
    case Fetch(m) => m == n
    case Read(m) => m == n
    case Compare(found, m, _) => m == n && found == s.file
    case EarlyQueued(found, m, _) => m == n && found == s.file
    case EarlySettle(found, m, _) => m == n && found == s.file
    case Handle(a, m) => s.file == Some(at) && a == at && m == n
    case EndQueued(a, m, _) => s.file == Some(at) && a == at && m == n
    case EndRead(a, m, _) => s.file == Some(at) && a == at && m == n
    case EndClear(a, m, failed) => s.file == Some(at) && a == at && m == n && (failed ==> n == MAX_RETRIES)
    case EndSettle(alarm, since, failed) =>
      if s.file.None? then alarm.None?
      else failed && n < MAX_RETRIES && since.Some? && alarm == Some((since.value + 1000 * Pow2(n + 1), n + 1))
    case LaterQueued(_, m) => m == n
    case LaterSettle(_, m) => m == n
    case _ => false
  }

  predicate UnderWay(s: State, at: int, p: Place) {
    && s.row.Some? && s.row.value.delivering && Carries(s, at, p, s.row.value.retries)
    && if s.file.None? then Bounded(s) else Tally(s, at, if HasFailed(p) then 1 else 0)
  }

  /** No delivery is under way. */
  predicate Waits(s: State, at: int, calm: bool) {
    if s.file.None? then Bounded(s) && (calm ==> s.row.None?)
    else Tally(s, at, 0) && (calm ==> !s.row.value.delivering)
  }

  ghost predicate Good(s: State, at: int, calm: bool) {
    && (calm ==> s.cut == 0)
    && (forall i, j :: i in s.places && j in s.places ==> i == j)
    && (forall i :: i in s.places ==> UnderWay(s, at, s.places[i]) && (calm && s.file.None? ==> s.places[i].EndSettle?))
    && ((forall i :: i !in s.places) ==> Waits(s, at, calm))
  }

  lemma SettleKeepsGood(s: State, step: Step, at: int, calm: bool)
    requires Good(s, at, calm) && Enabled(s, step) && Quiet(s, step)
    requires step.SettleEarly? || step.SettleEnd? || step.SettleLater?
    ensures Good(Apply(s, step), at, calm)
  {
    assert UnderWay(s, at, s.places[step.id]);
  }

  lemma EndKeepsGood(s: State, step: Step, at: int, calm: bool)
    requires Good(s, at, calm) && Enabled(s, step) && Quiet(s, step) && (step.ReadAgain? || step.ClearFile?)
    ensures Good(Apply(s, step), at, calm)
  {
    var s' := Apply(s, step);
    assert UnderWay(s, at, s.places[step.id]);
    EndStaysUnderWay(s, step, at);
    assert forall i :: i in s'.places ==> i == step.id;
    assert step.id in s'.places;
  }

  lemma EndStaysUnderWay(s: State, step: Step, at: int)
    requires Enabled(s, step) && Quiet(s, step) && (step.ReadAgain? || step.ClearFile?)
    requires UnderWay(s, at, s.places[step.id])
    ensures UnderWay(Apply(s, step), at, Apply(s, step).places[step.id])
    ensures Apply(s, step).file.None? ==> Apply(s, step).places[step.id].EndSettle?
    ensures Apply(s, step).cut == s.cut
  {
  }

  lemma MoveKeepsGood(s: State, step: Step, at: int, calm: bool)
    requires Good(s, at, calm) && Enabled(s, step)
    requires step.FetchNamespace? || step.ReadFile? || step.CompareClock? || step.Run? || step.Lock?
    ensures Good(Apply(s, step), at, calm)
  {
    var s' := Apply(s, step);
    assert UnderWay(s, at, s.places[step.id]);
    MoveStaysUnderWay(s, step, at);
    assert forall i :: i in s'.places ==> i == step.id;
    assert step.id in s'.places;
  }

  lemma MoveStaysUnderWay(s: State, step: Step, at: int)
    requires Enabled(s, step)
    requires step.FetchNamespace? || step.ReadFile? || step.CompareClock? || step.Run? || step.Lock?
    requires UnderWay(s, at, s.places[step.id])
    ensures UnderWay(Apply(s, step), at, Apply(s, step).places[step.id])
    ensures Apply(s, step).file == s.file && Apply(s, step).cut == s.cut
    ensures s.places[step.id].EndSettle? == Apply(s, step).places[step.id].EndSettle?
  {
  }

  lemma CrashKeepsGood(s: State, at: int, calm: bool)
    requires Good(s, at, calm)
    ensures Good(Apply(s, Crash), at, false)
  {
    if i :| i in s.places {
      assert UnderWay(s, at, s.places[i]);
      assert FailedRuns(s.places) == if HasFailed(s.places[i]) then {i} else {};
    } else {
      assert FailedRuns(s.places) == {};
    }
  }

  lemma StartKeepsGood(s: State, step: Step, at: int, calm: bool)
    requires Good(s, at, calm) && Enabled(s, step) && Quiet(s, step) && (step.Tick? || step.Claim? || step.Reset?)
    ensures Good(Apply(s, step), at, calm && Calm(step))
  {
    if step.Claim? {
      assert forall i :: i !in s.places;
    }
  }

  lemma StepKeepsGood(s: State, step: Step, at: int, calm: bool)
    requires Good(s, at, calm) && Enabled(s, step) && Quiet(s, step)
    ensures Good(Apply(s, step), at, calm && Calm(step))
  {
    if step.SettleEarly? || step.SettleEnd? || step.SettleLater? {
      SettleKeepsGood(s, step, at, calm);
    } else if step.ReadAgain? || step.ClearFile? {
      EndKeepsGood(s, step, at, calm);
    } else if step.Crash? {
      CrashKeepsGood(s, at, calm);
    } else if step.Tick? || step.Claim? || step.Reset? {
      StartKeepsGood(s, step, at, calm);
    } else {
      assert UnderWay(s, at, s.places[step.id]);
      MoveKeepsGood(s, step, at, calm);
    }
  }

  ghost predicate AllCalm(steps: seq<Step>, i: nat)
    requires i <= |steps|
  {
    forall k :: 0 <= k < i ==> Calm(steps[k])
  }

  lemma {:induction false} RunKeepsGood(states: seq<State>, steps: seq<Step>, at: int, i: nat)
    requires IsRun(states, steps) && i < |states| && Armed(states[0], at)
    requires forall k :: 0 <= k < |steps| ==> Quiet(states[k], steps[k])
    ensures Good(states[i], at, AllCalm(steps, i))
  {
    if i > 0 {
      RunKeepsGood(states, steps, at, i - 1);
      StepKeepsGood(states[i - 1], steps[i - 1], at, AllCalm(steps, i - 1));
      assert AllCalm(steps, i) == (AllCalm(steps, i - 1) && Calm(steps[i - 1]));
    }
  }

  /** The handler fails seven times at most, and once more for each failed run
      that a crash cut off. Whenever no delivery is under way, either the file
      has the alarm and the index counts exactly the other failed runs, whatever
      was refused or deferred, or the alarm is gone, as it is after the seventh
      of them. Without a crash and without a claim that went unanswered, the row
      is then free to be claimed, or gone with the alarm. */
  lemma SevenFailuresAtMost(states: seq<State>, steps: seq<Step>, at: int, i: nat)
    requires IsRun(states, steps) && i < |states| && Armed(states[0], at)
    requires forall k :: 0 <= k < |steps| ==> Quiet(states[k], steps[k])
    ensures var s := states[i];
      && s.failures <= MAX_RETRIES + 1 + s.cut
      && (s.places == map[] && s.file.Some? ==>
            s.file == Some(at) && s.row.Some? && s.row.value.retries + s.cut == s.failures)
      && (s.places == map[] && s.failures == MAX_RETRIES + 1 + s.cut ==> s.file.None?)
    ensures AllCalm(steps, i) ==>
      && states[i].cut == 0
      && (states[i].places == map[] && states[i].file.Some? ==> !states[i].row.value.delivering)
      && (states[i].places == map[] && states[i].file.None? ==> states[i].row.None?)
  {
    RunKeepsGood(states, steps, at, i);
    var s := states[i];
    if j :| j in s.places {
      assert UnderWay(s, at, s.places[j]);
    }
  }

  lemma SettleBacksOff(s: State, step: Step, at: int, calm: bool)
    requires Good(s, at, calm) && Enabled(s, step) && Quiet(s, step) && step.SettleEnd? && s.file.Some?
    ensures var s' := Apply(s, step);
      && 1 <= s.failures - s.cut <= MAX_RETRIES && s'.since.Some?
      && s'.row == Some(Row(s'.since.value + 1000 * Pow2(s.failures - s.cut), s.failures - s.cut, false))
  {
    assert UnderWay(s, at, s.places[step.id]);
  }

  /** After its n-th failed run that the index counts, for n up to six, the
      alarm waits 2^n seconds from the clock at which the delivery looked at the
      file again. */
  lemma FailedRunsBackOff(states: seq<State>, steps: seq<Step>, at: int, i: nat)
    requires IsRun(states, steps) && i < |steps| && Armed(states[0], at)
    requires forall k :: 0 <= k < |steps| ==> Quiet(states[k], steps[k])
    requires steps[i].SettleEnd? && states[i].file.Some?
    ensures var s, s' := states[i], states[i + 1];
      && 1 <= s.failures - s.cut <= MAX_RETRIES && s'.since.Some?
      && s'.row == Some(Row(s'.since.value + 1000 * Pow2(s.failures - s.cut), s.failures - s.cut, false))
  {
    RunKeepsGood(states, steps, at, i);
    SettleBacksOff(states[i], steps[i], at, AllCalm(steps, i));
  }
}
