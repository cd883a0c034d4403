/** Every run of the alarm of one object: any number of calls that set it, and
    any number of deliveries, with a failed write, an unanswered write or a
    crash at any point. The file, the index row and the alarm lock are those of
    the object, so the alarms of different objects do not meet. */
module AlarmRuns {
  import opened Wrappers
  import opened Alarms

  type Id = nat

  /** Where a call or a delivery is. Those after a `Queued` one hold the lock
      until they end; a set that races a delivery marks it. */
  datatype Place =
    | SetQueued(target: Option<int>)
    | SetLower(target: Option<int>)
    | SetFile(target: Option<int>)
    | SetFollow(target: Option<int>)
    | Fetch(retries: nat)
    | Read(retries: nat)
    | Compare(found: Option<int>, retries: nat, raced: bool)
    | EarlyQueued(found: Option<int>, retries: nat, raced: bool)
    | EarlySettle(found: Option<int>, retries: nat, raced: bool)
    | Handle(at: int, retries: nat)
    | EndQueued(at: int, retries: nat, failed: bool)
    | EndRead(at: int, retries: nat, failed: bool)
    | EndClear(at: int, retries: nat, failed: bool)
    | EndSettle(alarm: Option<(int, nat)>, since: Option<int>, failed: bool)
    | LaterQueued(clock: int, retries: nat)
    | LaterSettle(clock: int, retries: nat)

  /** `since` is the clock of the failed or deferred run that last set the
      index, if one did; `failures` counts the runs that failed, and `cut` those
      of them whose delivery a crash cut off before its settle. */
  datatype State = State(
    file: Option<int>,
    row: Option<Row>,
    since: Option<int>,
    clock: int,
    holder: Option<Id>,
    places: map<Id, Place>,
    failures: nat,
    cut: nat)

  datatype Outcome = Ok | Failed | Refused

  datatype Step =
    | Tick(to: int)
    | Set(id: Id, target: Option<int>)
    | Lock(id: Id)
    | Lower(id: Id, write: Write)
    | WriteFile(id: Id, write: Write)
    | Follow(id: Id, write: Write)
    | Claim(id: Id, write: Write)
    | FetchNamespace(id: Id, ok: bool)
    | ReadFile(id: Id, ok: bool)
    | CompareClock(id: Id)
    | SettleEarly(id: Id, write: Write)
    | Run(id: Id, outcome: Outcome)
    | ReadAgain(id: Id, ok: bool)
    | ClearFile(id: Id, write: Write)
    | SettleEnd(id: Id, write: Write)
    | SettleLater(id: Id, write: Write)
    | Crash
    | Reset

  predicate Holds(p: Place) {
    p.SetLower? || p.SetFile? || p.SetFollow? || p.EarlySettle? || p.EndRead? || p.EndClear? || p.EndSettle?
    || p.LaterSettle?
  }

  predicate Queued(p: Place) { p.SetQueued? || p.EarlyQueued? || p.EndQueued? || p.LaterQueued? }

  function Entered(p: Place): Place
    requires Queued(p)
  {
    match p
    case SetQueued(target) => if target.Some? then SetLower(target) else SetFile(target)
    case EarlyQueued(found, retries, raced) => EarlySettle(found, retries, raced)
    case EndQueued(at, retries, failed) => EndRead(at, retries, failed)
    case LaterQueued(clock, retries) => LaterSettle(clock, retries)
  }

  /** A delivery that read the file before a set changed it is raced. */
  function Raced(p: Place): Place {
    match p
    case Compare(found, retries, _) => Compare(found, retries, true)
    case EarlyQueued(found, retries, _) => EarlyQueued(found, retries, true)
    case _ => p
  }

  predicate Enabled(s: State, step: Step) {
    match step
    case Tick(to) => s.clock <= to
    case Set(id, _) => id !in s.places
    case Lock(id) => id in s.places && Queued(s.places[id]) && s.holder.None?
    case Lower(id, _) => id in s.places && s.places[id].SetLower? && s.places[id].target.Some?
    case WriteFile(id, _) => id in s.places && s.places[id].SetFile?
    case Follow(id, _) => id in s.places && s.places[id].SetFollow?
    case Claim(id, _) => id !in s.places && s.row.Some? && !s.row.value.delivering && s.row.value.at <= s.clock
    case FetchNamespace(id, _) => id in s.places && s.places[id].Fetch?
    case ReadFile(id, _) => id in s.places && s.places[id].Read?
    case CompareClock(id) => id in s.places && s.places[id].Compare?
    case SettleEarly(id, _) => id in s.places && s.places[id].EarlySettle?
    case Run(id, _) => id in s.places && s.places[id].Handle?
    case ReadAgain(id, _) => id in s.places && s.places[id].EndRead?
    case ClearFile(id, _) => id in s.places && s.places[id].EndClear?
    case SettleEnd(id, _) => id in s.places && s.places[id].EndSettle?
    case SettleLater(id, _) => id in s.places && s.places[id].LaterSettle?
    case Crash => true
    case Reset => true
  }

  function Go(s: State, id: Id, p: Place): State { s.(places := s.places[id := p]) }

  /** The end of a call or of a delivery, which gives the lock back. */
  function Quit(s: State, id: Id): State { s.(places := s.places - {id}, holder := None) }

  /** The index after a `follow` that was applied or not. */
  function Indexed(s: State, alarm: Option<(int, nat)>, ends: bool, clock: Option<int>, write: Write): State {
    if write.NotApplied? then s else s.(row := Followed(s.row, alarm, ends), since := clock)
  }

  function Alarm(at: Option<int>, retries: nat): Option<(int, nat)> {
    if at.Some? then Some((at.value, retries)) else None
  }

  function Apply(s: State, step: Step): State
    requires Enabled(s, step)
  {
    match step
    case Tick(to) => s.(clock := to)
    case Set(id, target) => Go(s, id, SetQueued(target))
    case Lock(id) => Go(s, id, Entered(s.places[id])).(holder := Some(id))
    case Lower(id, write) =>
      var target := s.places[id].target;
      var s1 := if write.NotApplied? then s else s.(row := Lowered(s.row, target.value));
      if write.Answered? then Go(s1, id, SetFile(target)) else Quit(s1, id)
    case WriteFile(id, write) => FileWritten(s, id, write)
    case Follow(id, write) => Quit(Indexed(s, Alarm(s.places[id].target, 0), false, None, write), id)
    case Claim(id, write) =>
      var s1 := if write.NotApplied? then s else s.(row := Some(s.row.value.(delivering := true)));
      if write.Answered? then Go(s1, id, Fetch(s.row.value.retries)) else s1
    case FetchNamespace(id, ok) =>
      var n := s.places[id].retries;
      Go(s, id, if ok then Read(n) else LaterQueued(s.clock, n))
    case ReadFile(id, ok) =>
      var n := s.places[id].retries;
      Go(s, id, if ok then Compare(s.file, n, false) else LaterQueued(s.clock, n))
    case CompareClock(id) =>
      var Compare(found, n, raced) := s.places[id];
      Go(s, id, if found.Some? && found.value <= s.clock then Handle(found.value, n) else EarlyQueued(found, n, raced))
    case SettleEarly(id, write) =>
      Quit(Indexed(s, Alarm(s.places[id].found, s.places[id].retries), true, None, write), id)
    case Run(id, outcome) =>
      var Handle(at, n) := s.places[id];
      if outcome.Refused? then Go(s, id, LaterQueued(s.clock, n))
      else Go(s, id, EndQueued(at, n, outcome.Failed?)).(failures := s.failures + if outcome.Failed? then 1 else 0)
    case ReadAgain(id, ok) => Go(s, id, Decided(s, s.places[id], ok))
    case ClearFile(id, write) => FileCleared(s, id, write)
    case SettleEnd(id, write) => Quit(Indexed(s, s.places[id].alarm, true, s.places[id].since, write), id)
    case SettleLater(id, write) =>
      var LaterSettle(clock, n) := s.places[id];
      Quit(Indexed(s, Some((RetryAt(clock, 0), n)), true, Some(clock), write), id)
    case Crash => s.(places := map[], holder := None, cut := s.cut + |FailedRuns(s.places)|)
    case Reset => if s.row.Some? then s.(row := Some(s.row.value.(delivering := false))) else s
  }

  /** The handler of this delivery ran and failed. */
  predicate HasFailed(p: Place) { (p.EndQueued? || p.EndRead? || p.EndClear? || p.EndSettle?) && p.failed }

  function FailedRuns(places: map<Id, Place>): set<Id> { set i | i in places && HasFailed(places[i]) }

  /** A set changes the file: the deliveries that read it before are raced,
      unless the set only deletes the alarm. */
  function FileWritten(s: State, id: Id, write: Write): State
    requires Enabled(s, WriteFile(id, write))
  {
    var target := s.places[id].target;
    var s1 := if write.NotApplied? then s else
      s.(file := target,
         places := map i | i in s.places :: if target.Some? then Raced(s.places[i]) else s.places[i]);
    if write.Answered? then Go(s1, id, SetFollow(target)) else Quit(s1, id)
  }

  /** What a delivery does once it read the file again, under the lock. A file
      it cannot read counts as unchanged. */
  function Decided(s: State, p: Place, ok: bool): Place
    requires p.EndRead?
  {
    var current := if ok then s.file else Some(p.at);
    match Following(p.at, current, if p.failed then Some(p.retries + 1) else None, s.clock)
    case Clear => EndClear(p.at, p.retries, p.failed)
    case Keep(at, n) => EndSettle(Some((at, n)), if current == Some(p.at) then Some(s.clock) else None, p.failed)
  }

  function FileCleared(s: State, id: Id, write: Write): State
    requires Enabled(s, ClearFile(id, write))
  {
    var EndClear(at, n, failed) := s.places[id];
    var file := if write.NotApplied? then s.file else Cleared(s.file, at);
    var p := if write.Answered? then EndSettle(Alarm(file, 0), None, failed)
             else EndSettle(Some((RetryAt(s.clock, n), n)), Some(s.clock), failed);
    Go(s, id, p).(file := file)
  }

  ghost predicate IsRun(states: seq<State>, steps: seq<Step>) {
    && |states| == |steps| + 1
    && forall i :: 0 <= i < |steps| ==> Enabled(states[i], steps[i]) && states[i + 1] == Apply(states[i], steps[i])
  }

  // ---- An alarm is never lost, nor late without a bound ----

  /** A time the index is at, after a failed or deferred run. */
  ghost predicate Deferred(at: int, since: Option<int>, clock: int) {
    since.Some? && since.value <= clock && at <= since.value + LONGEST_WAIT
  }

  /** The index holds the alarm of the file at its time or earlier, or at most
      64 seconds after the clock of the run that deferred it. */
  ghost predicate Covered(s: State) {
    s.file.Some? ==>
      s.row.Some? && (s.row.value.at <= s.file.value || Deferred(s.row.value.at, s.since, s.clock))
  }

  /** One holder at most, and whoever is past its queue is the holder. */
  ghost predicate OneHolder(s: State) {
    && (s.holder.Some? ==> s.holder.value in s.places)
    && forall i :: i in s.places ==> (Holds(s.places[i]) <==> s.holder == Some(i))
  }

  /** What a call or a delivery knows of the stores where it is. */
  ghost predicate Knows(s: State, p: Place) {
    match p
    case SetFile(target) => target.Some? ==> s.row.Some? && s.row.value.at <= target.value
    case SetFollow(target) => s.file == target
    case EndSettle(alarm, since, _) =>
      s.file.Some? ==> alarm.Some? && (alarm.value.0 <= s.file.value || Deferred(alarm.value.0, since, s.clock))
    case LaterQueued(clock, _) => clock <= s.clock
    case LaterSettle(clock, _) => clock <= s.clock
    case _ => true
  }

  ghost predicate Inv(s: State) {
    Covered(s) && OneHolder(s) && forall i :: i in s.places ==> Knows(s, s.places[i])
  }

  /** An early settle, if it is applied, does not end a delivery that read a
      later alarm than the one the file holds by then, or none. */
  ghost predicate Harmless(s: State, step: Step) {
    step.SettleEarly? && Enabled(s, step) && !step.write.NotApplied? ==>
      s.file.None? || (s.places[step.id].found.Some? && s.places[step.id].found.value <= s.file.value)
  }

  lemma IndexKeepsInv(s: State, step: Step)
    requires Inv(s) && Enabled(s, step) && (step.Lower? || step.Follow?)
    ensures Inv(Apply(s, step))
  {
  }

  lemma WriteFileKeepsInv(s: State, id: Id, write: Write)
    requires Inv(s) && Enabled(s, WriteFile(id, write))
    ensures Inv(FileWritten(s, id, write))
  {
  }

  lemma SettleKeepsInv(s: State, step: Step)
    requires Inv(s) && Enabled(s, step) && Harmless(s, step)
    requires step.SettleEarly? || step.SettleEnd? || step.SettleLater?
    ensures Inv(Apply(s, step))
  {
    if step.SettleLater? {
      Backoff(s.places[step.id].clock, 0);
    }
  }

  lemma EndKeepsInv(s: State, step: Step)
    requires Inv(s) && Enabled(s, step) && (step.ReadAgain? || step.ClearFile?)
    ensures Inv(Apply(s, step))
  {
    Backoff(s.clock, s.places[step.id].retries);
    Backoff(s.clock, s.places[step.id].retries + 1);
  }

  lemma StepKeepsInv(s: State, step: Step)
    requires Inv(s) && Enabled(s, step) && Harmless(s, step)
    ensures Inv(Apply(s, step))
  {
    if step.Lower? || step.Follow? {
      IndexKeepsInv(s, step);
    } else if step.WriteFile? {
      WriteFileKeepsInv(s, step.id, step.write);
    } else if step.SettleEarly? || step.SettleEnd? || step.SettleLater? {
      SettleKeepsInv(s, step);
    } else if step.ReadAgain? || step.ClearFile? {
      EndKeepsInv(s, step);
    } else {
      OtherKeepsInv(s, step);
    }
  }

  /** A move outside the lock that changes no store. */
  lemma GoKeepsInv(s: State, id: Id, p: Place, failures: nat)
    requires Inv(s) && !Holds(p) && Knows(s, p) && (id in s.places ==> !Holds(s.places[id]))
    ensures Inv(Go(s, id, p).(failures := failures))
  {
  }

  lemma OtherKeepsInv(s: State, step: Step)
    requires Inv(s) && Enabled(s, step)
    requires !step.Lower? && !step.WriteFile? && !step.Follow? && !step.SettleEarly? && !step.SettleEnd?
    requires !step.SettleLater? && !step.ReadAgain? && !step.ClearFile?
    ensures Inv(Apply(s, step))
  {
    if step.Set? || step.FetchNamespace? || step.ReadFile? || step.CompareClock? || step.Run? {
      var s' := Apply(s, step);
      GoKeepsInv(s, step.id, s'.places[step.id], s'.failures);
    }
  }

  lemma {:induction false} RunKeepsInv(states: seq<State>, steps: seq<Step>, i: nat)
    requires IsRun(states, steps) && i < |states| && Inv(states[0])
    requires forall k :: 0 <= k < i ==> Harmless(states[k], steps[k])
    ensures Inv(states[i])
  {
    if i > 0 {
      RunKeepsInv(states, steps, i - 1);
      StepKeepsInv(states[i - 1], steps[i - 1]);
    }
  }

  /** No call and no delivery is under way, and the index is not later than
      the file. */
  ghost predicate AtRest(s: State) {
    |s.places| == 0 && s.holder.None? && (s.file.Some? ==> s.row.Some? && s.row.value.at <= s.file.value)
  }

  /** Whatever interleaving of sets, claims and deliveries, with failed writes
      and crashes anywhere, an alarm of the file stays in the index, at its time
      or earlier, or at most 64 seconds after the clock of a run that failed or
      was deferred, if and only if every early settle is harmless. */
  lemma CoveredExactly(states: seq<State>, steps: seq<Step>)
    requires IsRun(states, steps) && AtRest(states[0])
    ensures (forall i :: 0 <= i < |states| ==> Covered(states[i])) <==>
      (forall k :: 0 <= k < |steps| ==> Harmless(states[k], steps[k]))
  {
    if forall k :: 0 <= k < |steps| ==> Harmless(states[k], steps[k]) {
      forall i | 0 <= i < |states| ensures Covered(states[i]) {
        RunKeepsInv(states, steps, i);
      }
    } else {
      var k := FirstHarm(states, steps);
      RunKeepsInv(states, steps, k);
      assert !Covered(states[k + 1]);
    }
  }

  lemma FirstHarm(states: seq<State>, steps: seq<Step>) returns (k: nat)
    requires IsRun(states, steps)
    requires exists i :: 0 <= i < |steps| && !Harmless(states[i], steps[i])
    ensures k < |steps| && !Harmless(states[k], steps[k])
    ensures forall i :: 0 <= i < k ==> Harmless(states[i], steps[i])
  {
    k := 0;
    while Harmless(states[k], steps[k])
      invariant k < |steps| && forall i :: 0 <= i < k ==> Harmless(states[i], steps[i])
      decreases |steps| - k
    {
      k := k + 1;
    }
  }

  // ---- The window of a delivery that came early ----

  /** A delivery that no set raced knows the alarm of the file, if it has one. */
  ghost predicate Watches(s: State, p: Place) {
    (p.Compare? || p.EarlyQueued? || p.EarlySettle?) && !p.raced ==> s.file.None? || s.file == p.found
  }

  ghost predicate AllWatch(s: State) {
    forall i :: i in s.places ==> Watches(s, s.places[i])
  }

  lemma StepKeepsHolder(s: State, step: Step)
    requires OneHolder(s) && Enabled(s, step)
    ensures OneHolder(Apply(s, step))
  {
  }

  lemma StepKeepsWatch(s: State, step: Step)
    requires AllWatch(s) && OneHolder(s) && Enabled(s, step)
    ensures AllWatch(Apply(s, step))
  {
  }

  lemma {:induction false} RunKeepsWatch(states: seq<State>, steps: seq<Step>, i: nat)
    requires IsRun(states, steps) && i < |states| && AllWatch(states[0]) && OneHolder(states[0])
    ensures AllWatch(states[i]) && OneHolder(states[i])
  {
    if i > 0 {
      RunKeepsWatch(states, steps, i - 1);
      StepKeepsWatch(states[i - 1], steps[i - 1]);
      StepKeepsHolder(states[i - 1], steps[i - 1]);
    }
  }

  /** No early settle ends a delivery that a set of the alarm raced. */
  ghost predicate Undisturbed(s: State, step: Step) {
    step.SettleEarly? && Enabled(s, step) ==> !s.places[step.id].raced
  }

  /** So no alarm is lost while no set of it lands between the first read of a
      delivery, outside the lock, and its early settle. */
  lemma FileAlarmIsIndexed(states: seq<State>, steps: seq<Step>, i: nat)
    requires IsRun(states, steps) && i < |states| && AtRest(states[0])
    requires forall k :: 0 <= k < |steps| ==> Undisturbed(states[k], steps[k])
    ensures states[i].file.Some? ==> states[i].row.Some?
    ensures states[i].file.Some? ==>
      || states[i].row.value.at <= states[i].file.value
      || (states[i].since.Some? && states[i].since.value <= states[i].clock
          && states[i].row.value.at <= states[i].since.value + LONGEST_WAIT)
  {
    forall k | 0 <= k < |steps| ensures Harmless(states[k], steps[k]) {
      RunKeepsWatch(states, steps, k);
    }
    CoveredExactly(states, steps);
    assert Covered(states[i]);
  }

  lemma Then(states: seq<State>, steps: seq<Step>, step: Step) returns (states': seq<State>, steps': seq<Step>)
    requires IsRun(states, steps) && Enabled(states[|steps|], step)
    ensures IsRun(states', steps') && states'[0] == states[0]
    ensures states'[|steps'|] == Apply(states[|steps|], step) && steps' == steps + [step]
  {
    states', steps' := states + [Apply(states[|steps|], step)], steps + [step];
  }

  /** A delivery that came early read a file without an alarm. */
  lemma AnEarlyDelivery() returns (states: seq<State>, steps: seq<Step>)
    ensures IsRun(states, steps) && AtRest(states[0])
    ensures states[|steps|] ==
      State(None, Some(Row(5, 0, true)), None, 10, None, map[1 := EarlyQueued(None, 0, false)], 0, 0)
  {
    states, steps := [State(None, Some(Row(5, 0, false)), None, 10, None, map[], 0, 0)], [];
    states, steps := Then(states, steps, Claim(1, Answered));
    states, steps := Then(states, steps, FetchNamespace(1, true));
    states, steps := Then(states, steps, ReadFile(1, true));
    states, steps := Then(states, steps, CompareClock(1));
  }

  /** The alarm is set meanwhile, in the file and in the index. */
  lemma ASetInTheWindow() returns (states: seq<State>, steps: seq<Step>)
    ensures IsRun(states, steps) && AtRest(states[0])
    ensures states[|steps|] ==
      State(Some(50), Some(Row(50, 0, true)), None, 10, None, map[1 := EarlyQueued(None, 0, true)], 0, 0)
  {
    states, steps := AnEarlyDelivery();
    states, steps := Then(states, steps, Set(2, Some(50)));
    states, steps := Then(states, steps, Lock(2));
    states, steps := Then(states, steps, Lower(2, Answered));
    states, steps := Then(states, steps, WriteFile(2, Answered));
    states, steps := Then(states, steps, Follow(2, Answered));
  }

  /** A run in which an alarm is lost: the delivery deletes the row of the alarm
      that was set after it read the file. */
  lemma ASetInTheWindowIsLost() returns (states: seq<State>, steps: seq<Step>)
    ensures IsRun(states, steps) && AtRest(states[0])
    ensures var end := states[|steps|]; end.file == Some(50) && end.row.None? && end.places == map[]
  {
    states, steps := ASetInTheWindow();
    states, steps := Then(states, steps, Lock(1));
    states, steps := Then(states, steps, SettleEarly(1, Answered));
  }
}
