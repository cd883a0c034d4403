/** Every run of one database over any number of runners, which share the
    recorded snapshots and nothing else: calls that commit, the eviction of its
    entry, snapshot passes, resets to the last snapshot, and new runners, each
    of which fences the ones before it. The other databases meet it only by
    having its entry evicted, which can happen at any time here. A runner that
    ends just takes no further step.

    A commit is counted by a hook just before it reaches the file, so counting
    and committing are two steps. So are the two halves of a reset: the entry
    goes under the lock of the map, and the files move after it. */
module SnapshotRuns {
  import opened Wrappers

  /** A commit, by the runner and the entry that counted it and its count there. */
  datatype Commit = Commit(runner: nat, entry: nat, count: nat)

  type History = seq<Commit>

  /** No connection, one to the file, or one whose file was moved aside. */
  datatype Connection = Closed | ToFile | Aside

  /** The entry of the database in the map of a runner. `callers` and `held` are
      the references to it beside that of the map: calls, and the snapshot pass. */
  datatype Entry = Entry(id: nat, commits: nat, saved: nat, callers: nat, held: bool, connection: Connection)

  /** Where the snapshot pass is, for this database. */
  datatype Pass =
    | Idle
    | Listed
    | Loaded(covered: nat)
    | Copied(covered: nat, copy: History)
    | Recorded(covered: nat)

  /** `file` are the commits of the file, none if it is missing; `counted` tells
      whether a commit is counted and not yet in the file; `resetting` tells
      whether a reset has removed the entry and not yet moved the file. */
  datatype Runner = Runner(
    entry: Option<Entry>,
    file: Option<History>,
    counted: bool,
    pass: Pass,
    resetting: bool,
    next: nat)

  /** `runners[e]` is the runner of epoch `e`, so the last one has the latest
      epoch; `rows` are the contents of the recorded snapshots, newest first.
      `made` are the commits callers were told of, `saved` those a pass stored
      as saved, and `discarded` those a reset gave up. */
  datatype State = State(
    runners: seq<Runner>,
    rows: seq<History>,
    made: set<Commit>,
    saved: set<Commit>,
    discarded: set<Commit>)

  datatype Action =
    | Call
    | Open
    | CountCommit
    | EndCommit(ok: bool)
    | Return
    | Evict
    | BeginReset
    | EndReset(moved: bool)
    | List
    | Load
    | Copy
    | Record(write: Write)
    | Forget(row: nat)
    | Store
    | FailPass

  /** A runner starts, with the file it finds, or does something. */
  datatype Step = Start(file: Option<History>) | Act(r: nat, action: Action)

  predicate Unsaved(e: Entry) { e.commits != e.saved }

  /** Only the map refers to the entry. */
  predicate Alone(e: Entry) { e.callers == 0 && !e.held }

  /** What a restore gives: the newest snapshot, or an empty database. */
  function Top(rows: seq<History>): History { if rows == [] then [] else rows[0] }

  predicate CanAct(x: Runner, rows: seq<History>, a: Action) {
    match a
    case Call => true
    case Open => x.entry.Some? && x.entry.value.callers > 0 && x.entry.value.connection.Closed?
    case CountCommit =>
      x.entry.Some? && x.entry.value.callers > 0 && !x.entry.value.connection.Closed? && !x.counted
    case EndCommit(_) => x.entry.Some? && x.counted && (x.entry.value.connection.ToFile? ==> x.file.Some?)
    case Return => x.entry.Some? && x.entry.value.callers > if x.counted then 1 else 0
    case Evict => x.entry.Some? && Alone(x.entry.value)
    case BeginReset => !x.resetting && (x.entry.Some? ==> Alone(x.entry.value))
    case EndReset(_) => x.resetting
    case List => x.pass.Idle? && x.entry.Some? && Unsaved(x.entry.value)
    case Load => x.pass.Listed? && x.entry.Some?
    case Copy => x.pass.Loaded? && x.file.Some?
    case Record(_) => x.pass.Copied? && x.entry.Some?
    case Forget(i) => x.pass.Recorded? && 1 <= i < |rows|
    case Store => x.pass.Recorded? && x.entry.Some?
    case FailPass => !x.pass.Idle? && x.entry.Some?
  }

  function With(x: Runner, e: Entry): Runner { x.(entry := Some(e)) }

  /** The runner `r` after an action of its own. */
  function Acted(r: nat, x: Runner, rows: seq<History>, a: Action): Runner
    requires CanAct(x, rows, a)
  {
    match a
    case Call =>
      // The entry of the map, or a new one
      if x.entry.Some? then With(x, x.entry.value.(callers := x.entry.value.callers + 1))
      else With(x, Entry(x.next, 0, 0, 1, false, Closed)).(next := x.next + 1)
    case Open =>
      With(x, x.entry.value.(connection := ToFile)).(file := Some(if x.file.Some? then x.file.value else Top(rows)))
    case CountCommit => With(x, x.entry.value.(commits := x.entry.value.commits + 1)).(counted := true)
    case EndCommit(ok) =>
      // A connection whose file moved commits there
      var written := ok && x.entry.value.connection.ToFile?;
      x.(counted := false, file := if written then Some(x.file.value + [Next(r, x.entry.value)]) else x.file)
    case Return => With(x, x.entry.value.(callers := x.entry.value.callers - 1))
    case Evict =>
      if Unsaved(x.entry.value) then With(x, x.entry.value.(connection := Closed)) else x.(entry := None)
    case BeginReset => x.(entry := None, resetting := true)
    case EndReset(moved) => if moved then Moved(x).(resetting := false) else x.(resetting := false)
    case List => With(x, x.entry.value.(held := true)).(pass := Listed)
    case Load => x.(pass := Loaded(x.entry.value.commits))
    case Copy => x.(pass := Copied(x.pass.covered, x.file.value))
    case Record(write) =>
      if write.Answered? then x.(pass := Recorded(x.pass.covered))
      else With(x, x.entry.value.(held := false)).(pass := Idle)
    case Forget(_) => x
    case Store => With(x, x.entry.value.(saved := x.pass.covered, held := false)).(pass := Idle)
    case FailPass => With(x, x.entry.value.(held := false)).(pass := Idle)
  }

  /** The commit that an entry has counted last. */
  function Next(r: nat, e: Entry): Commit { Commit(r, e.id, e.commits) }

  /** The file is moved aside, with whoever has it open. */
  function Moved(x: Runner): Runner {
    if x.entry.Some? && x.entry.value.connection.ToFile? then
      With(x, x.entry.value.(connection := Aside)).(file := None)
    else x.(file := None)
  }

  function RowsAfter(x: Runner, rows: seq<History>, a: Action): seq<History>
    requires CanAct(x, rows, a)
  {
    match a
    case Record(write) => if write.NotApplied? then rows else [x.pass.copy] + rows
    case Forget(i) => rows[..i] + rows[i + 1..]
    case _ => rows
  }

  function MadeBy(r: nat, x: Runner, a: Action): set<Commit>
    requires a.EndCommit? ==> x.entry.Some?
  {
    if a == EndCommit(true) then {Next(r, x.entry.value)} else {}
  }

  /** A commit of the entry `id` of the runner `r`. */
  predicate Of(c: Commit, r: nat, id: nat) { c.runner == r && c.entry == id }

  function SavedBy(r: nat, x: Runner, made: set<Commit>, a: Action): set<Commit>
    requires a.Store? ==> x.entry.Some? && x.pass.Recorded?
  {
    if a.Store? then set c | c in made && Of(c, r, x.entry.value.id) && c.count <= x.pass.covered else {}
  }

  function DiscardedBy(r: nat, rows: seq<History>, made: set<Commit>, a: Action): set<Commit> {
    if a.BeginReset? then set c | c in made && c.runner == r && c !in Top(rows) else {}
  }

  /** A file holds commits that were made. */
  predicate Enabled(s: State, step: Step) {
    match step
    case Start(file) => file.Some? ==> forall c :: c in file.value ==> c in s.made
    case Act(r, a) => r < |s.runners| && CanAct(s.runners[r], s.rows, a)
  }

  function Apply(s: State, step: Step): State
    requires Enabled(s, step)
  {
    match step
    case Start(file) => s.(runners := s.runners + [Runner(None, file, false, Idle, false, 0)])
    case Act(r, a) =>
      var x := s.runners[r];
      State(s.runners[r := Acted(r, x, s.rows, a)],
            RowsAfter(x, s.rows, a),
            s.made + MadeBy(r, x, a),
            s.saved + SavedBy(r, x, s.made, a),
            s.discarded + DiscardedBy(r, s.rows, s.made, a))
  }

  /** The fence: the index takes a row from the runner of the latest epoch only. */
  predicate Fenced(s: State, step: Step) {
    step.Act? && step.action.Record? && !step.action.write.NotApplied? ==> step.r == |s.runners| - 1
  }

  /** Steps from the first start on, fenced or not. */
  ghost predicate Steps(states: seq<State>, steps: seq<Step>) {
    && |states| == |steps| + 1
    && |states[0].runners| == |states[0].rows| == |states[0].made| == |states[0].saved| == |states[0].discarded| == 0
    && forall i :: 0 <= i < |steps| ==> Enabled(states[i], steps[i]) && states[i + 1] == Apply(states[i], steps[i])
  }

  ghost predicate Run(states: seq<State>, steps: seq<Step>) {
    Steps(states, steps) && forall i :: 0 <= i < |steps| ==> Fenced(states[i], steps[i])
  }

  // ---- What the code does not rule out ----

  predicate IsNewest(s: State, r: nat) { r == |s.runners| - 1 }

  /** A copy of the newest runner misses no commit that the pass counts as
      covered: none that was counted before the count was read is still on its
      way to the file. */
  predicate Clean(s: State, step: Step) {
    step.Act? && step.action.Copy? && IsNewest(s, step.r) ==>
      var x := s.runners[step.r];
      x.pass.Loaded? && x.entry.Some? && x.counted ==> x.entry.value.commits != x.pass.covered
  }

  /** No call of the newest runner comes between the two halves of a reset. */
  predicate Undisturbed(s: State, step: Step) {
    step.Act? && step.action.Call? && IsNewest(s, step.r) ==> !s.runners[step.r].resetting
  }

  /** A commit that is stored as saved, or that a recorded pass is about to
      store. */
  predicate IsPromised(s: State, c: Commit) {
    c in s.saved || (c in s.made && c.runner < |s.runners| && Pending(s.runners[c.runner], c))
  }

  predicate Pending(x: Runner, c: Commit) {
    x.pass.Recorded? && x.entry.Some? && x.entry.value.id == c.entry && c.count <= x.pass.covered
  }

  /** A runner starts without a file, or with one that holds what is promised. */
  ghost predicate Holding(s: State, step: Step) {
    step.Start? && step.file.Some? ==> forall c :: IsPromised(s, c) ==> c in step.file.value
  }

  /** A runner starts without a file, or with one that begins with the newest
      snapshot. */
  predicate Current(s: State, step: Step) {
    step.Start? && step.file.Some? ==> Top(s.rows) <= step.file.value
  }

  /** What saved commits need. */
  ghost predicate Sound(s: State, step: Step) { Clean(s, step) && Undisturbed(s, step) && Holding(s, step) }

  /** What the order of the snapshots needs, too. */
  predicate Safe(s: State, step: Step) { Clean(s, step) && Undisturbed(s, step) && Current(s, step) }

  /** A commit that a pass stored as saved, and that no restore would give back. */
  predicate Lost(s: State, c: Commit) { c in s.saved && c !in Top(s.rows) }

  /** The newest runner has the newest snapshot in its file, if it has one. */
  predicate FileHasTop(s: State) {
    s.runners != [] && s.runners[|s.runners| - 1].file.Some? ==>
      Top(s.rows) <= s.runners[|s.runners| - 1].file.value
  }

  // ---- What every sound step keeps ----

  /** Of the commits of the entry `id`, those counted up to `n` are in `h`. */
  ghost predicate Holds(h: History, made: set<Commit>, r: nat, id: nat, n: nat) {
    forall c :: c in made && Of(c, r, id) && c.count <= n ==> c in h
  }

  /** The entry of the runner `r`, and the counts of its commits. */
  ghost predicate GoodEntry(r: nat, x: Runner, made: set<Commit>, saved: set<Commit>) {
    && (forall c :: c in made && c.runner == r ==> c.entry < x.next)
    && (x.counted ==> x.entry.Some? && x.entry.value.callers > 0 && x.entry.value.saved < x.entry.value.commits)
    && (x.entry.Some? ==>
          var e := x.entry.value;
          && e.id < x.next && e.saved <= e.commits
          && (forall c :: c in made && Of(c, r, e.id) ==>
                && 0 < c.count <= e.commits && (x.counted ==> c.count < e.commits)
                && (c.count <= e.saved ==> c in saved)))
  }

  /** What the pass of a runner has in hand. */
  ghost predicate GoodPass(x: Runner) {
    !x.pass.Idle? ==>
      && x.entry.Some? && x.entry.value.held
      && (!x.pass.Listed? ==> x.pass.covered <= x.entry.value.commits)
      && (x.pass.Recorded? && x.counted ==> x.pass.covered < x.entry.value.commits)
  }

  ghost predicate OnlyMade(h: History, made: set<Commit>) {
    forall c :: c in h ==> c in made
  }

  ghost predicate Known(x: Runner, made: set<Commit>) {
    && (x.file.Some? ==> OnlyMade(x.file.value, made))
    && (x.pass.Copied? ==> OnlyMade(x.pass.copy, made))
  }

  ghost predicate Good(r: nat, x: Runner, made: set<Commit>, saved: set<Commit>) {
    GoodEntry(r, x, made, saved) && GoodPass(x) && Known(x, made)
  }

  /** The newest runner has the commits of its entry in its file, and those that
      its pass covers in its copy. */
  ghost predicate GoodNewest(r: nat, x: Runner, made: set<Commit>) {
    && (x.counted ==> x.entry.Some? && x.entry.value.connection.ToFile?)
    && (x.entry.Some? ==>
          var e := x.entry.value;
          && !e.connection.Aside? && !x.resetting
          && if x.file.None? then e.connection.Closed? && e.commits == 0
             else Holds(x.file.value, made, r, e.id, e.commits))
    && (x.pass.Copied? && x.entry.Some? ==>
          && x.file.Some? && x.pass.copy <= x.file.value
          && Holds(x.pass.copy, made, r, x.entry.value.id, x.pass.covered)
          && (x.counted ==> x.pass.covered < x.entry.value.commits))
  }

  /** A promised commit is in the newest snapshot, and in what the newest runner
      can record. */
  ghost predicate Kept(s: State, c: Commit) {
    && c in Top(s.rows)
    && (s.runners != [] ==>
          var x := s.runners[|s.runners| - 1];
          (x.file.Some? ==> c in x.file.value) && (x.pass.Copied? ==> c in x.pass.copy))
  }

  ghost predicate Inv(s: State) {
    && OnlyMade(Top(s.rows), s.made)
    && (forall c :: c in s.made ==> c.runner < |s.runners|)
    && (forall r :: 0 <= r < |s.runners| ==> Good(r, s.runners[r], s.made, s.saved))
    && (s.runners != [] ==> GoodNewest(|s.runners| - 1, s.runners[|s.runners| - 1], s.made))
    && (forall c :: IsPromised(s, c) ==> Kept(s, c))
  }

  lemma InPrefix(a: History, b: History)
    requires a <= b
    ensures forall c :: c in a ==> c in b
  {
    assert forall i :: 0 <= i < |a| ==> a[i] == b[i];
  }

  /** What holds of a runner stays while others commit and save. */
  lemma GoodStays(r: nat, x: Runner, made: set<Commit>, saved: set<Commit>, made': set<Commit>, saved': set<Commit>)
    requires Good(r, x, made, saved)
    requires forall c :: c in made ==> c in made'
    requires forall c :: c in saved ==> c in saved'
    requires forall c :: c in made' && c.runner == r ==> c in made
    ensures Good(r, x, made', saved')
  {
  }

  predicate Serves(a: Action) {
    a.Call? || a.Open? || a.CountCommit? || a.EndCommit? || a.Return? || a.Evict?
  }

  lemma ServingIsGood(r: nat, x: Runner, made: set<Commit>, saved: set<Commit>, rows: seq<History>, a: Action)
    requires Good(r, x, made, saved) && OnlyMade(Top(rows), made) && CanAct(x, rows, a) && Serves(a)
    ensures Good(r, Acted(r, x, rows, a), made + MadeBy(r, x, a), saved)
  {
  }

  lemma PassingIsGood(r: nat, x: Runner, made: set<Commit>, saved: set<Commit>, rows: seq<History>, a: Action)
    requires Good(r, x, made, saved) && CanAct(x, rows, a) && !Serves(a)
    requires a == Record(Answered) && x.counted ==> x.pass.covered < x.entry.value.commits
    ensures Good(r, Acted(r, x, rows, a), made, saved + SavedBy(r, x, made, a))
  {
  }

  lemma ActingIsGood(r: nat, x: Runner, made: set<Commit>, saved: set<Commit>, rows: seq<History>, a: Action)
    requires Good(r, x, made, saved) && OnlyMade(Top(rows), made) && CanAct(x, rows, a)
    requires a == Record(Answered) && x.counted ==> x.pass.covered < x.entry.value.commits
    ensures Good(r, Acted(r, x, rows, a), made + MadeBy(r, x, a), saved + SavedBy(r, x, made, a))
  {
    if Serves(a) {
      ServingIsGood(r, x, made, saved, rows, a);
      assert saved + SavedBy(r, x, made, a) == saved;
    } else {
      PassingIsGood(r, x, made, saved, rows, a);
      assert made + MadeBy(r, x, a) == made;
    }
  }

  lemma ServingIsNewest(r: nat, x: Runner, made: set<Commit>, saved: set<Commit>, rows: seq<History>, a: Action)
    requires Good(r, x, made, saved) && GoodNewest(r, x, made) && CanAct(x, rows, a) && Serves(a)
    requires a.Call? ==> !x.resetting
    ensures GoodNewest(r, Acted(r, x, rows, a), made + MadeBy(r, x, a))
  {
  }

  lemma PassingIsNewest(r: nat, x: Runner, made: set<Commit>, saved: set<Commit>, rows: seq<History>, a: Action)
    requires Good(r, x, made, saved) && GoodNewest(r, x, made) && CanAct(x, rows, a) && !Serves(a)
    requires a.Copy? && x.entry.Some? && x.counted ==> x.entry.value.commits != x.pass.covered
    ensures GoodNewest(r, Acted(r, x, rows, a), made)
  {
  }

  lemma ActKeepsNewest(s: State, r: nat, a: Action)
    requires Inv(s) && Enabled(s, Act(r, a)) && Clean(s, Act(r, a)) && Undisturbed(s, Act(r, a))
    ensures var s' := Apply(s, Act(r, a)); GoodNewest(|s'.runners| - 1, s'.runners[|s'.runners| - 1], s'.made)
  {
    var q := |s.runners| - 1;
    if r != q {
      assert forall c :: c in Apply(s, Act(r, a)).made && c.runner == q ==> c in s.made;
    } else if Serves(a) {
      ServingIsNewest(r, s.runners[r], s.made, s.saved, s.rows, a);
    } else {
      PassingIsNewest(r, s.runners[r], s.made, s.saved, s.rows, a);
      assert s.made + MadeBy(r, s.runners[r], a) == s.made;
    }
  }

  /** Only an applied record promises more: what its copy covers. */
  lemma PromisesComeFromRecords(s: State, r: nat, a: Action, c: Commit)
    requires Inv(s) && Enabled(s, Act(r, a)) && Fenced(s, Act(r, a)) && IsPromised(Apply(s, Act(r, a)), c)
    ensures IsPromised(s, c) || (a == Record(Answered) && c in s.runners[r].pass.copy)
  {
    assert Good(r, s.runners[r], s.made, s.saved);
    if c.runner != r {
      assert c in Apply(s, Act(r, a)).saved <==> c in s.saved;
    }
  }

  /** So what is promised stays. */
  lemma ActKeepsPromises(s: State, r: nat, a: Action, c: Commit)
    requires Inv(s) && Enabled(s, Act(r, a)) && Fenced(s, Act(r, a)) && IsPromised(Apply(s, Act(r, a)), c)
    ensures Kept(Apply(s, Act(r, a)), c)
  {
    PromisesComeFromRecords(s, r, a, c);
    var x := s.runners[r];
    assert Good(r, x, s.made, s.saved);
    if IsPromised(s, c) {
      assert Kept(s, c);
    }
    if IsNewest(s, r) && x.pass.Copied? {
      InPrefix(x.pass.copy, x.file.value);
    }
  }

  lemma ActKeepsInv(s: State, r: nat, a: Action)
    requires Inv(s) && Enabled(s, Act(r, a)) && Fenced(s, Act(r, a))
    requires Clean(s, Act(r, a)) && Undisturbed(s, Act(r, a))
    ensures Inv(Apply(s, Act(r, a)))
  {
    var s', x := Apply(s, Act(r, a)), s.runners[r];
    ActingIsGood(r, x, s.made, s.saved, s.rows, a);
    forall q | 0 <= q < |s'.runners| ensures Good(q, s'.runners[q], s'.made, s'.saved) {
      if q != r {
        GoodStays(q, s.runners[q], s.made, s.saved, s'.made, s'.saved);
      }
    }
    ActKeepsNewest(s, r, a);
    forall c | IsPromised(s', c) ensures Kept(s', c) {
      ActKeepsPromises(s, r, a, c);
    }
  }

  lemma StartKeepsInv(s: State, file: Option<History>)
    requires Inv(s) && Enabled(s, Start(file)) && Holding(s, Start(file))
    ensures Inv(Apply(s, Start(file)))
  {
    var s', r := Apply(s, Start(file)), |s.runners|;
    assert forall q :: 0 <= q < r ==> s'.runners[q] == s.runners[q];
    assert Good(r, s'.runners[r], s'.made, s'.saved);
    forall c | IsPromised(s', c) ensures Kept(s', c) {
      assert IsPromised(s, c) && Kept(s, c);
    }
  }

  lemma StepKeepsInv(s: State, step: Step)
    requires Inv(s) && Enabled(s, step) && Fenced(s, step) && Sound(s, step)
    ensures Inv(Apply(s, step))
  {
    match step
    case Start(file) => StartKeepsInv(s, file);
    case Act(r, a) => ActKeepsInv(s, r, a);
  }

  lemma {:induction false} RunKeepsInv(states: seq<State>, steps: seq<Step>, i: nat)
    requires Run(states, steps) && i < |states|
    requires forall k :: 0 <= k < i ==> Sound(states[k], steps[k])
    ensures Inv(states[i])
  {
    if i > 0 {
      RunKeepsInv(states, steps, i - 1);
      StepKeepsInv(states[i - 1], steps[i - 1]);
    }
  }

  /** The entry of the runner `r` counts the commit `c` as saved. */
  predicate IsSaved(s: State, r: nat, c: Commit)
    requires r < |s.runners|
  {
    var entry := s.runners[r].entry;
    entry.Some? && Of(c, r, entry.value.id) && c.count <= entry.value.saved
  }

  /** Whichever step of a save failed, and whichever runner was fenced out: the
      newest snapshot holds every commit that any runner, of any epoch, ever
      stored as saved, and that an entry counts as saved now. */
  lemma SavedIsHeld(states: seq<State>, steps: seq<Step>, i: nat)
    requires Run(states, steps) && i < |states|
    requires forall k :: 0 <= k < i ==> Sound(states[k], steps[k])
    ensures var s := states[i];
      && (forall c :: !Lost(s, c))
      && (forall r, c :: 0 <= r < |s.runners| && c in s.made && IsSaved(s, r, c) ==> s.rows != [] && c in s.rows[0])
  {
    RunKeepsInv(states, steps, i);
    var s := states[i];
    forall c ensures !Lost(s, c) {
      assert IsPromised(s, c) ==> Kept(s, c);
    }
    forall r, c | 0 <= r < |s.runners| && c in s.made && IsSaved(s, r, c) ensures s.rows != [] && c in s.rows[0] {
      assert Good(r, s.runners[r], s.made, s.saved);
      assert IsPromised(s, c) && Kept(s, c);
    }
  }

  // ---- What every safe step keeps ----

  /** An older snapshot is a part of a newer one. */
  ghost predicate Nested(rows: seq<History>) {
    forall i, j :: 0 <= i <= j < |rows| ==> rows[j] <= rows[i]
  }

  /** The newest runner has the newest snapshot in its file, and in its copy. */
  ghost predicate Extends(x: Runner, top: History) {
    && (x.file.Some? ==> top <= x.file.value)
    && (x.pass.Copied? ==> x.file.Some? && top <= x.pass.copy <= x.file.value)
  }

  /** The entry counts the commit `c`, and not as saved. */
  predicate Keeps(x: Runner, c: Commit) {
    x.entry.Some? && x.entry.value.id == c.entry && x.entry.value.saved < c.count
  }

  /** A commit is in the newest snapshot, or given up, or kept as unsaved. */
  ghost predicate Accounted(s: State) {
    forall c :: c in s.made ==>
      c.runner < |s.runners| && (c in Top(s.rows) || c in s.discarded || Keeps(s.runners[c.runner], c))
  }

  ghost predicate Ordered(s: State) {
    && Inv(s) && Nested(s.rows) && Accounted(s)
    && (s.runners != [] ==> Extends(s.runners[|s.runners| - 1], Top(s.rows)))
  }

  /** A current file holds what is promised. */
  lemma SafeIsSound(s: State, step: Step)
    requires Inv(s) && Safe(s, step)
    ensures Sound(s, step)
  {
    if step.Start? && step.file.Some? {
      InPrefix(Top(s.rows), step.file.value);
      forall c | IsPromised(s, c) ensures c in step.file.value {
        assert Kept(s, c);
      }
    }
  }

  lemma ExtendsStays(r: nat, x: Runner, made: set<Commit>, rows: seq<History>, a: Action)
    requires GoodNewest(r, x, made) && GoodPass(x) && Extends(x, Top(rows)) && CanAct(x, rows, a)
    ensures Extends(Acted(r, x, rows, a), Top(RowsAfter(x, rows, a)))
  {
  }

  /** The newest snapshot grows, and an older one goes on being a part of it. */
  lemma RowsStayNested(x: Runner, rows: seq<History>, a: Action)
    requires Nested(rows) && CanAct(x, rows, a)
    requires a.Record? && !a.write.NotApplied? ==> Top(rows) <= x.pass.copy
    ensures Nested(RowsAfter(x, rows, a)) && Top(rows) <= Top(RowsAfter(x, rows, a))
  {
    if a.Record? && !a.write.NotApplied? {
      var rows' := [x.pass.copy] + rows;
      forall j | 0 <= j < |rows'| ensures rows'[j] <= rows'[0] {
        assert j > 0 ==> rows'[j] == rows[j - 1] && rows[j - 1] <= rows[0];
      }
    } else if a.Forget? {
      var rows' := rows[..a.row] + rows[a.row + 1..];
      assert forall j :: 0 <= j < |rows'| ==> rows'[j] == rows[if j < a.row then j else j + 1];
    }
  }

  /** A commit that an entry kept as unsaved is kept, or saved, or given up. */
  lemma KeptStaysAccounted(s: State, r: nat, a: Action, c: Commit)
    requires Ordered(s) && Enabled(s, Act(r, a)) && Fenced(s, Act(r, a)) && c in s.made && c.runner == r
    requires Keeps(s.runners[r], c) && Top(s.rows) <= Top(RowsAfter(s.runners[r], s.rows, a))
    ensures var s' := Apply(s, Act(r, a));
      c in Top(s'.rows) || c in s'.discarded || Keeps(s'.runners[r], c)
  {
    InPrefix(Top(s.rows), Top(RowsAfter(s.runners[r], s.rows, a)));
    assert Good(r, s.runners[r], s.made, s.saved);
    if a.Store? && c.count <= s.runners[r].pass.covered {
      assert IsPromised(s, c) && Kept(s, c);
    }
  }

  lemma ActKeepsAccounted(s: State, r: nat, a: Action)
    requires Ordered(s) && Enabled(s, Act(r, a)) && Fenced(s, Act(r, a))
    requires Top(s.rows) <= Top(RowsAfter(s.runners[r], s.rows, a))
    ensures Accounted(Apply(s, Act(r, a)))
  {
    var s' := Apply(s, Act(r, a));
    InPrefix(Top(s.rows), Top(s'.rows));
    forall c | c in s'.made
      ensures c.runner < |s'.runners| && (c in Top(s'.rows) || c in s'.discarded || Keeps(s'.runners[c.runner], c))
    {
      if c in s.made && c.runner == r && Keeps(s.runners[r], c) {
        KeptStaysAccounted(s, r, a, c);
      } else if c !in s.made {
        assert Good(r, s.runners[r], s.made, s.saved);
      }
    }
  }

  lemma ActKeepsOrdered(s: State, r: nat, a: Action)
    requires Ordered(s) && Enabled(s, Act(r, a)) && Fenced(s, Act(r, a)) && Safe(s, Act(r, a))
    ensures Ordered(Apply(s, Act(r, a))) && Top(s.rows) <= Top(Apply(s, Act(r, a)).rows)
  {
    var s', q := Apply(s, Act(r, a)), |s.runners| - 1;
    ActKeepsInv(s, r, a);
    RowsStayNested(s.runners[r], s.rows, a);
    ActKeepsAccounted(s, r, a);
    if r == q {
      assert Good(r, s.runners[r], s.made, s.saved);
      ExtendsStays(r, s.runners[r], s.made, s.rows, a);
    } else {
      assert Top(s'.rows) == Top(s.rows);
    }
  }

  lemma StepKeepsOrdered(s: State, step: Step)
    requires Ordered(s) && Enabled(s, step) && Fenced(s, step) && Safe(s, step)
    ensures Ordered(Apply(s, step)) && Top(s.rows) <= Top(Apply(s, step).rows)
  {
    match step
    case Start(file) =>
      SafeIsSound(s, step);
      StartKeepsInv(s, file);
      assert forall q :: 0 <= q < |s.runners| ==> Apply(s, step).runners[q] == s.runners[q];
    case Act(r, a) => ActKeepsOrdered(s, r, a);
  }

  lemma {:induction false} RunKeepsOrdered(states: seq<State>, steps: seq<Step>, i: nat)
    requires Run(states, steps) && i < |states|
    requires forall k :: 0 <= k < i ==> Safe(states[k], steps[k])
    ensures Ordered(states[i])
  {
    if i > 0 {
      RunKeepsOrdered(states, steps, i - 1);
      StepKeepsOrdered(states[i - 1], steps[i - 1]);
    }
  }

  /** In a safe run, moreover, every recorded snapshot is a beginning of the
      history of the newest runner. So a restore of a lost file loses only later
      commits. */
  lemma PrefixDurability(states: seq<State>, steps: seq<Step>, i: nat)
    requires Run(states, steps) && i < |states|
    requires forall k :: 0 <= k < i ==> Safe(states[k], steps[k])
    ensures var s := states[i];
      && (forall c :: !Lost(s, c))
      && (forall r, c :: 0 <= r < |s.runners| && c in s.made && IsSaved(s, r, c) ==> s.rows != [] && c in s.rows[0])
      && (s.runners != [] && s.runners[|s.runners| - 1].file.Some? ==>
            forall k :: 0 <= k < |s.rows| ==> s.rows[k] <= s.runners[|s.runners| - 1].file.value)
  {
    forall k | 0 <= k < i ensures Sound(states[k], steps[k]) {
      RunKeepsOrdered(states, steps, k);
      SafeIsSound(states[k], steps[k]);
    }
    SavedIsHeld(states, steps, i);
    RunKeepsOrdered(states, steps, i);
  }

  /** A newest snapshot holds every newest snapshot before it. */
  lemma {:induction false} SnapshotsGrow(states: seq<State>, steps: seq<Step>, i: nat, j: nat)
    requires Run(states, steps) && i <= j < |states|
    requires forall k :: 0 <= k < j ==> Safe(states[k], steps[k])
    ensures Top(states[i].rows) <= Top(states[j].rows)
    decreases j
  {
    if i < j {
      SnapshotsGrow(states, steps, i, j - 1);
      RunKeepsOrdered(states, steps, j - 1);
      StepKeepsOrdered(states[j - 1], steps[j - 1]);
    }
  }

  lemma {:induction false} SavedGrows(states: seq<State>, steps: seq<Step>, i: nat, j: nat)
    requires Steps(states, steps) && i <= j < |states|
    ensures states[i].saved <= states[j].saved
    decreases j
  {
    if i < j {
      SavedGrows(states, steps, i, j - 1);
    }
  }

  /** What a pass stored as saved is in the newest snapshot for good, whichever
      runners start, fail or reset the database afterwards. */
  lemma SavedForGood(states: seq<State>, steps: seq<Step>, i: nat, j: nat, c: Commit)
    requires Run(states, steps) && i <= j < |states| && c in states[i].saved
    requires forall k :: 0 <= k < j ==> Sound(states[k], steps[k])
    ensures c in Top(states[j].rows)
  {
    SavedGrows(states, steps, i, j);
    SavedIsHeld(states, steps, j);
    assert !Lost(states[j], c);
  }

  /** A commit that the newest snapshot lacks and no reset gave up keeps the
      entry of its database in the map of its runner, counted as unsaved,
      through every eviction and reopening: the next pass lists it. */
  lemma UnsavedCommitKeepsItsEntry(states: seq<State>, steps: seq<Step>, i: nat, c: Commit)
    requires Run(states, steps) && i < |states|
    requires forall k :: 0 <= k < i ==> Safe(states[k], steps[k])
    requires c in states[i].made && c !in Top(states[i].rows) && c !in states[i].discarded
    ensures c.runner < |states[i].runners|
    ensures var x := states[i].runners[c.runner];
      && x.entry.Some? && x.entry.value.id == c.entry && Unsaved(x.entry.value)
      && (x.pass.Idle? ==> Enabled(states[i], Act(c.runner, List)))
  {
    RunKeepsOrdered(states, steps, i);
    assert Keeps(states[i].runners[c.runner], c);
    assert Good(c.runner, states[i].runners[c.runner], states[i].made, states[i].saved);
  }

  /** So without unsaved commits, or without an entry, all that a runner
      committed is in the newest snapshot or was given up by a reset. */
  lemma SavedIsAll(states: seq<State>, steps: seq<Step>, i: nat, c: Commit)
    requires Run(states, steps) && i < |states| && c in states[i].made && c.runner < |states[i].runners|
    requires forall k :: 0 <= k < i ==> Safe(states[k], steps[k])
    requires var entry := states[i].runners[c.runner].entry; entry.Some? ==> !Unsaved(entry.value)
    ensures c in Top(states[i].rows) || c in states[i].discarded
  {
    if c !in Top(states[i].rows) && c !in states[i].discarded {
      UnsavedCommitKeepsItsEntry(states, steps, i, c);
    }
  }

  /** The newest runner has the newest snapshot in its file if and only if every
      runner started with a current file. */
  lemma PrefixExactly(states: seq<State>, steps: seq<Step>)
    requires Run(states, steps)
    requires forall k :: 0 <= k < |steps| ==> Clean(states[k], steps[k]) && Undisturbed(states[k], steps[k])
    ensures (forall i :: 0 <= i < |states| ==> FileHasTop(states[i])) <==>
      (forall k :: 0 <= k < |steps| ==> Current(states[k], steps[k]))
  {
    if forall k :: 0 <= k < |steps| ==> Current(states[k], steps[k]) {
      forall i | 0 <= i < |states| ensures FileHasTop(states[i]) {
        RunKeepsOrdered(states, steps, i);
      }
    } else {
      var k :| 0 <= k < |steps| && !Current(states[k], steps[k]);
      assert !FileHasTop(states[k + 1]);
    }
  }

  /** A runner that starts where the newest one left off finds a current file. */
  lemma RestartIsCurrent(states: seq<State>, steps: seq<Step>, i: nat)
    requires Run(states, steps) && i < |states| && states[i].runners != []
    requires forall k :: 0 <= k < i ==> Safe(states[k], steps[k])
    ensures var step := Start(states[i].runners[|states[i].runners| - 1].file);
      Enabled(states[i], step) && Current(states[i], step)
  {
    RunKeepsOrdered(states, steps, i);
    var r := |states[i].runners| - 1;
    assert Good(r, states[i].runners[r], states[i].made, states[i].saved);
  }
}
