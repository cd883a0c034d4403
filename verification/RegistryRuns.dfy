/** Every run of the registry and of the tasks it starts. A critical section
    of `DurableRegistry` is one step; between two of them a task waits for its
    predecessor, loads, and takes events from its mailbox. */
module RegistryRuns {
  import opened Wrappers
  import opened DurableRegistry

  /** A task: it waits for the task before it, loads its code, serves, closes
      its mailbox (by leaving, or by failing), gives back its counts, and at
      last closes the channel its successor waits on. `version` is the one it
      loaded, and `retired` tells whether that one was retired while it was open. */
  datatype Phase = Waiting | Loading | Serving | Closed | Released | Ended

  datatype Task = Task(
    key: ObjectKey,
    account: string,
    worker: string,
    version: Option<int>,
    previous: Option<Generation>,
    phase: Phase,
    failed: bool,
    retired: bool)

  /** An event `admit` took, and the task whose mailbox it went to. */
  datatype Accepted = Accepted(key: ObjectKey, generation: Generation)

  /** `accepted[e]` is the event `e`; `taken` is in the order of taking. */
  datatype System = System(
    table: Table,
    tasks: seq<Task>,
    accepted: seq<Accepted>,
    taken: seq<EventId>,
    dropped: set<EventId>,
    panicked: bool)

  datatype Step =
    | Admit(ns: Namespace, id: string)
    | Wake(g: Generation)
    | Load(g: Generation, version: int)
    | Fail(g: Generation)
    | Take(g: Generation)
    | TryLeave(g: Generation)
    | Release(g: Generation)
    | End(g: Generation)
    | Retire(worker: string, outdated: int)
    | Stop(namespace: string)

  predicate IsStart(s: System) {
    && |s.tasks| == |s.table.mailboxes| == |s.accepted| == |s.taken| == |s.dropped| == 0
    && |s.table.objects| == |s.table.running| == |s.table.accounts| == |s.table.retiring| == |s.table.stopped| == 0
    && !s.panicked
  }

  predicate Open(p: Phase) { p.Waiting? || p.Loading? || p.Serving? }

  /** Between the end of its wait and the close of its mailbox: the only time
      a task runs code of the object. */
  predicate Live(p: Phase) { p.Loading? || p.Serving? }

  predicate Counted(p: Phase) { !p.Released? && !p.Ended? }

  predicate In(s: System, g: Generation, p: Phase) {
    g < |s.tasks| && g < |s.table.mailboxes| && s.tasks[g].phase == p
  }

  predicate Enabled(s: System, step: Step) {
    match step
    case Wake(g) =>
      In(s, g, Waiting) && s.tasks[g].previous.Some? && In(s, s.tasks[g].previous.value, Ended)
    case Load(g, _) => In(s, g, Loading)
    case Fail(g) => In(s, g, Loading) || In(s, g, Serving)
    case Take(g) => In(s, g, Serving) && s.table.mailboxes[g].queue != []
    case TryLeave(g) => In(s, g, Serving)
    case Release(g) => In(s, g, Closed)
    case End(g) => In(s, g, Released)
    case _ => true
  }

  function To(s: System, g: Generation, p: Phase): seq<Task>
    requires g < |s.tasks|
  {
    s.tasks[g := s.tasks[g].(phase := p)]
  }

  function NewTask(ns: Namespace, key: ObjectKey, previous: Option<Generation>): Task {
    Task(key, ns.account, ns.worker, None, previous, if previous.Some? then Waiting else Loading, false, false)
  }

  function Admitting(s: System, ns: Namespace, key: ObjectKey): System {
    var t := Admitted(s.table, ns, key, |s.accepted|);
    match Answer(s.table, ns, key)
    case Delivered(g) => s.(table := t, accepted := s.accepted + [Accepted(key, g)])
    case Started(g, previous) =>
      s.(table := t,
         accepted := s.accepted + [Accepted(key, g)],
         tasks := s.tasks + [NewTask(ns, key, previous)])
    case _ => s.(table := t)
  }

  function Loaded(s: System, g: Generation, version: int): System
    requires In(s, g, Loading)
  {
    s.(tasks := s.tasks[g := s.tasks[g].(phase := Serving, version := Some(version))],
       table := Versioned(s.table, s.tasks[g].key, g, version))
  }

  /** The load of a task failed, or it stopped while it served: the events of
      its mailbox go with it, and its entry stays behind. */
  function Failing(s: System, g: Generation): System
    requires In(s, g, Loading) || In(s, g, Serving)
  {
    s.(tasks := s.tasks[g := s.tasks[g].(phase := Closed, failed := true)],
       table := Shut(s.table, g),
       dropped := s.dropped + set e | e in s.table.mailboxes[g].queue)
  }

  function Taking(s: System, g: Generation): System
    requires In(s, g, Serving) && s.table.mailboxes[g].queue != []
  {
    var box := s.table.mailboxes[g];
    s.(table := s.table.(mailboxes := s.table.mailboxes[g := box.(queue := box.queue[1..])]),
       taken := s.taken + [box.queue[0]])
  }

  function Leaving(s: System, g: Generation): System
    requires In(s, g, Serving)
  {
    if s.table.mailboxes[g].queue != [] then s
    else s.(tasks := To(s, g, Closed), table := Left(s.table, s.tasks[g].key, g))
  }

  function Releasing(s: System, g: Generation): System
    requires In(s, g, Closed)
  {
    match Dropped(s.table, s.tasks[g].key, s.tasks[g].account, g)
    case Some(t) => s.(tasks := To(s, g, Released), table := t)
    case None => s.(panicked := true)
  }

  /** A task that runs `version` of `worker`. */
  predicate Runs(task: Task, worker: string, version: int) {
    Open(task.phase) && task.worker == worker && task.version == Some(version)
  }

  function MarkRetired(tasks: seq<Task>, worker: string, version: int): seq<Task> {
    seq(|tasks|, g requires 0 <= g < |tasks| =>
      if Runs(tasks[g], worker, version) then tasks[g].(retired := true) else tasks[g])
  }

  function Retiring(s: System, worker: string, version: int): System {
    s.(table := Retired(s.table, Outdated(s.table, worker, version)), tasks := MarkRetired(s.tasks, worker, version))
  }

  function Apply(s: System, step: Step): System
    requires Enabled(s, step)
  {
    match step
    case Admit(ns, id) => Admitting(s, ns, ObjectKey(ns.id, id))
    case Wake(g) => s.(tasks := To(s, g, Loading))
    case Load(g, version) => Loaded(s, g, version)
    case Fail(g) => Failing(s, g)
    case Take(g) => Taking(s, g)
    case TryLeave(g) => Leaving(s, g)
    case Release(g) => Releasing(s, g)
    case End(g) => s.(tasks := To(s, g, Ended))
    case Retire(worker, version) => Retiring(s, worker, version)
    case Stop(namespace) => s.(table := Stopped(s.table, namespace))
  }

  ghost predicate Run(states: seq<System>, steps: seq<Step>) {
    && |states| == |steps| + 1
    && IsStart(states[0])
    && forall i :: 0 <= i < |steps| ==> Enabled(states[i], steps[i]) && states[i + 1] == Apply(states[i], steps[i])
  }

  // ---- What every step keeps ----

  /** A mailbox is open as long as its task is, and holds nothing after. */
  ghost predicate Boxes(tasks: seq<Task>, mailboxes: seq<Mailbox>) {
    && |tasks| == |mailboxes|
    && (forall g :: 0 <= g < |tasks| ==> mailboxes[g].open == Open(tasks[g].phase))
    && (forall g :: 0 <= g < |tasks| && !mailboxes[g].open ==> mailboxes[g].queue == [])
  }

  /** A task waits for an older one of its object. */
  ghost predicate Linked(tasks: seq<Task>) {
    && (forall g :: 0 <= g < |tasks| && tasks[g].phase.Waiting? ==>
          tasks[g].previous.Some? && tasks[g].previous.value < g)
    && (forall h, g :: 0 <= h < g < |tasks| && tasks[g].previous == Some(h) ==> tasks[h].key == tasks[g].key)
  }

  /** A task older than another of its object is open only while the newer
      one waits, and then it is not newer than what the newer one waits for. */
  ghost predicate Ordered(tasks: seq<Task>) {
    forall h, g :: 0 <= h < g < |tasks| && tasks[h].key == tasks[g].key && Open(tasks[h].phase) ==>
      tasks[g].phase.Waiting? && tasks[g].previous.Some? && h <= tasks[g].previous.value
  }

  /** The table leads to the newest task of an object, in one of its two maps,
      and to every object that has an open task. */
  ghost predicate Tracked(tasks: seq<Task>, objects: map<ObjectKey, Entry>,
                          retiring: map<ObjectKey, Generation>, stopped: set<string>) {
    && (forall k :: k in objects ==>
          objects[k].generation < |tasks| && tasks[objects[k].generation].key == k
          && k !in retiring && k.namespace !in stopped)
    && (forall k :: k in retiring ==> retiring[k] < |tasks| && tasks[retiring[k]].key == k)
    && (forall g :: 0 <= g < |tasks| && tasks[g].key in objects ==> g <= objects[tasks[g].key].generation)
    && (forall g :: 0 <= g < |tasks| && tasks[g].key in retiring ==> g <= retiring[tasks[g].key])
    && (forall g :: 0 <= g < |tasks| && Open(tasks[g].phase) ==>
          tasks[g].key in objects || tasks[g].key in retiring || tasks[g].key.namespace in stopped)
  }

  ghost predicate Ready(s: System) {
    && !s.panicked
    && Boxes(s.tasks, s.table.mailboxes)
    && Linked(s.tasks)
    && Ordered(s.tasks)
    && Tracked(s.tasks, s.table.objects, s.table.retiring, s.table.stopped)
  }

  // About events: where each one is

  /** An accepted event went to a task of its object. */
  ghost predicate Owned(tasks: seq<Task>, accepted: seq<Accepted>) {
    forall e :: 0 <= e < |accepted| ==>
      accepted[e].generation < |tasks| && tasks[accepted[e].generation].key == accepted[e].key
  }

  /** An accepted event is in its mailbox, or taken, or dropped. */
  ghost predicate Placed(boxes: seq<Mailbox>, accepted: seq<Accepted>, taken: seq<EventId>, dropped: set<EventId>) {
    forall e :: 0 <= e < |accepted| ==>
      accepted[e].generation < |boxes|
      && (e in boxes[accepted[e].generation].queue || e in taken || e in dropped)
  }

  /** It is in one of these places only. */
  ghost predicate Apart(boxes: seq<Mailbox>, accepted: seq<Accepted>, taken: seq<EventId>, dropped: set<EventId>) {
    && (forall g, i :: 0 <= g < |boxes| && 0 <= i < |boxes[g].queue| ==>
          var e := boxes[g].queue[i];
          e < |accepted| && accepted[e].generation == g && e !in taken && e !in dropped)
    && (forall i :: 0 <= i < |taken| ==> taken[i] < |accepted| && taken[i] !in dropped)
  }

  /** Only a task that failed drops events, and it drops no later one. */
  ghost predicate Lost(tasks: seq<Task>, accepted: seq<Accepted>, dropped: set<EventId>)
    requires Owned(tasks, accepted)
  {
    forall e :: e in dropped ==>
      e < |accepted| && tasks[accepted[e].generation].failed && !Open(tasks[accepted[e].generation].phase)
  }

  // About events: their order

  /** The events of an object are accepted in the order of its tasks. */
  ghost predicate ByGeneration(accepted: seq<Accepted>) {
    forall d, e :: 0 <= d < e < |accepted| && accepted[d].key == accepted[e].key ==>
      accepted[d].generation <= accepted[e].generation
  }

  ghost predicate Queues(boxes: seq<Mailbox>) {
    forall g, i, j :: 0 <= g < |boxes| && 0 <= i < j < |boxes[g].queue| ==> boxes[g].queue[i] < boxes[g].queue[j]
  }

  /** A task that took an event no longer waits, and took what came before
      the events of its mailbox. */
  ghost predicate Before(tasks: seq<Task>, boxes: seq<Mailbox>, accepted: seq<Accepted>, taken: seq<EventId>) {
    forall i :: 0 <= i < |taken| ==>
      taken[i] < |accepted|
      && var g := accepted[taken[i]].generation;
         g < |tasks| && g < |boxes| && !tasks[g].phase.Waiting?
         && forall j :: 0 <= j < |boxes[g].queue| ==> taken[i] < boxes[g].queue[j]
  }

  /** The events of an object are taken in the order of their acceptance. */
  ghost predicate Increasing(accepted: seq<Accepted>, taken: seq<EventId>) {
    forall i, j ::
      0 <= i < j < |taken| && taken[j] < |accepted| && taken[i] < |accepted| ==>
        accepted[taken[i]].key == accepted[taken[j]].key ==> taken[i] < taken[j]
  }

  ghost predicate Kept(s: System) {
    && Owned(s.tasks, s.accepted)
    && Placed(s.table.mailboxes, s.accepted, s.taken, s.dropped)
    && Apart(s.table.mailboxes, s.accepted, s.taken, s.dropped)
    && Lost(s.tasks, s.accepted, s.dropped)
  }

  ghost predicate InOrder(s: System) {
    && ByGeneration(s.accepted)
    && Queues(s.table.mailboxes)
    && Before(s.tasks, s.table.mailboxes, s.accepted, s.taken)
    && Increasing(s.accepted, s.taken)
  }

  /** No event moves, and no task opens or starts to wait. */
  ghost predicate NoMail(s: System, s': System) {
    && |s.table.mailboxes| == |s'.table.mailboxes| == |s.tasks|
    && s'.accepted == s.accepted && s'.taken == s.taken && s'.dropped == s.dropped
    && |s'.tasks| == |s.tasks|
    && forall g :: 0 <= g < |s.tasks| ==>
         && s'.tasks[g].key == s.tasks[g].key
         && s'.tasks[g].failed == s.tasks[g].failed
         && s'.table.mailboxes[g].queue == s.table.mailboxes[g].queue
         && (Open(s'.tasks[g].phase) ==> Open(s.tasks[g].phase))
         && (s'.tasks[g].phase.Waiting? ==> s.tasks[g].phase.Waiting?)
  }

  /** Once the newest task of an object closed, no task of it is open. */
  lemma NewestClosed(s: System, g: Generation, h: Generation)
    requires Ready(s) && g < |s.tasks| && !Open(s.tasks[g].phase)
    requires h <= g && s.tasks[h].key == s.tasks[g].key
    ensures !Open(s.tasks[h].phase)
  {
  }

  /** An object that is not stopped, and whose entry is missing or closed, has
      an open task only behind one that retires. */
  lemma StartsAlone(s: System, ns: Namespace, key: ObjectKey, h: Generation)
    requires Ready(s) && key.namespace == ns.id && Answer(s.table, ns, key).Started?
    requires h < |s.tasks| && s.tasks[h].key == key && Open(s.tasks[h].phase)
    ensures key in s.table.retiring && h <= s.table.retiring[key]
  {
    if key in s.table.objects {
      NewestClosed(s, s.table.objects[key].generation, h);
    }
  }

  function Begun(s: System, ns: Namespace, key: ObjectKey): Task {
    var previous := if key in s.table.retiring then Some(s.table.retiring[key]) else None;
    NewTask(ns, key, previous)
  }

  lemma StartKeepsOrdered(s: System, ns: Namespace, key: ObjectKey)
    requires Ready(s) && key.namespace == ns.id && Answer(s.table, ns, key).Started?
    ensures Linked(s.tasks + [Begun(s, ns, key)])
    ensures Ordered(s.tasks + [Begun(s, ns, key)])
  {
    forall h | 0 <= h < |s.tasks| && s.tasks[h].key == key && Open(s.tasks[h].phase)
      ensures key in s.table.retiring && h <= s.table.retiring[key]
    {
      StartsAlone(s, ns, key, h);
    }
  }

  lemma StartKeepsTracked(s: System, ns: Namespace, key: ObjectKey)
    requires Ready(s) && key.namespace == ns.id && Answer(s.table, ns, key).Started?
    ensures Tracked(s.tasks + [Begun(s, ns, key)], s.table.objects[key := Entry(|s.tasks|, ns.worker, None)],
                    s.table.retiring - {key}, s.table.stopped)
  {
  }

  lemma StartKeepsReady(s: System, ns: Namespace, key: ObjectKey)
    requires Ready(s) && key.namespace == ns.id && Answer(s.table, ns, key).Started?
    ensures Ready(Admitting(s, ns, key))
  {
    StartKeepsOrdered(s, ns, key);
    StartKeepsTracked(s, ns, key);
    assert Admitting(s, ns, key).tasks == s.tasks + [Begun(s, ns, key)];
  }

  lemma AdmitKeepsReady(s: System, ns: Namespace, key: ObjectKey)
    requires Ready(s) && key.namespace == ns.id
    ensures Ready(Admitting(s, ns, key))
  {
    if Answer(s.table, ns, key).Started? {
      StartKeepsReady(s, ns, key);
    }
  }

  /** A task that goes on neither opens nor starts to wait. */
  predicate GoesOn(was: Task, task: Task) {
    && task.key == was.key && task.previous == was.previous
    && (Open(task.phase) ==> Open(was.phase))
    && task.phase.Waiting? == was.phase.Waiting?
  }

  lemma GoingOnKeepsOrdered(tasks: seq<Task>, g: Generation, task: Task)
    requires Linked(tasks) && Ordered(tasks) && g < |tasks| && GoesOn(tasks[g], task)
    ensures Linked(tasks[g := task]) && Ordered(tasks[g := task])
  {
  }

  lemma GoingOnKeepsTracked(s: System, g: Generation, task: Task)
    requires Ready(s) && g < |s.tasks| && GoesOn(s.tasks[g], task)
    ensures Tracked(s.tasks[g := task], s.table.objects, s.table.retiring, s.table.stopped)
  {
  }

  lemma GoingOnKeeps(s: System, g: Generation, task: Task)
    requires Ready(s) && g < |s.tasks| && GoesOn(s.tasks[g], task)
    ensures Linked(s.tasks[g := task]) && Ordered(s.tasks[g := task])
    ensures Tracked(s.tasks[g := task], s.table.objects, s.table.retiring, s.table.stopped)
  {
    GoingOnKeepsOrdered(s.tasks, g, task);
    GoingOnKeepsTracked(s, g, task);
  }

  lemma WakeKeepsReady(s: System, g: Generation)
    requires Ready(s) && Enabled(s, Wake(g))
    ensures Ready(s.(tasks := To(s, g, Loading)))
  {
    var p := s.tasks[g].previous.value;
    forall h | 0 <= h < g && s.tasks[h].key == s.tasks[g].key
      ensures !Open(s.tasks[h].phase)
    {
      if Open(s.tasks[h].phase) {
        NewestClosed(s, p, h);
      }
    }
  }

  lemma LoadKeepsReady(s: System, g: Generation, version: int)
    requires Ready(s) && In(s, g, Loading)
    ensures Ready(Loaded(s, g, version))
  {
    var task := s.tasks[g].(phase := Serving, version := Some(version));
    GoingOnKeeps(s, g, task);
    VersionedKeepsTracked(s.(tasks := s.tasks[g := task]), g, version);
  }

  lemma VersionedKeepsTracked(s: System, g: Generation, version: int)
    requires Tracked(s.tasks, s.table.objects, s.table.retiring, s.table.stopped) && g < |s.tasks|
    ensures Tracked(s.tasks, Versioned(s.table, s.tasks[g].key, g, version).objects, s.table.retiring, s.table.stopped)
  {
  }

  lemma FailKeepsReady(s: System, g: Generation)
    requires Ready(s) && (In(s, g, Loading) || In(s, g, Serving))
    ensures Ready(Failing(s, g))
  {
    GoingOnKeeps(s, g, s.tasks[g].(phase := Closed, failed := true));
  }

  lemma TakeKeepsReady(s: System, g: Generation)
    requires Ready(s) && Enabled(s, Take(g))
    ensures Ready(Taking(s, g))
  {
  }

  lemma LeaveKeepsReady(s: System, g: Generation)
    requires Ready(s) && In(s, g, Serving)
    ensures Ready(Leaving(s, g))
  {
    GoingOnKeeps(s, g, s.tasks[g].(phase := Closed));
    if Owns(s.table, s.tasks[g].key, g) {
      ClosedLeavesTracked(s.(tasks := To(s, g, Closed)), g);
    }
  }

  lemma ReleaseKeepsReady(s: System, g: Generation)
    requires Ready(s) && In(s, g, Closed) && !Releasing(s, g).panicked
    ensures Ready(Releasing(s, g))
  {
    GoingOnKeeps(s, g, s.tasks[g].(phase := Released));
    if s.tasks[g].key in s.table.retiring && s.table.retiring[s.tasks[g].key] == g {
      ClosedRetiresTracked(s.(tasks := To(s, g, Released)), g);
    }
  }

  /** The table can forget an object whose newest task closed. */
  lemma ClosedLeavesTracked(s: System, g: Generation)
    requires Linked(s.tasks) && Ordered(s.tasks)
    requires Tracked(s.tasks, s.table.objects, s.table.retiring, s.table.stopped)
    requires g < |s.tasks| && !Open(s.tasks[g].phase) && Owns(s.table, s.tasks[g].key, g)
    ensures Tracked(s.tasks, s.table.objects - {s.tasks[g].key}, s.table.retiring, s.table.stopped)
  {
    assert forall h :: 0 <= h < |s.tasks| && s.tasks[h].key == s.tasks[g].key ==> !Open(s.tasks[h].phase);
  }

  lemma ClosedRetiresTracked(s: System, g: Generation)
    requires Linked(s.tasks) && Ordered(s.tasks)
    requires Tracked(s.tasks, s.table.objects, s.table.retiring, s.table.stopped)
    requires g < |s.tasks| && !Open(s.tasks[g].phase)
    requires s.tasks[g].key in s.table.retiring && s.table.retiring[s.tasks[g].key] == g
    ensures Tracked(s.tasks, s.table.objects, s.table.retiring - {s.tasks[g].key}, s.table.stopped)
  {
    assert forall h :: 0 <= h < |s.tasks| && s.tasks[h].key == s.tasks[g].key ==> !Open(s.tasks[h].phase);
  }

  lemma EndKeepsReady(s: System, g: Generation)
    requires Ready(s) && In(s, g, Released)
    ensures Ready(s.(tasks := To(s, g, Ended)))
  {
    GoingOnKeeps(s, g, s.tasks[g].(phase := Ended));
  }

  lemma RetireKeepsReady(s: System, worker: string, version: int)
    requires Ready(s)
    ensures Ready(Retiring(s, worker, version))
  {
    MarkedKeepsReady(s, worker, version);
    RetiredKeepsTracked(s.(tasks := MarkRetired(s.tasks, worker, version)), Outdated(s.table, worker, version));
  }

  lemma MarkedKeepsReady(s: System, worker: string, version: int)
    requires Ready(s)
    ensures Ready(s.(tasks := MarkRetired(s.tasks, worker, version)))
  {
    var tasks := MarkRetired(s.tasks, worker, version);
    assert forall g :: 0 <= g < |tasks| ==>
      tasks[g].key == s.tasks[g].key && tasks[g].previous == s.tasks[g].previous && tasks[g].phase == s.tasks[g].phase;
  }

  lemma RetiredKeepsTracked(s: System, keys: set<ObjectKey>)
    requires Ready(s) && keys <= s.table.objects.Keys
    ensures Tracked(s.tasks, Retired(s.table, keys).objects, Retired(s.table, keys).retiring, s.table.stopped)
  {
  }

  lemma StopKeepsReady(s: System, namespace: string)
    requires Ready(s)
    ensures Ready(s.(table := Stopped(s.table, namespace)))
  {
  }

  // The events

  ghost predicate Mailed(s: System) { Boxes(s.tasks, s.table.mailboxes) && Kept(s) && InOrder(s) }

  /** The system with one task more, whose mailbox is empty. */
  function WithTask(s: System, task: Task): System {
    s.(tasks := s.tasks + [task], table := s.table.(mailboxes := s.table.mailboxes + [Mailbox([], true)]))
  }

  lemma NewTaskKeepsMail(s: System, task: Task)
    requires Mailed(s) && Open(task.phase)
    ensures Mailed(WithTask(s, task))
  {
  }

  /** The system with one accepted event more, in the mailbox of `g`. */
  function WithEvent(s: System, g: Generation): System
    requires g < |s.tasks| && g < |s.table.mailboxes|
  {
    var box := s.table.mailboxes[g];
    s.(accepted := s.accepted + [Accepted(s.tasks[g].key, g)],
       table := s.table.(mailboxes := s.table.mailboxes[g := box.(queue := box.queue + [|s.accepted|])]))
  }

  lemma NewEventIsKept(s: System, g: Generation)
    requires Mailed(s) && g < |s.tasks| && s.table.mailboxes[g].open
    ensures Boxes(s.tasks, WithEvent(s, g).table.mailboxes) && Kept(WithEvent(s, g))
  {
  }

  lemma NewEventIsLast(s: System, g: Generation)
    requires Mailed(s) && g < |s.tasks| && s.table.mailboxes[g].open
    requires forall h :: 0 <= h < |s.tasks| && s.tasks[h].key == s.tasks[g].key ==> h <= g
    ensures InOrder(WithEvent(s, g))
  {
    LastIsByGeneration(s.tasks, s.accepted, g);
    LastInQueue(s, g);
  }

  lemma LastIsByGeneration(tasks: seq<Task>, accepted: seq<Accepted>, g: Generation)
    requires Owned(tasks, accepted) && ByGeneration(accepted) && g < |tasks|
    requires forall h :: 0 <= h < |tasks| && tasks[h].key == tasks[g].key ==> h <= g
    ensures ByGeneration(accepted + [Accepted(tasks[g].key, g)])
  {
  }

  lemma LastInQueue(s: System, g: Generation)
    requires Mailed(s) && g < |s.tasks|
    ensures var s' := WithEvent(s, g);
      && Queues(s'.table.mailboxes) && Before(s'.tasks, s'.table.mailboxes, s'.accepted, s'.taken)
      && Increasing(s'.accepted, s'.taken)
  {
  }

  lemma AdmitKeepsMail(s: System, ns: Namespace, key: ObjectKey)
    requires Ready(s) && Mailed(s) && key.namespace == ns.id
    ensures Mailed(Admitting(s, ns, key))
  {
    var answer := Answer(s.table, ns, key);
    if answer.Delivered? {
      NewEventIsKept(s, answer.to);
      NewEventIsLast(s, answer.to);
      assert WithEvent(s, answer.to) == Admitting(s, ns, key);
    } else if answer.Started? {
      var s1 := WithTask(s, Begun(s, ns, key));
      NewTaskKeepsMail(s, Begun(s, ns, key));
      StartIsNewest(s, ns, key);
      NewEventIsKept(s1, answer.generation);
      NewEventIsLast(s1, answer.generation);
      SameMail(WithEvent(s1, answer.generation), Admitting(s, ns, key));
    }
  }

  lemma StartIsNewest(s: System, ns: Namespace, key: ObjectKey)
    requires Boxes(s.tasks, s.table.mailboxes) && Answer(s.table, ns, key).Started?
    ensures var s1 := WithTask(s, Begun(s, ns, key));
            var s2, s' := WithEvent(s1, |s.tasks|), Admitting(s, ns, key);
            && s2.table.mailboxes == s'.table.mailboxes && s2.tasks == s'.tasks && s2.accepted == s'.accepted
            && s2.taken == s'.taken && s2.dropped == s'.dropped
  {
    assert [] + [|s.accepted|] == [|s.accepted|];
  }

  lemma SameMail(s: System, s': System)
    requires Mailed(s)
    requires s.tasks == s'.tasks && s.table.mailboxes == s'.table.mailboxes && s.accepted == s'.accepted
    requires s.taken == s'.taken && s.dropped == s'.dropped
    ensures Mailed(s')
  {
  }

  lemma FailKeepsMail(s: System, g: Generation)
    requires Ready(s) && Mailed(s) && (In(s, g, Loading) || In(s, g, Serving))
    ensures Mailed(Failing(s, g))
  {
    FailIsKept(s, g);
  }

  lemma FailIsKept(s: System, g: Generation)
    requires Ready(s) && Mailed(s) && (In(s, g, Loading) || In(s, g, Serving))
    ensures Kept(Failing(s, g))
  {
  }

  lemma TakeKeepsPlaced(boxes: seq<Mailbox>, accepted: seq<Accepted>, taken: seq<EventId>, dropped: set<EventId>,
                        g: Generation)
    requires Placed(boxes, accepted, taken, dropped) && g < |boxes| && boxes[g].queue != []
    ensures var box := boxes[g];
      Placed(boxes[g := box.(queue := box.queue[1..])], accepted, taken + [box.queue[0]], dropped)
  {
    var q := boxes[g].queue;
    assert forall e :: e in q ==> e == q[0] || e in q[1..];
  }

  lemma TakeKeepsApart(boxes: seq<Mailbox>, accepted: seq<Accepted>, taken: seq<EventId>, dropped: set<EventId>,
                       g: Generation)
    requires Apart(boxes, accepted, taken, dropped) && Queues(boxes) && g < |boxes| && boxes[g].queue != []
    ensures var box := boxes[g];
      Apart(boxes[g := box.(queue := box.queue[1..])], accepted, taken + [box.queue[0]], dropped)
  {
    var q := boxes[g].queue;
    assert accepted[q[0]].generation == g && q[0] !in dropped;
    assert forall i :: 0 <= i < |q[1..]| ==> q[1..][i] == q[i + 1] && q[i + 1] > q[0];
  }

  lemma TakeIsKept(s: System, g: Generation)
    requires Mailed(s) && Enabled(s, Take(g))
    ensures Kept(Taking(s, g))
  {
    TakeKeepsPlaced(s.table.mailboxes, s.accepted, s.taken, s.dropped, g);
    TakeKeepsApart(s.table.mailboxes, s.accepted, s.taken, s.dropped, g);
  }

  /** What a task takes was accepted after everything taken of its object. */
  lemma TakeIsLatest(s: System, g: Generation, i: nat)
    requires Ready(s) && Mailed(s) && Enabled(s, Take(g)) && i < |s.taken|
    requires s.accepted[s.taken[i]].key == s.tasks[g].key
    ensures s.taken[i] < s.table.mailboxes[g].queue[0]
  {
    var e, t := s.table.mailboxes[g].queue[0], s.taken[i];
    var h := s.accepted[t].generation;
    assert s.accepted[e].generation == g;
    if g < h {
      // The task that took `t` no longer waits, so `g` is closed
      assert false;
    }
  }

  lemma TakeKeepsOrder(s: System, g: Generation)
    requires Ready(s) && Mailed(s) && Enabled(s, Take(g))
    ensures Increasing(s.accepted, s.taken + [s.table.mailboxes[g].queue[0]])
  {
    var e := s.table.mailboxes[g].queue[0];
    assert s.accepted[e].generation == g;
    forall i | 0 <= i < |s.taken| && s.accepted[s.taken[i]].key == s.tasks[g].key
      ensures s.taken[i] < e
    {
      TakeIsLatest(s, g, i);
    }
  }

  lemma TakeKeepsBefore(s: System, g: Generation)
    requires Ready(s) && Mailed(s) && Enabled(s, Take(g))
    ensures Before(s.tasks, Taking(s, g).table.mailboxes, s.accepted, s.taken + [s.table.mailboxes[g].queue[0]])
  {
    assert s.accepted[s.table.mailboxes[g].queue[0]].generation == g;
  }

  lemma TakeKeepsMail(s: System, g: Generation)
    requires Ready(s) && Mailed(s) && Enabled(s, Take(g))
    ensures Mailed(Taking(s, g))
  {
    TakeIsKept(s, g);
    TakeKeepsOrder(s, g);
    TakeKeepsBefore(s, g);
    assert Boxes(s.tasks, Taking(s, g).table.mailboxes);
  }

  /** A step that moves no event keeps what holds of the events. */
  lemma NoMailKeeps(s: System, s': System)
    requires Mailed(s) && Ready(s') && NoMail(s, s')
    ensures Mailed(s')
  {
  }

  // ---- The counts ----

  ghost function InNamespace(tasks: seq<Task>, namespace: string): set<Generation> {
    set g | 0 <= g < |tasks| && Counted(tasks[g].phase) && tasks[g].key.namespace == namespace
  }

  ghost function OfAccount(tasks: seq<Task>, account: string): set<Generation> {
    set g | 0 <= g < |tasks| && Counted(tasks[g].phase) && tasks[g].account == account
  }

  /** The two counts are the numbers of tasks that have not released them. */
  ghost predicate Exact(s: System) {
    && (forall n :: Count(s.table.running, n) == |InNamespace(s.tasks, n)|)
    && (forall a :: Count(s.table.accounts, a) == |OfAccount(s.tasks, a)|)
    && (forall n :: n in s.table.running ==> s.table.running[n] > 0)
    && (forall a :: Count(s.table.accounts, a) <= MAX_RESIDENT_PER_ACCOUNT)
  }

  lemma OneMoreInNamespace(tasks: seq<Task>, task: Task, n: string)
    requires Counted(task.phase)
    ensures |InNamespace(tasks + [task], n)| == |InNamespace(tasks, n)| + if task.key.namespace == n then 1 else 0
  {
    var more := tasks + [task];
    assert forall h :: 0 <= h < |tasks| ==> more[h] == tasks[h];
    assert InNamespace(more, n) - {|tasks|} == InNamespace(tasks, n);
    assert |tasks| in InNamespace(more, n) <==> task.key.namespace == n;
  }

  lemma OneMoreOfAccount(tasks: seq<Task>, task: Task, a: string)
    requires Counted(task.phase)
    ensures |OfAccount(tasks + [task], a)| == |OfAccount(tasks, a)| + if task.account == a then 1 else 0
  {
    var more := tasks + [task];
    assert forall h :: 0 <= h < |tasks| ==> more[h] == tasks[h];
    assert OfAccount(more, a) - {|tasks|} == OfAccount(tasks, a);
    assert |tasks| in OfAccount(more, a) <==> task.account == a;
  }

  lemma OneLessInNamespace(tasks: seq<Task>, g: Generation, n: string)
    requires g < |tasks| && tasks[g].phase.Closed?
    ensures |InNamespace(tasks[g := tasks[g].(phase := Released)], n)| ==
            |InNamespace(tasks, n)| - if tasks[g].key.namespace == n then 1 else 0
  {
    assert InNamespace(tasks[g := tasks[g].(phase := Released)], n) == InNamespace(tasks, n) - {g};
    assert g in InNamespace(tasks, n) <==> tasks[g].key.namespace == n;
  }

  lemma OneLessOfAccount(tasks: seq<Task>, g: Generation, a: string)
    requires g < |tasks| && tasks[g].phase.Closed?
    ensures |OfAccount(tasks[g := tasks[g].(phase := Released)], a)| ==
            |OfAccount(tasks, a)| - if tasks[g].account == a then 1 else 0
  {
    assert OfAccount(tasks[g := tasks[g].(phase := Released)], a) == OfAccount(tasks, a) - {g};
    assert g in OfAccount(tasks, a) <==> tasks[g].account == a;
  }

  lemma StartCounts(s: System, ns: Namespace, key: ObjectKey)
    requires Exact(s) && Boxes(s.tasks, s.table.mailboxes) && key.namespace == ns.id
    requires Answer(s.table, ns, key).Started?
    ensures Exact(Admitting(s, ns, key))
  {
    StartIsNewest(s, ns, key);
    var s', task := Admitting(s, ns, key), Begun(s, ns, key);
    assert s'.tasks == s.tasks + [task];
    assert s'.table.running == s.table.running[ns.id := Count(s.table.running, ns.id) + 1];
    assert s'.table.accounts == s.table.accounts[ns.account := Count(s.table.accounts, ns.account) + 1];
    forall n ensures Count(s'.table.running, n) == |InNamespace(s'.tasks, n)| {
      OneMoreInNamespace(s.tasks, task, n);
    }
    forall a ensures Count(s'.table.accounts, a) == |OfAccount(s'.tasks, a)| <= MAX_RESIDENT_PER_ACCOUNT {
      OneMoreOfAccount(s.tasks, task, a);
    }
  }

  lemma LessByOne(counts: map<string, nat>, key: string)
    requires Count(counts, key) > 0
    ensures Less(counts, key).Some?
    ensures forall n :: Count(Less(counts, key).value, n) == Count(counts, n) - if n == key then 1 else 0
    ensures forall n :: n in Less(counts, key).value ==>
      n in counts && (counts[n] > 0 ==> Less(counts, key).value[n] > 0)
  {
  }

  /** A task that ends is counted, so the release does not panic. */
  lemma ReleaseCounts(s: System, g: Generation)
    requires Exact(s) && In(s, g, Closed) && !s.panicked
    ensures !Releasing(s, g).panicked && Exact(Releasing(s, g))
  {
    var task := s.tasks[g];
    assert g in InNamespace(s.tasks, task.key.namespace) && g in OfAccount(s.tasks, task.account);
    LessByOne(s.table.running, task.key.namespace);
    LessByOne(s.table.accounts, task.account);
    forall n, a
      ensures |InNamespace(To(s, g, Released), n)| == Count(Less(s.table.running, task.key.namespace).value, n)
      ensures |OfAccount(To(s, g, Released), a)| == Count(Less(s.table.accounts, task.account).value, a)
    {
      OneLessInNamespace(s.tasks, g, n);
      OneLessOfAccount(s.tasks, g, a);
    }
  }

  lemma SameCounts(s: System, s': System)
    requires Exact(s) && SameCounted(s, s')
    ensures Exact(s')
  {
    forall n ensures InNamespace(s'.tasks, n) == InNamespace(s.tasks, n) {
    }
    forall a ensures OfAccount(s'.tasks, a) == OfAccount(s.tasks, a) {
    }
  }

  // ---- Every run ----

  ghost predicate Inv(s: System) { Ready(s) && Mailed(s) && Exact(s) }

  lemma StepKeepsInv(s: System, step: Step)
    requires Inv(s) && Enabled(s, step)
    ensures Inv(Apply(s, step))
  {
    match step
    case Admit(ns, id) =>
      AdmitKeepsReady(s, ns, ObjectKey(ns.id, id));
      AdmitKeepsMail(s, ns, ObjectKey(ns.id, id));
      AdmitCounts(s, ns, ObjectKey(ns.id, id));
    case Fail(g) =>
      FailKeepsReady(s, g);
      FailKeepsMail(s, g);
      FailCounts(s, g);
    case Take(g) =>
      TakeKeepsReady(s, g);
      TakeKeepsMail(s, g);
      SameCounts(s, Taking(s, g));
    case Release(g) =>
      ReleaseCounts(s, g);
      ReleaseKeepsReady(s, g);
      ReleaseKeepsMail(s, g);
    case _ =>
      OtherKeepsInv(s, step);
  }

  lemma ReleaseKeepsMail(s: System, g: Generation)
    requires Ready(s) && Mailed(s) && In(s, g, Closed) && Ready(Releasing(s, g))
    ensures Mailed(Releasing(s, g))
  {
    NoMailKeeps(s, Releasing(s, g));
  }

  lemma FailCounts(s: System, g: Generation)
    requires Exact(s) && (In(s, g, Loading) || In(s, g, Serving))
    ensures Exact(Failing(s, g))
  {
    SameCounts(s, Failing(s, g));
  }

  lemma AdmitCounts(s: System, ns: Namespace, key: ObjectKey)
    requires Exact(s) && Ready(s) && key.namespace == ns.id
    ensures Exact(Admitting(s, ns, key))
  {
    if Answer(s.table, ns, key).Started? {
      StartCounts(s, ns, key);
    } else {
      SameCounts(s, Admitting(s, ns, key));
    }
  }

  /** No count changes, and no task is counted or stops to be. */
  ghost predicate SameCounted(s: System, s': System) {
    && |s'.tasks| == |s.tasks|
    && s'.table.running == s.table.running && s'.table.accounts == s.table.accounts
    && forall g :: 0 <= g < |s.tasks| ==>
         && s'.tasks[g].key == s.tasks[g].key && s'.tasks[g].account == s.tasks[g].account
         && Counted(s'.tasks[g].phase) == Counted(s.tasks[g].phase)
  }

  lemma QuietKeepsInv(s: System, s': System)
    requires Inv(s) && Ready(s') && NoMail(s, s') && SameCounted(s, s')
    ensures Inv(s')
  {
    NoMailKeeps(s, s');
    SameCounts(s, s');
  }

  lemma OtherKeepsInv(s: System, step: Step)
    requires Inv(s) && Enabled(s, step)
    requires !step.Admit? && !step.Fail? && !step.Take? && !step.Release?
    ensures Inv(Apply(s, step))
  {
    OtherIsQuiet(s, step);
    match step {
      case Wake(g) => WakeKeepsReady(s, g);
      case Load(g, version) => LoadKeepsReady(s, g, version);
      case TryLeave(g) => LeaveKeepsReady(s, g);
      case End(g) => EndKeepsReady(s, g);
      case Retire(worker, version) => RetireKeepsReady(s, worker, version);
      case Stop(namespace) => StopKeepsReady(s, namespace);
    }
    QuietKeepsInv(s, Apply(s, step));
  }

  lemma OtherIsQuiet(s: System, step: Step)
    requires Boxes(s.tasks, s.table.mailboxes) && Enabled(s, step)
    requires !step.Admit? && !step.Fail? && !step.Take? && !step.Release?
    ensures NoMail(s, Apply(s, step)) && SameCounted(s, Apply(s, step))
  {
    if step.TryLeave? {
      LeaveIsQuiet(s, step.g);
    }
  }

  lemma LeaveIsQuiet(s: System, g: Generation)
    requires Boxes(s.tasks, s.table.mailboxes) && In(s, g, Serving)
    ensures NoMail(s, Leaving(s, g)) && SameCounted(s, Leaving(s, g))
  {
  }

  lemma {:induction false} RunKeepsInv(states: seq<System>, steps: seq<Step>, i: nat)
    requires Run(states, steps) && i < |states|
    ensures Inv(states[i])
  {
    if i == 0 {
      StartIsGood(states[0]);
    } else {
      RunKeepsInv(states, steps, i - 1);
      StepKeepsInv(states[i - 1], steps[i - 1]);
    }
  }

  lemma StartIsGood(s: System)
    requires IsStart(s)
    ensures Inv(s)
  {
    NothingRuns(s);
    NothingCounted(s);
  }

  lemma NothingRuns(s: System)
    requires IsStart(s)
    ensures Ready(s) && Mailed(s)
  {
  }

  lemma NothingCounted(s: System)
    requires IsStart(s)
    ensures Exact(s)
  {
    forall n ensures InNamespace(s.tasks, n) == {} {
    }
    forall a ensures OfAccount(s.tasks, a) == {} {
    }
  }

  /** Two tasks never run code of one object at once, whatever starts,
      retirements, failed loads and restarts came before. */
  lemma OldAndNewNeverOverlap(states: seq<System>, steps: seq<Step>, i: nat, g: Generation, h: Generation)
    requires Run(states, steps) && i < |states|
    requires g < |states[i].tasks| && h < |states[i].tasks|
    requires Live(states[i].tasks[g].phase) && Live(states[i].tasks[h].phase)
    requires states[i].tasks[g].key == states[i].tasks[h].key
    ensures g == h
  {
    RunKeepsInv(states, steps, i);
  }

  /** An accepted event is in the mailbox of its own task, or taken from it, or
      dropped by it, and never in two of these; only a task that failed drops
      one, and no task leaves one behind. */
  lemma NoEventIsLost(states: seq<System>, steps: seq<Step>, i: nat, e: EventId)
    requires Run(states, steps) && i < |states| && e < |states[i].accepted|
    ensures var s := states[i];
            var g := s.accepted[e].generation;
            && g < |s.tasks| && g < |s.table.mailboxes| && s.tasks[g].key == s.accepted[e].key
            && (e in s.table.mailboxes[g].queue || e in s.taken || e in s.dropped)
            && !(e in s.table.mailboxes[g].queue && e in s.taken)
            && !(e in s.table.mailboxes[g].queue && e in s.dropped)
            && !(e in s.taken && e in s.dropped)
            && (forall h :: 0 <= h < |s.table.mailboxes| && e in s.table.mailboxes[h].queue ==> h == g)
            && (e in s.dropped ==> s.tasks[g].failed)
            && (!Open(s.tasks[g].phase) && !s.tasks[g].failed ==> e in s.taken)
  {
    RunKeepsInv(states, steps, i);
  }

  /** The events of an object are taken once each, in the order in which they
      were accepted, also when a later task of the object takes them. */
  lemma TakenInOrder(states: seq<System>, steps: seq<Step>, i: nat, j: nat, k: nat)
    requires Run(states, steps) && i < |states| && j < k < |states[i].taken|
    ensures var s := states[i];
            && s.taken[j] < |s.accepted| && s.taken[k] < |s.accepted|
            && (s.accepted[s.taken[j]].key == s.accepted[s.taken[k]].key ==> s.taken[j] < s.taken[k])
  {
    RunKeepsInv(states, steps, i);
  }

  /** The counts are the numbers of tasks that have not ended; the release of
      a task never finds a count that is missing or zero. */
  lemma CountsAreExact(states: seq<System>, steps: seq<Step>, i: nat, namespace: string, account: string)
    requires Run(states, steps) && i < |states|
    ensures !states[i].panicked
    ensures Count(states[i].table.running, namespace) == |InNamespace(states[i].tasks, namespace)|
    ensures Count(states[i].table.accounts, account) == |OfAccount(states[i].tasks, account)|
    ensures |OfAccount(states[i].tasks, account)| <= MAX_RESIDENT_PER_ACCOUNT
  {
    RunKeepsInv(states, steps, i);
  }

  /** `leave` closes the mailbox exactly if it is empty, and then removes its own
      entry and no other; else it changes nothing. */
  lemma LeaveTakesItsOwn(states: seq<System>, steps: seq<Step>, i: nat, g: Generation)
    requires Run(states, steps) && i < |steps| && steps[i] == TryLeave(g)
    ensures states[i + 1].dropped == states[i].dropped
    ensures states[i].table.mailboxes[g].queue != [] ==> states[i + 1] == states[i]
    ensures states[i].table.mailboxes[g].queue == [] ==>
      && !states[i + 1].table.mailboxes[g].open && states[i + 1].tasks[g].phase.Closed?
      && forall k :: k in states[i + 1].table.objects <==>
           k in states[i].table.objects && states[i].table.objects[k].generation != g
  {
    RunKeepsInv(states, steps, i);
  }

  /** A stopped namespace of which no task runs any more. */
  ghost predicate Gone(s: System, namespace: string) {
    namespace in s.table.stopped && InNamespace(s.tasks, namespace) == {}
  }

  /** A stopped namespace without a task stays without one. */
  lemma StoppedStays(s: System, step: Step, namespace: string)
    requires Enabled(s, step) && Gone(s, namespace)
    ensures Gone(Apply(s, step), namespace)
  {
    var s' := Apply(s, step);
    forall g | 0 <= g < |s'.tasks| && s'.tasks[g].key.namespace == namespace
      ensures !Counted(s'.tasks[g].phase)
    {
      assert g !in InNamespace(s.tasks, namespace);
    }
  }

  lemma {:induction false} StoppedForGood(states: seq<System>, steps: seq<Step>, i: nat, j: nat, namespace: string)
    requires Run(states, steps) && i <= j < |states| && Gone(states[i], namespace)
    ensures Gone(states[j], namespace)
    decreases j
  {
    if i < j {
      StoppedForGood(states, steps, i, j - 1, namespace);
      StoppedStays(states[j - 1], steps[j - 1], namespace);
    }
  }

  /** Once `stop_namespace` answers true, no task of the namespace runs in any
      later state: its files can go. */
  lemma StopIsFinal(states: seq<System>, steps: seq<Step>, i: nat, j: nat, namespace: string, g: Generation)
    requires Run(states, steps) && i < |steps| && i < j < |states|
    requires steps[i] == Stop(namespace) && namespace !in states[i].table.running
    requires g < |states[j].tasks| && states[j].tasks[g].key.namespace == namespace
    ensures !Live(states[j].tasks[g].phase) && !Counted(states[j].tasks[g].phase)
  {
    RunKeepsInv(states, steps, i);
    assert |InNamespace(states[i].tasks, namespace)| == 0;
    assert states[i + 1].tasks == states[i].tasks;
    StoppedForGood(states, steps, i + 1, j, namespace);
    assert g !in InNamespace(states[j].tasks, namespace);
  }
}
