/** What becomes of an event, in terms of the tasks: when it is taken, by which
    task, and when it is refused; and what a retirement and a stop do to that. */
module RegistryAnswers {
  import opened Wrappers
  import opened DurableRegistry
  import opened RegistryRuns

  /** An entry knows its task, and an open task that is not retired is the one of
      the entry, unless its namespace is stopped. */
  ghost predicate Roles(tasks: seq<Task>, objects: map<ObjectKey, Entry>, stopped: set<string>) {
    && (forall k :: k in objects ==>
          var g := objects[k].generation;
          g < |tasks| && objects[k].worker == tasks[g].worker && objects[k].version == tasks[g].version)
    && (forall g :: 0 <= g < |tasks| && Open(tasks[g].phase) && tasks[g].key.namespace !in stopped ==>
          (Listed(objects, tasks[g].key, g) <==> !tasks[g].retired))
  }

  predicate Listed(objects: map<ObjectKey, Entry>, key: ObjectKey, g: Generation) {
    key in objects && objects[key].generation == g
  }

  ghost predicate HasRoles(s: System) { Roles(s.tasks, s.table.objects, s.table.stopped) }

  lemma StartKeepsRoles(s: System, ns: Namespace, key: ObjectKey)
    requires Ready(s) && HasRoles(s) && key.namespace == ns.id && Answer(s.table, ns, key).Started?
    ensures HasRoles(Admitting(s, ns, key))
  {
    var s', g := Admitting(s, ns, key), |s.tasks|;
    assert s'.tasks == s.tasks + [Begun(s, ns, key)];
    forall h | 0 <= h < |s'.tasks| && Open(s'.tasks[h].phase) && s'.tasks[h].key.namespace !in s'.table.stopped
      ensures Listed(s'.table.objects, s'.tasks[h].key, h) <==> !s'.tasks[h].retired
    {
      if h < g && s.tasks[h].key == key {
        StartsAlone(s, ns, key, h);
      }
    }
  }

  lemma AdmitKeepsRoles(s: System, ns: Namespace, key: ObjectKey)
    requires Ready(s) && HasRoles(s) && key.namespace == ns.id
    ensures HasRoles(Admitting(s, ns, key))
  {
    if Answer(s.table, ns, key).Started? {
      StartKeepsRoles(s, ns, key);
    }
  }

  lemma RetireKeepsRoles(s: System, worker: string, version: int)
    requires Ready(s) && HasRoles(s)
    ensures HasRoles(Retiring(s, worker, version))
  {
    var s' := Retiring(s, worker, version);
    forall g | 0 <= g < |s'.tasks| && Open(s'.tasks[g].phase) && s'.tasks[g].key.namespace !in s'.table.stopped
      ensures Listed(s'.table.objects, s'.tasks[g].key, g) <==> !s'.tasks[g].retired
    {
      assert Listed(s.table.objects, s.tasks[g].key, g) <==> !s.tasks[g].retired;
    }
  }

  /** A task loads its code, and its entry, if it has one, takes note. */
  lemma LoadedKeepsRoles(tasks: seq<Task>, objects: map<ObjectKey, Entry>, stopped: set<string>,
                         g: Generation, version: int)
    requires Roles(tasks, objects, stopped) && g < |tasks| && tasks[g].phase.Loading?
    requires forall k :: k in objects && objects[k].generation == g ==> k == tasks[g].key
    ensures var key, task := tasks[g].key, tasks[g].(phase := Serving, version := Some(version));
      if Listed(objects, key, g)
      then Roles(tasks[g := task], objects[key := objects[key].(version := Some(version))], stopped)
      else Roles(tasks[g := task], objects, stopped)
  {
  }

  lemma LoadKeepsRoles(s: System, g: Generation, version: int)
    requires Ready(s) && HasRoles(s) && In(s, g, Loading)
    ensures HasRoles(Loaded(s, g, version))
  {
    LoadedKeepsRoles(s.tasks, s.table.objects, s.table.stopped, g, version);
  }

  /** The entry of a closed task can go. */
  lemma EntryGoes(tasks: seq<Task>, objects: map<ObjectKey, Entry>, stopped: set<string>, g: Generation)
    requires Roles(tasks, objects, stopped) && g < |tasks| && !Open(tasks[g].phase)
    requires Listed(objects, tasks[g].key, g)
    ensures Roles(tasks, objects - {tasks[g].key}, stopped)
  {
  }

  lemma LeaveKeepsRoles(s: System, g: Generation)
    requires HasRoles(s) && In(s, g, Serving)
    ensures HasRoles(Leaving(s, g))
  {
    GoesOnInRoles(s, g, Closed, false);
    if Listed(s.table.objects, s.tasks[g].key, g) {
      EntryGoes(To(s, g, Closed), s.table.objects, s.table.stopped, g);
    }
  }

  lemma StopKeepsRoles(s: System, namespace: string)
    requires HasRoles(s)
    ensures HasRoles(s.(table := Stopped(s.table, namespace)))
  {
  }

  lemma TaskKeepsRoles(s: System, step: Step)
    requires Ready(s) && HasRoles(s) && Enabled(s, step) && !step.Admit? && !step.Retire?
    ensures HasRoles(Apply(s, step))
  {
    match step {
      case Wake(g) => GoesOnInRoles(s, g, Loading, false);
      case Load(g, version) => LoadKeepsRoles(s, g, version);
      case Fail(g) => GoesOnInRoles(s, g, Closed, true);
      case Take(g) =>
      case TryLeave(g) => LeaveKeepsRoles(s, g);
      case Release(g) => GoesOnInRoles(s, g, Released, s.tasks[g].failed);
      case End(g) => GoesOnInRoles(s, g, Ended, s.tasks[g].failed);
      case Stop(namespace) => StopKeepsRoles(s, namespace);
    }
  }

  /** A task goes on to the phase `p`; waking is the only way out of a wait. */
  lemma GoesOnInRoles(s: System, g: Generation, p: Phase, failed: bool)
    requires HasRoles(s) && g < |s.tasks| && (Open(p) ==> Open(s.tasks[g].phase))
    ensures Roles(s.tasks[g := s.tasks[g].(phase := p)], s.table.objects, s.table.stopped)
    ensures Roles(s.tasks[g := s.tasks[g].(phase := p, failed := failed)], s.table.objects, s.table.stopped)
  {
  }

  lemma StepKeepsRoles(s: System, step: Step)
    requires Ready(s) && HasRoles(s) && Enabled(s, step)
    ensures HasRoles(Apply(s, step))
  {
    match step
    case Admit(ns, id) => AdmitKeepsRoles(s, ns, ObjectKey(ns.id, id));
    case Retire(worker, version) => RetireKeepsRoles(s, worker, version);
    case _ => TaskKeepsRoles(s, step);
  }

  lemma {:induction false} RunKeepsRoles(states: seq<System>, steps: seq<Step>, i: nat)
    requires Run(states, steps) && i < |states|
    ensures HasRoles(states[i])
  {
    if i > 0 {
      var j := i - 1;
      RunKeepsRoles(states, steps, j);
      RunKeepsInv(states, steps, j);
      assert states[j + 1] == Apply(states[j], steps[j]);
      StepKeepsRoles(states[j], steps[j]);
    }
  }

  // ---- When an event is taken ----

  /** The task `g` of the object is open, and runs no retired version. */
  predicate Serves(s: System, key: ObjectKey, g: Generation) {
    g < |s.tasks| && s.tasks[g].key == key && Open(s.tasks[g].phase) && !s.tasks[g].retired
  }

  ghost predicate IsServed(s: System, key: ObjectKey) {
    exists g :: Serves(s, key, g)
  }

  lemma ServesIsListed(s: System, ns: Namespace, key: ObjectKey, g: Generation)
    requires Ready(s) && HasRoles(s) && key.namespace == ns.id && ns.id !in s.table.stopped && Serves(s, key, g)
    ensures Answer(s.table, ns, key) == Delivered(g)
    ensures forall h :: 0 <= h < |s.tasks| && s.tasks[h].key == key ==> h <= g
  {
    assert Listed(s.table.objects, key, g);
  }

  lemma ListedIsServed(s: System, ns: Namespace, key: ObjectKey)
    requires Ready(s) && HasRoles(s) && key.namespace == ns.id && Answer(s.table, ns, key).Delivered?
    ensures Serves(s, key, Answer(s.table, ns, key).to)
  {
    var g := Answer(s.table, ns, key).to;
    assert Listed(s.table.objects, s.tasks[g].key, g);
  }

  /** An event is taken if and only if its namespace is not stopped and a task of
      the object is open and not retired, or the account has fewer than a hundred
      tasks that have not ended. */
  lemma TakenExactly(states: seq<System>, steps: seq<Step>, i: nat)
    requires Run(states, steps) && i < |steps| && steps[i].Admit?
    ensures var s, s', ns, key := states[i], states[i + 1], steps[i].ns, ObjectKey(steps[i].ns.id, steps[i].id);
      |s'.accepted| > |s.accepted| <==>
        ns.id !in s.table.stopped && (IsServed(s, key) || |OfAccount(s.tasks, ns.account)| < 100)
  {
    RunKeepsInv(states, steps, i);
    RunKeepsRoles(states, steps, i);
    var s, ns, key := states[i], steps[i].ns, ObjectKey(steps[i].ns.id, steps[i].id);
    if g :| ns.id !in s.table.stopped && Serves(s, key, g) {
      ServesIsListed(s, ns, key, g);
    } else if Answer(s.table, ns, key).Delivered? {
      ListedIsServed(s, ns, key);
    }
  }

  /** The task of the object that is open and not retired, if there is one, takes
      it: it is the newest one, and no task starts. */
  lemma ItsTaskTakesIt(states: seq<System>, steps: seq<Step>, i: nat, g: Generation)
    requires Run(states, steps) && i < |steps| && steps[i].Admit? && steps[i].ns.id !in states[i].table.stopped
    requires Serves(states[i], ObjectKey(steps[i].ns.id, steps[i].id), g)
    ensures var s, s', key := states[i], states[i + 1], ObjectKey(steps[i].ns.id, steps[i].id);
      && s'.accepted == s.accepted + [Accepted(key, g)] && s'.tasks == s.tasks
      && g < |s.table.mailboxes| == |s'.table.mailboxes|
      && s'.table.mailboxes[g].queue == s.table.mailboxes[g].queue + [|s.accepted|]
      && forall h :: 0 <= h < |s.tasks| && s.tasks[h].key == key ==> h <= g
  {
    RunKeepsInv(states, steps, i);
    RunKeepsRoles(states, steps, i);
    ServesIsListed(states[i], steps[i].ns, ObjectKey(steps[i].ns.id, steps[i].id), g);
  }

  /** Without such a task, and with room in the account, a new task starts and
      takes it; it waits exactly if a retired one is noted. */
  lemma ANewTaskTakesIt(states: seq<System>, steps: seq<Step>, i: nat)
    requires Run(states, steps) && i < |steps| && steps[i].Admit? && steps[i].ns.id !in states[i].table.stopped
    requires !IsServed(states[i], ObjectKey(steps[i].ns.id, steps[i].id))
    requires |OfAccount(states[i].tasks, steps[i].ns.account)| < 100
    ensures var s, s', ns, key := states[i], states[i + 1], steps[i].ns, ObjectKey(steps[i].ns.id, steps[i].id);
      && s'.accepted == s.accepted + [Accepted(key, |s.tasks|)]
      && |s'.tasks| == |s.tasks| + 1 && s'.tasks[..|s.tasks|] == s.tasks
      && Serves(s', key, |s.tasks|) && s'.tasks[|s.tasks|].account == ns.account
      && (s'.tasks[|s.tasks|].phase.Waiting? <==> key in s.table.retiring)
  {
    RunKeepsInv(states, steps, i);
    RunKeepsRoles(states, steps, i);
    var s, ns, key := states[i], steps[i].ns, ObjectKey(steps[i].ns.id, steps[i].id);
    if Answer(s.table, ns, key).Delivered? {
      ListedIsServed(s, ns, key);
    }
  }

  /** A refusal changes nothing; if the namespace is not stopped, the account has
      exactly a hundred tasks, and none of them serves the object. */
  lemma RefusedExactly(states: seq<System>, steps: seq<Step>, i: nat)
    requires Run(states, steps) && i < |steps| && steps[i].Admit?
    requires |states[i + 1].accepted| == |states[i].accepted|
    ensures states[i + 1] == states[i]
    ensures var s, ns, key := states[i], steps[i].ns, ObjectKey(steps[i].ns.id, steps[i].id);
      ns.id !in s.table.stopped ==> |OfAccount(s.tasks, ns.account)| == 100 && !IsServed(s, key)
  {
    TakenExactly(states, steps, i);
    RunKeepsInv(states, steps, i);
    CountsAreExact(states, steps, i, steps[i].ns.id, steps[i].ns.account);
  }

  // ---- What a retirement does ----

  /** The task takes no event any more. */
  predicate IsOut(s: System, g: Generation) {
    g < |s.tasks| && (!Open(s.tasks[g].phase) || s.tasks[g].retired)
  }

  lemma StepKeepsOut(s: System, step: Step, g: Generation)
    requires Ready(s) && Enabled(s, step) && IsOut(s, g)
    ensures IsOut(Apply(s, step), g)
  {
  }

  lemma {:induction false} OutForGood(states: seq<System>, steps: seq<Step>, i: nat, j: nat, g: Generation)
    requires Run(states, steps) && i <= j < |states| && IsOut(states[i], g)
    ensures IsOut(states[j], g)
    decreases j
  {
    if i < j {
      var k := j - 1;
      OutForGood(states, steps, i, k, g);
      RunKeepsInv(states, steps, k);
      assert states[k + 1] == Apply(states[k], steps[k]);
      StepKeepsOut(states[k], steps[k], g);
    }
  }

  /** No event that is accepted after a retirement goes to a task that ran the
      retired version. */
  lemma RetiredTakesNothing(states: seq<System>, steps: seq<Step>, i: nat, j: nat, g: Generation)
    requires Run(states, steps) && i < j < |steps| && steps[i].Retire? && g < |states[i].tasks|
    requires states[i].tasks[g].worker == steps[i].worker && states[i].tasks[g].version == Some(steps[i].outdated)
    requires |states[j + 1].accepted| > |states[j].accepted|
    ensures states[j + 1].accepted[|states[j].accepted|].generation != g
  {
    var k := i + 1;
    assert states[k] == Apply(states[i], steps[i]) && IsOut(states[k], g);
    OutForGood(states, steps, k, j, g);
    RunKeepsInv(states, steps, j);
    RunKeepsRoles(states, steps, j);
    assert states[j + 1] == Apply(states[j], steps[j]);
    AcceptedElsewhere(states[j], steps[j], g);
  }

  lemma AcceptedElsewhere(s: System, step: Step, g: Generation)
    requires Ready(s) && HasRoles(s) && Enabled(s, step) && IsOut(s, g)
    requires |Apply(s, step).accepted| > |s.accepted|
    ensures Apply(s, step).accepted[|s.accepted|].generation != g
  {
    OnlyAdmitAccepts(s, step);
    var ns, key := step.ns, ObjectKey(step.ns.id, step.id);
    if Answer(s.table, ns, key).Delivered? {
      ListedIsServed(s, ns, key);
    }
  }

  lemma OnlyAdmitAccepts(s: System, step: Step)
    requires Enabled(s, step) && |Apply(s, step).accepted| > |s.accepted|
    ensures step.Admit?
  {
  }

  /** A retirement leaves every other task as it was. */
  lemma RetireSparesOthers(states: seq<System>, steps: seq<Step>, i: nat, g: Generation)
    requires Run(states, steps) && i < |steps| && steps[i].Retire? && g < |states[i].tasks|
    requires states[i].tasks[g].worker != steps[i].worker || states[i].tasks[g].version != Some(steps[i].outdated)
    ensures |states[i + 1].tasks| == |states[i].tasks| && states[i + 1].tasks[g] == states[i].tasks[g]
  {
  }

  // ---- What a stop does ----

  /** A namespace is stopped if and only if a stop of it came. */
  lemma {:induction false} StoppedExactly(states: seq<System>, steps: seq<Step>, i: nat, namespace: string)
    requires Run(states, steps) && i < |states|
    ensures namespace in states[i].table.stopped <==> exists k :: 0 <= k < i && steps[k] == Stop(namespace)
  {
    if i > 0 {
      var j := i - 1;
      StoppedExactly(states, steps, j, namespace);
      assert states[j + 1] == Apply(states[j], steps[j]);
      assert namespace in states[i].table.stopped <==>
        namespace in states[j].table.stopped || steps[j] == Stop(namespace);
    }
  }

  // ---- A task starts when the one before it has ended ----

  ghost predicate Woken(tasks: seq<Task>) {
    forall g :: 0 <= g < |tasks| && tasks[g].previous.Some? && !tasks[g].phase.Waiting? ==>
      tasks[g].previous.value < |tasks| && tasks[tasks[g].previous.value].phase.Ended?
  }

  lemma StepKeepsWoken(s: System, step: Step)
    requires Woken(s.tasks) && Enabled(s, step)
    ensures Woken(Apply(s, step).tasks)
  {
    if step.Admit? {
      AdmitKeepsWoken(s, step.ns, ObjectKey(step.ns.id, step.id));
    } else if step.Retire? {
      assert forall g :: 0 <= g < |s.tasks| ==> Apply(s, step).tasks[g].phase == s.tasks[g].phase;
    } else if !step.Stop? {
      var task := Apply(s, step).tasks[step.g];
      MoveKeepsWoken(s.tasks, step.g, task);
      assert Apply(s, step).tasks == s.tasks[step.g := task];
    }
  }

  lemma MoveKeepsWoken(tasks: seq<Task>, g: Generation, task: Task)
    requires Woken(tasks) && g < |tasks| && task.previous == tasks[g].previous
    requires tasks[g].phase.Ended? ==> task.phase.Ended?
    requires tasks[g].phase.Waiting? && !task.phase.Waiting? && task.previous.Some? ==>
      task.previous.value < |tasks| && tasks[task.previous.value].phase.Ended?
    ensures Woken(tasks[g := task])
  {
  }

  lemma AdmitKeepsWoken(s: System, ns: Namespace, key: ObjectKey)
    requires Woken(s.tasks)
    ensures Woken(Admitting(s, ns, key).tasks)
  {
  }

  /** A task that was started behind another is not past its wait until that one
      has given its counts back and is over. */
  lemma {:induction false} StartsAfterTheEnd(states: seq<System>, steps: seq<Step>, i: nat)
    requires Run(states, steps) && i < |states|
    ensures forall g :: 0 <= g < |states[i].tasks| && states[i].tasks[g].previous.Some?
                        && !states[i].tasks[g].phase.Waiting? ==>
      var h := states[i].tasks[g].previous.value; h < |states[i].tasks| && states[i].tasks[h].phase.Ended?
  {
    if i > 0 {
      var j := i - 1;
      StartsAfterTheEnd(states, steps, j);
      assert states[j + 1] == Apply(states[j], steps[j]);
      StepKeepsWoken(states[j], steps[j]);
    }
  }
}
