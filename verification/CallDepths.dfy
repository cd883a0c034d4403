/** The multiset of depths that a task of an object counts for its unanswered
    events, and the chains of calls from task to task that they bound. */
module CallDepths {
  import opened Wrappers

  /** Hops of a chain of nested calls. */
  const MAX_CALL_DEPTH: nat := 16

  /** `d` is the deepest of some depths, zero if there is none. */
  ghost predicate IsDeepest(depths: multiset<nat>, d: nat) {
    (d in depths || (d == 0 && depths == multiset{})) && forall x :: x in depths ==> x <= d
  }

  lemma DeepestIsUnique(depths: multiset<nat>, c: nat, d: nat)
    requires IsDeepest(depths, c) && IsDeepest(depths, d)
    ensures c == d
  {
    if c in depths && d in depths {
      assert c <= d && d <= c;
    }
  }

  /** The list of depths of one task, and its guards. */
  class Depths {
    var depths: seq<nat>

    constructor ()
      ensures depths == []
    {
      depths := [];
    }

    /** The deepest event in flight. */
    method Deepest() returns (d: nat)
      ensures IsDeepest(multiset(depths), d)
    {
      d := 0;
      for i := 0 to |depths|
        invariant forall j :: 0 <= j < i ==> depths[j] <= d
        invariant if i == 0 then d == 0 else d in depths[..i]
      {
        if i == 0 || d < depths[i] {
          d := depths[i];
        }
      }
      assert depths[..|depths|] == depths;
      assert forall x :: x in multiset(depths) ==> x in depths;
    }

    /** Counts an event until its guard drops. */
    method Enter(depth: nat)
      modifies this
      ensures multiset(depths) == multiset(old(depths)) + multiset{depth}
    {
      depths := depths + [depth];
    }

    /** The drop of a guard: the first equal depth goes, and the last one takes
        its place. The guard counted its depth. */
    method Exit(depth: nat)
      requires depth in depths
      modifies this
      ensures multiset(depths) == multiset(old(depths)) - multiset{depth}
    {
      var i := 0;
      while depths[i] != depth
        invariant 0 <= i < |depths| && depth in depths[i..]
        decreases |depths| - i
      {
        assert depths[i..] == [depths[i]] + depths[i + 1..];
        i := i + 1;
      }
      SwapRemove(depths, i);
      var last := |depths| - 1;
      depths := depths[i := depths[last]][..last];
    }
  }

  /** Putting the last element in the place of another, then cutting the last. */
  lemma SwapRemove(s: seq<nat>, i: nat)
    requires i < |s|
    ensures multiset(s[i := s[|s| - 1]][..|s| - 1]) == multiset(s) - multiset{s[i]}
  {
    var last := |s| - 1;
    var r := s[i := s[last]][..last];
    assert s == s[..last] + [s[last]];
    if i < last {
      assert s[..last] == s[..i] + [s[i]] + s[i + 1..last];
      assert r == s[..i] + [s[last]] + s[i + 1..last];
    } else {
      assert r == s[..last];
    }
  }

  // ---- Chains of calls ----

  /** An event: the task that handles it, its depth, the event whose code called,
      if one did, and whether its caller still waits for it. The tasks of one
      object, of which a retiring one goes on beside the next, count apart. */
  datatype Event = Event(task: nat, depth: nat, caller: Option<nat>, waits: bool)

  type State = seq<Event>

  datatype Step =
    | Arrive(task: nat, depth: nat)
    | Call(caller: nat, task: nat, deepest: nat)
    | Answer(event: nat)

  /** What the guards of a task hold: the depths of its events in flight. */
  function InFlight(s: State, task: nat): multiset<nat> {
    if s == [] then multiset{} else InFlight(s[..|s| - 1], task) + Own(s[|s| - 1], task)
  }

  /** What one event adds to the depths of a task. */
  function Own(e: Event, task: nat): multiset<nat> {
    if e.task == task && e.waits then multiset{e.depth} else multiset{}
  }

  /** A call goes one deeper than the deepest event of the task that makes
      it, and is refused when that is too deep. */
  ghost predicate Enabled(s: State, step: Step) {
    match step
    case Arrive(_, depth) => depth <= MAX_CALL_DEPTH
    case Call(caller, _, deepest) =>
      && caller < |s| && s[caller].waits
      && IsDeepest(InFlight(s, s[caller].task), deepest) && deepest + 1 <= MAX_CALL_DEPTH
    case Answer(e) => e < |s| && s[e].waits
  }

  ghost function Apply(s: State, step: Step): State
    requires Enabled(s, step)
  {
    match step
    case Arrive(o, depth) => s + [Event(o, depth, None, true)]
    case Call(caller, o, deepest) => s + [Event(o, deepest + 1, Some(caller), true)]
    case Answer(e) => s[e := s[e].(waits := false)]
  }

  ghost predicate Run(states: seq<State>, steps: seq<Step>) {
    && |states| == |steps| + 1 && |states[0]| == 0
    && forall i :: 0 <= i < |steps| ==> Enabled(states[i], steps[i]) && states[i + 1] == Apply(states[i], steps[i])
  }

  lemma {:induction false} InFlightCounts(s: State, e: nat)
    requires e < |s| && s[e].waits
    ensures s[e].depth in InFlight(s, s[e].task)
  {
    if e < |s| - 1 {
      assert s[..|s| - 1][e] == s[e];
      InFlightCounts(s[..|s| - 1], e);
    }
  }

  ghost predicate Inv(s: State) {
    forall e :: 0 <= e < |s| ==>
      && s[e].depth <= MAX_CALL_DEPTH
      && (s[e].caller.Some? ==> s[e].caller.value < e)
      && (s[e].caller.Some? ==> s[s[e].caller.value].depth < s[e].depth)
  }

  lemma StepKeepsInv(s: State, step: Step)
    requires Inv(s) && Enabled(s, step)
    ensures Inv(Apply(s, step))
  {
    if step.Call? {
      InFlightCounts(s, step.caller);
    }
  }

  lemma {:induction false} RunKeepsInv(states: seq<State>, steps: seq<Step>, i: nat)
    requires Run(states, steps) && i < |states|
    ensures Inv(states[i])
  {
    if i > 0 {
      var j := i - 1;
      RunKeepsInv(states, steps, j);
      assert states[j + 1] == Apply(states[j], steps[j]);
      StepKeepsInv(states[j], steps[j]);
    }
  }

  /** Each event of `chain` was called by the one before it. */
  predicate IsChain(s: State, chain: seq<nat>) {
    && (forall k :: 0 <= k < |chain| ==> chain[k] < |s|)
    && (forall k :: 0 <= k < |chain| - 1 ==> s[chain[k + 1]].caller == Some(chain[k]))
  }

  lemma {:induction false} ChainDeepens(s: State, chain: seq<nat>, k: nat)
    requires Inv(s) && IsChain(s, chain) && k < |chain|
    ensures s[chain[k]].depth >= k
  {
    if k > 0 {
      ChainDeepens(s, chain, k - 1);
      assert s[chain[(k - 1) + 1]].caller == Some(chain[k - 1]);
    }
  }

  /** A call made while its caller is unanswered is strictly deeper than it. */
  lemma CallsGoDeeper(states: seq<State>, steps: seq<Step>, i: nat, e: nat)
    requires Run(states, steps) && i < |states| && e < |states[i]| && states[i][e].caller.Some?
    ensures states[i][e].caller.value < e && states[i][states[i][e].caller.value].depth < states[i][e].depth
  {
    RunKeepsInv(states, steps, i);
  }

  lemma {:induction false} InFlightOnly(s: State, task: nat, d: nat) returns (e: nat)
    requires d in InFlight(s, task)
    ensures e < |s| && s[e].task == task && s[e].waits && s[e].depth == d
  {
    var last := |s| - 1;
    if s[last].task == task && s[last].waits && s[last].depth == d {
      e := last;
    } else {
      e := InFlightOnly(s[..last], task, d);
    }
  }

  /** A call is deeper than every unanswered event of the task that makes it, by
      one hop than the deepest, and no call goes beyond sixteen. */
  lemma CallIsOneDeeper(states: seq<State>, steps: seq<Step>, i: nat)
    returns (deepest: nat)
    requires Run(states, steps) && i < |steps| && steps[i].Call?
    ensures var s, task := states[i], states[i][steps[i].caller].task;
      && |states[i + 1]| == |s| + 1 && states[i + 1][|s|].caller == Some(steps[i].caller)
      && states[i + 1][|s|].depth <= MAX_CALL_DEPTH
      && deepest < |s| && s[deepest].task == task && s[deepest].waits
      && states[i + 1][|s|].depth == s[deepest].depth + 1
      && forall e :: 0 <= e < |s| && s[e].task == task && s[e].waits ==> s[e].depth < states[i + 1][|s|].depth
  {
    var s, task := states[i], states[i][steps[i].caller].task;
    InFlightCounts(s, steps[i].caller);
    deepest := InFlightOnly(s, task, steps[i].deepest);
    forall e | 0 <= e < |s| && s[e].task == task && s[e].waits ensures s[e].depth <= steps[i].deepest {
      InFlightCounts(s, e);
    }
  }

  /** So such calls nest sixteen hops deep at most. */
  lemma ChainsAreBounded(states: seq<State>, steps: seq<Step>, i: nat, chain: seq<nat>)
    requires Run(states, steps) && i < |states| && IsChain(states[i], chain) && |chain| > 0
    ensures |chain| - 1 <= MAX_CALL_DEPTH
  {
    RunKeepsInv(states, steps, i);
    ChainDeepens(states[i], chain, |chain| - 1);
  }

  /** An answered event leaves the depths of its task. */
  lemma {:induction false} AnswerLetsGo(s: State, e: nat, task: nat)
    requires e < |s| && s[e].waits
    ensures InFlight(s, task) == InFlight(s[e := s[e].(waits := false)], task) + Own(s[e], task)
  {
    var last, s' := |s| - 1, s[e := s[e].(waits := false)];
    var start, start' := s[..last], s'[..last];
    if e < last {
      assert start[e] == s[e];
      AnswerLetsGo(start, e, task);
      assert start' == start[e := start[e].(waits := false)];
      calc {
        InFlight(s, task);
        InFlight(start, task) + Own(s[last], task);
        InFlight(start', task) + Own(s[e], task) + Own(s[last], task);
        { Exchange(InFlight(start', task), Own(s[e], task), Own(s[last], task)); }
        InFlight(start', task) + Own(s[last], task) + Own(s[e], task);
        InFlight(s', task) + Own(s[e], task);
      }
    } else {
      assert start' == start;
    }
  }

  lemma Exchange(a: multiset<nat>, b: multiset<nat>, c: multiset<nat>)
    ensures a + b + c == a + c + b
  {
  }

  /** The depths of a task are those of its unanswered events: an event that comes
      adds its own, its answer takes exactly that one, and the other tasks keep
      theirs. */
  lemma DepthsFollow(states: seq<State>, steps: seq<Step>, i: nat, task: nat)
    requires Run(states, steps) && i < |steps|
    ensures var s, s', step := states[i], states[i + 1], steps[i];
      if step.Answer? then
        InFlight(s', task) ==
          if s[step.event].task == task then InFlight(s, task) - multiset{s[step.event].depth} else InFlight(s, task)
      else
        && |s'| == |s| + 1 && s'[|s|].task == step.task
        && InFlight(s', task) ==
             if step.task == task then InFlight(s, task) + multiset{s'[|s|].depth} else InFlight(s, task)
  {
    if steps[i].Answer? {
      AnswerLetsGo(states[i], steps[i].event, task);
    } else {
      assert states[i + 1][..|states[i]|] == states[i];
    }
  }

  lemma {:induction false} HasDeepest(depths: multiset<nat>) returns (d: nat)
    requires depths != multiset{}
    ensures d in depths && IsDeepest(depths, d)
    decreases |depths|
  {
    d :| d in depths;
    var rest := depths - multiset{d};
    if rest != multiset{} {
      var e := HasDeepest(rest);
      d := if d < e then e else d;
    }
    assert forall x :: x in depths ==> x == d || x in rest || x <= d;
  }

  /** A call is taken if and only if no unanswered event of its task is sixteen
      deep. */
  lemma RefusedExactly(states: seq<State>, steps: seq<Step>, i: nat, caller: nat, task: nat)
    requires Run(states, steps) && i < |states| && caller < |states[i]| && states[i][caller].waits
    ensures (exists d :: Enabled(states[i], Call(caller, task, d))) <==>
      forall e :: 0 <= e < |states[i]| && states[i][e].task == states[i][caller].task && states[i][e].waits ==>
        states[i][e].depth < 16
  {
    var s, own := states[i], states[i][caller].task;
    InFlightCounts(s, caller);
    var d := HasDeepest(InFlight(s, own));
    var deepest := InFlightOnly(s, own, d);
    if s[deepest].depth < 16 {
      assert Enabled(s, Call(caller, task, d));
    }
    forall e | 0 <= e < |s| && s[e].task == own && s[e].waits ensures s[e].depth <= d {
      InFlightCounts(s, e);
    }
  }
}
