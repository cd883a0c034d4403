/** Every run of one WebSocket of a Durable Object, from its accept on: the
    object and the runner send to it, its task waits for the client, then moves
    frames both ways, and ends. A socket id is accepted once. */
module SocketRuns {
  /** Bytes the runner keeps for a client that is not there yet. */
  const MAX_QUEUED_BYTES: nat := 8 * 1024 * 1024

  datatype Message = Frame(bytes: seq<bv8>) | Close(code: nat)

  /** Where the task of the socket is. `Leaving` has removed the socket from
      the map, and only has to end. */
  datatype Place =
    | Attaching(waiting: seq<Message>, bytes: nat)
    | Flushing(waiting: seq<Message>)
    | Live
    | Leaving
    | Ended

  /** `listed` tells whether the map has the socket, and so its sender; `sent`
      are the messages sent to it, in order, `queue` those its task did not take
      yet, and `received` what went to the client. The task holds the slot. */
  datatype State = State(
    listed: bool,
    sent: seq<Message>,
    queue: seq<Message>,
    place: Place,
    received: seq<Message>,
    slot: bool)

  datatype Step =
    | Send(message: Message)
    | Collect
    | Attach
    | GiveUp
    | Flush
    | Forward
    | Deliver(last: bool, taken: bool)
    | Overrun
    | Drained
    | End

  function Size(m: Message): nat { if m.Frame? then |m.bytes| else 0 }

  predicate Enabled(s: State, step: Step) {
    match step
    case Send(_) => true
    case Collect => s.place.Attaching? && s.queue != []
    case Attach => s.place.Attaching?
    case GiveUp => s.place.Attaching?
    case Flush => s.place.Flushing?
    case Forward => s.place.Live? && s.queue != []
    case Deliver(_, _) => s.place.Live?
    case Overrun => s.place.Live?
    case Drained => s.place.Live? && s.queue == [] && !s.listed
    case End => s.place.Leaving?
  }

  /** The task forgets the socket, and ends. */
  function Leave(s: State): State { s.(listed := false, place := Leaving) }

  function ToClient(s: State, m: Message): State { s.(received := s.received + [m]) }

  function Apply(s: State, step: Step): State
    requires Enabled(s, step)
  {
    match step
    case Send(m) =>
      // Of the object, or the close of a new deployment, of a deleted
      // namespace, or of an instance that ended
      if s.listed then s.(sent := s.sent + [m], queue := s.queue + [m], listed := m.Frame?) else s
    case Collect =>
      var Attaching(waiting, bytes) := s.place;
      var m := s.queue[0];
      var s1 := s.(queue := s.queue[1..], place := Attaching(waiting + [m], bytes + Size(m)));
      if bytes + Size(m) > MAX_QUEUED_BYTES then Leave(s1) else s1
    case Attach => s.(place := Flushing(s.place.waiting))
    case GiveUp => Leave(s)
    case Flush =>
      if s.place.waiting == [] then s.(place := Live)
      else
        var m := s.place.waiting[0];
        var s1 := ToClient(s, m).(place := Flushing(s.place.waiting[1..]));
        if m.Close? then Leave(s1) else s1
    case Forward =>
      var m := s.queue[0];
      var s1 := ToClient(s.(queue := s.queue[1..]), m);
      if m.Close? then Leave(s1) else s1
    case Deliver(last, taken) =>
      // A refused event ends the socket with a close of its own
      if !taken then Leave(ToClient(s, Close(1013))) else if last then Leave(s) else s
    case Overrun => Leave(ToClient(s, Close(1008)))
    case Drained => Leave(s)
    case End => s.(place := Ended, slot := false)
  }

  ghost predicate Run(states: seq<State>, steps: seq<Step>) {
    && |states| == |steps| + 1
    && Accepted(states[0])
    && forall i :: 0 <= i < |steps| ==> Enabled(states[i], steps[i]) && states[i + 1] == Apply(states[i], steps[i])
  }

  ghost predicate Accepted(s: State) {
    && s.listed && s.slot && s.place.Attaching? && s.place.bytes == 0
    && |s.sent| == |s.queue| == |s.received| == |s.place.waiting| == 0
  }

  // ---- What every step keeps ----

  /** Only the last message can be a close. */
  ghost predicate OneClose(ms: seq<Message>) {
    forall i :: 0 <= i < |ms| - 1 ==> ms[i].Frame?
  }

  predicate Closes(ms: seq<Message>) { ms != [] && ms[|ms| - 1].Close? }

  /** What the runner itself sends: the object cannot be started, or does not read
      fast enough. */
  predicate IsDismissal(m: Message) { m == Close(1013) || m == Close(1008) }

  /** What the task has in hand for the client. */
  function Waiting(p: Place): seq<Message> {
    if p.Attaching? || p.Flushing? then p.waiting else []
  }

  /** Until the task leaves, what the client got, what waits for it and what is
      queued are together what was sent; after, the client got a beginning of
      it, and perhaps a close of the runner. */
  ghost predicate InOrder(s: State) {
    if s.place.Leaving? || s.place.Ended? then
      || s.received <= s.sent
      || (s.received != [] && IsDismissal(s.received[|s.received| - 1]) && s.received[..|s.received| - 1] <= s.sent)
    else s.sent == s.received + Waiting(s.place) + s.queue
  }

  ghost predicate Inv(s: State) {
    && InOrder(s) && OneClose(s.sent) && OneClose(s.received)
    && (Closes(s.sent) ==> !s.listed)
    && (!s.place.Leaving? && !s.place.Ended? ==> !Closes(s.received))
    && (s.place.Attaching? ==> |s.received| == 0)
    && (s.listed ==> !s.place.Leaving? && !s.place.Ended?)
    && (s.slot <==> !s.place.Ended?)
  }

  lemma SendKeepsInv(s: State, m: Message)
    requires Inv(s)
    ensures Inv(Apply(s, Send(m)))
  {
    if s.listed {
      assert s.sent + [m] == s.received + Waiting(s.place) + (s.queue + [m]);
    }
  }

  lemma CollectKeepsInv(s: State)
    requires Inv(s) && Enabled(s, Collect)
    ensures Inv(Apply(s, Collect))
  {
    var m := s.queue[0];
    assert s.sent == s.received + (Waiting(s.place) + [m]) + s.queue[1..];
    assert s.received <= s.sent;
  }

  /** The client gets the next message. */
  lemma NextKeepsInv(s: State, m: Message, rest: seq<Message>, s': State)
    requires Inv(s) && (s.place.Flushing? || s.place.Live?) && s.sent == s.received + [m] + rest
    requires s'.received == s.received + [m] && s'.sent == s.sent && s'.slot == s.slot
    requires if m.Close? then !s'.listed && s'.place.Leaving?
             else s'.listed == s.listed && (s'.place.Flushing? || s'.place.Live?)
                  && rest == Waiting(s'.place) + s'.queue
    ensures Inv(s')
  {
    assert s.sent == s'.received + rest;
    assert s.sent[|s.received|] == m;
    if m.Frame? {
      assert s'.sent == s'.received + Waiting(s'.place) + s'.queue;
    }
  }

  lemma FlushKeepsInv(s: State)
    requires Inv(s) && Enabled(s, Flush)
    ensures Inv(Apply(s, Flush))
  {
    var w := s.place.waiting;
    if w != [] {
      assert w + s.queue == [w[0]] + (w[1..] + s.queue);
      assert s.sent == s.received + [w[0]] + (w[1..] + s.queue);
      NextKeepsInv(s, w[0], w[1..] + s.queue, Apply(s, Flush));
    }
  }

  lemma ForwardKeepsInv(s: State)
    requires Inv(s) && Enabled(s, Forward)
    ensures Inv(Apply(s, Forward))
  {
    var q := s.queue;
    assert s.sent == s.received + [q[0]] + q[1..];
    assert [] + q[1..] == q[1..];
    NextKeepsInv(s, q[0], q[1..], Apply(s, Forward));
  }

  lemma StepKeepsInv(s: State, step: Step)
    requires Inv(s) && Enabled(s, step)
    ensures Inv(Apply(s, step))
  {
    match step
    case Send(m) => SendKeepsInv(s, m);
    case Collect => CollectKeepsInv(s);
    case Flush => FlushKeepsInv(s);
    case Forward => ForwardKeepsInv(s);
    case Deliver(_, taken) =>
      if !taken {
        DismissKeepsInv(s, 1013);
      }
    case Overrun => DismissKeepsInv(s, 1008);
    case _ =>
  }

  /** The runner closes the socket itself. */
  lemma DismissKeepsInv(s: State, code: nat)
    requires Inv(s) && s.place.Live? && (code == 1013 || code == 1008)
    ensures Inv(Leave(ToClient(s, Close(code))))
  {
    var received := s.received + [Close(code)];
    assert received[..|received| - 1] == s.received && s.received <= s.sent;
  }

  lemma {:induction false} RunKeepsInv(states: seq<State>, steps: seq<Step>, i: nat)
    requires Run(states, steps) && i < |states|
    ensures Inv(states[i])
  {
    if i > 0 {
      RunKeepsInv(states, steps, i - 1);
      StepKeepsInv(states[i - 1], steps[i - 1]);
    }
  }

  /** The client receives a beginning of what was sent to the socket, in order,
      across its wait and its life, then at most one close of the runner, with
      one of its two codes; only the last thing it receives can be a close. */
  lemma ClientReceivesAPrefix(states: seq<State>, steps: seq<Step>, i: nat)
    requires Run(states, steps) && i < |states|
    ensures var r := states[i].received;
      && (r <= states[i].sent ||
          (|r| > 0 && (r[|r| - 1] == Close(1013) || r[|r| - 1] == Close(1008)) && r[..|r| - 1] <= states[i].sent))
      && forall k :: 0 <= k < |r| && r[k].Close? ==> k == |r| - 1
  {
    RunKeepsInv(states, steps, i);
  }

  /** After a close the client receives nothing more. */
  lemma {:induction false} NothingAfterAClose(states: seq<State>, steps: seq<Step>, i: nat, j: nat)
    requires Run(states, steps) && i <= j < |states| && Closes(states[i].received)
    ensures states[j].received == states[i].received
    decreases j
  {
    if i < j {
      NothingAfterAClose(states, steps, i, j - 1);
      RunKeepsInv(states, steps, j - 1);
    }
  }

  /** A listed socket has a task that has not ended and holds its slot. */
  lemma ListedSocketHasItsTask(states: seq<State>, steps: seq<Step>, i: nat)
    requires Run(states, steps) && i < |states|
    ensures states[i].listed ==> !states[i].place.Ended? && states[i].slot
    ensures states[i].slot <==> !states[i].place.Ended?
  {
    RunKeepsInv(states, steps, i);
  }

  function Total(ms: seq<Message>): nat {
    if ms == [] then 0 else Total(ms[..|ms| - 1]) + Size(ms[|ms| - 1])
  }

  lemma TotalOfOneMore(ms: seq<Message>, m: Message)
    ensures Total(ms + [m]) == Total(ms) + Size(m)
  {
    assert (ms + [m])[..|ms|] == ms;
  }

  ghost predicate Bounded(p: Place) {
    && Total(Waiting(p)) <= MAX_QUEUED_BYTES
    && (p.Attaching? ==> p.bytes == Total(p.waiting))
  }

  lemma StepKeepsBounded(s: State, step: Step)
    requires Enabled(s, step) && Bounded(s.place)
    ensures Bounded(Apply(s, step).place)
  {
    if step.Collect? {
      TotalOfOneMore(s.place.waiting, s.queue[0]);
    } else if step.Flush? && s.place.waiting != [] {
      TotalOfTail(s.place.waiting);
    }
  }

  /** What waits for a client that is not there yet is counted exactly, and
      within the bound. */
  lemma {:induction false} WaitingIsBounded(states: seq<State>, steps: seq<Step>, i: nat)
    requires Run(states, steps) && i < |states|
    ensures Total(Waiting(states[i].place)) <= MAX_QUEUED_BYTES
    ensures states[i].place.Attaching? ==> states[i].place.bytes == Total(states[i].place.waiting)
  {
    if i > 0 {
      WaitingIsBounded(states, steps, i - 1);
      StepKeepsBounded(states[i - 1], steps[i - 1]);
    }
  }

  lemma {:induction false} TotalOfTail(ms: seq<Message>)
    requires ms != []
    ensures Total(ms[1..]) <= Total(ms)
  {
    if |ms| > 1 {
      var start := ms[..|ms| - 1];
      TotalOfTail(start);
      assert ms[1..][..|ms| - 2] == start[1..];
    }
  }

  // ---- Nothing is skipped ----

  /** The messages that were sent while the socket was listed. */
  function Offered(states: seq<State>, steps: seq<Step>, i: nat): seq<Message>
    requires i <= |steps| < |states|
  {
    if i == 0 then []
    else
      var before := Offered(states, steps, i - 1);
      if steps[i - 1].Send? && states[i - 1].listed then before + [steps[i - 1].message] else before
  }

  /** What counts as sent is what was offered while the socket was listed. */
  lemma {:induction false} SentIsOffered(states: seq<State>, steps: seq<Step>, i: nat)
    requires Run(states, steps) && i < |states|
    ensures states[i].sent == Offered(states, steps, i)
  {
    if i > 0 {
      SentIsOffered(states, steps, i - 1);
    }
  }

  /** A socket stops being listed exactly if a close is sent to it, or its task
      leaves. */
  lemma UnlistedExactly(states: seq<State>, steps: seq<Step>, i: nat)
    requires Run(states, steps) && i < |steps| && states[i].listed
    ensures !states[i + 1].listed <==>
      (steps[i].Send? && steps[i].message.Close?) || states[i + 1].place.Leaving?
  {
    RunKeepsInv(states, steps, i);
  }

  /** Until its task leaves, everything sent is with the client, in hand or
      queued, in this order. */
  lemma NothingIsSkipped(states: seq<State>, steps: seq<Step>, i: nat)
    requires Run(states, steps) && i < |states| && !states[i].place.Leaving? && !states[i].place.Ended?
    ensures states[i].sent == states[i].received + Waiting(states[i].place) + states[i].queue
  {
    RunKeepsInv(states, steps, i);
  }

  /** A task that leaves while it sends, or because nothing comes any more, has
      sent everything; one that waits for the client leaves by itself exactly if
      more than the bound waits. */
  lemma LeavesWithEverything(states: seq<State>, steps: seq<Step>, i: nat)
    requires Run(states, steps) && i < |steps|
    ensures states[i + 1].place.Leaving? && (steps[i].Drained? || steps[i].Flush? || steps[i].Forward?) ==>
      states[i + 1].received == states[i + 1].sent
    ensures steps[i].Collect? ==>
      (states[i + 1].place.Leaving? <==>
         Total(states[i].place.waiting) + Size(states[i].queue[0]) > MAX_QUEUED_BYTES)
  {
    RunKeepsInv(states, steps, i);
    WaitingIsBounded(states, steps, i);
    if steps[i].Drained? {
      assert states[i].received + [] + [] == states[i].received;
    } else if steps[i].Flush? || steps[i].Forward? {
      LastIsClose(states[i], steps[i]);
    }
  }

  /** A task with a client leaves over what the client sends exactly if that is
      its last message or the object does not take it, in which case the client
      gets the runner's close; a client that sends too much gets the other one. */
  lemma ClientIsDismissed(states: seq<State>, steps: seq<Step>, i: nat)
    requires Run(states, steps) && i < |steps|
    ensures steps[i].Deliver? ==>
      && (states[i + 1].place.Leaving? <==> steps[i].last || !steps[i].taken)
      && states[i + 1].received == states[i].received + if steps[i].taken then [] else [Close(1013)]
    ensures steps[i].Overrun? ==>
      states[i + 1].place.Leaving? && states[i + 1].received == states[i].received + [Close(1008)]
  {
    assert states[i].received + [] == states[i].received;
  }

  /** A close that is sent on is the last message. */
  lemma LastIsClose(s: State, step: Step)
    requires Inv(s) && Enabled(s, step) && (step.Flush? || step.Forward?)
    ensures Apply(s, step).place.Leaving? ==> Apply(s, step).received == s.sent
  {
    var ms := if step.Flush? then s.place.waiting + s.queue else s.queue;
    if Apply(s, step).place.Leaving? {
      assert s.sent == s.received + ms;
      assert s.sent[|s.received|] == ms[0] && ms[0].Close?;
      assert |ms| == 1;
    }
  }

  /** A task leaves exactly if the client does not come in time or sends its last
      message, too much, or one the object does not take, if too much waits for
      it, or if a close goes to it or nothing can come any more. */
  lemma LeavesExactly(states: seq<State>, steps: seq<Step>, i: nat)
    requires Run(states, steps) && i < |steps| && !states[i].place.Leaving?
    ensures var s, step := states[i], steps[i];
      states[i + 1].place.Leaving? <==>
        || step.GiveUp? || step.Overrun? || step.Drained?
        || (step.Deliver? && (step.last || !step.taken))
        || (step.Collect? && Total(s.place.waiting) + Size(s.queue[0]) > MAX_QUEUED_BYTES)
        || (step.Flush? && s.place.waiting != [] && s.place.waiting[0].Close?)
        || (step.Forward? && s.queue[0].Close?)
  {
    WaitingIsBounded(states, steps, i);
  }
}
