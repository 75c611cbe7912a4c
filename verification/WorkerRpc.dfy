/** The worker's JSON-RPC link: one reader numbers the worker's messages, one serve loop handles them
    in turn, and a call returns its result only behind the barrier its response was read with. */
module WorkerRpc {
  import opened Common

  const CAPACITY := 32

  /** A message with a method, numbered in the order it was read. */
  datatype Message = Message(sequence: nat, payload: string)

  datatype Reply = Value(text: string) | Fault

  /** A call: written, holding its response, about to compare, parked on the token, or over. */
  datatype Call =
    | Sent
    | Replied(reply: Reply, barrier: nat)
    | Checking(text: string, barrier: nat)
    | Parked(text: string, barrier: nat)
    | Returned(text: string)
    | Failed

  /** Start waits for the ready message, initialises without a serve loop, and Run starts the loop. */
  datatype Mode = AwaitReady | Initializing | Serving | Halted

  /** held is the message the reader has numbered but not yet queued. notified and served list the
      messages read and fully handled; before keeps, for each response, what had been read by then. */
  datatype State = State(
    mode: Mode, reading: bool, queued: nat, held: Option<Message>, channel: seq<Message>,
    handling: Option<Message>, handled: nat, token: bool, calls: map<string, Call>,
    notified: seq<string>, served: seq<string>, before: map<string, seq<string>>)

  const INIT := State(AwaitReady, true, 0, None, [], None, 0, false, map[], [], [], map[])

  datatype Step =
    | ReadNotify(payload: string)
    | Enqueue
    | ReadResponse(id: string, reply: Reply)
    | FailPending
    | TakeReady
    | RefuseFirst
    | StartServing
    | ServeTake
    | ServeDone
    | ServeStop
    | StartCall(id: string, written: bool)
    | TakeResponse(id: string)
    | Compare(id: string)
    | TakeToken(id: string)
    | AbandonCall(id: string)

  predicate Is(s: State, id: string, call: Call) {
    id in s.calls && s.calls[id] == call
  }

  predicate Enabled(s: State, step: Step) {
    match step
    case ReadNotify(_) => s.reading && s.held.None?
    case Enqueue => s.held.Some? && |s.channel| < CAPACITY
    // a response to a call that is over or unknown ends the reading instead
    case ReadResponse(id, _) => s.reading && s.held.None? && Is(s, id, Sent)
    case FailPending => s.held.None?
    case TakeReady => s.mode.AwaitReady? && s.channel != [] && s.channel[0].payload == "ready"
    case RefuseFirst => s.mode.AwaitReady? && s.channel != [] && s.channel[0].payload != "ready"
    case StartServing => s.mode.Initializing?
    case ServeTake => s.mode.Serving? && s.handling.None? && s.channel != []
    case ServeDone => s.handling.Some?
    case ServeStop => s.mode.Serving? && s.handling.None?
    case StartCall(id, _) => !s.mode.AwaitReady? && id !in s.calls
    case TakeResponse(id) => id in s.calls && s.calls[id].Replied?
    case Compare(id) => id in s.calls && s.calls[id].Checking?
    case TakeToken(id) => id in s.calls && s.calls[id].Parked? && s.token
    case AbandonCall(id) => id in s.calls && (s.calls[id].Sent? || s.calls[id].Parked?)
  }

  function SetCall(s: State, id: string, call: Call): (t: State)
    ensures t == s.(calls := t.calls)
  {
    s.(calls := s.calls[id := call])
  }

  /** The message is done: its number is published and the token left, unless one lies there. */
  function MarkHandled(s: State, m: Message): (t: State)
    ensures t == s.(handled := t.handled, token := t.token, served := t.served)
  {
    s.(handled := m.sequence, token := true, served := s.served + [m.payload])
  }

  predicate Over(call: Call) {
    call.Returned? || call.Failed?
  }

  function FailSent(calls: map<string, Call>): map<string, Call> {
    map id <- calls :: if calls[id].Sent? then Replied(Fault, 0) else calls[id]
  }

  function Apply(s: State, step: Step): State
    requires Enabled(s, step)
  {
    match step
    case ReadNotify(payload) =>
      s.(queued := s.queued + 1, held := Some(Message(s.queued + 1, payload)), notified := s.notified + [payload])
    case Enqueue => s.(channel := s.channel + [s.held.value], held := None)
    case ReadResponse(id, reply) =>
      SetCall(s, id, Replied(reply, s.queued)).(before := s.before[id := s.notified])
    case FailPending => s.(reading := false, calls := FailSent(s.calls))
    case TakeReady => MarkHandled(s, s.channel[0]).(channel := s.channel[1..], mode := Initializing)
    case RefuseFirst => s.(mode := Halted, reading := false)
    case StartServing => s.(mode := Serving)
    case ServeTake => s.(handling := Some(s.channel[0]), channel := s.channel[1..])
    case ServeDone => MarkHandled(s, s.handling.value).(handling := None)
    case ServeStop => s.(mode := Halted)
    case StartCall(id, written) => SetCall(s, id, if written then Sent else Replied(Fault, 0))
    case TakeResponse(id) =>
      var reply, barrier := s.calls[id].reply, s.calls[id].barrier;
      SetCall(s, id, if reply.Fault? then Failed else Checking(reply.text, barrier))
    case Compare(id) =>
      var text, barrier := s.calls[id].text, s.calls[id].barrier;
      SetCall(s, id, if s.handled < barrier then Parked(text, barrier) else Returned(text))
    case TakeToken(id) => SetCall(s, id, Checking(s.calls[id].text, s.calls[id].barrier)).(token := false)
    case AbandonCall(id) => SetCall(s, id, Failed)
  }

  // ---------- the invariant ----------

  function AsSeq(m: Option<Message>): seq<Message> {
    if m.Some? then [m.value] else []
  }

  /** Read and not yet handled, oldest first. */
  function Backlog(s: State): seq<Message> {
    AsSeq(s.handling) + s.channel + AsSeq(s.held)
  }

  /** The handled messages and then the backlog are the read messages, numbered from one. */
  predicate InOrder(s: State) {
    && s.queued == |s.notified| && s.handled == |s.served|
    && |s.served| + |Backlog(s)| == |s.notified|
    && s.served == s.notified[..|s.served|]
    && (forall k :: 0 <= k < |Backlog(s)| ==>
          Backlog(s)[k] == Message(|s.served| + k + 1, s.notified[|s.served| + k]))
    && (s.mode.AwaitReady? ==> s.handling.None?)
    && |s.channel| <= CAPACITY
  }

  /** The barrier of a response is what had been read before it; a result stands behind it. */
  predicate CallHolds(s: State, id: string)
    requires id in s.calls
  {
    match s.calls[id]
    case Replied(Value(_), barrier) =>
      id in s.before && barrier <= |s.notified| && s.before[id] == s.notified[..barrier]
    case Checking(_, barrier) =>
      id in s.before && barrier <= |s.notified| && s.before[id] == s.notified[..barrier]
    case Parked(_, barrier) =>
      id in s.before && barrier <= |s.notified| && s.before[id] == s.notified[..barrier]
    case Returned(_) => id in s.before && s.before[id] <= s.served
    case _ => true
  }

  predicate Inv(s: State) {
    InOrder(s) && forall id <- s.calls :: CallHolds(s, id)
  }

  predicate Later(s: State, t: State) {
    s.notified <= t.notified && s.served <= t.served && s.handled <= t.handled
  }

  lemma LaterKeepsCalls(s: State, t: State, id: string)
    requires Later(s, t) && id in s.calls && id in t.calls && t.calls[id] == s.calls[id]
    requires id in s.before ==> id in t.before && t.before[id] == s.before[id]
    requires CallHolds(s, id)
    ensures CallHolds(t, id)
  {
    assert s.notified == t.notified[..|s.notified|];
  }

  predicate SameLogs(s: State, t: State) {
    s.queued == t.queued && s.notified == t.notified && s.handled == t.handled && s.served == t.served
  }

  /** Moving a message along without handling it. */
  lemma SameBacklogKeepsOrder(s: State, t: State)
    requires InOrder(s) && SameLogs(s, t) && Backlog(s) == Backlog(t)
    requires |t.channel| <= |s.channel| || |t.channel| <= CAPACITY
    requires t.mode.AwaitReady? ==> s.mode.AwaitReady? && t.handling == s.handling
    ensures InOrder(t) && Later(s, t)
  {
  }

  lemma ReadKeepsOrder(s: State, t: State, payload: string)
    requires InOrder(s) && Backlog(t) == Backlog(s) + [Message(s.queued + 1, payload)]
    requires t.queued == s.queued + 1 && t.notified == s.notified + [payload]
    requires t.handled == s.handled && t.served == s.served && t.channel == s.channel
    requires t.mode == s.mode && t.handling == s.handling
    ensures InOrder(t) && Later(s, t)
  {
  }

  lemma HandledKeepsOrder(s: State, t: State, m: Message)
    requires InOrder(s) && Backlog(s) == [m] + Backlog(t)
    requires t.queued == s.queued && t.notified == s.notified && |t.channel| <= |s.channel|
    requires t.handled == m.sequence && t.served == s.served + [m.payload] && !t.mode.AwaitReady?
    ensures InOrder(t) && Later(s, t)
  {
    assert m == Backlog(s)[0];
    forall k | 0 <= k < |Backlog(t)|
      ensures Backlog(t)[k] == Message(|t.served| + k + 1, t.notified[|t.served| + k])
    {
      assert Backlog(t)[k] == Backlog(s)[k + 1];
    }
  }

  /** What a step does to the backlog: none, one message more, or the oldest one less. */
  lemma BacklogStays(s: State, step: Step)
    requires Enabled(s, step) && !step.ReadNotify? && !step.TakeReady? && !step.ServeDone?
    ensures Backlog(Apply(s, step)) == Backlog(s)
  {
    hide FailSent;
    var t := Apply(s, step);
    if step.ServeTake? {
      assert s.channel == [s.channel[0]] + t.channel;
    } else if !step.Enqueue? {
      assert t.channel == s.channel && t.held == s.held && t.handling == s.handling;
    }
  }

  lemma BacklogGrows(s: State, step: Step)
    requires Enabled(s, step) && step.ReadNotify?
    ensures Backlog(Apply(s, step)) == Backlog(s) + [Message(s.queued + 1, step.payload)]
  {
  }

  lemma BacklogShrinks(s: State, step: Step)
    requires Enabled(s, step) && (step.ServeDone? || (step.TakeReady? && s.handling.None?))
    ensures Backlog(s) == [if step.ServeDone? then s.handling.value else s.channel[0]] + Backlog(Apply(s, step))
  {
    hide MarkHandled;
    var t := Apply(s, step);
    assert t.handling.None? && t.held == s.held;
    assert Backlog(t) == t.channel + AsSeq(s.held);
    if step.TakeReady? {
      assert s.channel == [s.channel[0]] + t.channel;
      assert Backlog(s) == s.channel + AsSeq(s.held);
    } else {
      assert Backlog(s) == [s.handling.value] + s.channel + AsSeq(s.held);
    }
    hide Apply, Enabled, Backlog, AsSeq;
  }

  lemma HandlingKeepsOrder(s: State, step: Step)
    requires InOrder(s) && Enabled(s, step) && (step.TakeReady? || step.ServeDone?)
    ensures InOrder(Apply(s, step)) && Later(s, Apply(s, step))
  {
    assert s.mode.AwaitReady? ==> s.handling.None?;
    BacklogShrinks(s, step);
    hide InOrder, Later, Backlog;
    HandledKeepsOrder(s, Apply(s, step), if step.ServeDone? then s.handling.value else s.channel[0]);
  }

  lemma MovingKeepsOrder(s: State, step: Step)
    requires InOrder(s) && Enabled(s, step) && !step.ReadNotify? && !step.TakeReady? && !step.ServeDone?
    ensures InOrder(Apply(s, step)) && Later(s, Apply(s, step))
  {
    BacklogStays(s, step);
    hide InOrder, Later, Backlog, FailSent;
    SameBacklogKeepsOrder(s, Apply(s, step));
  }

  lemma StepKeepsOrder(s: State, step: Step)
    requires InOrder(s) && Enabled(s, step)
    ensures InOrder(Apply(s, step)) && Later(s, Apply(s, step))
  {
    hide InOrder, Later, Backlog;
    if step.ReadNotify? {
      BacklogGrows(s, step);
      ReadKeepsOrder(s, Apply(s, step), step.payload);
    } else if step.TakeReady? || step.ServeDone? {
      HandlingKeepsOrder(s, step);
    } else {
      MovingKeepsOrder(s, step);
    }
  }

  /** A call that has just moved: a response brings its barrier, a comparison passes it. */
  lemma MovedCallHolds(s: State, step: Step, id: string)
    requires Enabled(s, step) && id in s.calls && CallHolds(s, id) && id in Apply(s, step).calls
    requires Apply(s, step).calls[id] != s.calls[id]
    requires s.queued == |s.notified| && s.handled == |s.served| && s.served <= s.notified
    ensures CallHolds(Apply(s, step), id)
  {
    hide MarkHandled;
    if step.Compare? && s.calls[id].barrier <= s.handled {
      assert s.notified[..s.calls[id].barrier] == s.served[..s.calls[id].barrier];
    }
  }

  lemma SameCallHolds(s: State, step: Step, id: string)
    requires Enabled(s, step) && id in s.calls && CallHolds(s, id) && id in Apply(s, step).calls
    requires Apply(s, step).calls[id] == s.calls[id]
    requires Later(s, Apply(s, step))
    ensures CallHolds(Apply(s, step), id)
  {
    var t := Apply(s, step);
    assert id in s.before ==> id in t.before && (s.calls[id].Sent? || t.before[id] == s.before[id]);
    hide Apply, Enabled, Later;
    if !s.calls[id].Sent? {
      LaterKeepsCalls(s, t, id);
    }
  }

  lemma NewCallHolds(s: State, step: Step, id: string)
    requires Enabled(s, step) && id !in s.calls && id in Apply(s, step).calls
    ensures CallHolds(Apply(s, step), id)
  {
  }

  lemma StepKeepsInv(s: State, step: Step)
    requires Inv(s) && Enabled(s, step)
    ensures Inv(Apply(s, step))
  {
    var t := Apply(s, step);
    StepKeepsOrder(s, step);
    assert s.queued == |s.notified| && s.handled == |s.served| && s.served <= s.notified;
    hide InOrder, Later, Enabled, Apply, CallHolds;
    forall id | id in t.calls ensures CallHolds(t, id) {
      if id !in s.calls {
        NewCallHolds(s, step, id);
      } else if t.calls[id] == s.calls[id] {
        SameCallHolds(s, step, id);
      } else {
        MovedCallHolds(s, step, id);
      }
    }
  }

  // ---------- whole histories ----------

  predicate History(s: State, steps: seq<Step>)
    decreases |steps|
  {
    steps == [] || (Enabled(s, steps[0]) && History(Apply(s, steps[0]), steps[1..]))
  }

  function Run(s: State, steps: seq<Step>): State
    requires History(s, steps)
    decreases |steps|
  {
    if steps == [] then s else Run(Apply(s, steps[0]), steps[1..])
  }

  lemma {:induction false} RunKeepsInv(s: State, steps: seq<Step>)
    requires Inv(s) && History(s, steps)
    ensures Inv(Run(s, steps))
    decreases |steps|
  {
    if steps != [] {
      StepKeepsInv(s, steps[0]);
      hide Inv;
      RunKeepsInv(Apply(s, steps[0]), steps[1..]);
    }
  }

  /** For every interleaving of the reader, the serve loop and any number of calls: the messages are
      handled in the order they were read, and once a call has returned a result, everything read
      before its response has been handled. */
  lemma ResultsWaitForMessages(steps: seq<Step>)
    requires History(INIT, steps)
    ensures var s := Run(INIT, steps);
      && s.served <= s.notified
      && (forall id | id in s.calls && s.calls[id].Returned? :: id in s.before && s.before[id] <= s.served)
  {
    RunKeepsInv(INIT, steps);
    var s := Run(INIT, steps);
    hide Run, History;
    forall id | id in s.calls && s.calls[id].Returned? ensures id in s.before && s.before[id] <= s.served {
      assert CallHolds(s, id);
    }
  }

  // ---------- waiting on the one token ----------

  predicate AtBarrier(call: Call) {
    call.Checking? || call.Parked?
  }

  /** A parked call whose barrier has been passed has its token, or it will not be woken. */
  predicate Stalled(s: State, id: string) {
    id in s.calls && s.calls[id].Parked? && s.calls[id].barrier <= s.handled && !s.token
  }

  /** A call gets stalled exactly when another call takes the one token while this one is parked at a
      barrier that has been passed; it then waits for some later message. */
  lemma OnlyAnotherCallStalls(s: State, step: Step, id: string)
    requires Enabled(s, step) && !Stalled(s, id)
    ensures Stalled(Apply(s, step), id) <==>
            && step.TakeToken? && step.id != id
            && id in s.calls && s.calls[id].Parked? && s.calls[id].barrier <= s.handled
  {
  }

  ghost predicate NobodyStalled(s: State) {
    forall id :: !Stalled(s, id)
  }

  /** At most one call at the barrier in every state of the history. */
  predicate OneAtATime(s: State, steps: seq<Step>)
    requires History(s, steps)
    decreases |steps|
  {
    && (forall a, b | a in s.calls && b in s.calls && AtBarrier(s.calls[a]) && AtBarrier(s.calls[b]) :: a == b)
    && (steps == [] || OneAtATime(Apply(s, steps[0]), steps[1..]))
  }

  /** Calls that wait one at a time are never stalled. */
  lemma {:induction false} OneAtATimeNeverStalls(s: State, steps: seq<Step>)
    requires NobodyStalled(s) && History(s, steps) && OneAtATime(s, steps)
    ensures NobodyStalled(Run(s, steps))
    decreases |steps|
  {
    if steps != [] {
      var t := Apply(s, steps[0]);
      forall id ensures !Stalled(t, id) {
        OnlyAnotherCallStalls(s, steps[0], id);
      }
      OneAtATimeNeverStalls(t, steps[1..]);
    }
  }

  /** Nothing but a next handled message leaves a new token, so that until then a stalled call stays
      where it is, whatever else happens, unless its caller gives it up. */
  lemma {:induction false} StalledUntilNextMessage(s: State, steps: seq<Step>, id: string)
    requires History(s, steps) && Stalled(s, id)
    requires forall i :: 0 <= i < |steps| ==>
      !steps[i].ServeDone? && !steps[i].TakeReady? && steps[i] != AbandonCall(id)
    ensures Stalled(Run(s, steps), id)
    decreases |steps|
  {
    if steps != [] {
      assert !steps[0].ServeDone? && !steps[0].TakeReady? && steps[0] != AbandonCall(id);
      assert Stalled(Apply(s, steps[0]), id) by {
        hide FailSent;
      }
      StalledUntilNextMessage(Apply(s, steps[0]), steps[1..], id);
    }
  }

  // ---------- a history in which a call is stalled ----------

  ghost predicate Reachable(s: State) {
    exists steps :: History(INIT, steps) && Run(INIT, steps) == s
  }

  lemma {:induction false} HistoryGrows(s: State, steps: seq<Step>, step: Step)
    requires History(s, steps) && Enabled(Run(s, steps), step)
    ensures History(s, steps + [step]) && Run(s, steps + [step]) == Apply(Run(s, steps), step)
    decreases |steps|
  {
    if steps == [] {
      assert ([] + [step])[1..] == [];
    } else {
      HistoryGrows(Apply(s, steps[0]), steps[1..], step);
      assert (steps + [step])[1..] == steps[1..] + [step];
    }
  }

  lemma HistoryTo(s: State) returns (steps: seq<Step>)
    requires Reachable(s)
    ensures History(INIT, steps) && Run(INIT, steps) == s
  {
    steps :| History(INIT, steps) && Run(INIT, steps) == s;
  }

  lemma Next(s: State, step: Step, t: State)
    requires Reachable(s) && Enabled(s, step) && Apply(s, step) == t
    ensures Reachable(t)
  {
    var steps :| History(INIT, steps) && Run(INIT, steps) == s;
    HistoryGrows(INIT, steps, step);
    hide Apply, Enabled;
  }

  /** The worker is ready and served, and one more of its messages is queued. */
  const STARTED := INIT.(
    mode := Serving, queued := 2, channel := [Message(2, "log")], handled := 1, token := true,
    notified := ["ready", "log"], served := ["ready"])

  lemma WorkerStarts()
    ensures Reachable(STARTED)
  {
    assert Reachable(INIT) by {
      assert History(INIT, []) && Run(INIT, []) == INIT;
    }
    hide Reachable;
    var ready, log := Message(1, "ready"), Message(2, "log");
    var s1 := INIT.(queued := 1, held := Some(ready), notified := ["ready"]);
    var s2 := s1.(channel := [ready], held := None);
    var s3 := s2.(channel := [], handled := 1, token := true, served := ["ready"], mode := Initializing);
    var s4 := s3.(mode := Serving);
    var s5 := s4.(queued := 2, held := Some(log), notified := ["ready", "log"]);
    Next(INIT, ReadNotify("ready"), s1);
    Next(s1, Enqueue, s2);
    Next(s2, TakeReady, s3);
    Next(s3, StartServing, s4);
    Next(s4, ReadNotify("log"), s5);
    Next(s5, Enqueue, STARTED);
  }

  lemma CallAnswered(s: State, id: string)
    requires Reachable(s) && s.reading && s.mode.Serving? && s.held.None? && id !in s.calls
    ensures Reachable(s.(calls := s.calls[id := Replied(Value(""), s.queued)], before := s.before[id := s.notified]))
  {
    hide Reachable;
    var s1 := s.(calls := s.calls[id := Sent]);
    var s2 := s.(calls := s.calls[id := Replied(Value(""), s.queued)], before := s.before[id := s.notified]);
    assert s2.calls == s1.calls[id := s2.calls[id]];
    Next(s, StartCall(id, true), s1);
    Next(s1, ReadResponse(id, Value("")), s2);
  }

  /** A call that is answered now has to wait for that message. */
  lemma CallWaits(s: State, id: string)
    requires Reachable(s) && s.reading && s.mode.Serving? && s.held.None? && s.handled < s.queued && id !in s.calls
    ensures Reachable(s.(calls := s.calls[id := Parked("", s.queued)], before := s.before[id := s.notified]))
  {
    CallAnswered(s, id);
    hide Reachable;
    var before := s.before[id := s.notified];
    var s2 := s.(calls := s.calls[id := Replied(Value(""), s.queued)], before := before);
    var s3 := s.(calls := s.calls[id := Checking("", s.queued)], before := before);
    var s4 := s.(calls := s.calls[id := Parked("", s.queued)], before := before);
    assert s3.calls == s2.calls[id := s3.calls[id]] && s4.calls == s3.calls[id := s4.calls[id]];
    Next(s2, TakeResponse(id), s3);
    Next(s3, Compare(id), s4);
  }

  /** It does happen: a run and a stop wait for the same message, and the run takes the token that
      this message leaves; the stop is parked behind a barrier that has been passed. */
  lemma StopCanBeStalled()
    ensures exists steps :: History(INIT, steps) && Stalled(Run(INIT, steps), "stop")
  {
    WorkerStarts();
    CallWaits(STARTED, "run");
    var s1 := STARTED.(
      calls := STARTED.calls["run" := Parked("", 2)], before := STARTED.before["run" := STARTED.notified]);
    CallWaits(s1, "stop");
    var s2 := s1.(calls := s1.calls["stop" := Parked("", 2)], before := s1.before["stop" := s1.notified]);
    hide Reachable;
    var log := Message(2, "log");
    var s3 := s2.(handling := Some(log), channel := []);
    var s4 := s3.(handling := None, handled := 2, served := ["ready", "log"]);
    var s5 := SetCall(s4, "run", Checking("", 2)).(token := false);
    Next(s2, ServeTake, s3);
    Next(s3, ServeDone, s4);
    Next(s4, TakeToken("run"), s5);
    var steps := HistoryTo(s5);
  }

  // ---------- before the serve loop runs ----------

  predicate Unserved(s: State) {
    && InOrder(s) && !s.mode.Serving? && s.handling.None?
    && s.served <= ["ready"] && (s.mode.AwaitReady? ==> s.served == [])
  }

  lemma StepStaysUnserved(s: State, step: Step)
    requires Unserved(s) && Enabled(s, step) && !step.StartServing?
    ensures Unserved(Apply(s, step))
  {
    StepKeepsOrder(s, step);
    hide InOrder, FailSent;
  }

  lemma {:induction false} RunStaysUnserved(s: State, steps: seq<Step>)
    requires Unserved(s) && History(s, steps) && forall i :: 0 <= i < |steps| ==> !steps[i].StartServing?
    ensures Unserved(Run(s, steps))
    decreases |steps|
  {
    if steps != [] {
      assert !steps[0].StartServing?;
      StepStaysUnserved(s, steps[0]);
      hide Unserved;
      RunStaysUnserved(Apply(s, steps[0]), steps[1..]);
    }
  }

  /** Over any history without the serve loop, nothing but the ready message is handled; a call whose
      response was read behind a further message never returns a result. */
  lemma InitialisingServesNothing(steps: seq<Step>)
    requires History(INIT, steps) && forall i :: 0 <= i < |steps| ==> !steps[i].StartServing?
    ensures var s := Run(INIT, steps);
      && s.served <= ["ready"]
      && (forall id | id in s.calls && s.calls[id].Returned? :: id in s.before && s.before[id] <= ["ready"])
  {
    RunStaysUnserved(INIT, steps);
    ResultsWaitForMessages(steps);
    var s := Run(INIT, steps);
    hide Run, History, InOrder;
    forall id | id in s.calls && s.calls[id].Returned? ensures id in s.before && s.before[id] <= ["ready"] {
      PrefixOfPrefix(s.before[id], s.served, ["ready"]);
    }
  }

  lemma PrefixOfPrefix(a: seq<string>, b: seq<string>, c: seq<string>)
    requires a <= b <= c
    ensures a <= c
  {
  }

  // ---------- the process object ----------

  class WorkerProcess {
    var requests: seq<Message>
    var requestQueued: nat
    var requestHandled: nat
    var requestProgress: bool
    var pending: map<string, Call>
    ghost var rest: State

    /** pending carries every call's place; rest the reader's, the serve loop's and the logs. */
    ghost function View(): State
      reads this
    {
      rest.(channel := requests, queued := requestQueued, handled := requestHandled,
            token := requestProgress, calls := pending)
    }

    /** The reader numbers a message. */
    method NumberRequest(payload: string) returns (m: Message)
      requires Enabled(View(), ReadNotify(payload))
      modifies this
      ensures View() == Apply(old(View()), ReadNotify(payload))
      ensures View().held == Some(m)
    {
      requestQueued := requestQueued + 1;
      m := Message(requestQueued, payload);
      rest := rest.(held := Some(m), notified := rest.notified + [payload]);
    }

    /** It then queues the message, as soon as the channel has room. */
    method QueueRequest(m: Message)
      requires Enabled(View(), Enqueue) && View().held == Some(m)
      modifies this
      ensures View() == Apply(old(View()), Enqueue)
    {
      requests := requests + [m];
      rest := rest.(held := None);
    }

    method RouteResponse(id: string, reply: Reply)
      requires Enabled(View(), ReadResponse(id, reply))
      modifies this
      ensures View() == Apply(old(View()), ReadResponse(id, reply))
    {
      pending := pending[id := Replied(reply, requestQueued)];
      rest := rest.(before := rest.before[id := rest.notified]);
    }

    /** The end of the output: every call that has no response gets a fault. */
    method FailPendingCalls() returns (hadPending: bool)
      requires Enabled(View(), FailPending)
      modifies this
      ensures View() == Apply(old(View()), FailPending)
      ensures hadPending == exists id <- old(pending) :: !Over(old(pending)[id])
    {
      hadPending := exists id <- pending :: !Over(pending[id]);
      pending := FailSent(pending);
      rest := rest.(reading := false);
    }

    method MarkRequestHandled(m: Message)
      modifies this
      ensures View() == MarkHandled(old(View()), m)
    {
      requestHandled := m.sequence;
      requestProgress := true;
      rest := rest.(served := rest.served + [m.payload]);
    }

    /** One turn of the serve loop, from taking a message to marking it handled. */
    method ServeOne() returns (m: Message)
      requires Enabled(View(), ServeTake)
      modifies this
      ensures View() == Apply(Apply(old(View()), ServeTake), ServeDone)
      ensures m == old(requests)[0]
    {
      m := requests[0];
      requests := requests[1..];
      MarkRequestHandled(m);
    }

    /** One comparison of a waiting call with the handled count. */
    method PassBarrier(id: string) returns (passed: bool)
      requires Enabled(View(), Compare(id))
      modifies this
      ensures View() == Apply(old(View()), Compare(id))
      ensures passed <==> pending[id].Returned?
    {
      var c := pending[id];
      passed := c.barrier <= requestHandled;
      pending := pending[id := if passed then Returned(c.text) else Parked(c.text, c.barrier)];
    }
  }
}
