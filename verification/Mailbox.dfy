/** The event bus mailbox: one subscriber's bounded channel, overflow queue and worker.
    Every label of Step is one critical section or one channel operation of the program, so
    a sequence of steps is one interleaving of publishers, worker, receiver and stop. */
module Mailbox {
  const SUBSCRIBE_BUFFER: nat := 64

  /** A published event and the way it was published. */
  datatype Pub<E> = Pub(event: E, droppable: bool)

  /** A cell of the queue; handing an event to the worker overwrites its cell. */
  datatype Slot<E> = Cleared | Held(pub: Pub<E>)

  /** Where the worker goroutine stands; Sent is after the channel send and before delivered. */
  datatype Worker<E> = AtNext | Sending(pub: Pub<E>) | Sent | Parking | Exited

  /** accepted and received record what publishers were told and what the subscriber took;
      pendingWakes counts publishers that queued an event and have yet to signal the worker. */
  datatype State<E> = State(
    out: seq<Pub<E>>, wake: bool, done: bool,
    queue: seq<Slot<E>>, head: nat, inflight: bool, stopped: bool,
    worker: Worker<E>, pendingWakes: nat,
    accepted: seq<Pub<E>>, received: seq<Pub<E>>)

  datatype Step<E> =
    | Enqueue(pub: Pub<E>)
    | SendWake
    | Next
    | SendOut
    | AbortSend
    | Delivered
    | TakeWake
    | ParkExit
    | Stop
    | Receive

  function Init<E>(): State<E> {
    State([], false, false, [], 0, false, false, AtNext, 0, [], [])
  }

  predicate FastPath<E>(s: State<E>) {
    !s.inflight && s.head >= |s.queue| && |s.out| < SUBSCRIBE_BUFFER
  }

  predicate Rejects<E>(s: State<E>, pub: Pub<E>) {
    s.stopped || (!FastPath(s) && pub.droppable && |s.queue| - s.head >= SUBSCRIBE_BUFFER)
  }

  predicate Enabled<E>(s: State<E>, step: Step<E>) {
    match step
    case Enqueue(_) => true
    case SendWake => s.pendingWakes > 0
    case Next => s.worker.AtNext? && (s.head < |s.queue| ==> s.queue[s.head].Held?)
    case SendOut => s.worker.Sending? && |s.out| < SUBSCRIBE_BUFFER
    case AbortSend => s.worker.Sending? && s.done
    case Delivered => s.worker.Sent?
    case TakeWake => s.worker.Parking? && s.wake
    case ParkExit => s.worker.Parking? && s.done
    case Stop => true
    case Receive => |s.out| > 0
  }

  function ApplyEnqueue<E>(s: State<E>, pub: Pub<E>): State<E> {
    if Rejects(s, pub) then s
    else if FastPath(s) then s.(out := s.out + [pub], accepted := s.accepted + [pub])
    else s.(queue := s.queue + [Held(pub)], pendingWakes := s.pendingWakes + 1,
            accepted := s.accepted + [pub])
  }

  function ApplyNext<E>(s: State<E>): State<E>
    requires Enabled(s, Next)
  {
    if s.head >= |s.queue| then s.(queue := [], head := 0, worker := Parking)
    else if s.stopped then s.(worker := Parking)
    else
      var taken := s.(worker := Sending(s.queue[s.head].pub), inflight := true);
      if s.head + 1 == |s.queue| then taken.(queue := [], head := 0)
      else taken.(queue := s.queue[s.head := Cleared], head := s.head + 1)
  }

  function ApplyStop<E>(s: State<E>): State<E> {
    if s.stopped then s
    else s.(stopped := true, queue := [], head := 0, inflight := false, done := true)
  }

  function Apply<E>(s: State<E>, step: Step<E>): State<E>
    requires Enabled(s, step)
  {
    match step
    case Enqueue(pub) => ApplyEnqueue(s, pub)
    case SendWake => s.(wake := true, pendingWakes := s.pendingWakes - 1)
    case Next => ApplyNext(s)
    case SendOut => s.(out := s.out + [s.worker.pub], worker := Sent)
    case AbortSend => s.(worker := Exited)
    case Delivered => s.(inflight := false, worker := AtNext)
    case TakeWake => s.(wake := false, worker := AtNext)
    case ParkExit => s.(worker := Exited)
    case Stop => ApplyStop(s)
    case Receive => s.(received := s.received + [s.out[0]], out := s.out[1..])
  }

  // ---------- what the queue and the worker hold ----------

  /** The events in a stretch of queue cells, in order. */
  function Pubs<E>(slots: seq<Slot<E>>): seq<Pub<E>> {
    if slots == [] then []
    else (if slots[0].Held? then [slots[0].pub] else []) + Pubs(slots[1..])
  }

  function Backlog<E>(s: State<E>): seq<Pub<E>>
    requires s.head <= |s.queue|
  {
    Pubs(s.queue[s.head..])
  }

  function InHand<E>(w: Worker<E>): seq<Pub<E>> {
    if w.Sending? then [w.pub] else []
  }

  function DroppableCount<E>(pubs: seq<Pub<E>>): nat {
    if pubs == [] then 0 else (if pubs[0].droppable then 1 else 0) + DroppableCount(pubs[1..])
  }

  lemma {:induction false} PubsAppend<E>(a: seq<Slot<E>>, b: seq<Slot<E>>)
    ensures Pubs(a + b) == Pubs(a) + Pubs(b)
  {
    if a == [] {
      assert a + b == b;
    } else {
      var head, rest := if a[0].Held? then [a[0].pub] else [], a[1..];
      assert (a + b)[0] == a[0] && (a + b)[1..] == rest + b;
      assert Pubs(a + b) == head + Pubs(rest + b) && Pubs(a) == head + Pubs(rest);
      hide Pubs;
      PubsAppend(rest, b);
      assert head + (Pubs(rest) + Pubs(b)) == head + Pubs(rest) + Pubs(b);
    }
  }

  lemma {:induction false} PubsLength<E>(slots: seq<Slot<E>>)
    requires forall i :: 0 <= i < |slots| ==> slots[i].Held?
    ensures |Pubs(slots)| == |slots|
  {
    if slots != [] {
      PubsLength(slots[1..]);
    }
  }

  lemma {:induction false} DroppableAppend<E>(a: seq<Pub<E>>, b: seq<Pub<E>>)
    ensures DroppableCount(a + b) == DroppableCount(a) + DroppableCount(b)
  {
    if a == [] {
      assert a + b == b;
    } else {
      var rest := a[1..];
      assert (a + b)[0] == a[0] && (a + b)[1..] == rest + b;
      assert DroppableCount(a + b) == (if a[0].droppable then 1 else 0) + DroppableCount(rest + b);
      assert DroppableCount(a) == (if a[0].droppable then 1 else 0) + DroppableCount(rest);
      hide DroppableCount;
      DroppableAppend(rest, b);
    }
  }

  lemma {:induction false} DroppableAtMostAll<E>(a: seq<Pub<E>>)
    ensures DroppableCount(a) <= |a|
  {
    if a != [] {
      DroppableAtMostAll(a[1..]);
    }
  }

  // ---------- the invariant of every interleaving ----------

  predicate Shape<E>(s: State<E>) {
    && s.head <= |s.queue|
    && (forall i :: s.head <= i < |s.queue| ==> s.queue[i].Held?)
    && |s.out| <= SUBSCRIBE_BUFFER
    && s.done == s.stopped
    && (s.stopped ==> s.queue == [] && s.head == 0 && !s.inflight)
    && (!s.stopped ==> !s.worker.Exited? && s.inflight == (s.worker.Sending? || s.worker.Sent?))
  }

  /** Received, buffered, in the worker's hand and queued are together the accepted log. */
  ghost predicate InOrder<E>(s: State<E>)
    requires Shape(s)
  {
    var delivered := s.received + s.out + InHand(s.worker);
    && delivered <= s.accepted
    && (!s.stopped ==> delivered + Backlog(s) == s.accepted)
  }

  /** A worker that will park on queued events has a token waiting, or a publisher about to send one. */
  predicate NoLostWakeup<E>(s: State<E>) {
    !s.stopped && s.worker.Parking? && s.head < |s.queue| ==> s.wake || s.pendingWakes > 0
  }

  ghost predicate Inv<E>(s: State<E>) {
    && Shape(s)
    && InOrder(s)
    && NoLostWakeup(s)
    && DroppableCount(Backlog(s)) <= SUBSCRIBE_BUFFER
  }

  lemma QueueingKeepsOrder<E>(queue: seq<Slot<E>>, head: nat, pub: Pub<E>)
    requires head <= |queue| && forall i :: head <= i < |queue| ==> queue[i].Held?
    ensures Pubs((queue + [Held(pub)])[head..]) == Pubs(queue[head..]) + [pub]
    ensures |Pubs(queue[head..])| == |queue| - head
  {
    assert (queue + [Held(pub)])[head..] == queue[head..] + [Held(pub)];
    PubsAppend(queue[head..], [Held(pub)]);
    assert Pubs([Held(pub)]) == [pub];
    PubsLength(queue[head..]);
  }

  lemma FastPathKeepsInv<E>(s: State<E>, pub: Pub<E>)
    requires Inv(s) && !Rejects(s, pub) && FastPath(s)
    ensures Inv(s.(out := s.out + [pub], accepted := s.accepted + [pub]))
  {
    var t := s.(out := s.out + [pub], accepted := s.accepted + [pub]);
    var delivered := s.received + s.out + InHand(s.worker);
    assert s.queue[s.head..] == [] && InHand(s.worker) == [];
    assert t.received + t.out + InHand(t.worker) == delivered + [pub];
  }

  lemma QueueingKeepsInv<E>(s: State<E>, pub: Pub<E>)
    requires Inv(s) && !Rejects(s, pub) && !FastPath(s)
    ensures Inv(ApplyEnqueue(s, pub))
  {
    var t := ApplyEnqueue(s, pub);
    var delivered := s.received + s.out + InHand(s.worker);
    QueueingKeepsOrder(s.queue, s.head, pub);
    DroppableAppend(Backlog(s), [pub]);
    DroppableAtMostAll(Backlog(s));
    assert delivered + Backlog(t) == (delivered + Backlog(s)) + [pub];
  }

  lemma EnqueueKeepsInv<E>(s: State<E>, pub: Pub<E>)
    requires Inv(s)
    ensures Inv(ApplyEnqueue(s, pub))
  {
    hide Inv;
    if Rejects(s, pub) {
    } else if FastPath(s) {
      FastPathKeepsInv(s, pub);
    } else {
      QueueingKeepsInv(s, pub);
    }
  }

  /** The oldest queued event goes into the worker's hand. */
  lemma NextTakes<E>(s: State<E>)
    requires Shape(s) && Enabled(s, Next) && s.head < |s.queue| && !s.stopped
    ensures Shape(ApplyNext(s)) && Backlog(s) == [s.queue[s.head].pub] + Backlog(ApplyNext(s))
  {
    var rest := s.queue[s.head + 1..];
    assert s.queue[s.head..] == [s.queue[s.head]] + rest;
    assert ApplyNext(s).queue[ApplyNext(s).head..] == rest;
  }

  lemma NextParks<E>(s: State<E>)
    requires Inv(s) && Enabled(s, Next) && (s.head == |s.queue| || s.stopped)
    ensures Inv(ApplyNext(s))
  {
    assert s.queue[s.head..] == ApplyNext(s).queue[ApplyNext(s).head..];
    hide Pubs, DroppableCount;
  }

  lemma NextKeepsInv<E>(s: State<E>)
    requires Inv(s) && Enabled(s, Next)
    ensures Inv(ApplyNext(s))
  {
    var t := ApplyNext(s);
    if s.head < |s.queue| && !s.stopped {
      var pub, before := s.queue[s.head].pub, s.received + s.out;
      NextTakes(s);
      DroppableAppend([pub], Backlog(t));
      hide Backlog, DroppableCount, Shape;
      assert InHand(s.worker) == [] && InHand(t.worker) == [pub];
      assert before + InHand(s.worker) == before;
      assert before + ([pub] + Backlog(t)) == before + [pub] + Backlog(t);
    } else {
      NextParks(s);
    }
  }

  /** Every step of every party keeps order, loses no wake-up and bounds the droppable backlog. */
  lemma StepKeepsInv<E>(s: State<E>, step: Step<E>)
    requires Inv(s) && Enabled(s, step)
    ensures Inv(Apply(s, step))
  {
    var t := Apply(s, step);
    match step {
      case Enqueue(pub) => EnqueueKeepsInv(s, pub);
      case Next => NextKeepsInv(s);
      case SendOut =>
        assert t.received + t.out + InHand(t.worker) == s.received + s.out + InHand(s.worker);
      case AbortSend =>
        assert t.received + t.out + InHand(t.worker) <= s.received + s.out + InHand(s.worker);
      case Receive =>
        assert t.received + t.out == s.received + s.out;
      case _ =>
    }
    hide ApplyEnqueue, ApplyNext, Pubs, DroppableCount;
  }

  // ---------- whole runs ----------

  predicate Schedule<E>(s: State<E>, steps: seq<Step<E>>)
    decreases |steps|
  {
    steps == [] || (Enabled(s, steps[0]) && Schedule(Apply(s, steps[0]), steps[1..]))
  }

  function Run<E>(s: State<E>, steps: seq<Step<E>>): State<E>
    requires Schedule(s, steps)
    decreases |steps|
  {
    if steps == [] then s else Run(Apply(s, steps[0]), steps[1..])
  }

  lemma {:induction false} RunKeepsInv<E>(s: State<E>, steps: seq<Step<E>>)
    requires Inv(s) && Schedule(s, steps)
    ensures Inv(Run(s, steps))
    decreases |steps|
  {
    if steps != [] {
      StepKeepsInv(s, steps[0]);
      RunKeepsInv(Apply(s, steps[0]), steps[1..]);
    }
  }

  /** From a fresh mailbox: what the subscriber has, in order, is a prefix of what was accepted,
      and until stop nothing accepted is missing. */
  lemma DeliveryInOrder<E>(steps: seq<Step<E>>)
    requires Schedule(Init<E>(), steps)
    ensures var s := Run(Init(), steps);
      && s.received + s.out + InHand(s.worker) <= s.accepted
      && s.head <= |s.queue|
      && (!s.stopped ==> s.received + s.out + InHand(s.worker) + Backlog(s) == s.accepted)
      && DroppableCount(Backlog(s)) <= SUBSCRIBE_BUFFER
      && NoLostWakeup(s)
  {
    RunKeepsInv(Init(), steps);
  }

  function Offer<E>(step: Step<E>): seq<Pub<E>> {
    if step.Enqueue? && !step.pub.droppable then [step.pub] else []
  }

  /** The reliable events a schedule offers before it stops the mailbox. */
  function ReliableOffers<E>(steps: seq<Step<E>>): seq<Pub<E>> {
    if steps == [] || steps[0].Stop? then []
    else Offer(steps[0]) + ReliableOffers(steps[1..])
  }

  function Reliable<E>(pubs: seq<Pub<E>>): seq<Pub<E>> {
    if pubs == [] then []
    else (if pubs[0].droppable then [] else [pubs[0]]) + Reliable(pubs[1..])
  }

  lemma {:induction false} ReliableAppend<E>(a: seq<Pub<E>>, b: seq<Pub<E>>)
    ensures Reliable(a + b) == Reliable(a) + Reliable(b)
  {
    if a == [] {
      assert a + b == b;
    } else {
      var head, rest := if a[0].droppable then [] else [a[0]], a[1..];
      assert (a + b)[0] == a[0] && (a + b)[1..] == rest + b;
      assert Reliable(a + b) == head + Reliable(rest + b) && Reliable(a) == head + Reliable(rest);
      hide Reliable;
      ReliableAppend(rest, b);
      assert head + (Reliable(rest) + Reliable(b)) == head + Reliable(rest) + Reliable(b);
    }
  }

  lemma {:induction false} StoppedAcceptsNothing<E>(s: State<E>, steps: seq<Step<E>>)
    requires s.stopped && Schedule(s, steps)
    ensures Run(s, steps).stopped && Run(s, steps).accepted == s.accepted
    decreases |steps|
  {
    if steps != [] {
      StoppedAcceptsNothing(Apply(s, steps[0]), steps[1..]);
    }
  }

  lemma ReliableStep<E>(s: State<E>, step: Step<E>)
    requires !s.stopped && Enabled(s, step) && !step.Stop?
    ensures !Apply(s, step).stopped
    ensures Reliable(Apply(s, step).accepted) == Reliable(s.accepted) + Offer(step)
  {
    if step.Enqueue? && !Rejects(s, step.pub) {
      ReliableAppend(s.accepted, [step.pub]);
      assert Reliable([step.pub]) == Offer(step);
    }
  }

  lemma {:induction false} ReliableFrom<E>(s: State<E>, steps: seq<Step<E>>)
    requires !s.stopped && Schedule(s, steps)
    ensures Reliable(Run(s, steps).accepted) == Reliable(s.accepted) + ReliableOffers(steps)
    decreases |steps|
  {
    if steps != [] {
      if steps[0].Stop? {
        StoppedAcceptsNothing(Apply(s, steps[0]), steps[1..]);
      } else {
        assert ReliableOffers(steps) == Offer(steps[0]) + ReliableOffers(steps[1..]);
        hide Reliable, ReliableOffers, Offer;
        ReliableStep(s, steps[0]);
        ReliableFrom(Apply(s, steps[0]), steps[1..]);
      }
    }
  }

  /** No interleaving loses, duplicates or reorders a reliable event offered before stop. */
  lemma ReliableNeverLost<E>(steps: seq<Step<E>>)
    requires Schedule(Init<E>(), steps)
    ensures Reliable(Run(Init(), steps).accepted) == ReliableOffers(steps)
  {
    ReliableFrom(Init<E>(), steps);
  }

  // ---------- progress ----------

  /** The steps that publishers and stop do not take: signalling, the worker and the subscriber. */
  predicate Internal<E>(step: Step<E>) {
    !step.Enqueue? && !step.Stop?
  }

  function WorkerWeight<E>(w: Worker<E>): nat {
    match w
    case Sending(_) => 4
    case Sent => 2
    case AtNext => 1
    case Parking => 0
    case Exited => 0
  }

  /** How many internal steps the mailbox can still take. */
  function Work<E>(s: State<E>): nat
    requires s.head <= |s.queue|
  {
    4 * (|s.queue| - s.head) + WorkerWeight(s.worker) + |s.out| + 3 * s.pendingWakes
    + (if s.wake then 2 else 0)
  }

  lemma InternalStepsRunOut<E>(s: State<E>, step: Step<E>)
    requires Inv(s) && !s.stopped && Enabled(s, step) && Internal(step)
    ensures !Apply(s, step).stopped && Inv(Apply(s, step))
    ensures Apply(s, step).accepted == s.accepted
    ensures Work(Apply(s, step)) < Work(s)
  {
    StepKeepsInv(s, step);
    assert Shape(s);
    hide InOrder, Backlog, DroppableCount, InHand;
  }

  /** A live mailbox in which no internal step can run has handed over everything it accepted. */
  lemma QuiescentMeansDelivered<E>(s: State<E>)
    requires Inv(s) && !s.stopped
    requires forall step: Step<E> :: Internal(step) ==> !Enabled(s, step)
    ensures s.received == s.accepted
  {
    assert !Enabled(s, Receive) && !Enabled(s, SendWake) && !Enabled(s, TakeWake);
    assert !Enabled(s, SendOut) && !Enabled(s, Delivered) && !Enabled(s, Next);
    assert s.out == [] && s.worker.Parking? && s.head == |s.queue|;
    assert s.queue[s.head..] == [];
  }

  lemma {:induction false} InternalRunIsBounded<E>(s: State<E>, steps: seq<Step<E>>)
    requires Inv(s) && !s.stopped && Schedule(s, steps)
    requires forall i :: 0 <= i < |steps| ==> Internal(steps[i])
    ensures |steps| <= Work(s)
    ensures Inv(Run(s, steps)) && !Run(s, steps).stopped && Run(s, steps).accepted == s.accepted
    decreases |steps|
  {
    if steps != [] {
      InternalStepsRunOut(s, steps[0]);
      InternalRunIsBounded(Apply(s, steps[0]), steps[1..]);
    }
  }

  /** Whatever order worker, signals and subscriber are scheduled in, they stop after at most
      Work(s) steps, and when none of them can go on every accepted event has been received, in
      order. No wake-up is lost in a way that could strand an event. */
  lemma EveryAcceptedEventArrives<E>(s: State<E>, steps: seq<Step<E>>)
    requires Inv(s) && !s.stopped && Schedule(s, steps)
    requires forall i :: 0 <= i < |steps| ==> Internal(steps[i])
    requires forall step: Step<E> :: Internal(step) ==> !Enabled(Run(s, steps), step)
    ensures |steps| <= Work(s)
    ensures Run(s, steps).received == s.accepted
  {
    InternalRunIsBounded(s, steps);
    QuiescentMeansDelivered(Run(s, steps));
  }

  // ---------- the subscription object ----------

  /** The subscription's fields; each method is one critical section or channel operation and
      moves the whole state exactly as the step of the same name. */
  class Subscription<E> {
    var out: seq<Pub<E>>
    var wake: bool
    var done: bool
    var queue: seq<Slot<E>>
    var head: nat
    var inflight: bool
    var stopped: bool
    var worker: Worker<E>
    ghost var pendingWakes: nat
    ghost var accepted: seq<Pub<E>>
    ghost var received: seq<Pub<E>>

    ghost function View(): State<E>
      reads this
    {
      State(out, wake, done, queue, head, inflight, stopped, worker, pendingWakes, accepted, received)
    }

    constructor ()
      ensures View() == Init()
      ensures Inv(View())
    {
      out, wake, done := [], false, false;
      queue, head, inflight, stopped := [], 0, false, false;
      worker, pendingWakes, accepted, received := AtNext, 0, [], [];
    }

    /** The locked part of enqueue. The result tells the publisher whether the event was taken and
        how long the backlog is; signal says that it must still try to wake the worker. */
    method EnqueueLocked(pub: Pub<E>) returns (taken: bool, backlog: nat, signal: bool)
      requires Inv(View())
      modifies this
      ensures View() == Apply(old(View()), Enqueue(pub)) && Inv(View())
      ensures taken == !Rejects(old(View()), pub)
      ensures signal == (taken && !FastPath(old(View())))
      ensures backlog == |queue| - head
    {
      EnqueueKeepsInv(View(), pub);
      if stopped {
        return false, 0, false;
      }
      if !inflight && head >= |queue| {
        if |out| < SUBSCRIBE_BUFFER {
          out := out + [pub];
          accepted := accepted + [pub];
          return true, 0, false;
        }
      }
      backlog := |queue| - head;
      if pub.droppable && backlog >= SUBSCRIBE_BUFFER {
        return false, backlog, false;
      }
      queue := queue + [Held(pub)];
      backlog := backlog + 1;
      accepted := accepted + [pub];
      pendingWakes := pendingWakes + 1;
      return true, backlog, true;
    }

    /** The non-blocking signal: a token that is already there is enough. */
    method Signal()
      requires Inv(View()) && Enabled(View(), SendWake)
      modifies this
      ensures View() == Apply(old(View()), SendWake) && Inv(View())
    {
      StepKeepsInv(View(), SendWake);
      if !wake {
        wake := true;
      }
      pendingWakes := pendingWakes - 1;
    }

    /** Take the head of the queue, or find it empty; an emptied queue drops its storage. */
    method TakeNext() returns (pub: Slot<E>)
      requires Inv(View()) && Enabled(View(), Next)
      modifies this
      ensures View() == Apply(old(View()), Next) && Inv(View())
      ensures pub.Held? <==> !old(stopped) && old(Backlog(View())) != []
      ensures pub.Held? ==> pub.pub == old(Backlog(View()))[0]
    {
      StepKeepsInv(View(), Next);
      PubsLength(queue[head..]);
      if stopped || head >= |queue| {
        if head >= |queue| {
          queue, head := [], 0;
        }
        worker := Parking;
        return Cleared;
      }
      pub := queue[head];
      queue := queue[head := Cleared];
      head := head + 1;
      inflight := true;
      worker := Sending(pub.pub);
      if head == |queue| {
        queue, head := [], 0;
      }
    }

    /** The worker's send to the public channel, when it has room. */
    method Send()
      requires Inv(View()) && Enabled(View(), SendOut)
      modifies this
      ensures View() == Apply(old(View()), SendOut) && Inv(View())
    {
      StepKeepsInv(View(), SendOut);
      out := out + [worker.pub];
      worker := Sent;
    }

    method MarkDelivered()
      requires Inv(View()) && Enabled(View(), Delivered)
      modifies this
      ensures View() == Apply(old(View()), Delivered) && Inv(View())
    {
      StepKeepsInv(View(), Delivered);
      inflight := false;
      worker := AtNext;
    }

    method StopMailbox()
      requires Inv(View())
      modifies this
      ensures View() == Apply(old(View()), Stop) && Inv(View())
      ensures stopped && done
    {
      StepKeepsInv(View(), Stop);
      if !stopped {
        stopped := true;
        queue, head, inflight := [], 0, false;
        done := true;
      }
    }
  }
}
