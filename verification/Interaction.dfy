/** A confirmation request waiting for its answer: replies on two paths, the timeout, the caller's
    context and a session-wide cancellation race for one conditional update and one wake-up slot. */
module Interaction {
  import opened Common

  datatype Status = Pending | Answered(approved: bool) | Expired | Cancelled

  datatype Record = Record(session: string, status: Status)

  /** What the one-place waiting channel carries. */
  datatype Wake = Reply(approved: bool) | Cancel

  /** How a request came back. */
  datatype Way = ByReply | ByCancel | ByTimer | ByContext | ByError

  datatype Phase = Created | Waiting | TimedOut | Returned(approved: bool, way: Way)

  /** One reply, on either path: asked, stored, or holding the channel it looked up. */
  datatype Replier =
    | Asked(id: string, approved: bool) | Stored(id: string, approved: bool) | Found(id: string, approved: bool) | Over

  /** One session cancellation: what it listed, then what is left to look up and to wake. */
  datatype Canceller = Listed(session: string, ids: set<string>) | Waking(ids: set<string>, found: set<string>)

  /** buffers are the channels, kept past their deregistration by whoever looked them up; woken holds
      the interactions to whose channel something was sent. */
  datatype State = State(
    items: map<string, Record>, requests: map<string, Phase>, buffers: map<string, Option<Wake>>,
    repliers: map<nat, Replier>, cancellers: map<nat, Canceller>, woken: set<string>)

  datatype RequestStep =
    | Create(id: string, session: string)
    | Drop(id: string)
    | Register(id: string)
    | Receive(id: string)
    | TimerFires(id: string, works: bool)
    | ReadBack(id: string, works: bool)
    | ContextDone(id: string, works: bool)

  datatype ReplyStep =
    | ReplyArrives(r: nat, id: string, approved: bool)
    | StoreAnswer(r: nat, works: bool)
    | LookUp(r: nat)
    | WakeUp(r: nat)

  datatype CancelStep =
    | ListSession(c: nat, session: string)
    | CancelAll(c: nat, works: bool)
    | LookUpListed(c: nat, id: string)
    | WakeListed(c: nat, id: string)
    // any other writer of the table closes pending records only
    | CloseElsewhere(id: string, status: Status)

  datatype Step = OfRequest(request: RequestStep) | OfReply(reply: ReplyStep) | OfCancel(cancel: CancelStep)

  predicate Registered(s: State, id: string) {
    id in s.requests && (s.requests[id].Waiting? || s.requests[id].TimedOut?)
  }

  predicate At(s: State, id: string, phase: Phase) {
    id in s.requests && s.requests[id] == phase
  }

  /** The conditional update: only a pending record moves. */
  function Close(s: State, id: string, status: Status, works: bool): (t: State)
    ensures t == s.(items := t.items)
  {
    if works && id in s.items && s.items[id].status.Pending?
    then s.(items := s.items[id := s.items[id].(status := status)]) else s
  }

  function Move(s: State, id: string, phase: Phase): (t: State)
    ensures t == s.(requests := t.requests)
  {
    s.(requests := s.requests[id := phase])
  }

  /** A send that is dropped when the channel is full. */
  function Offer(s: State, id: string, wake: Wake): (t: State)
    ensures t == s.(buffers := t.buffers, woken := t.woken)
  {
    s.(buffers := if id in s.buffers && s.buffers[id].None? then s.buffers[id := Some(wake)] else s.buffers,
       woken := s.woken + {id})
  }

  // ---------- the request ----------

  predicate RequestEnabled(s: State, step: RequestStep) {
    match step
    // interaction ids are fresh UUIDs
    case Create(id, _) => id !in s.items && id !in s.requests && id !in s.buffers && id !in s.woken
    case Drop(id) => At(s, id, Created)
    case Register(id) => At(s, id, Created)
    case Receive(id) => At(s, id, Waiting) && id in s.buffers && s.buffers[id].Some?
    case TimerFires(id, _) => At(s, id, Waiting)
    case ReadBack(id, _) => At(s, id, TimedOut) && id in s.items
    case ContextDone(id, _) => At(s, id, Waiting)
  }

  function ApplyRequest(s: State, step: RequestStep): State
    requires RequestEnabled(s, step)
  {
    match step
    case Create(id, session) => Move(s, id, Created).(items := s.items[id := Record(session, Pending)])
    case Drop(id) => Move(s, id, Returned(false, ByError))
    case Register(id) => Move(s, id, Waiting).(buffers := s.buffers[id := None])
    case Receive(id) =>
      var wake := s.buffers[id].value;
      Move(s, id, if wake.Cancel? then Returned(false, ByCancel) else Returned(wake.approved, ByReply))
      .(buffers := s.buffers[id := None])
    case TimerFires(id, works) =>
      var t := Close(s, id, Expired, works);
      if !works then Move(t, id, Returned(false, ByError))
      else if id in s.items && s.items[id].status.Pending? then Move(t, id, Returned(false, ByTimer))
      else Move(t, id, TimedOut)
    case ReadBack(id, works) =>
      if !works then Move(s, id, Returned(false, ByError))
      else Move(s, id, Returned(s.items[id].status == Answered(true), ByTimer))
    case ContextDone(id, works) => Move(Close(s, id, Cancelled, works), id, Returned(false, ByContext))
  }

  // ---------- the replies ----------

  predicate ReplyEnabled(s: State, step: ReplyStep) {
    match step
    case ReplyArrives(r, id, _) => r !in s.repliers && id in s.items
    case StoreAnswer(r, _) => r in s.repliers && s.repliers[r].Asked?
    case LookUp(r) => r in s.repliers && s.repliers[r].Stored?
    case WakeUp(r) => r in s.repliers && s.repliers[r].Found?
  }

  function SetReplier(s: State, r: nat, phase: Replier): (t: State)
    ensures t == s.(repliers := t.repliers)
  {
    s.(repliers := s.repliers[r := phase])
  }

  function ApplyReply(s: State, step: ReplyStep): State
    requires ReplyEnabled(s, step)
  {
    match step
    case ReplyArrives(r, id, approved) => SetReplier(s, r, Asked(id, approved))
    case StoreAnswer(r, works) =>
      var id, approved := s.repliers[r].id, s.repliers[r].approved;
      var stores := works && id in s.items && s.items[id].status.Pending?;
      SetReplier(Close(s, id, Answered(approved), works), r, if stores then Stored(id, approved) else Over)
    case LookUp(r) =>
      var id, approved := s.repliers[r].id, s.repliers[r].approved;
      SetReplier(s, r, if Registered(s, id) then Found(id, approved) else Over)
    case WakeUp(r) =>
      SetReplier(Offer(s, s.repliers[r].id, Reply(s.repliers[r].approved)), r, Over)
  }

  // ---------- the session's cancellation ----------

  function PendingOf(s: State, session: string): set<string> {
    set id <- s.items | s.items[id].session == session && s.items[id].status.Pending?
  }

  predicate CancelEnabled(s: State, step: CancelStep) {
    match step
    case ListSession(c, _) => c !in s.cancellers
    case CancelAll(c, _) => c in s.cancellers && s.cancellers[c].Listed?
    case LookUpListed(c, id) => c in s.cancellers && s.cancellers[c].Waking? && id in s.cancellers[c].ids
    case WakeListed(c, id) => c in s.cancellers && s.cancellers[c].Waking? && id in s.cancellers[c].found
    case CloseElsewhere(_, status) => status.Expired? || status.Cancelled?
  }

  function SetCanceller(s: State, c: nat, phase: Canceller): (t: State)
    ensures t == s.(cancellers := t.cancellers)
  {
    s.(cancellers := s.cancellers[c := phase])
  }

  function CancelledAll(items: map<string, Record>, session: string): map<string, Record> {
    map id <- items ::
      if items[id].session == session && items[id].status.Pending?
      then items[id].(status := Cancelled) else items[id]
  }

  function ApplyCancel(s: State, step: CancelStep): State
    requires CancelEnabled(s, step)
  {
    match step
    case ListSession(c, session) => SetCanceller(s, c, Listed(session, PendingOf(s, session)))
    case CancelAll(c, works) =>
      var listed := s.cancellers[c];
      // with nothing listed, or when the update fails, nobody is woken
      if listed.ids == {} || !works then SetCanceller(s, c, Waking({}, {}))
      else SetCanceller(s.(items := CancelledAll(s.items, listed.session)), c, Waking(listed.ids, {}))
    case LookUpListed(c, id) =>
      var w := s.cancellers[c];
      SetCanceller(s, c, Waking(w.ids - {id}, if Registered(s, id) then w.found + {id} else w.found))
    case WakeListed(c, id) =>
      var w := s.cancellers[c];
      SetCanceller(Offer(s, id, Cancel), c, w.(found := w.found - {id}))
    case CloseElsewhere(id, status) => Close(s, id, status, true)
  }

  predicate Enabled(s: State, step: Step) {
    match step
    case OfRequest(x) => RequestEnabled(s, x)
    case OfReply(x) => ReplyEnabled(s, x)
    case OfCancel(x) => CancelEnabled(s, x)
  }

  function Apply(s: State, step: Step): State
    requires Enabled(s, step)
  {
    match step
    case OfRequest(x) => ApplyRequest(s, x)
    case OfReply(x) => ApplyReply(s, x)
    case OfCancel(x) => ApplyCancel(s, x)
  }

  // ---------- the invariant ----------

  predicate Closed(s: State, id: string) {
    id in s.items && !s.items[id].status.Pending?
  }

  predicate StoredAs(s: State, id: string, approved: bool) {
    id in s.items && s.items[id].status == Answered(approved)
  }

  /** A result agrees with the record unless the request was cancelled or failed. */
  predicate ResultHolds(s: State, id: string, r: Phase)
    requires r.Returned?
  {
    && (r.approved ==> r.way.ByReply? || r.way.ByTimer?)
    && (r.way.ByReply? ==> StoredAs(s, id, r.approved))
    && (r.way.ByTimer? ==> Closed(s, id) && (r.approved <==> StoredAs(s, id, true)))
    && (r.way.ByCancel? ==> Closed(s, id))
  }

  predicate BufferHolds(s: State, id: string) {
    id in s.buffers && s.buffers[id].Some? ==>
      match s.buffers[id].value
      case Reply(approved) => StoredAs(s, id, approved)
      case Cancel => Closed(s, id)
  }

  predicate Sound(s: State, id: string) {
    && BufferHolds(s, id)
    && (id in s.requests <==> id in s.items)
    && (id in s.requests ==>
          && (s.requests[id].Created? ==> id !in s.buffers && id !in s.woken)
          && (s.requests[id].TimedOut? ==> Closed(s, id))
          && (s.requests[id].Returned? ==> ResultHolds(s, id, s.requests[id])))
    && (Registered(s, id) ==> id in s.buffers)
    && (id in s.buffers ==> id in s.requests)
    && (id in s.woken && Registered(s, id) ==> s.buffers[id].Some?)
  }

  predicate ReplierHolds(s: State, r: Replier) {
    match r
    case Asked(id, _) => id in s.items
    case Stored(id, approved) => StoredAs(s, id, approved)
    case Found(id, approved) => StoredAs(s, id, approved) && id in s.buffers
    case Over => true
  }

  predicate CancellerHolds(s: State, c: Canceller) {
    match c
    case Listed(session, ids) => forall id <- ids :: id in s.items && s.items[id].session == session
    case Waking(ids, found) =>
      (forall id <- ids :: Closed(s, id)) && forall id <- found :: Closed(s, id) && id in s.buffers
  }

  ghost predicate Inv(s: State) {
    && (forall id :: Sound(s, id))
    && (forall r <- s.repliers :: ReplierHolds(s, s.repliers[r]))
    && (forall c <- s.cancellers :: CancellerHolds(s, s.cancellers[c]))
  }

  /** Records stay and stop changing once they have left pending; channels stay. */
  predicate Later(s: State, t: State) {
    && (forall id <- s.items :: id in t.items && t.items[id].session == s.items[id].session)
    && (forall id <- s.items :: !s.items[id].status.Pending? ==> t.items[id].status == s.items[id].status)
    && (forall id <- s.buffers :: id in t.buffers)
  }

  lemma CloseLeavesOnce(s: State, id: string, status: Status, works: bool)
    ensures Later(s, Close(s, id, status, works))
  {
  }

  lemma RequestLeavesOnce(s: State, step: RequestStep)
    requires RequestEnabled(s, step)
    ensures Later(s, ApplyRequest(s, step))
  {
    match step {
      case TimerFires(id, works) => CloseLeavesOnce(s, id, Expired, works);
      case ContextDone(id, works) => CloseLeavesOnce(s, id, Cancelled, works);
      case _ =>
    }
    hide Close, Move;
  }

  lemma ReplyLeavesOnce(s: State, step: ReplyStep)
    requires ReplyEnabled(s, step)
    ensures Later(s, ApplyReply(s, step))
  {
  }

  lemma CancelLeavesOnce(s: State, step: CancelStep)
    requires CancelEnabled(s, step)
    ensures Later(s, ApplyCancel(s, step))
  {
    hide PendingOf;
  }

  /** Pending is left at most once, by whoever comes first, and for good. */
  lemma PendingLeavesOnce(s: State, step: Step)
    requires Enabled(s, step)
    ensures Later(s, Apply(s, step))
  {
    hide ApplyRequest, ApplyReply, ApplyCancel, Later, RequestEnabled, ReplyEnabled, CancelEnabled;
    match step
    case OfRequest(x) => RequestLeavesOnce(s, x);
    case OfReply(x) => ReplyLeavesOnce(s, x);
    case OfCancel(x) => CancelLeavesOnce(s, x);
  }

  /** A later state in which this one request, and the listed replier and canceller, hold. */
  lemma LaterKeepsHolds(s: State, t: State)
    requires Inv(s) && Later(s, t)
    ensures forall r <- s.repliers :: ReplierHolds(t, s.repliers[r])
    ensures forall c <- s.cancellers :: CancellerHolds(t, s.cancellers[c])
    ensures forall id | id in s.requests && s.requests[id].Returned? :: ResultHolds(t, id, s.requests[id])
    ensures forall id | id in s.buffers && id in t.buffers && t.buffers[id] == s.buffers[id] :: BufferHolds(t, id)
  {
    forall id | id in s.requests && s.requests[id].Returned? ensures ResultHolds(t, id, s.requests[id]) {
      assert Sound(s, id);
    }
    forall id | id in s.buffers && id in t.buffers && t.buffers[id] == s.buffers[id] ensures BufferHolds(t, id) {
      assert Sound(s, id);
    }
  }

  lemma RequestKeepsSound(s: State, step: RequestStep)
    requires RequestEnabled(s, step) && Sound(s, step.id)
    ensures Sound(ApplyRequest(s, step), step.id)
  {
  }

  predicate SameAt(s: State, t: State, id: string) {
    && (id in s.items <==> id in t.items) && (id in s.items ==> s.items[id] == t.items[id])
    && (id in s.requests <==> id in t.requests) && (id in s.requests ==> s.requests[id] == t.requests[id])
    && (id in s.buffers <==> id in t.buffers) && (id in s.buffers ==> s.buffers[id] == t.buffers[id])
    && s.woken == t.woken
  }

  lemma ClosingIsLocal(s: State, x: string, status: Status, works: bool, phase: Phase, id: string)
    requires id != x
    ensures SameAt(s, Move(Close(s, x, status, works), x, phase), id)
  {
  }

  lemma RequestIsLocal(s: State, step: RequestStep, id: string)
    requires RequestEnabled(s, step) && id != step.id
    ensures SameAt(s, ApplyRequest(s, step), id)
  {
    if step.TimerFires? || step.ContextDone? {
      var status := if step.TimerFires? then Expired else Cancelled;
      ClosingIsLocal(s, step.id, status, step.works, ApplyRequest(s, step).requests[step.id], id);
      hide SameAt, Close;
    }
  }

  lemma SoundIsLocal(s: State, t: State, id: string)
    requires SameAt(s, t, id) && Sound(s, id)
    ensures Sound(t, id)
  {
  }

  lemma RequestKeepsInv(s: State, step: RequestStep)
    requires Inv(s) && RequestEnabled(s, step)
    ensures Inv(ApplyRequest(s, step))
  {
    var t := ApplyRequest(s, step);
    assert t.repliers == s.repliers && t.cancellers == s.cancellers;
    RequestLeavesOnce(s, step);
    LaterKeepsHolds(s, t);
    hide ApplyRequest, RequestEnabled, Sound, SameAt, ReplierHolds, CancellerHolds, Later;
    forall id ensures Sound(t, id) {
      assert Sound(s, id);
      if id == step.id {
        RequestKeepsSound(s, step);
      } else {
        RequestIsLocal(s, step, id);
        SoundIsLocal(s, t, id);
      }
    }
  }

  lemma ReplyKeepsInv(s: State, step: ReplyStep)
    requires Inv(s) && ReplyEnabled(s, step)
    ensures Inv(ApplyReply(s, step))
  {
    var t := ApplyReply(s, step);
    ReplyLeavesOnce(s, step);
    LaterKeepsHolds(s, t);
    if step.LookUp? {
      assert Sound(s, s.repliers[step.r].id);
    }
    forall id ensures Sound(t, id) {
      assert Sound(s, id);
    }
  }

  lemma CancelKeepsSound(s: State, step: CancelStep, id: string)
    requires Sound(s, id) && CancelEnabled(s, step)
    requires step.WakeListed? ==> CancellerHolds(s, s.cancellers[step.c])
    ensures Sound(ApplyCancel(s, step), id)
  {
    hide PendingOf;
  }

  lemma CancellerStillHolds(s: State, step: CancelStep)
    requires CancelEnabled(s, step) && !step.CloseElsewhere?
    requires step.c in s.cancellers ==> CancellerHolds(s, s.cancellers[step.c])
    requires step.LookUpListed? ==> Sound(s, step.id)
    ensures CancellerHolds(ApplyCancel(s, step), ApplyCancel(s, step).cancellers[step.c])
  {
    hide BufferHolds, ResultHolds;
  }

  lemma CancelKeepsInv(s: State, step: CancelStep)
    requires Inv(s) && CancelEnabled(s, step)
    ensures Inv(ApplyCancel(s, step))
  {
    var t := ApplyCancel(s, step);
    assert t.repliers == s.repliers;
    assert t.cancellers == if step.CloseElsewhere? then s.cancellers else s.cancellers[step.c := t.cancellers[step.c]];
    CancelLeavesOnce(s, step);
    LaterKeepsHolds(s, t);
    assert step.WakeListed? || step.LookUpListed? || step.CancelAll? ==> step.c in s.cancellers;
    hide ApplyCancel, CancelEnabled, Sound, CancellerHolds, ReplierHolds, ResultHolds, BufferHolds, Later;
    if step.LookUpListed? {
      assert Sound(s, step.id);
    }
    if !step.CloseElsewhere? {
      CancellerStillHolds(s, step);
    }
    forall id ensures Sound(t, id) {
      assert Sound(s, id);
      CancelKeepsSound(s, step, id);
    }
  }

  lemma StepKeepsInv(s: State, step: Step)
    requires Inv(s) && Enabled(s, step)
    ensures Inv(Apply(s, step))
  {
    hide ApplyRequest, ApplyReply, ApplyCancel, Inv, RequestEnabled, ReplyEnabled, CancelEnabled;
    match step
    case OfRequest(x) => RequestKeepsInv(s, x);
    case OfReply(x) => ReplyKeepsInv(s, x);
    case OfCancel(x) => CancelKeepsInv(s, x);
  }

  // ---------- whole histories ----------

  predicate History(s: State, steps: seq<Step>)
    decreases |steps|
  {
    steps == [] || (Enabled(s, steps[0]) && History(Apply(s, steps[0]), steps[1..]))
  }

  function Run(s: State, steps: seq<Step>): State
    requires History(s, steps)
    decreases |steps|
  {
    if steps == [] then s else Run(Apply(s, steps[0]), steps[1..])
  }

  const INIT := State(map[], map[], map[], map[], map[], {})

  lemma {:induction false} RunKeepsInv(s: State, steps: seq<Step>)
    requires Inv(s) && History(s, steps)
    ensures Inv(Run(s, steps))
    decreases |steps|
  {
    if steps != [] {
      StepKeepsInv(s, steps[0]);
      hide Inv;
      RunKeepsInv(Apply(s, steps[0]), steps[1..]);
    }
  }

  /** Whatever the interleaving: a request comes back approved exactly when the record says answered
      with approval and the request ended by a reply or by its timer; an ending by reply repeats the
      stored answer, an ending by timer means the record is closed; and a request somebody has sent
      a wake-up to finds one waiting. */
  lemma ApprovedMeansStored(steps: seq<Step>)
    requires History(INIT, steps)
    ensures var s := Run(INIT, steps);
      && (forall id | id in s.requests && s.requests[id].Returned? ::
            s.requests[id].approved <==> StoredAs(s, id, true) && s.requests[id].way in {ByReply, ByTimer})
      && (forall id | id in s.requests && s.requests[id].Returned? && s.requests[id].way.ByReply? ::
            StoredAs(s, id, s.requests[id].approved))
      && (forall id | id in s.requests && s.requests[id].Returned? && s.requests[id].way.ByTimer? :: Closed(s, id))
      && (forall id | At(s, id, Waiting) && id in s.woken :: RequestEnabled(s, Receive(id)))
  {
    assert Inv(INIT);
    RunKeepsInv(INIT, steps);
    hide Run, History;
    ResultsHold(Run(INIT, steps));
  }

  lemma ResultsHold(s: State)
    requires Inv(s)
    ensures forall id | id in s.requests && s.requests[id].Returned? ::
      s.requests[id].approved <==> StoredAs(s, id, true) && s.requests[id].way in {ByReply, ByTimer}
    ensures forall id | id in s.requests && s.requests[id].Returned? && s.requests[id].way.ByReply? ::
      StoredAs(s, id, s.requests[id].approved)
    ensures forall id | id in s.requests && s.requests[id].Returned? && s.requests[id].way.ByTimer? :: Closed(s, id)
    ensures forall id | At(s, id, Waiting) && id in s.woken :: RequestEnabled(s, Receive(id))
  {
    forall id | id in s.requests && s.requests[id].Returned?
      ensures ResultHolds(s, id, s.requests[id])
    {
      assert Sound(s, id);
    }
    forall id | At(s, id, Waiting) && id in s.woken ensures RequestEnabled(s, Receive(id)) {
      assert Sound(s, id);
    }
  }

  /** A timer that loses the race returns what is stored, approved or not. */
  lemma LostTimeoutReturnsStored(s: State, id: string)
    requires Inv(s) && RequestEnabled(s, TimerFires(id, true)) && Closed(s, id)
    ensures var t := ApplyRequest(s, TimerFires(id, true));
      && RequestEnabled(t, ReadBack(id, true)) && t.items == s.items
      && At(ApplyRequest(t, ReadBack(id, true)), id, Returned(StoredAs(s, id, true), ByTimer))
  {
    assert Sound(s, id);
  }

  lemma Prepend(s: State, step: Step, rest: seq<Step>)
    requires Enabled(s, step) && History(Apply(s, step), rest)
    ensures History(s, [step] + rest) && Run(s, [step] + rest) == Run(Apply(s, step), rest)
  {
    assert ([step] + rest)[1..] == rest;
  }

  lemma RunsConcat(s: State, first: seq<Step>, second: seq<Step>)
    requires History(s, first) && History(Run(s, first), second)
    ensures History(s, first + second) && Run(s, first + second) == Run(Run(s, first), second)
    decreases |first|
  {
    hide Apply, Enabled;
    if first == [] {
      assert first + second == second;
    } else {
      var rest := first[1..];
      RunsConcat(Apply(s, first[0]), rest, second);
      Prepend(s, first[0], rest + second);
      assert [first[0]] + (rest + second) == first + second;
    }
  }

  lemma RunsTwo(s: State, x: Step, y: Step)
    requires Enabled(s, x) && Enabled(Apply(s, x), y)
    ensures History(s, [x, y]) && Run(s, [x, y]) == Apply(Apply(s, x), y)
  {
    hide Apply, Enabled;
    Prepend(Apply(s, x), y, []);
    Prepend(s, x, [y]);
    assert [x] + [y] == [x, y];
  }

  /** A waiting request of this session that nobody has answered or woken. */
  predicate Open(s: State, id: string, session: string) {
    && At(s, id, Waiting) && id in s.items && s.items[id] == Record(session, Pending)
    && id in s.buffers && s.buffers[id].None?
  }

  /** A cancellation has listed the request; a reply's answer is stored before its update. */
  lemma AnswerDuringCancel(s: State, id: string, session: string) returns (steps: seq<Step>)
    requires Open(s, id, session) && 0 !in s.repliers && 0 !in s.cancellers
    ensures History(s, steps)
    ensures var t := Run(s, steps);
      && At(t, id, Waiting) && StoredAs(t, id, true) && id in t.buffers && t.buffers[id].None?
      && 0 in t.cancellers && t.cancellers[0].Listed? && id in t.cancellers[0].ids
  {
    var list, arrive := OfCancel(ListSession(0, session)), OfReply(ReplyArrives(0, id, true));
    var answer := OfReply(StoreAnswer(0, true));
    RunsTwo(s, list, arrive);
    var t := Apply(Apply(s, list), arrive);
    assert t.repliers[0] == Asked(id, true) && Open(t, id, session);
    steps := [list, arrive] + [answer];
    Prepend(t, answer, []);
    RunsConcat(s, [list, arrive], [answer]);
  }

  /** The wake-up of a cancellation that has listed the request reaches a waiting request whose channel
      is empty, wherever the cancellation stands. */
  lemma ListingCanWake(s: State, id: string, c: nat) returns (steps: seq<Step>)
    requires At(s, id, Waiting) && StoredAs(s, id, true) && id in s.buffers && s.buffers[id].None?
    requires c in s.cancellers && Lists(s.cancellers[c], id)
    ensures History(s, steps)
    ensures At(Run(s, steps), id, Returned(false, ByCancel)) && StoredAs(Run(s, steps), id, true)
  {
    var update, look := OfCancel(CancelAll(c, true)), OfCancel(LookUpListed(c, id));
    if s.cancellers[c].Listed? {
      var t := Apply(s, update);
      assert StoredAs(t, id, true) && At(t, id, Waiting) && t.buffers == s.buffers && id in t.cancellers[c].ids;
      var rest := LookUpCanWake(t, id, c);
      Prepend(s, update, rest);
      steps := [update] + rest;
    } else if id in s.cancellers[c].ids {
      steps := LookUpCanWake(s, id, c);
    } else {
      steps := FoundCanWake(s, id, c);
    }
  }

  lemma LookUpCanWake(s: State, id: string, c: nat) returns (steps: seq<Step>)
    requires At(s, id, Waiting) && StoredAs(s, id, true) && id in s.buffers && s.buffers[id].None?
    requires c in s.cancellers && s.cancellers[c].Waking? && id in s.cancellers[c].ids
    ensures History(s, steps)
    ensures At(Run(s, steps), id, Returned(false, ByCancel)) && StoredAs(Run(s, steps), id, true)
  {
    var look := OfCancel(LookUpListed(c, id));
    var t := Apply(s, look);
    assert StoredAs(t, id, true) && At(t, id, Waiting) && t.buffers == s.buffers && id in t.cancellers[c].found;
    var rest := FoundCanWake(t, id, c);
    Prepend(s, look, rest);
    steps := [look] + rest;
  }

  lemma FoundCanWake(s: State, id: string, c: nat) returns (steps: seq<Step>)
    requires At(s, id, Waiting) && StoredAs(s, id, true) && id in s.buffers && s.buffers[id].None?
    requires c in s.cancellers && s.cancellers[c].Waking? && id in s.cancellers[c].found
    ensures History(s, steps)
    ensures At(Run(s, steps), id, Returned(false, ByCancel)) && StoredAs(Run(s, steps), id, true)
  {
    steps := [OfCancel(WakeListed(c, id)), OfRequest(Receive(id))];
    RunsTwo(s, steps[0], steps[1]);
  }

  /** The other direction fails for a session's cancellation. From any waiting request: the session
      is listed, a reply's approval is stored, and the cancellation's wake-up still takes the channel
      first, so that the request comes back as not approved. */
  lemma CancelCanHideApproval(s: State, id: string, session: string) returns (steps: seq<Step>)
    requires Open(s, id, session) && 0 !in s.repliers && 0 !in s.cancellers
    ensures History(s, steps)
    ensures At(Run(s, steps), id, Returned(false, ByCancel)) && StoredAs(Run(s, steps), id, true)
  {
    var first := AnswerDuringCancel(s, id, session);
    hide Run, History, At, StoredAs, Open;
    var second := ListingCanWake(Run(s, first), id, 0);
    RunsConcat(s, first, second);
    steps := first + second;
  }

  /** It does happen: a request is created and waits, its approval is stored, and it comes back cancelled. */
  lemma ApprovalIsHidden(id: string, session: string) returns (steps: seq<Step>)
    ensures History(INIT, steps)
    ensures At(Run(INIT, steps), id, Returned(false, ByCancel)) && StoredAs(Run(INIT, steps), id, true)
  {
    var create, register := OfRequest(Create(id, session)), OfRequest(Register(id));
    var s := Apply(Apply(INIT, create), register);
    RunsTwo(INIT, create, register);
    assert Open(s, id, session) && s.repliers == map[] && s.cancellers == map[];
    hide Run, History, At, StoredAs, Open;
    var more := CancelCanHideApproval(s, id, session);
    RunsConcat(INIT, [create, register], more);
    steps := [create, register] + more;
  }

  // ---------- exactly when an answer can be hidden ----------

  predicate Lists(c: Canceller, id: string) {
    id in c.ids || (c.Waking? && id in c.found)
  }

  /** Some cancellation has the request on its list. */
  predicate ListedBySome(s: State, id: string) {
    exists c <- s.cancellers :: Lists(s.cancellers[c], id)
  }

  predicate Has(s: State, id: string, wake: Wake) {
    id in s.buffers && s.buffers[id] == Some(wake)
  }

  /** The answer is stored and no cancellation can come before it any more: none has the request on its
      list, or the channel is already taken by a reply; and none has come before it. */
  predicate Shielded(s: State, id: string) {
    && id in s.items && s.items[id].status.Answered?
    && (id in s.requests && s.requests[id].Returned? ==> !s.requests[id].way.ByCancel?)
    && (id in s.requests && !s.requests[id].Returned? ==>
          !Has(s, id, Cancel) && (ListedBySome(s, id) ==> Has(s, id, Reply(true)) || Has(s, id, Reply(false))))
  }

  lemma RequestKeepsShield(s: State, step: RequestStep, id: string)
    requires Inv(s) && RequestEnabled(s, step) && Shielded(s, id)
    ensures Shielded(ApplyRequest(s, step), id)
  {
    assert Sound(s, id);
    assert ApplyRequest(s, step).cancellers == s.cancellers;
    assert ListedBySome(ApplyRequest(s, step), id) == ListedBySome(s, id);
    hide ListedBySome, Inv, BufferHolds, ResultHolds;
    if step.id != id {
      RequestIsLocal(s, step, id);
      hide ApplyRequest, RequestEnabled;
    }
  }

  lemma ReplyKeepsShield(s: State, step: ReplyStep, id: string)
    requires ReplyEnabled(s, step) && Shielded(s, id)
    ensures Shielded(ApplyReply(s, step), id)
  {
    assert ListedBySome(ApplyReply(s, step), id) == ListedBySome(s, id);
    hide ListedBySome;
  }

  lemma CancelKeepsShield(s: State, step: CancelStep, id: string)
    requires CancelEnabled(s, step) && Shielded(s, id)
    ensures Shielded(ApplyCancel(s, step), id)
  {
    var t := ApplyCancel(s, step);
    forall c | c in t.cancellers && Lists(t.cancellers[c], id) ensures ListedBySome(s, id) {
      assert c in s.cancellers && Lists(s.cancellers[c], id);
    }
  }

  /** No step of anybody takes the shield from an answer. */
  lemma StepKeepsShield(s: State, step: Step, id: string)
    requires Inv(s) && Enabled(s, step) && Shielded(s, id)
    ensures Shielded(Apply(s, step), id)
  {
    hide ApplyRequest, ApplyReply, ApplyCancel, Inv, Shielded, RequestEnabled, ReplyEnabled, CancelEnabled;
    match step
    case OfRequest(x) => RequestKeepsShield(s, x, id);
    case OfReply(x) => ReplyKeepsShield(s, x, id);
    case OfCancel(x) => CancelKeepsShield(s, x, id);
  }

  lemma {:induction false} RunKeepsShield(s: State, steps: seq<Step>, id: string)
    requires Inv(s) && History(s, steps) && Shielded(s, id)
    ensures Shielded(Run(s, steps), id)
    decreases |steps|
  {
    if steps != [] {
      StepKeepsInv(s, steps[0]);
      StepKeepsShield(s, steps[0], id);
      hide Inv, Shielded, Apply, Enabled;
      RunKeepsShield(Apply(s, steps[0]), steps[1..], id);
    }
  }

  /** The history brings the request back as cancelled. */
  predicate Hides(s: State, steps: seq<Step>, id: string) {
    History(s, steps) && At(Run(s, steps), id, Returned(false, ByCancel))
  }

  lemma ShieldedIsNotHidden(s: State, steps: seq<Step>, id: string)
    requires Inv(s) && Shielded(s, id)
    ensures !Hides(s, steps, id)
  {
    if History(s, steps) {
      RunKeepsShield(s, steps, id);
    }
  }

  lemma ListedCanBeHidden(s: State, id: string) returns (steps: seq<Step>)
    requires At(s, id, Waiting) && StoredAs(s, id, true)
    requires Has(s, id, Cancel) || (id in s.buffers && s.buffers[id].None? && ListedBySome(s, id))
    ensures Hides(s, steps, id)
  {
    if Has(s, id, Cancel) {
      Prepend(s, OfRequest(Receive(id)), []);
      steps := [OfRequest(Receive(id))] + [];
    } else {
      var c :| c in s.cancellers && Lists(s.cancellers[c], id);
      steps := ListingCanWake(s, id, c);
    }
  }

  /** A waiting request whose approval is stored can still come back as cancelled exactly if a
      cancellation's wake-up already lies in its channel, or the channel is empty and some cancellation
      has the request on its list. */
  lemma HiddenExactlyIfListed(s: State, id: string)
    requires Inv(s) && At(s, id, Waiting) && StoredAs(s, id, true)
    ensures (exists steps :: Hides(s, steps, id)) <==>
            Has(s, id, Cancel) || (id in s.buffers && s.buffers[id].None? && ListedBySome(s, id))
  {
    assert Sound(s, id);
    if Has(s, id, Cancel) || (s.buffers[id].None? && ListedBySome(s, id)) {
      var steps := ListedCanBeHidden(s, id);
      assert Hides(s, steps, id);
    } else {
      assert Shielded(s, id);
      forall steps ensures !Hides(s, steps, id) {
        ShieldedIsNotHidden(s, steps, id);
      }
    }
  }

  // ---------- when the caller's context ends ----------

  lemma {:induction false} RunIsLater(s: State, steps: seq<Step>)
    requires History(s, steps)
    ensures Later(s, Run(s, steps))
    decreases |steps|
  {
    if steps != [] {
      PendingLeavesOnce(s, steps[0]);
      hide Apply, Enabled;
      RunIsLater(Apply(s, steps[0]), steps[1..]);
    }
  }

  lemma {:induction false} NewReplier(repliers: map<nat, Replier>) returns (r: nat)
    ensures forall x <- repliers :: x < r
    decreases |repliers|
  {
    if repliers == map[] {
      r := 0;
    } else {
      var x :| x in repliers;
      r := NewReplier(repliers - {x});
      r := if x < r then r else x + 1;
      assert forall y <- repliers :: y == x || y in repliers - {x};
    }
  }

  /** The request has come back without an answer, and its record says approved. */
  predicate Disowned(s: State, steps: seq<Step>, id: string) {
    History(s, steps) && At(Run(s, steps), id, Returned(false, ByContext)) && StoredAs(Run(s, steps), id, true)
  }

  /** An approval that is stored after all, for a record that was left pending. */
  lemma AnsweredTooLate(s: State, id: string) returns (steps: seq<Step>)
    requires At(s, id, Returned(false, ByContext)) && id in s.items && s.items[id].status.Pending?
    ensures Disowned(s, steps, id)
  {
    var r := NewReplier(s.repliers);
    var arrive, answer := OfReply(ReplyArrives(r, id, true)), OfReply(StoreAnswer(r, true));
    assert r !in s.repliers;
    RunsTwo(s, arrive, answer);
    steps := [arrive, answer];
    hide Run, History;
  }

  /** A request whose caller's context ends comes back as not approved. Its record says approved then or
      at some later time exactly if the approval was stored before, or the record was pending and could
      not be cancelled. */
  lemma ContextDisownsExactly(s: State, id: string, works: bool)
    requires Inv(s) && At(s, id, Waiting)
    ensures var t := ApplyRequest(s, ContextDone(id, works));
      && At(t, id, Returned(false, ByContext)) && id in s.items
      && ((exists steps :: Disowned(t, steps, id)) <==>
            StoredAs(s, id, true) || (s.items[id].status.Pending? && !works))
  {
    assert Sound(s, id);
    var t := ApplyRequest(s, ContextDone(id, works));
    hide Inv, Sound;
    if StoredAs(s, id, true) {
      assert History(t, []) && Run(t, []) == t;
      assert Disowned(t, [], id);
    } else if s.items[id].status.Pending? && !works {
      var steps := AnsweredTooLate(t, id);
    } else {
      assert Closed(t, id) && !StoredAs(t, id, true);
      forall steps ensures !Disowned(t, steps, id) {
        if History(t, steps) {
          RunIsLater(t, steps);
        }
      }
    }
  }

  /** It does happen: the approval is stored while the request waits, and its context ends first. */
  lemma ApprovalIsDisowned(id: string, session: string) returns (steps: seq<Step>)
    ensures Disowned(INIT, steps, id)
  {
    var create, register := OfRequest(Create(id, session)), OfRequest(Register(id));
    var arrive, answer := OfReply(ReplyArrives(0, id, true)), OfReply(StoreAnswer(0, true));
    var done := OfRequest(ContextDone(id, true));
    var s := Apply(Apply(INIT, create), register);
    RunsTwo(INIT, create, register);
    assert At(s, id, Waiting) && s.items == map[id := Record(session, Pending)] && s.repliers == map[];
    var t := Apply(Apply(s, arrive), answer);
    RunsTwo(s, arrive, answer);
    assert At(t, id, Waiting) && StoredAs(t, id, true);
    Prepend(t, done, []);
    hide Run, History;
    RunsConcat(s, [arrive, answer], [done] + []);
    RunsConcat(INIT, [create, register], [arrive, answer] + ([done] + []));
    steps := [create, register] + ([arrive, answer] + ([done] + []));
  }

  // ---------- when the result and the record agree ----------

  /** The step neither gives the request up nor fails to read for it, and stores no answer for it while
      a cancellation has it on its list. */
  predicate Undisturbed(s: State, step: Step, id: string) {
    match step
    case OfRequest(ContextDone(x, _)) => x != id
    case OfRequest(Drop(x)) => x != id
    case OfRequest(TimerFires(x, works)) => x != id || works
    case OfRequest(ReadBack(x, works)) => x != id || works
    case OfReply(StoreAnswer(r, works)) =>
      (works && r in s.repliers && s.repliers[r].Asked? && s.repliers[r].id == id
       && id in s.items && s.items[id].status.Pending?) ==> !ListedBySome(s, id)
    case _ => true
  }

  predicate UndisturbedHistory(s: State, steps: seq<Step>, id: string)
    requires History(s, steps)
    decreases |steps|
  {
    steps == [] || (Undisturbed(s, steps[0], id) && UndisturbedHistory(Apply(s, steps[0]), steps[1..], id))
  }

  /** An answer, once stored, is shielded, and the request has not been given up. */
  predicate Agreeing(s: State, id: string) {
    && (id in s.items && s.items[id].status.Answered? ==> Shielded(s, id))
    && (id in s.requests && s.requests[id].Returned? ==> !s.requests[id].way.ByContext? && !s.requests[id].way.ByError?)
  }

  lemma RequestAgrees(s: State, step: RequestStep, id: string)
    requires Inv(s) && RequestEnabled(s, step) && Agreeing(s, id) && Undisturbed(s, OfRequest(step), id)
    ensures Agreeing(ApplyRequest(s, step), id)
  {
    assert Sound(s, id);
    if id in s.items && s.items[id].status.Answered? {
      RequestKeepsShield(s, step, id);
    }
    hide Shielded, Inv, Sound, Has, ListedBySome;
    if step.id != id {
      RequestIsLocal(s, step, id);
      hide ApplyRequest, RequestEnabled;
    }
  }

  lemma ReplyAgrees(s: State, step: ReplyStep, id: string)
    requires Inv(s) && ReplyEnabled(s, step) && Agreeing(s, id) && Undisturbed(s, OfReply(step), id)
    ensures Agreeing(ApplyReply(s, step), id)
  {
    assert Sound(s, id);
    if id in s.items && s.items[id].status.Answered? {
      ReplyKeepsShield(s, step, id);
    } else {
      assert ListedBySome(ApplyReply(s, step), id) == ListedBySome(s, id);
    }
    hide ListedBySome, Inv;
  }

  lemma CancelAgrees(s: State, step: CancelStep, id: string)
    requires Inv(s) && CancelEnabled(s, step) && Agreeing(s, id)
    ensures Agreeing(ApplyCancel(s, step), id)
  {
    if id in s.items && s.items[id].status.Answered? {
      CancelKeepsShield(s, step, id);
    }
    hide Shielded, Inv;
  }

  lemma {:induction false} RunAgrees(s: State, steps: seq<Step>, id: string)
    requires Inv(s) && History(s, steps) && Agreeing(s, id) && UndisturbedHistory(s, steps, id)
    ensures Agreeing(Run(s, steps), id)
    decreases |steps|
  {
    if steps != [] {
      var x := steps[0];
      StepKeepsInv(s, x);
      assert Agreeing(Apply(s, x), id) by {
        hide Agreeing, ApplyRequest, ApplyReply, ApplyCancel, RequestEnabled, ReplyEnabled, CancelEnabled, Inv;
        match x
        case OfRequest(y) => RequestAgrees(s, y, id);
        case OfReply(y) => ReplyAgrees(s, y, id);
        case OfCancel(y) => CancelAgrees(s, y, id);
      }
      hide Inv, Agreeing, Apply, Enabled, Undisturbed;
      RunAgrees(Apply(s, x), steps[1..], id);
    }
  }

  /** In every history in which the request is not given up, its reads work, and no answer is stored
      while a cancellation has it on its list, a returned request is approved exactly if its record is
      answered with approval. */
  lemma ResultAgreesUnlessListed(steps: seq<Step>, id: string)
    requires History(INIT, steps) && UndisturbedHistory(INIT, steps, id)
    ensures var s := Run(INIT, steps);
      id in s.requests && s.requests[id].Returned? ==> (s.requests[id].approved <==> StoredAs(s, id, true))
  {
    assert Inv(INIT) && Agreeing(INIT, id);
    RunAgrees(INIT, steps, id);
    RunKeepsInv(INIT, steps);
    var s := Run(INIT, steps);
    hide Run, History, UndisturbedHistory;
    assert Sound(s, id);
    hide Inv;
  }

  // ---------- the service object ----------

  /** A reply that nothing interrupts: stored, then woken if somebody is registered. */
  function ReplyAtOnce(s: State, r: nat, id: string, approved: bool, works: bool): State
    requires r !in s.repliers
  {
    if id !in s.items then s
    else
      var t := ApplyReply(ApplyReply(s, ReplyArrives(r, id, approved)), StoreAnswer(r, works));
      if t.repliers[r].Over? then t
      else
        var u := ApplyReply(t, LookUp(r));
        if u.repliers[r].Over? then u else ApplyReply(u, WakeUp(r))
  }

  /** Whether a wake-up was offered to this channel; a full one keeps what it has. */
  predicate Woken(before: map<string, Option<Wake>>, after: map<string, Option<Wake>>, id: string, offered: bool)
    requires id in after
  {
    id in before && after[id] == if offered && before[id].None? then Some(Cancel) else before[id]
  }

  class Service {
    var items: map<string, Record>
    var waiters: map<string, Option<Wake>>
    ghost var requests: map<string, Phase>
    ghost var channels: map<string, Option<Wake>>
    ghost var woken: set<string>

    /** channels are all channels, waiters the ones that are still registered; no other reply or
        cancellation is in progress. */
    ghost function View(): State
      reads this
    {
      State(items, requests, channels, map[], map[], woken)
    }

    ghost predicate Valid()
      reads this
    {
      && (forall id :: id in waiters <==> Registered(View(), id))
      && (forall id <- waiters :: id in channels && channels[id] == waiters[id])
    }

    /** The conditional update of the table. */
    method Finalize(id: string, status: Status, works: bool) returns (moved: bool)
      modifies this`items
      ensures View() == Close(old(View()), id, status, works)
      ensures moved == (works && id in old(items) && old(items)[id].status.Pending?)
    {
      moved := works && id in items && items[id].status == Pending;
      if moved {
        items := items[id := items[id].(status := status)];
      }
    }

    /** A send that never blocks. */
    method Send(id: string, wake: Wake)
      requires Valid() && id in waiters
      modifies this`waiters, this`channels, this`woken
      ensures Valid() && View() == Offer(old(View()), id, wake)
    {
      if waiters[id] == None {
        waiters, channels := waiters[id := Some(wake)], channels[id := Some(wake)];
      }
      woken := woken + {id};
    }

    method RegisterWaiter(id: string)
      requires Valid() && RequestEnabled(View(), Register(id))
      modifies this
      ensures Valid() && View() == ApplyRequest(old(View()), Register(id))
    {
      waiters, channels := waiters[id := None], channels[id := None];
      requests := requests[id := Waiting];
    }

    /** The waiting request takes its wake-up and deregisters. */
    method TakeWake(id: string) returns (approved: bool)
      requires Valid() && RequestEnabled(View(), Receive(id))
      modifies this
      ensures Valid() && View() == ApplyRequest(old(View()), Receive(id))
      ensures approved == requests[id].approved
    {
      var wake := waiters[id].value;
      approved := wake.Reply? && wake.approved;
      channels := channels[id := None];
      requests := requests[id := if wake.Cancel? then Returned(false, ByCancel) else Returned(wake.approved, ByReply)];
      waiters := waiters - {id};
    }

    /** The timer: expire the record, or else return what is stored. */
    method TimeOut(id: string, works: bool, readable: bool) returns (approved: bool, failed: bool)
      requires Valid() && RequestEnabled(View(), TimerFires(id, works)) && id in items
      modifies this
      ensures Valid()
      ensures var t := ApplyRequest(old(View()), TimerFires(id, works));
        View() == if At(t, id, TimedOut) then ApplyRequest(t, ReadBack(id, readable)) else t
      ensures requests[id] == Returned(approved, if failed then ByError else ByTimer)
    {
      var moved := Finalize(id, Expired, works);
      failed := !works || (!moved && !readable);
      approved := !failed && !moved && items[id].status == Answered(true);
      waiters := waiters - {id};
      requests := requests[id := Returned(approved, if failed then ByError else ByTimer)];
    }

    /** One reply, from the stored answer to the wake-up. */
    method HandleReply(id: string, approved: bool, works: bool) returns (accepted: bool)
      requires Valid()
      modifies this
      ensures Valid() && View() == ReplyAtOnce(old(View()), 0, id, approved, works).(repliers := map[])
      ensures accepted == (works && id in old(items) && old(items)[id].status.Pending?)
    {
      accepted := Finalize(id, Answered(approved), works);
      if accepted && id in waiters {
        Send(id, Reply(approved));
      }
    }

    /** The session's cancellation, undisturbed: list, one conditional update for all, then the
        wake-ups of those listed. It is a history of one canceller's steps. */
    method CancelSession(session: string, works: bool)
      requires Valid()
      modifies this
      ensures Valid() && requests == old(requests) && waiters.Keys == old(waiters.Keys)
      ensures items == if works then CancelledAll(old(items), session) else old(items)
      ensures var listed := PendingOf(old(View()), session);
        forall id <- waiters :: Woken(old(waiters), waiters, id, works && id in listed)
      ensures exists steps :: Cancels(old(View()), steps, View())
    {
      var listed := set id <- items | items[id].session == session && items[id].status == Pending;
      assert listed == PendingOf(View(), session);
      ghost var steps := [OfCancel(ListSession(0, session)), OfCancel(CancelAll(0, works))];
      ListsAndUpdates(View(), session, works);
      if listed == {} || !works {
        assert listed == {} ==> forall id <- items :: id !in listed;
        assert works ==> CancelledAll(items, session) == items;
        assert Cancels(old(View()), steps, View());
        return;
      }
      items := CancelledAll(items, session);
      WakeAll(listed, old(View()), steps);
    }

    /** One listed request is looked up, and offered the wake-up if it is registered. */
    method WakeListed(id: string, ghost todo: set<string>, ghost start: State, ghost done: seq<Step>)
      returns (ghost steps: seq<Step>)
      requires Valid() && id in todo && History(start, done)
      requires Run(start, done) == View().(cancellers := map[0 := Waking(todo, {})])
      modifies this`waiters, this`channels, this`woken
      ensures Valid() && waiters.Keys == old(waiters.Keys)
      ensures forall x <- waiters :: Woken(old(waiters), waiters, x, x == id)
      ensures History(start, steps) && Run(start, steps) == View().(cancellers := map[0 := Waking(todo - {id}, {})])
    {
      ghost var more := WakesOne(View(), todo, id);
      RunsConcat(start, done, more);
      steps := done + more;
      hide Run, History;
      if id in waiters {
        Send(id, Cancel);
      }
    }

    /** The wake-ups that are left of a cancellation in progress. */
    method WakeAll(listed: set<string>, ghost start: State, ghost done: seq<Step>)
      requires Valid() && History(start, done)
      requires Run(start, done) == View().(cancellers := map[0 := Waking(listed, {})])
      modifies this`waiters, this`channels, this`woken
      ensures Valid() && waiters.Keys == old(waiters.Keys)
      ensures forall id <- waiters :: Woken(old(waiters), waiters, id, id in listed)
      ensures exists steps :: Cancels(start, steps, View())
    {
      var todo := listed;
      ghost var steps := done;
      while todo != {}
        invariant Valid() && waiters.Keys == old(waiters.Keys) && todo <= listed
        invariant forall id <- waiters :: Woken(old(waiters), waiters, id, id in listed - todo)
        invariant History(start, steps) && Run(start, steps) == View().(cancellers := map[0 := Waking(todo, {})])
        decreases todo
      {
        var id :| id in todo;
        steps := WakeListed(id, todo, start, steps);
        todo := todo - {id};
      }
      assert Cancels(start, steps, View());
    }
  }

  /** One canceller's steps lead from one quiet state to another. */
  predicate Cancels(s: State, steps: seq<Step>, t: State) {
    History(s, steps) && Run(s, steps).(cancellers := map[]) == t
  }

  lemma ListsAndUpdates(s: State, session: string, works: bool)
    requires s.cancellers == map[]
    ensures var steps := [OfCancel(ListSession(0, session)), OfCancel(CancelAll(0, works))];
      var listed := PendingOf(s, session);
      && History(s, steps)
      && Run(s, steps) ==
           if listed == {} || !works then s.(cancellers := map[0 := Waking({}, {})])
           else s.(items := CancelledAll(s.items, session), cancellers := map[0 := Waking(listed, {})])
  {
    var list, update := OfCancel(ListSession(0, session)), OfCancel(CancelAll(0, works));
    var t := s.(cancellers := map[0 := Listed(session, PendingOf(s, session))]);
    assert Enabled(s, list) && Apply(s, list) == t;
    RunsTwo(s, list, update);
    hide PendingOf;
  }

  /** Looking one listed request up, and waking it if it is registered. */
  lemma WakesOne(s: State, todo: set<string>, id: string) returns (steps: seq<Step>)
    requires id in todo
    ensures var before := s.(cancellers := map[0 := Waking(todo, {})]);
      var after := if Registered(s, id) then Offer(s, id, Cancel) else s;
      && History(before, steps)
      && Run(before, steps) == after.(cancellers := map[0 := Waking(todo - {id}, {})])
  {
    var look := OfCancel(LookUpListed(0, id));
    var before := s.(cancellers := map[0 := Waking(todo, {})]);
    LooksUp(s, todo, id);
    if Registered(s, id) {
      WakesFound(s, todo - {id}, id);
      hide Enabled, Apply;
      steps := [look, OfCancel(WakeListed(0, id))];
      RunsTwo(before, steps[0], steps[1]);
    } else {
      hide Enabled, Apply;
      steps := [look] + [];
      Prepend(before, look, []);
    }
  }

  lemma LooksUp(s: State, todo: set<string>, id: string)
    requires id in todo
    ensures var before, look := s.(cancellers := map[0 := Waking(todo, {})]), OfCancel(LookUpListed(0, id));
      var found: set<string> := if Registered(s, id) then {id} else {};
      Enabled(before, look) && Apply(before, look) == s.(cancellers := map[0 := Waking(todo - {id}, found)])
  {
    var none: set<string> := {};
    assert none + {id} == {id};
    assert Registered(s.(cancellers := map[0 := Waking(todo, {})]), id) == Registered(s, id);
    hide Registered;
  }

  lemma WakesFound(s: State, todo: set<string>, id: string)
    ensures var before, wake := s.(cancellers := map[0 := Waking(todo, {id})]), OfCancel(WakeListed(0, id));
      Enabled(before, wake)
      && Apply(before, wake) == Offer(s, id, Cancel).(cancellers := map[0 := Waking(todo, {})])
  {
    assert {id} - {id} == {};
    OfferIgnoresCancellers(s, map[0 := Waking(todo, {id})], id);
    hide Offer;
  }

  lemma OfferIgnoresCancellers(s: State, cancellers: map<nat, Canceller>, id: string)
    ensures Offer(s.(cancellers := cancellers), id, Cancel) == Offer(s, id, Cancel).(cancellers := cancellers)
  {
  }
}
