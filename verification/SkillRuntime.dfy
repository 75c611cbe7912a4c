/** The life of skill executions on a Pilot: recovery, admission, the finish-versus-stop race and
    the claim an execution has on its robot. Every label of Step is one critical section, one read
    or one store write, so a sequence of steps is one interleaving of recovery, starts, workers,
    handlers and stops. Calls into the action runner are single steps. */
module SkillRuntime {
  import opened Common
  import opened SkillStore

  /** Where a start stands: robot claimed, recorded as starting, worker registered, or giving up;
      Recovered is a registration by recovery instead. */
  datatype StartPhase = Claimed(robotId: string) | Recorded(robotId: string)
    | Registered(robotId: string) | Aborting(robotId: string) | Recovered(robotId: string)

  /** Who holds an execution's stop mutex: its finishing worker, first having read the status, then
      with a verdict, then with the verdict written; or a stop, up to the evidence that it is safe.
      held and startedSince note whether an action of the execution had the physical lock when the end
      was judged, and whether one took it after that; a verdict is given only without the lock. */
  datatype Holder = FinishRead | Finishing(verdict: Status, startedSince: bool) | Finished(startedSince: bool)
    | StopEntered | StopMarked | StopSafe(held: bool, startedSince: bool)

  /** A worker that failed before any physical action: flag read, status read, failure written, with
      the same two notes taken when the flag was read. */
  datatype FailPhase =
    | FailChosen(held: bool, startedSince: bool)
    | FailRead(held: bool, startedSince: bool)
    | FailWritten(held: bool, startedSince: bool)

  /** active maps a registered execution to whether it has noted a physical action; fetched holds
      those a stop has looked up. locks and owners are the action runner's lock table and the
      execution behind each action. */
  datatype State = State(
    items: map<string, Skill>,
    active: map<string, bool>,
    activeRobots: map<string, string>,
    locks: map<string, string>, owners: map<string, string>,
    recoverable: set<string>, recovering: set<string>, booted: bool,
    starting: map<string, StartPhase>, running: set<string>,
    failing: map<string, FailPhase>, fetched: set<string>, stopMu: map<string, Holder>)

  /** Steps of start and recovery, of a worker's handlers, of its end or early failure, and of a stop.
      A step that writes carries the caller's snapshot of the record, however old, and whether the
      write succeeds. */
  datatype StartStep =
    | Claim(id: string, robotId: string)
    | Record(e: Skill, saves: bool)
    | LaunchWorker(e: Skill, up: bool, saves: bool)
    | MarkRunning(e: Skill, saves: bool)
    | AbortStart(id: string)

  datatype RecoverStep =
    | RecoverClaim(e: Skill, usable: bool, saves: bool)
    | RecoverWorker(e: Skill, up: bool, saves: bool)
    | RecoverMark(e: Skill, saves: bool)
    | Booted

  datatype HandlerStep =
    | HandlerSave(e: Skill)
    | StopEvidence(id: string, safe: bool)
    | Interrupt(e: Skill, saves: bool)
    | PhysicalStart(id: string, action: string)
    | NoteStarted(id: string)
    | PhysicalEnd(robotId: string)

  datatype FinishStep =
    | ReadForFinish(id: string)
    | FinishDecide(e: Skill, verdict: Status, saves: bool)
    | FinishSave(e: Skill, saves: bool)
    | FinishCleanup(id: string)

  datatype FailStep =
    | ChooseFail(id: string)
    | ReadForFail(id: string)
    | FailSave(e: Skill, saves: bool)
    | FailCleanup(id: string)

  /** The worker's answer to a stop; without one, whether the stored evidence can be read. */
  datatype Reply = Answered(safe: bool) | Unanswered(readable: bool)

  datatype StopStep =
    | StopUnknown(e: Skill, saves: bool)
    | StopFetch(id: string)
    | StopEnter(id: string)
    | StopMark(e: Skill, saves: bool)
    | StopGiveUp(e: Skill, saves: bool)
    | StopConclude(e: Skill, reply: Reply, saves: bool)
    | StopCleanup(id: string)

  datatype Step = OfStart(start: StartStep) | OfRecover(recover: RecoverStep) | OfHandler(handler: HandlerStep)
    | OfFinish(finish: FinishStep) | OfFail(fail: FailStep) | OfStop(stop: StopStep)

  function Write(s: State, e: Skill, status: Status, saves: bool): (t: State)
    ensures t == s.(items := t.items) && s.items.Keys <= t.items.Keys
  {
    if saves then s.(items := Save(s.items, e.(status := status))) else s
  }

  function ReleaseRobot(s: State, robotId: string, id: string): (t: State)
    ensures t == s.(activeRobots := t.activeRobots)
  {
    if Holds(s, id, robotId) then s.(activeRobots := s.activeRobots - {robotId}) else s
  }

  function Cleanup(s: State, id: string): (t: State)
    requires id in s.items
    ensures t == s.(active := t.active, activeRobots := t.activeRobots)
  {
    ReleaseRobot(s.(active := s.active - {id}), s.items[id].robotId, id)
  }

  predicate Holds(s: State, id: string, robotId: string) {
    robotId in s.activeRobots && s.activeRobots[robotId] == id
  }

  /** The robot's physical lock is held by an action of this execution. */
  predicate OwnsLock(s: State, id: string) {
    && id in s.items && s.items[id].robotId in s.locks
    && s.locks[s.items[id].robotId] in s.owners && s.owners[s.locks[s.items[id].robotId]] == id
  }

  /** The stop must have come back safe, or have left safe evidence before its answer was lost. */
  predicate SafelyStopped(s: State, id: string, reply: Reply) {
    reply == Answered(true) || (reply == Unanswered(true) && id in s.items && s.items[id].stopOutcome == Some(true))
  }

  /** The stop evidence that a stop stores. */
  function Evidence(e: Skill, reply: Reply): Option<bool> {
    if reply.Answered? then Some(reply.safe) else e.stopOutcome
  }

  predicate Snapshot(s: State, e: Skill) {
    e.id in s.items && e.robotId == s.items[e.id].robotId
  }

  predicate Phase(s: State, e: Skill, phase: StartPhase) {
    e.id in s.starting && s.starting[e.id] == phase
  }

  predicate Holding(s: State, id: string) {
    id in s.items && id in s.stopMu
  }

  predicate StartEnabled(s: State, step: StartStep) {
    match step
    // commands are read one at a time, so one execution id has at most one start in progress
    case Claim(id, robotId) => s.booted && id !in s.items && id !in s.starting
      && robotId !in s.activeRobots && robotId !in s.locks
    case Record(e, _) => Phase(s, e, Claimed(e.robotId))
    case LaunchWorker(e, _, _) => Phase(s, e, Recorded(e.robotId)) && Snapshot(s, e)
    case MarkRunning(e, _) => Phase(s, e, Registered(e.robotId)) && Snapshot(s, e)
    case AbortStart(id) => id in s.starting && s.starting[id].Aborting?
  }

  predicate RecoverEnabled(s: State, step: RecoverStep) {
    match step
    case RecoverClaim(e, _, _) => !s.booted && e.id in s.recoverable && Snapshot(s, e)
    case RecoverWorker(e, _, _) => e.id in s.recovering && Snapshot(s, e)
    case RecoverMark(e, _) => Phase(s, e, Recovered(e.robotId)) && Snapshot(s, e)
    case Booted => s.recoverable == {} && s.recovering == {} && s.starting == map[]
  }

  predicate HandlerEnabled(s: State, step: HandlerStep) {
    match step
    // a snapshot can be terminal only if the record had become so, and then it stays so
    case HandlerSave(e) => Snapshot(s, e) && (Terminal(e.status) ==> e.status == s.items[e.id].status)
    case StopEvidence(_, _) => true
    case Interrupt(e, _) => Snapshot(s, e)
    // requests are served from the start of the worker's run on
    case PhysicalStart(id, action) =>
      id in s.running && id in s.items && s.items[id].robotId !in s.locks && action !in s.owners
    case NoteStarted(id) => id in s.active
    case PhysicalEnd(_) => true
  }

  predicate FinishEnabled(s: State, step: FinishStep) {
    match step
    case ReadForFinish(id) => id in s.running && id in s.items && id !in s.stopMu
    case FinishDecide(e, _, _) => Snapshot(s, e) && Holding(s, e.id) && s.stopMu[e.id].FinishRead?
    case FinishSave(e, _) => Snapshot(s, e) && Holding(s, e.id) && s.stopMu[e.id].Finishing?
    case FinishCleanup(id) => Holding(s, id) && s.stopMu[id].Finished?
  }

  predicate FailEnabled(s: State, step: FailStep) {
    match step
    case ChooseFail(id) => id in s.running && id !in s.failing
    case ReadForFail(id) => id in s.items && id in s.failing && s.failing[id].FailChosen?
    case FailSave(e, _) => Snapshot(s, e) && e.id in s.failing && s.failing[e.id].FailRead?
    case FailCleanup(id) => id in s.items && id in s.failing && s.failing[id].FailWritten?
  }

  predicate StopEnabled(s: State, step: StopStep) {
    match step
    case StopUnknown(e, _) => Snapshot(s, e) && e.id !in s.active
    case StopFetch(id) => id in s.active
    case StopEnter(id) => id in s.fetched && id in s.items && id !in s.stopMu
    case StopMark(e, _) => Snapshot(s, e) && Holding(s, e.id) && s.stopMu[e.id].StopEntered?
    case StopGiveUp(e, _) => Snapshot(s, e) && Holding(s, e.id) && s.stopMu[e.id].StopMarked?
    case StopConclude(e, _, _) => Snapshot(s, e) && Holding(s, e.id) && s.stopMu[e.id].StopMarked?
    case StopCleanup(id) => Holding(s, id) && s.stopMu[id].StopSafe?
  }

  predicate Enabled(s: State, step: Step) {
    match step
    case OfStart(x) => StartEnabled(s, x)
    case OfRecover(x) => RecoverEnabled(s, x)
    case OfHandler(x) => HandlerEnabled(s, x)
    case OfFinish(x) => FinishEnabled(s, x)
    case OfFail(x) => FailEnabled(s, x)
    case OfStop(x) => StopEnabled(s, x)
  }

  function SetHolder(s: State, k: string, holder: Option<Holder>): (t: State)
    ensures t == s.(stopMu := t.stopMu)
  {
    s.(stopMu := if holder.Some? then s.stopMu[k := holder.value] else s.stopMu - {k})
  }

  function SetFailing(s: State, k: string, phase: Option<FailPhase>): (t: State)
    ensures t == s.(failing := t.failing)
  {
    s.(failing := if phase.Some? then s.failing[k := phase.value] else s.failing - {k})
  }

  function Unlist(s: State, id: string): State {
    s.(recoverable := s.recoverable - {id})
  }

  function Reclaim(s: State, id: string, robotId: string): State {
    s.(activeRobots := s.activeRobots[robotId := id], recovering := s.recovering + {id})
  }

  function Reregister(s: State, id: string, robotId: string): State {
    s.(recovering := s.recovering - {id}, active := s.active[id := false],
       starting := s.starting[id := Recovered(robotId)])
  }

  function SetPhase(s: State, id: string, phase: StartPhase): State {
    s.(starting := s.starting[id := phase])
  }

  function Deregister(s: State, id: string): State {
    s.(active := s.active - {id})
  }

  function Started(s: State, id: string): State {
    s.(starting := s.starting - {id}, running := s.running + {id})
  }

  function ApplyStart(s: State, step: StartStep): State
    requires StartEnabled(s, step)
  {
    match step
    case Claim(id, robotId) =>
      SetPhase(s.(activeRobots := s.activeRobots[robotId := id]), id, Claimed(robotId))
    case Record(e, saves) =>
      SetPhase(Write(s, e, Starting, saves), e.id, if saves then Recorded(e.robotId) else Aborting(e.robotId))
    case LaunchWorker(e, up, saves) =>
      if up then SetPhase(s.(active := s.active[e.id := false]), e.id, Registered(e.robotId))
      else SetPhase(Write(s, e, Failed, saves), e.id, Aborting(e.robotId))
    case MarkRunning(e, saves) =>
      if saves then Started(Write(s, e, Running, true), e.id)
      else SetPhase(Deregister(s, e.id), e.id, Aborting(e.robotId))
    case AbortStart(id) => ReleaseRobot(s, s.starting[id].robotId, id).(starting := s.starting - {id})
  }

  function ApplyRecover(s: State, step: RecoverStep): State
    requires RecoverEnabled(s, step)
  {
    match step
    case RecoverClaim(e, usable, saves) =>
      if !usable || (e.robotId in s.activeRobots && s.activeRobots[e.robotId] != e.id)
      then Write(Unlist(s, e.id), e, Interrupted, saves)
      else Reclaim(Unlist(s, e.id), e.id, e.robotId)
    case RecoverWorker(e, up, saves) =>
      if up then Reregister(s, e.id, e.robotId)
      else Write(s.(recovering := s.recovering - {e.id}), e, Interrupted, saves)
    case RecoverMark(e, saves) => Started(Write(s, e, Running, saves), e.id)
    case Booted => s.(booted := true)
  }

  function ApplyHandler(s: State, step: HandlerStep): State
    requires HandlerEnabled(s, step)
  {
    match step
    case HandlerSave(e) => Write(s, e, e.status, true)
    case StopEvidence(id, safe) => s.(items := SetOutcome(s.items, id, Some(safe)))
    case Interrupt(e, saves) => Write(s, e, Interrupted, saves)
    case PhysicalStart(id, action) => TakeLock(s, id, action)
    case NoteStarted(id) => s.(active := s.active[id := true])
    case PhysicalEnd(robotId) => s.(locks := s.locks - {robotId})
  }

  function ApplyFinish(s: State, step: FinishStep): State
    requires FinishEnabled(s, step)
  {
    match step
    case ReadForFinish(id) =>
      if s.items[id].status.Stopping? || Terminal(s.items[id].status) then s
      else SetHolder(s, id, Some(FinishRead))
    case FinishDecide(e, verdict, saves) => Decide(s, e, verdict, saves)
    case FinishSave(e, saves) =>
      SetHolder(Write(s, e, s.stopMu[e.id].verdict, saves), e.id, Some(Finished(s.stopMu[e.id].startedSince)))
    case FinishCleanup(id) => SetHolder(Cleanup(s, id), id, None)
  }

  function ApplyFail(s: State, step: FailStep): State
    requires FailEnabled(s, step)
  {
    match step
    case ChooseFail(id) =>
      if id in s.active && s.active[id] then s else SetFailing(s, id, Some(FailChosen(OwnsLock(s, id), false)))
    case ReadForFail(id) =>
      var f := s.failing[id];
      SetFailing(s, id, if Terminal(s.items[id].status) then None else Some(FailRead(f.held, f.startedSince)))
    case FailSave(e, saves) =>
      var f := s.failing[e.id];
      SetFailing(Write(s, e, Failed, saves), e.id, if saves then Some(FailWritten(f.held, f.startedSince)) else None)
    case FailCleanup(id) => SetFailing(Cleanup(s, id), id, None)
  }

  function ApplyStop(s: State, step: StopStep): State
    requires StopEnabled(s, step)
  {
    match step
    case StopUnknown(e, saves) => Write(s, e, Interrupted, saves)
    case StopFetch(id) => s.(fetched := s.fetched + {id})
    case StopEnter(id) =>
      if Terminal(s.items[id].status) && !s.items[id].status.Interrupted? then s
      else SetHolder(s, id, Some(StopEntered))
    case StopMark(e, saves) => SetHolder(Write(s, e, Stopping, saves), e.id, Some(StopMarked))
    case StopGiveUp(e, saves) => SetHolder(Write(s, e, Interrupted, saves), e.id, None)
    case StopConclude(e, reply, saves) => Conclude(s, e, reply, saves)
    case StopCleanup(id) => SetHolder(Cleanup(s, id), id, None)
  }

  function Apply(s: State, step: Step): State
    requires Enabled(s, step)
  {
    match step
    case OfStart(x) => ApplyStart(s, x)
    case OfRecover(x) => ApplyRecover(s, x)
    case OfHandler(x) => ApplyHandler(s, x)
    case OfFinish(x) => ApplyFinish(s, x)
    case OfFail(x) => ApplyFail(s, x)
    case OfStop(x) => ApplyStop(s, x)
  }

  function TakeLock(s: State, id: string, action: string): State
    requires HandlerEnabled(s, PhysicalStart(id, action))
  {
    s.(locks := s.locks[s.items[id].robotId := action], owners := s.owners[action := id],
       stopMu := if id in s.stopMu then s.stopMu[id := Noted(s.stopMu[id])] else s.stopMu,
       failing := if id in s.failing then s.failing[id := s.failing[id].(startedSince := true)] else s.failing)
  }

  /** A judged end that the execution's action comes after. */
  function Noted(holder: Holder): Holder {
    match holder
    case Finishing(verdict, _) => Finishing(verdict, true)
    case Finished(_) => Finished(true)
    case StopSafe(held, _) => StopSafe(held, true)
    case _ => holder
  }

  /** The worker has answered the stop, or not. */
  function Conclude(s: State, e: Skill, reply: Reply, saves: bool): (t: State)
    requires e.id in s.items
    ensures t == s.(items := t.items, stopMu := t.stopMu)
  {
    if SafelyStopped(s, e.id, reply)
    then
      var safe := StopSafe(OwnsLock(s, e.id), false);
      SetHolder(Write(s, e.(stopOutcome := Some(true)), Stopped, saves), e.id, Some(safe))
    else
      var outcome := Evidence(e, reply);
      SetHolder(Write(s, e.(stopOutcome := outcome), Interrupted, saves), e.id, None)
  }

  /** The worker has returned: an action of its own that is not over beats any verdict. */
  function Decide(s: State, e: Skill, verdict: Status, saves: bool): State
    requires FinishEnabled(s, FinishDecide(e, verdict, saves))
  {
    var free := SetHolder(s, e.id, None);
    if OwnsLock(s, e.id) then Write(free, e, Interrupted, saves)
    else if verdict == Completed || verdict == Failed then SetHolder(s, e.id, Some(Finishing(verdict, false)))
    else if verdict == Stopping then free
    else Write(free, e, Interrupted, saves)
  }

  // ---------- the invariant ----------

  /** The status leaves the robot's state open: not over, or over but not known to be safe. */
  predicate NeedsClaim(status: Status) {
    !Terminal(status) || status.Interrupted?
  }

  /** Some worker, stop or registration refers to this execution. */
  predicate Engaged(s: State, id: string) {
    id in s.active || id in s.running || id in s.failing || id in s.fetched || id in s.stopMu
  }

  /** Registered with an open robot state means having the claim on that robot. */
  predicate ClaimHeld(s: State, id: string) {
    id in s.active && id in s.items && NeedsClaim(s.items[id].status) ==> Holds(s, id, s.items[id].robotId)
  }

  /** What holds of one execution between its start or recovery and its end. */
  predicate PhaseHolds(s: State, id: string) {
    && (id in s.items ==> s.items[id].id == id)
    && (Engaged(s, id) ==> id in s.items && id !in s.recoverable && id !in s.recovering)
    && (Engaged(s, id) && id in s.starting ==> !s.starting[id].Claimed? && !s.starting[id].Recorded?)
    && (id in s.recoverable ==> id in s.items && id !in s.recovering)
    && (id in s.recovering ==> id in s.items && Holds(s, id, s.items[id].robotId))
    && (s.booted ==> id !in s.recoverable && id !in s.recovering)
    && (id in s.starting ==> s.booted == !s.starting[id].Recovered?)
    && (id in s.starting ==>
          match s.starting[id]
          case Claimed(r) => id !in s.items && Holds(s, id, r)
          case Recorded(r) => id in s.items && s.items[id].robotId == r && Holds(s, id, r)
          case Registered(r) => id in s.items && s.items[id].robotId == r
          case Aborting(_) => id !in s.active
          case Recovered(r) => id in s.items && s.items[id].robotId == r && id !in s.recoverable && id !in s.recovering)
  }

  predicate Sound(s: State, id: string) {
    ClaimHeld(s, id) && PhaseHolds(s, id)
  }

  ghost predicate Inv(s: State) {
    forall id :: Sound(s, id)
  }

  // Each move of the state, on its own, keeps every execution sound.

  lemma WriteKeepsSound(s: State, e: Skill, status: Status, saves: bool, id: string)
    requires Snapshot(s, e) && Sound(s, id)
    ensures var t := Write(s, e, status, saves);
      && Sound(t, id) && t == s.(items := t.items) && t.items.Keys == s.items.Keys
      && OwnsLock(t, id) == OwnsLock(s, id)
  {
  }

  lemma CleanupKeepsSound(s: State, done: string, id: string)
    requires Sound(s, id) && Sound(s, done) && done in s.items && Engaged(s, done)
    ensures var t := Cleanup(s, done);
      && Sound(t, id) && t == s.(active := t.active, activeRobots := t.activeRobots)
  {
    var t := Cleanup(s, done);
    assert id != done ==> forall r :: Holds(s, id, r) ==> Holds(t, id, r);
    assert OwnsLock(t, id) == OwnsLock(s, id);
    assert done !in t.active && (id != done ==> (id in t.active) == (id in s.active));
    hide OwnsLock, Cleanup;
  }

  lemma HolderKeepsSound(s: State, k: string, holder: Option<Holder>, id: string)
    requires Sound(s, id) && Sound(s, k) && Engaged(s, k)
    ensures Sound(SetHolder(s, k, holder), id)
  {
  }

  lemma FailingKeepsSound(s: State, k: string, phase: Option<FailPhase>, id: string)
    requires Sound(s, id) && Engaged(s, k)
    ensures Sound(SetFailing(s, k, phase), id)
  {
  }

  lemma UnlistKeepsSound(s: State, k: string, id: string)
    requires Sound(s, id) && Sound(s, k)
    ensures Sound(Unlist(s, k), id)
  {
  }

  lemma UnrecoverKeepsSound(s: State, k: string, id: string)
    requires Sound(s, id)
    ensures Sound(s.(recovering := s.recovering - {k}), id)
  {
  }

  lemma ReclaimKeepsSound(s: State, k: string, robotId: string, id: string)
    requires Sound(s, id) && Sound(s, k) && k in s.items && s.items[k].robotId == robotId
    requires !s.booted && !Engaged(s, k) && k !in s.recoverable && k !in s.starting
    requires robotId in s.activeRobots ==> s.activeRobots[robotId] == k
    ensures Sound(Reclaim(s, k, robotId), id)
  {
  }

  lemma ReregisterKeepsSound(s: State, k: string, robotId: string, id: string)
    requires Sound(s, id) && Sound(s, k) && k in s.recovering && k in s.items && s.items[k].robotId == robotId
    ensures Sound(Reregister(s, k, robotId), id)
  {
  }

  lemma RegisterKeepsSound(s: State, k: string, id: string)
    requires Sound(s, id) && Sound(s, k) && k in s.starting && s.starting[k].Recorded?
    ensures Sound(SetPhase(s.(active := s.active[k := false]), k, Registered(s.starting[k].robotId)), id)
    ensures k !in s.active
  {
  }

  lemma StartedKeepsSound(s: State, k: string, id: string)
    requires Sound(s, id) && Sound(s, k) && k in s.starting
    requires s.starting[k].Registered? || s.starting[k].Recovered?
    ensures Sound(Started(s, k), id)
  {
  }

  lemma AbortingKeepsSound(s: State, k: string, robotId: string, id: string)
    requires Sound(s, id) && Sound(s, k) && k in s.starting && s.booted
    ensures Sound(SetPhase(Deregister(s, k), k, Aborting(robotId)), id)
  {
  }

  lemma ReleaseKeepsSound(s: State, k: string, robotId: string, id: string)
    requires Sound(s, id) && Sound(s, k) && k in s.starting && s.starting[k].Aborting?
    ensures Sound(ReleaseRobot(s, robotId, k).(starting := s.starting - {k}), id)
  {
    var t := ReleaseRobot(s, robotId, k).(starting := s.starting - {k});
    assert id != k ==> forall r :: Holds(s, id, r) ==> Holds(t, id, r);
    assert OwnsLock(t, id) == OwnsLock(s, id);
    hide OwnsLock, ReleaseRobot;
  }

  lemma ClaimKeepsSound(s: State, k: string, robotId: string, id: string)
    requires StartEnabled(s, Claim(k, robotId)) && Sound(s, id) && Sound(s, k)
    ensures Sound(ApplyStart(s, Claim(k, robotId)), id)
  {
  }

  lemma RecordKeepsSound(s: State, e: Skill, saves: bool, id: string)
    requires StartEnabled(s, Record(e, saves)) && Sound(s, id) && Sound(s, e.id)
    ensures Sound(ApplyStart(s, Record(e, saves)), id)
  {
    var phase := if saves then Recorded(e.robotId) else Aborting(e.robotId);
    var items := if saves then s.items[e.id := e.(status := Starting)] else s.items;
    assert ApplyStart(s, Record(e, saves)) == SetPhase(s.(items := items), e.id, phase);
    hide ApplyStart, StartEnabled;
  }

  lemma TakeLockKeepsSound(s: State, k: string, action: string, id: string)
    requires HandlerEnabled(s, PhysicalStart(k, action)) && Sound(s, id) && Sound(s, k)
    ensures Sound(TakeLock(s, k, action), id)
  {
  }

  lemma DecideKeepsSound(s: State, e: Skill, verdict: Status, saves: bool, id: string)
    requires FinishEnabled(s, FinishDecide(e, verdict, saves)) && Sound(s, id) && Sound(s, e.id)
    ensures Sound(Decide(s, e, verdict, saves), id)
  {
    hide Sound, Write;
    HolderKeepsSound(s, e.id, None, id);
    WriteKeepsSound(SetHolder(s, e.id, None), e, Interrupted, saves, id);
    if !OwnsLock(s, e.id) {
      HolderKeepsSound(s, e.id, Some(Finishing(verdict, false)), id);
    }
  }

  lemma StopWriteKeepsSound(s: State, e: Skill, status: Status, saves: bool, holder: Option<Holder>, id: string)
    requires Snapshot(s, e) && e.id in s.stopMu && Sound(s, id) && Sound(s, e.id)
    ensures Sound(SetHolder(Write(s, e, status, saves), e.id, holder), id)
  {
    hide Sound, Write;
    WriteKeepsSound(s, e, status, saves, id);
    WriteKeepsSound(s, e, status, saves, e.id);
    HolderKeepsSound(Write(s, e, status, saves), e.id, holder, id);
  }

  lemma WriteThenMove(s: State, e: Skill, status: Status, saves: bool, id: string)
    requires Snapshot(s, e) && Sound(s, id) && Sound(s, e.id)
    ensures var t := Write(s, e, status, saves);
      Sound(t, id) && Sound(t, e.id) && Snapshot(t, e) && t == s.(items := t.items)
  {
    WriteKeepsSound(s, e, status, saves, id);
    WriteKeepsSound(s, e, status, saves, e.id);
  }

  // Each step is a chain of such moves.

  lemma RecoverClaimKeepsSound(s: State, e: Skill, usable: bool, saves: bool, id: string)
    requires RecoverEnabled(s, RecoverClaim(e, usable, saves)) && Sound(s, id) && Sound(s, e.id)
    ensures Sound(ApplyRecover(s, RecoverClaim(e, usable, saves)), id)
  {
    var t := Unlist(s, e.id);
    UnlistKeepsSound(s, e.id, id);
    UnlistKeepsSound(s, e.id, e.id);
    assert !Engaged(t, e.id) && e.id !in t.starting;
    hide Sound, Write;
    WriteKeepsSound(t, e, Interrupted, saves, id);
    if usable && !(e.robotId in s.activeRobots && s.activeRobots[e.robotId] != e.id) {
      ReclaimKeepsSound(t, e.id, e.robotId, id);
    }
  }

  lemma RecoverKeepsSound(s: State, step: RecoverStep, id: string)
    requires Inv(s) && RecoverEnabled(s, step)
    ensures Sound(ApplyRecover(s, step), id)
  {
    assert Sound(s, id);
    if step.Booted? {
      return;
    }
    assert Sound(s, step.e.id);
    hide Inv, Sound, Write;
    match step
    case Booted =>
    case RecoverClaim(e, usable, saves) => RecoverClaimKeepsSound(s, e, usable, saves, id);
    case RecoverWorker(e, up, saves) =>
      if up {
        ReregisterKeepsSound(s, e.id, e.robotId, id);
      } else {
        UnrecoverKeepsSound(s, e.id, id);
        WriteKeepsSound(s.(recovering := s.recovering - {e.id}), e, Interrupted, saves, id);
      }
    case RecoverMark(e, saves) =>
      WriteThenMove(s, e, Running, saves, id);
      StartedKeepsSound(Write(s, e, Running, saves), e.id, id);
  }

  lemma LaunchKeepsSound(s: State, step: StartStep, id: string)
    requires Inv(s) && StartEnabled(s, step) && (step.LaunchWorker? || step.MarkRunning? || step.AbortStart?)
    ensures Sound(ApplyStart(s, step), id)
  {
    var k := if step.AbortStart? then step.id else step.e.id;
    assert Sound(s, id) && Sound(s, k);
    assert s.booted;
    hide Inv, Sound, Write;
    match step
    case LaunchWorker(e, up, saves) =>
      if up {
        RegisterKeepsSound(s, e.id, id);
      } else {
        var t := Write(s, e, Failed, saves);
        WriteThenMove(s, e, Failed, saves, id);
        RegisterKeepsSound(s, e.id, e.id);
        AbortingKeepsSound(t, e.id, e.robotId, id);
        assert Deregister(t, e.id) == t;
      }
    case MarkRunning(e, saves) =>
      if saves {
        WriteThenMove(s, e, Running, true, id);
        StartedKeepsSound(Write(s, e, Running, true), e.id, id);
      } else {
        AbortingKeepsSound(s, e.id, e.robotId, id);
      }
    case AbortStart(_) =>
      ReleaseKeepsSound(s, k, s.starting[k].robotId, id);
  }

  lemma StartKeepsSound(s: State, step: StartStep, id: string)
    requires Inv(s) && StartEnabled(s, step)
    ensures Sound(ApplyStart(s, step), id)
  {
    assert Sound(s, id);
    match step
    case Claim(k, robotId) => ClaimKeepsSound(s, k, robotId, id);
    case Record(e, saves) => RecordKeepsSound(s, e, saves, id);
    case _ => LaunchKeepsSound(s, step, id);
  }

  lemma HandlerKeepsSound(s: State, step: HandlerStep, id: string)
    requires Inv(s) && HandlerEnabled(s, step)
    ensures Sound(ApplyHandler(s, step), id)
  {
    assert Sound(s, id);
    match step
    case HandlerSave(e) => WriteKeepsSound(s, e, e.status, true, id);
    case Interrupt(e, saves) => WriteKeepsSound(s, e, Interrupted, saves, id);
    case PhysicalStart(k, action) => TakeLockKeepsSound(s, k, action, id);
    case _ =>
  }

  lemma FinishKeepsSound(s: State, step: FinishStep, id: string)
    requires Inv(s) && FinishEnabled(s, step)
    ensures Sound(ApplyFinish(s, step), id)
  {
    var k := if step.FinishDecide? || step.FinishSave? then step.e.id else step.id;
    assert Sound(s, id) && Sound(s, k);
    hide Inv, Sound, Write, Cleanup, Decide;
    match step
    case ReadForFinish(_) => HolderKeepsSound(s, k, Some(FinishRead), id);
    case FinishDecide(e, verdict, saves) => DecideKeepsSound(s, e, verdict, saves, id);
    case FinishSave(e, saves) =>
      var verdict, since := s.stopMu[k].verdict, s.stopMu[k].startedSince;
      WriteKeepsSound(s, e, verdict, saves, id);
      WriteKeepsSound(s, e, verdict, saves, k);
      HolderKeepsSound(Write(s, e, verdict, saves), k, Some(Finished(since)), id);
    case FinishCleanup(_) =>
      CleanupKeepsSound(s, k, id);
      CleanupKeepsSound(s, k, k);
      HolderKeepsSound(Cleanup(s, k), k, None, id);
  }

  lemma FailKeepsSound(s: State, step: FailStep, id: string)
    requires Inv(s) && FailEnabled(s, step)
    ensures Sound(ApplyFail(s, step), id)
  {
    var k := if step.FailSave? then step.e.id else step.id;
    assert Sound(s, id) && Sound(s, k);
    hide Inv, Sound, Write, Cleanup;
    match step
    case ChooseFail(_) => FailingKeepsSound(s, k, Some(FailChosen(OwnsLock(s, k), false)), id);
    case ReadForFail(_) =>
      FailingKeepsSound(s, k, None, id);
      FailingKeepsSound(s, k, Some(FailRead(s.failing[k].held, s.failing[k].startedSince)), id);
    case FailSave(e, saves) =>
      WriteKeepsSound(s, e, Failed, saves, id);
      FailingKeepsSound(Write(s, e, Failed, saves), k,
        if saves then Some(FailWritten(s.failing[k].held, s.failing[k].startedSince)) else None, id);
    case FailCleanup(_) =>
      CleanupKeepsSound(s, k, id);
      FailingKeepsSound(Cleanup(s, k), k, None, id);
  }

  lemma StopKeepsSound(s: State, step: StopStep, id: string)
    requires Inv(s) && StopEnabled(s, step)
    ensures Sound(ApplyStop(s, step), id)
  {
    var k := if step.StopFetch? || step.StopEnter? || step.StopCleanup? then step.id else step.e.id;
    assert Sound(s, id) && Sound(s, k);
    if step.StopFetch? {
      return;
    }
    hide Inv, Sound, Write, Cleanup;
    match step
    case StopUnknown(e, saves) => WriteKeepsSound(s, e, Interrupted, saves, id);
    case StopFetch(_) =>
    case StopEnter(_) => HolderKeepsSound(s, k, Some(StopEntered), id);
    case StopMark(e, saves) => StopWriteKeepsSound(s, e, Stopping, saves, Some(StopMarked), id);
    case StopGiveUp(e, saves) => StopWriteKeepsSound(s, e, Interrupted, saves, None, id);
    case StopConclude(e, reply, saves) =>
      if SafelyStopped(s, e.id, reply) {
        var safe := StopSafe(OwnsLock(s, e.id), false);
        StopWriteKeepsSound(s, e.(stopOutcome := Some(true)), Stopped, saves, Some(safe), id);
      } else {
        var outcome := Evidence(e, reply);
        StopWriteKeepsSound(s, e.(stopOutcome := outcome), Interrupted, saves, None, id);
      }
    case StopCleanup(_) =>
      CleanupKeepsSound(s, k, id);
      CleanupKeepsSound(s, k, k);
      HolderKeepsSound(Cleanup(s, k), k, None, id);
  }

  /** No step of anybody breaks the invariant of any execution. */
  lemma StepKeepsInv(s: State, step: Step)
    requires Inv(s) && Enabled(s, step)
    ensures Inv(Apply(s, step))
  {
    forall id ensures Sound(Apply(s, step), id) {
      match step
      case OfStart(x) => StartKeepsSound(s, x, id);
      case OfRecover(x) => RecoverKeepsSound(s, x, id);
      case OfHandler(x) => HandlerKeepsSound(s, x, id);
      case OfFinish(x) => FinishKeepsSound(s, x, id);
      case OfFail(x) => FailKeepsSound(s, x, id);
      case OfStop(x) => StopKeepsSound(s, x, id);
    }
  }

  // ---------- whole histories ----------

  predicate History(s: State, steps: seq<Step>)
    decreases |steps|
  {
    steps == [] || (Enabled(s, steps[0]) && History(Apply(s, steps[0]), steps[1..]))
  }

  function Run(s: State, steps: seq<Step>): State
    requires History(s, steps)
    decreases |steps|
  {
    if steps == [] then s else Run(Apply(s, steps[0]), steps[1..])
  }

  predicate Leads(s: State, x: Step, t: State) {
    Enabled(s, x) && Apply(s, x) == t
  }

  /** The history leads from one state to the other. */
  predicate Reaches(s: State, steps: seq<Step>, t: State) {
    History(s, steps) && Run(s, steps) == t
  }

  lemma ReachesItself(s: State)
    ensures Reaches(s, [], s)
  {
  }

  lemma ReachesFrom(s: State, x: Step, t: State, rest: seq<Step>, u: State)
    requires Leads(s, x, t) && Reaches(t, rest, u)
    ensures Reaches(s, [x] + rest, u)
  {
    assert ([x] + rest)[1..] == rest;
    hide Apply, Enabled;
  }

  /** A Pilot that has just come up over a store: nothing is registered, and the executions listed
      for recovery are those whose stored status is open. */
  function Boot(items: map<string, Skill>, locks: map<string, string>, owners: map<string, string>): State {
    State(items, map[], map[], locks, owners, set id | id in items && !Terminal(items[id].status), {}, false,
          map[], {}, map[], {}, map[])
  }

  lemma {:induction false} RunKeepsInv(s: State, steps: seq<Step>)
    requires Inv(s) && History(s, steps)
    ensures Inv(Run(s, steps))
    decreases |steps|
  {
    if steps != [] {
      StepKeepsInv(s, steps[0]);
      RunKeepsInv(Apply(s, steps[0]), steps[1..]);
    }
  }

  /** Registered, and not known to be safely over. */
  predicate Open(s: State, id: string) {
    id in s.active && id in s.items && NeedsClaim(s.items[id].status)
  }

  /** In every history, an open execution is the one its robot's claim names, so no robot has two. */
  lemma OneOpenExecutionPerRobot(items: map<string, Skill>, locks: map<string, string>, owners: map<string, string>,
                                 steps: seq<Step>, a: string, b: string)
    requires forall id <- items :: items[id].id == id
    requires History(Boot(items, locks, owners), steps)
    ensures var s := Run(Boot(items, locks, owners), steps);
      && (Open(s, a) ==> Holds(s, a, s.items[a].robotId))
      && (Open(s, a) && Open(s, b) && s.items[a].robotId == s.items[b].robotId ==> a == b)
  {
    var s := Run(Boot(items, locks, owners), steps);
    forall id ensures Sound(Boot(items, locks, owners), id) {
    }
    RunKeepsInv(Boot(items, locks, owners), steps);
    assert Sound(s, a) && Sound(s, b);
  }

  // ---------- who may let go of a robot ----------

  predicate Drops(s: State, t: State, id: string, robotId: string) {
    Holds(s, id, robotId) && !Holds(t, id, robotId)
  }

  lemma ReleaseDropsOwn(s: State, k: string, robot: string, id: string, robotId: string)
    requires Drops(s, ReleaseRobot(s, robot, k), id, robotId)
    ensures id == k
  {
  }

  /** Of a start's steps, only its abort gives the claim up, and then it is not registered. */
  lemma StartDropsClaim(s: State, step: StartStep, id: string, robotId: string)
    requires StartEnabled(s, step) && PhaseHolds(s, id) && Drops(s, ApplyStart(s, step), id, robotId)
    ensures step == AbortStart(id) && id !in s.active
  {
    hide Write;
  }

  /** A write leaves the claims alone. */
  lemma WriteKeepsClaims(s: State, t: State, e: Skill, status: Status, saves: bool)
    requires t.activeRobots == s.activeRobots
    ensures Write(t, e, status, saves).activeRobots == s.activeRobots
  {
    hide Write;
  }

  lemma RecoveryKeepsClaims(s: State, step: RecoverStep, id: string, robotId: string)
    requires RecoverEnabled(s, step) && Holds(s, id, robotId)
    ensures Holds(ApplyRecover(s, step), id, robotId)
  {
    match step {
      case RecoverClaim(e, _, saves) => WriteKeepsClaims(s, Unlist(s, e.id), e, Interrupted, saves);
      case RecoverWorker(e, _, saves) =>
        WriteKeepsClaims(s, s.(recovering := s.recovering - {e.id}), e, Interrupted, saves);
      case RecoverMark(e, saves) => WriteKeepsClaims(s, s, e, Running, saves);
      case Booted =>
    }
    hide Write, RecoverEnabled;
  }

  lemma HandlerKeepsClaims(s: State, step: HandlerStep, id: string, robotId: string)
    requires HandlerEnabled(s, step) && Holds(s, id, robotId)
    ensures Holds(ApplyHandler(s, step), id, robotId)
  {
    hide Write;
  }

  /** A worker that finished gives the claim up after its verdict is written. */
  lemma FinishDropsClaim(s: State, step: FinishStep, id: string, robotId: string)
    requires FinishEnabled(s, step) && Drops(s, ApplyFinish(s, step), id, robotId)
    ensures step == FinishCleanup(id) && s.stopMu[id].Finished?
  {
    hide Write, OwnsLock, Terminal, SetHolder;
  }

  /** A worker that failed early gives the claim up after its failure is written. */
  lemma FailDropsClaim(s: State, step: FailStep, id: string, robotId: string)
    requires FailEnabled(s, step) && Drops(s, ApplyFail(s, step), id, robotId)
    ensures step == FailCleanup(id) && s.failing[id].FailWritten?
  {
    hide Write, Terminal, OwnsLock;
  }

  /** A stop gives the claim up only once it is safe. */
  lemma StopDropsClaim(s: State, step: StopStep, id: string, robotId: string)
    requires StopEnabled(s, step) && Drops(s, ApplyStop(s, step), id, robotId)
    ensures step == StopCleanup(id) && s.stopMu[id].StopSafe?
  {
    assert step.StopCleanup? && Drops(s, Cleanup(s, step.id), id, robotId) by {
      hide Write, Cleanup, Conclude, SetHolder;
    }
    ReleaseDropsOwn(s.(active := s.active - {step.id}), step.id, s.items[step.id].robotId, id, robotId);
  }

  predicate IsSafe(s: State, id: string) {
    id in s.stopMu && s.stopMu[id].StopSafe?
  }

  lemma HolderSafety(s: State, k: string, holder: Option<Holder>, id: string)
    ensures IsSafe(SetHolder(s, k, holder), id) <==>
            if k == id then holder.Some? && holder.value.StopSafe? else IsSafe(s, id)
  {
  }

  lemma WriteSafety(s: State, e: Skill, status: Status, saves: bool, id: string)
    ensures IsSafe(Write(s, e, status, saves), id) == IsSafe(s, id)
  {
    hide Write;
  }

  lemma ConcludeIsSafeOnEvidence(s: State, e: Skill, reply: Reply, saves: bool, id: string)
    requires e.id in s.items && !IsSafe(s, id)
    ensures IsSafe(Conclude(s, e, reply, saves), id) <==> e.id == id && SafelyStopped(s, id, reply)
  {
    hide Write, SetHolder, IsSafe, SafelyStopped, OwnsLock;
    var outcome := Evidence(e, reply);
    var stopped := Write(s, e.(stopOutcome := Some(true)), Stopped, saves);
    var unsure := Write(s, e.(stopOutcome := outcome), Interrupted, saves);
    if SafelyStopped(s, e.id, reply) {
      WriteSafety(s, e.(stopOutcome := Some(true)), Stopped, saves, id);
      HolderSafety(stopped, e.id, Some(StopSafe(OwnsLock(s, e.id), false)), id);
    } else {
      WriteSafety(s, e.(stopOutcome := outcome), Interrupted, saves, id);
      HolderSafety(unsure, e.id, None, id);
    }
  }

  lemma OtherStopStepsAreNotSafe(s: State, step: StopStep, id: string)
    requires StopEnabled(s, step) && !step.StopConclude? && !IsSafe(s, id)
    ensures !IsSafe(ApplyStop(s, step), id)
  {
    hide Write, Cleanup;
  }

  /** A stop is taken to be safe exactly on the worker's safe answer, or on stored safe evidence when
      its answer is lost. */
  lemma StopIsSafeOnlyOnEvidence(s: State, step: StopStep, id: string)
    requires StopEnabled(s, step) && !IsSafe(s, id)
    ensures IsSafe(ApplyStop(s, step), id) <==>
            step.StopConclude? && step.e.id == id && SafelyStopped(s, id, step.reply)
  {
    hide SafelyStopped, IsSafe, Conclude;
    if step.StopConclude? {
      ConcludeIsSafeOnEvidence(s, step.e, step.reply, step.saves, id);
    } else {
      OtherStopStepsAreNotSafe(s, step, id);
    }
  }

  lemma StartLeavesStops(s: State, step: StartStep)
    requires StartEnabled(s, step)
    ensures ApplyStart(s, step).stopMu == s.stopMu
  {
    match step
    case Claim(_, _) =>
    case Record(e, saves) => hide Write;
    case LaunchWorker(e, _, saves) => hide Write;
    case MarkRunning(e, _) => hide Write;
    case AbortStart(_) => hide ReleaseRobot;
  }

  lemma RecoveryLeavesStops(s: State, step: RecoverStep)
    requires RecoverEnabled(s, step)
    ensures ApplyRecover(s, step).stopMu == s.stopMu
  {
    hide Write, RecoverEnabled;
    match step
    case RecoverClaim(e, _, saves) => assert Write(Unlist(s, e.id), e, Interrupted, saves).stopMu == s.stopMu;
    case RecoverWorker(_, _, _) =>
    case RecoverMark(e, saves) => assert Write(s, e, Running, saves).stopMu == s.stopMu;
    case Booted =>
  }

  lemma DecisionMakesNoStopSafe(s: State, e: Skill, verdict: Status, saves: bool, id: string)
    requires FinishEnabled(s, FinishDecide(e, verdict, saves)) && !IsSafe(s, id)
    ensures !IsSafe(Decide(s, e, verdict, saves), id)
  {
    var free := SetHolder(s, e.id, None);
    assert !IsSafe(free, id) && !IsSafe(SetHolder(s, e.id, Some(Finishing(verdict, false))), id);
    assert !IsSafe(Write(free, e, Interrupted, saves), id);
    hide Write, OwnsLock, SetHolder, IsSafe;
  }

  lemma FinishMakesNoStopSafe(s: State, step: FinishStep, id: string)
    requires FinishEnabled(s, step) && !IsSafe(s, id)
    ensures !IsSafe(ApplyFinish(s, step), id)
  {
    hide Write, Cleanup, Decide, Terminal;
    if step.FinishDecide? {
      DecisionMakesNoStopSafe(s, step.e, step.verdict, step.saves, id);
    }
  }

  lemma FailLeavesStops(s: State, step: FailStep)
    requires FailEnabled(s, step)
    ensures ApplyFail(s, step).stopMu == s.stopMu
  {
    hide Write, Cleanup, Terminal;
  }

  lemma HandlerMakesNoStopSafe(s: State, step: HandlerStep, id: string)
    requires HandlerEnabled(s, step) && !IsSafe(s, id)
    ensures !IsSafe(ApplyHandler(s, step), id)
  {
    hide Write, SetOutcome;
  }

  /** Nothing but a stop's own conclusion makes it safe. */
  lemma NobodyElseMakesAStopSafe(s: State, step: Step, id: string)
    requires Enabled(s, step) && !step.OfStop? && !IsSafe(s, id)
    ensures !IsSafe(Apply(s, step), id)
  {
    hide ApplyStart, ApplyRecover, ApplyFinish, ApplyFail, ApplyHandler;
    match step
    case OfStart(x) => StartLeavesStops(s, x);
    case OfRecover(x) => RecoveryLeavesStops(s, x);
    case OfHandler(x) => HandlerMakesNoStopSafe(s, x, id);
    case OfFinish(x) => FinishMakesNoStopSafe(s, x, id);
    case OfFail(x) => FailLeavesStops(s, x);
  }

  /** A safe stop is stored as stopped exactly when the write works and the record is not already
      terminal in another way: an interrupted execution stays stored as interrupted. */
  lemma SafeStopIsStored(s: State, e: Skill, reply: Reply, saves: bool)
    requires StopEnabled(s, StopConclude(e, reply, saves)) && SafelyStopped(s, e.id, reply)
    ensures ApplyStop(s, StopConclude(e, reply, saves)).items[e.id].status == Stopped <==>
            s.items[e.id].status == Stopped || (saves && !Terminal(s.items[e.id].status))
  {
  }

  /** Admission: whenever a claim can be given, no registered execution of the robot is open, in any
      history. */
  lemma AdmissionIsExclusive(items: map<string, Skill>, locks: map<string, string>, owners: map<string, string>,
                             steps: seq<Step>, id: string, robotId: string, other: string)
    requires forall x <- items :: items[x].id == x
    requires History(Boot(items, locks, owners), steps)
    requires StartEnabled(Run(Boot(items, locks, owners), steps), Claim(id, robotId))
    ensures var s := Run(Boot(items, locks, owners), steps);
      !(Open(s, other) && s.items[other].robotId == robotId)
  {
    OneOpenExecutionPerRobot(items, locks, owners, steps, other, other);
  }
}
