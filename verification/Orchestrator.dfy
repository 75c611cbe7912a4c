/** The Robot Runtime orchestrator: every operation runs under its robot's lock and is one step on the
    stored instances, the port leases and the launcher, with every call it makes allowed to fail. */
module Orchestrator {
  import opened Common

  datatype Status = Starting | Ready | Degraded | Stopping | Stopped | Failed | Interrupted

  predicate Active(status: Status) {
    !status.Stopped? && !status.Failed?
  }

  predicate Serving(status: Status) {
    status.Ready? || status.Degraded?
  }

  datatype Instance = Instance(
    id: string, robotId: string, scene: string, backend: string,
    status: Status, port: nat, endpoint: string, revision: nat)

  /** running holds the instances the launcher was told to start and has not confirmed stopped since;
      first to last is the configured port range. */
  datatype State = State(
    first: nat, last: nat, items: map<string, Instance>, leases: map<string, nat>, running: set<string>)

  datatype Request = Request(id: string, pilot: string, robotId: string, scene: string, backend: string)

  datatype Error =
    | InvalidRequest | AlreadyInUse | StoreFailed | PublishFailed | BundleMissing | DirectoryFailed
    | PortUnavailable | LaunchFailed | NoEndpoint | NotFound | StopUnconfirmed | ReleaseFailed
    | NotServing | NotReclaimable | ReclaimUnsupported

  datatype Outcome = Outcome(instance: Option<Instance>, error: Option<Error>)

  /** A save followed by a publication; the second is tried only after the first worked. */
  datatype Reach = Reach(saved: bool, published: bool)

  datatype Launch = Refused | Launched(endpoint: string)

  /** What the environment does during a failed start, a start, a stop and a reclaim. */
  datatype FailEnv = FailEnv(confirmed: bool, released: bool, save: Reach)

  datatype StartEnv = StartEnv(
    lookup: bool, newId: string, bundle: bool, directory: bool, saveNew: Reach, acquire: bool,
    savePort: bool, launch: Launch, saveReady: Reach, saveInterrupted: bool, fail: FailEnv)

  datatype StopEnv = StopEnv(loads: bool, saveStopping: Reach, confirmed: bool, released: bool, save: Reach)

  datatype ReclaimEnv = ReclaimEnv(loads: bool, supported: bool, confirmed: bool, released: bool, save: Reach)

  predicate Blank(text: string) {
    forall c <- text :: c in {' ', '\t', '\n', '\r'}
  }

  predicate Simulated(backend: string) {
    backend == "mujoco" || backend == "isaac"
  }

  predicate InUse(s: State, robotId: string) {
    exists id <- s.items :: s.items[id].robotId == robotId && Active(s.items[id].status)
  }

  /** The lowest port from candidate on that nobody leases: none exactly if all of them are leased. */
  function FreePort(leases: map<string, nat>, candidate: nat, last: nat): (port: Option<nat>)
    ensures port.Some? ==> candidate <= port.value <= last && port.value !in leases.Values
    ensures port.Some? ==> forall p :: candidate <= p < port.value ==> p in leases.Values
    ensures port.None? <==> forall p :: candidate <= p <= last ==> p in leases.Values
    decreases last + 1 - candidate
  {
    if candidate > last then None
    else if candidate in leases.Values then FreePort(leases, candidate + 1, last)
    else Some(candidate)
  }

  function Acquire(s: State, id: string): Option<nat> {
    if id in s.leases then Some(s.leases[id]) else FreePort(s.leases, s.first, s.last)
  }

  function Save(s: State, i: Instance, works: bool): (t: State)
    ensures t == s.(items := t.items)
  {
    if works then s.(items := s.items[i.id := i]) else s
  }

  function SaveAndPublish(s: State, i: Instance, reach: Reach): (State, Option<Error>) {
    (Save(s, i, reach.saved),
     if !reach.saved then Some(StoreFailed) else if !reach.published then Some(PublishFailed) else None)
  }

  function Confirm(s: State, id: string, confirmed: bool): State {
    if confirmed then s.(running := s.running - {id}) else s
  }

  function Release(s: State, id: string, released: bool): State {
    if released then s.(leases := s.leases - {id}) else s
  }

  function Bump(i: Instance, status: Status): Instance {
    i.(status := status, revision := i.revision + 1)
  }

  // ---------- the operations ----------

  function FailStart(s: State, i: Instance, cause: Error, launched: bool, env: FailEnv): (State, Outcome) {
    var confirmed := launched ==> env.confirmed;
    var t := Confirm(s, i.id, launched && env.confirmed);
    var u := Release(t, i.id, confirmed && i.port > 0 && env.released);
    var over := confirmed && (i.port > 0 ==> env.released);
    var j := Bump(i, if over then Failed else Interrupted);
    (Save(u, j, env.save.saved), Outcome(Some(j), Some(cause)))
  }

  function InterruptStop(s: State, i: Instance, cause: Error, save: Reach): (State, Outcome) {
    var j := Bump(i, Interrupted);
    (Save(s, j, save.saved), Outcome(Some(j), Some(cause)))
  }

  function ChosenId(req: Request, env: StartEnv): string {
    if req.id == "" then env.newId else req.id
  }

  function NewInstance(req: Request, id: string, status: Status): Instance {
    Instance(id, req.robotId, req.scene, req.backend, status, 0, "", 1)
  }

  /** Nothing is written: the request is malformed, the lookup failed or the robot is taken. */
  predicate Declined(s: State, req: Request, env: StartEnv) {
    Blank(req.pilot) || Blank(req.robotId) || !env.lookup || InUse(s, req.robotId)
  }

  function Start(s: State, req: Request, env: StartEnv): (State, Outcome) {
    if Blank(req.pilot) || Blank(req.robotId) then (s, Outcome(None, Some(InvalidRequest)))
    else if !env.lookup then (s, Outcome(None, Some(StoreFailed)))
    else if InUse(s, req.robotId) then (s, Outcome(None, Some(AlreadyInUse)))
    else
      var id := ChosenId(req, env);
      if !env.bundle then
        var i := NewInstance(req, id, Failed);
        (Save(s, i, env.saveNew.saved), Outcome(Some(i), Some(BundleMissing)))
      else if !env.directory then (s, Outcome(None, Some(DirectoryFailed)))
      else
        var i := NewInstance(req, id, Starting);
        var (t, error) := SaveAndPublish(s, i, env.saveNew);
        if error.Some? then (t, Outcome(None, error)) else Equip(t, i, env)
  }

  /** The instance is stored as starting: lease a port and store it. */
  function Equip(s: State, i: Instance, env: StartEnv): (State, Outcome) {
    var port := if env.acquire then Acquire(s, i.id) else None;
    if port.None? then FailStart(s, i, PortUnavailable, false, env.fail)
    else
      var t := s.(leases := s.leases[i.id := port.value]);
      var j := Bump(i.(port := port.value), Starting);
      if !env.savePort then FailStart(t, j, StoreFailed, false, env.fail)
      else LaunchProcess(Save(t, j, true), j, env)
  }

  /** The leased port is stored: only now is the launcher asked to start anything. */
  function LaunchProcess(s: State, i: Instance, env: StartEnv): (State, Outcome) {
    var t := s.(running := s.running + {i.id});
    if env.launch.Refused? then FailStart(t, i, LaunchFailed, true, env.fail)
    else if Blank(env.launch.endpoint) then FailStart(t, i, NoEndpoint, true, env.fail)
    else
      var j := Bump(i.(endpoint := env.launch.endpoint), Ready);
      var (u, error) := SaveAndPublish(t, j, env.saveReady);
      if error.Some? then
        var k := Bump(j, Interrupted);
        (Save(u, k, env.saveInterrupted), Outcome(Some(k), error))
      else (u, Outcome(Some(j), None))
  }

  /** A confirmed stop is followed by the release of the port and the stored end. */
  function Conclude(s: State, i: Instance, confirmed: bool, released: bool, save: Reach): (State, Outcome) {
    var t := Confirm(s, i.id, confirmed);
    if !confirmed then InterruptStop(t, i, StopUnconfirmed, save)
    else if !released then InterruptStop(t, i, ReleaseFailed, save)
    else
      var j := Bump(i, Stopped);
      var (u, error) := SaveAndPublish(Release(t, i.id, true), j, save);
      (u, Outcome(Some(j), error))
  }

  function Stop(s: State, id: string, env: StopEnv): (State, Outcome) {
    if !env.loads || id !in s.items then (s, Outcome(None, Some(NotFound)))
    else if !Active(s.items[id].status) then (s, Outcome(Some(s.items[id]), None))
    else
      var i := Bump(s.items[id], Stopping);
      var (t, error) := SaveAndPublish(s, i, env.saveStopping);
      if error.Some? then (t, Outcome(Some(i), error))
      else Conclude(t, i, env.confirmed, env.released, env.save)
  }

  function MarkDegraded(s: State, id: string, loads: bool, save: Reach): (State, Outcome) {
    if !loads || id !in s.items then (s, Outcome(None, Some(NotFound)))
    else if !Serving(s.items[id].status) then (s, Outcome(Some(s.items[id]), Some(NotServing)))
    else
      var i := Bump(s.items[id], Degraded);
      var (t, error) := SaveAndPublish(s, i, save);
      (t, Outcome(Some(i), error))
  }

  predicate Reclaimable(i: Instance, nextScene: string, held: bool) {
    i.status.Interrupted? && Simulated(i.backend) && !Blank(nextScene) && (i.scene == nextScene ==> held)
  }

  function Reclaim(s: State, id: string, nextScene: string, held: bool, env: ReclaimEnv): (State, Outcome) {
    if !env.loads || id !in s.items then (s, Outcome(None, Some(NotFound)))
    else if !Reclaimable(s.items[id], nextScene, held) then (s, Outcome(Some(s.items[id]), Some(NotReclaimable)))
    else if !env.supported then (s, Outcome(Some(s.items[id]), Some(ReclaimUnsupported)))
    else Conclude(s, s.items[id], env.confirmed, env.released, env.save)
  }

  datatype Step =
    | StartStep(req: Request, start: StartEnv)
    | StopStep(id: string, stop: StopEnv)
    | DegradeStep(id: string, loads: bool, save: Reach)
    | ReclaimStep(id: string, nextScene: string, held: bool, reclaim: ReclaimEnv)

  function Apply(s: State, step: Step): State {
    match step
    case StartStep(req, env) => Start(s, req, env).0
    case StopStep(id, env) => Stop(s, id, env).0
    case DegradeStep(id, loads, save) => MarkDegraded(s, id, loads, save).0
    case ReclaimStep(id, nextScene, held, env) => Reclaim(s, id, nextScene, held, env).0
  }

  function Subject(step: Step): string {
    match step
    case StartStep(req, env) => ChosenId(req, env)
    case StopStep(id, _) => id
    case DegradeStep(id, _, _) => id
    case ReclaimStep(id, _, _, _) => id
  }

  // ---------- the invariant ----------

  /** What holds of one instance: a serving one has its leased port and an endpoint, a closed one has
      no lease and nothing running, and what may be running keeps its lease. */
  predicate Consistent(s: State, id: string) {
    && (id in s.running ==> id in s.leases)
    && (id in s.leases ==> id in s.items)
    && (id in s.items ==>
          && s.items[id].id == id
          && (Serving(s.items[id].status) ==>
                id in s.leases && s.items[id].port == s.leases[id] && !Blank(s.items[id].endpoint))
          && (id in s.leases ==> Active(s.items[id].status)))
  }

  predicate OneActive(s: State) {
    forall a, b ::
      (a in s.items && b in s.items && Active(s.items[a].status) && Active(s.items[b].status)
       && s.items[a].robotId == s.items[b].robotId) ==> a == b
  }

  predicate PortsDistinct(s: State) {
    forall a, b :: a in s.leases && b in s.leases && s.leases[a] == s.leases[b] ==> a == b
  }

  ghost predicate Inv(s: State) {
    && 0 < s.first
    && (forall id :: Consistent(s, id))
    && OneActive(s)
    && PortsDistinct(s)
  }

  /** Only one instance's record, lease and process change. */
  ghost predicate OnlyTouches(s: State, t: State, id: string) {
    && s.first == t.first && s.last == t.last
    && (forall x :: x != id ==> (x in s.items <==> x in t.items) && (x in s.leases <==> x in t.leases)
                                && (x in s.running <==> x in t.running))
    && (forall x :: x != id && x in s.items ==> s.items[x] == t.items[x])
    && (forall x :: x != id && x in s.leases ==> s.leases[x] == t.leases[x])
  }

  /** An active record is new on its robot only if that robot had none. */
  predicate RobotFree(s: State, t: State, id: string) {
    id in t.items && Active(t.items[id].status) ==>
      || (id in s.items && Active(s.items[id].status) && s.items[id].robotId == t.items[id].robotId)
      || !InUse(s, t.items[id].robotId)
  }

  predicate LeaseFresh(s: State, t: State, id: string) {
    id in t.leases ==> (id in s.leases && s.leases[id] == t.leases[id]) || t.leases[id] !in s.leases.Values
  }

  lemma LocalChangeKeepsInv(s: State, t: State, id: string)
    requires Inv(s) && OnlyTouches(s, t, id)
    requires Consistent(t, id) && RobotFree(s, t, id) && LeaseFresh(s, t, id)
    ensures Inv(t)
  {
    forall x ensures Consistent(t, x) {
      assert Consistent(s, x);
    }
    forall a, b | a in t.leases && b in t.leases && t.leases[a] == t.leases[b] ensures a == b {
      assert a != id ==> s.leases[a] in s.leases.Values;
      assert b != id ==> s.leases[b] in s.leases.Values;
    }
  }

  /** A start can only be trusted with an ID whose record, if any, has neither lease nor process. */
  predicate IdIsFree(s: State, id: string) {
    id !in s.leases && id !in s.running
  }

  ghost predicate Local(s: State, t: State, id: string) {
    OnlyTouches(s, t, id) && Consistent(t, id) && RobotFree(s, t, id) && LeaseFresh(s, t, id)
  }

  /** Storing a new active record over an active one of the same robot. */
  lemma RecordIsLocal(s: State, t: State, i: Instance, works: bool)
    requires Local(s, t, i.id) && i.id in t.items && Active(t.items[i.id].status)
    requires t.items[i.id].robotId == i.robotId && Active(i.status)
    requires Serving(i.status) ==> i.id in t.leases && t.leases[i.id] == i.port && !Blank(i.endpoint)
    ensures Local(s, Save(t, i, works), i.id)
  {
  }

  lemma FailStartIsLocal(s: State, t: State, i: Instance, cause: Error, launched: bool, env: FailEnv)
    requires Local(s, t, i.id)
    requires i.id in t.items && t.items[i.id].status.Starting? && t.items[i.id].robotId == i.robotId
    requires i.id in t.running <==> launched
    requires i.id in t.leases <==> i.port > 0
    ensures Local(s, FailStart(t, i, cause, launched, env).0, i.id)
  {
  }

  lemma LaunchIsLocal(s: State, t: State, i: Instance, env: StartEnv)
    requires Local(s, t, i.id)
    requires i.id in t.items && t.items[i.id] == i && i.status.Starting? && i.port > 0
    requires i.id in t.leases && t.leases[i.id] == i.port && i.id !in t.running
    ensures Local(s, LaunchProcess(t, i, env).0, i.id)
  {
    var u := t.(running := t.running + {i.id});
    assert Local(s, u, i.id);
    hide Local, FailStart;
    if env.launch.Refused? || Blank(env.launch.endpoint) {
      FailStartIsLocal(s, u, i, if env.launch.Refused? then LaunchFailed else NoEndpoint, true, env.fail);
    } else {
      var j := Bump(i.(endpoint := env.launch.endpoint), Ready);
      RecordIsLocal(s, u, j, env.saveReady.saved);
      RecordIsLocal(s, Save(u, j, env.saveReady.saved), Bump(j, Interrupted), env.saveInterrupted);
    }
  }

  lemma EquipIsLocal(s: State, t: State, i: Instance, env: StartEnv)
    requires Inv(s) && t == s.(items := s.items[i.id := i]) && IdIsFree(s, i.id)
    requires i.status.Starting? && i.port == 0 && !InUse(s, i.robotId)
    ensures Local(s, Equip(t, i, env).0, i.id)
  {
    hide FailStart, LaunchProcess;
    var port := if env.acquire then Acquire(t, i.id) else None;
    assert Local(s, t, i.id);
    if port.None? {
      FailStartIsLocal(s, t, i, PortUnavailable, false, env.fail);
    } else {
      var u := t.(leases := t.leases[i.id := port.value]);
      var j := Bump(i.(port := port.value), Starting);
      assert Local(s, u, i.id);
      hide Local, Inv, Acquire;
      RecordIsLocal(s, u, j, true);
      if env.savePort {
        LaunchIsLocal(s, Save(u, j, true), j, env);
      } else {
        FailStartIsLocal(s, u, j, StoreFailed, false, env.fail);
      }
    }
  }

  /** A start under a free ID keeps the invariant whatever fails. */
  lemma StartKeepsInv(s: State, req: Request, env: StartEnv)
    requires Inv(s) && (Declined(s, req, env) || IdIsFree(s, ChosenId(req, env)))
    ensures Inv(Start(s, req, env).0)
  {
    if !Declined(s, req, env) {
      var id := ChosenId(req, env);
      var i := NewInstance(req, id, Starting);
      var t := s.(items := s.items[id := i]);
      EquipIsLocal(s, t, i, env);
      hide Equip;
      LocalChangeKeepsInv(s, Start(s, req, env).0, id);
    }
  }

  lemma ConcludeKeepsInv(s: State, i: Instance, confirmed: bool, released: bool, save: Reach)
    requires Inv(s) && i.id in s.items && s.items[i.id].robotId == i.robotId && Active(s.items[i.id].status)
    requires !Serving(s.items[i.id].status)
    ensures Inv(Conclude(s, i, confirmed, released, save).0)
  {
    assert Consistent(s, i.id);
    LocalChangeKeepsInv(s, Conclude(s, i, confirmed, released, save).0, i.id);
  }

  lemma StopKeepsInv(s: State, id: string, env: StopEnv)
    requires Inv(s)
    ensures Inv(Stop(s, id, env).0)
  {
    assert Consistent(s, id);
    if id in s.items && Active(s.items[id].status) {
      var i := Bump(s.items[id], Stopping);
      LocalChangeKeepsInv(s, Save(s, i, env.saveStopping.saved), id);
      if env.saveStopping.saved {
        ConcludeKeepsInv(Save(s, i, true), i, env.confirmed, env.released, env.save);
      }
    }
    hide Conclude, Inv;
  }

  lemma ReclaimKeepsInv(s: State, id: string, nextScene: string, held: bool, env: ReclaimEnv)
    requires Inv(s)
    ensures Inv(Reclaim(s, id, nextScene, held, env).0)
  {
    assert Consistent(s, id);
    if id in s.items && Reclaimable(s.items[id], nextScene, held) {
      ConcludeKeepsInv(s, s.items[id], env.confirmed, env.released, env.save);
    }
    hide Conclude, Inv;
  }

  lemma DegradeKeepsInv(s: State, id: string, loads: bool, save: Reach)
    requires Inv(s)
    ensures Inv(MarkDegraded(s, id, loads, save).0)
  {
    assert Consistent(s, id);
    LocalChangeKeepsInv(s, MarkDegraded(s, id, loads, save).0, id);
  }

  lemma StepKeepsInv(s: State, step: Step)
    requires Inv(s)
    requires step.StartStep? ==> Declined(s, step.req, step.start) || IdIsFree(s, Subject(step))
    ensures Inv(Apply(s, step))
  {
    hide Inv, Start, Stop, MarkDegraded, Reclaim, Declined;
    match step
    case StartStep(req, env) => StartKeepsInv(s, req, env);
    case StopStep(id, env) => StopKeepsInv(s, id, env);
    case DegradeStep(id, loads, save) => DegradeKeepsInv(s, id, loads, save);
    case ReclaimStep(id, nextScene, held, env) => ReclaimKeepsInv(s, id, nextScene, held, env);
  }

  // ---------- which IDs a caller may ask for ----------

  /** The requested ID is new, or its record belongs to the same robot. */
  predicate OwnId(s: State, req: Request, env: StartEnv) {
    ChosenId(req, env) in s.items ==> s.items[ChosenId(req, env)].robotId == req.robotId
  }

  lemma OwnIdIsFree(s: State, req: Request, env: StartEnv)
    requires Inv(s) && OwnId(s, req, env) && !InUse(s, req.robotId)
    ensures IdIsFree(s, ChosenId(req, env))
  {
    assert Consistent(s, ChosenId(req, env));
  }

  /** On a robot that is not in use, a requested ID is safe under every failure exactly when it holds
      no lease: a missing bundle stores the ID as failed whatever its record was before. */
  lemma RequestedIdMustHoldNoLease(s: State, req: Request)
    requires Inv(s) && req.id != "" && !Blank(req.pilot) && !Blank(req.robotId) && !InUse(s, req.robotId)
    ensures (forall env: StartEnv :: Inv(Start(s, req, env).0)) <==> req.id !in s.leases
  {
    assert Consistent(s, req.id);
    if req.id !in s.leases {
      forall env: StartEnv ensures Inv(Start(s, req, env).0) {
        StartKeepsInv(s, req, env);
      }
    } else {
      var works := Reach(true, true);
      var fail := FailEnv(true, true, works);
      var noBundle := StartEnv(true, "", false, true, works, true, true, Refused, works, true, fail);
      assert !Consistent(Start(s, req, noBundle).0, req.id);
    }
  }

  // ---------- whole histories ----------

  predicate Enabled(s: State, step: Step) {
    step.StartStep? ==> OwnId(s, step.req, step.start)
  }

  predicate History(s: State, steps: seq<Step>)
    decreases |steps|
  {
    steps == [] || (Enabled(s, steps[0]) && History(Apply(s, steps[0]), steps[1..]))
  }

  function Run(s: State, steps: seq<Step>): State
    decreases |steps|
  {
    if steps == [] then s else Run(Apply(s, steps[0]), steps[1..])
  }

  lemma {:induction false} RunKeepsInv(s: State, steps: seq<Step>)
    requires Inv(s) && History(s, steps)
    ensures Inv(Run(s, steps))
    decreases |steps|
  {
    if steps != [] {
      if steps[0].StartStep? && !Declined(s, steps[0].req, steps[0].start) {
        OwnIdIsFree(s, steps[0].req, steps[0].start);
      }
      StepKeepsInv(s, steps[0]);
      hide Inv;
      RunKeepsInv(Apply(s, steps[0]), steps[1..]);
    }
  }

  /** Whatever fails and in whatever order, from an empty store or from what an earlier process has
      left: a robot never has two active records nor two processes, no two instances share a port, and
      what may still be running is on record as active, so that the next start on that robot is
      refused. */
  lemma NeverTwoOnOneRobot(s: State, steps: seq<Step>)
    requires Inv(s) && History(s, steps)
    ensures var t := Run(s, steps);
      && OneActive(t) && PortsDistinct(t)
      && (forall id <- t.running :: id in t.leases && id in t.items && InUse(t, t.items[id].robotId))
      && (forall a, b :: a in t.running && b in t.running && t.items[a].robotId == t.items[b].robotId ==> a == b)
      && (forall id <- t.items :: !Active(t.items[id].status) ==> id !in t.leases && id !in t.running)
      && (forall id <- t.items :: Serving(t.items[id].status) ==>
            id in t.leases && t.leases[id] == t.items[id].port && !Blank(t.items[id].endpoint))
  {
    RunKeepsInv(s, steps);
    var t := Run(s, steps);
    hide Run, History;
    InvIsSafe(t);
  }

  lemma InvIsSafe(s: State)
    requires Inv(s)
    ensures forall id <- s.running :: id in s.leases && id in s.items && InUse(s, s.items[id].robotId)
    ensures forall a, b ::
      a in s.running && b in s.running && s.items[a].robotId == s.items[b].robotId ==> a == b
    ensures forall id <- s.items :: !Active(s.items[id].status) ==> id !in s.leases && id !in s.running
    ensures forall id <- s.items :: Serving(s.items[id].status) ==>
      id in s.leases && s.leases[id] == s.items[id].port && !Blank(s.items[id].endpoint)
  {
    hide InUse, Blank;
    forall id | id in s.running
      ensures id in s.leases && id in s.items && Active(s.items[id].status) && InUse(s, s.items[id].robotId)
    {
      assert Consistent(s, id);
      ActiveIsInUse(s, id);
    }
    forall id | id in s.items
      ensures id in s.leases ==> Active(s.items[id].status)
      ensures id in s.running ==> id in s.leases
      ensures Serving(s.items[id].status) ==>
        id in s.leases && s.leases[id] == s.items[id].port && !Blank(s.items[id].endpoint)
    {
      assert Consistent(s, id);
    }
  }

  lemma ActiveIsInUse(s: State, id: string)
    requires id in s.items && Active(s.items[id].status)
    ensures InUse(s, s.items[id].robotId)
  {
  }

  // ---------- evidence ----------

  /** The launcher is asked to start something: everything before it worked. */
  predicate LauncherAsked(s: State, req: Request, env: StartEnv) {
    && !Declined(s, req, env) && env.bundle && env.directory && env.saveNew == Reach(true, true)
    && env.acquire && Acquire(s, ChosenId(req, env)).Some? && env.savePort
  }

  predicate Served(env: StartEnv) {
    env.launch.Launched? && !Blank(env.launch.endpoint)
  }

  /** How a start turns out. It reports success exactly when every call worked, and the instance is
      then stored ready; once the launcher was asked, it is stored as failed exactly when the launch
      failed, the stop was confirmed and the port released; a start that never asked it runs nothing. */
  lemma StartOutcome(s: State, req: Request, env: StartEnv)
    requires Inv(s) && IdIsFree(s, ChosenId(req, env)) && !Declined(s, req, env)
    ensures var id := ChosenId(req, env);
      var (t, r) := Start(s, req, env);
      var asked := LauncherAsked(s, req, env);
      && (r.error.None? <==> asked && Served(env) && env.saveReady == Reach(true, true))
      && (r.error.None? ==> id in t.items && id in t.leases && id in t.running)
      && (r.error.None? ==> r.instance == Some(t.items[id]) && t.items[id].status.Ready?)
      && (asked ==> id in t.items)
      && (asked ==> (t.items[id].status.Failed? <==>
            !Served(env) && env.fail.confirmed && env.fail.released && env.fail.save.saved))
      && (id in t.running <==> asked && (Served(env) || !env.fail.confirmed))
  {
    assert 0 < s.first;
    assert Consistent(s, ChosenId(req, env));
    hide Blank, InUse, FreePort;
  }

  /** A stop leaves the record stopped exactly if it was so before, or every write worked, the
      launcher confirmed the stop and the port was released. */
  lemma StopStoresEvidence(s: State, id: string, env: StopEnv)
    requires Inv(s) && id in s.items
    ensures Stop(s, id, env).0.items[id].status.Stopped? <==>
            || s.items[id].status.Stopped?
            || (env.loads && Active(s.items[id].status) && env.saveStopping == Reach(true, true)
                && env.confirmed && env.released && env.save.saved)
  {
    assert Consistent(s, id);
  }

  lemma ReclaimStoresEvidence(s: State, id: string, nextScene: string, held: bool, env: ReclaimEnv)
    requires Inv(s) && id in s.items
    ensures Reclaim(s, id, nextScene, held, env).0.items[id].status.Stopped? <==>
            || s.items[id].status.Stopped?
            || (env.loads && Reclaimable(s.items[id], nextScene, held) && env.supported
                && env.confirmed && env.released && env.save.saved)
  {
    assert Consistent(s, id);
  }

  /** The record is new or changed, and closed. */
  predicate Closes(s: State, t: State, id: string) {
    id in t.items && !Active(t.items[id].status) && (id in s.items ==> t.items[id] != s.items[id])
  }

  lemma ConcludeCloses(s: State, i: Instance, confirmed: bool, released: bool, save: Reach, id: string)
    requires Closes(s, Conclude(s, i, confirmed, released, save).0, id)
    ensures id == i.id && Conclude(s, i, confirmed, released, save).0.items[id].status.Stopped? && confirmed && released
  {
  }

  lemma StopCloses(s: State, x: string, env: StopEnv, id: string)
    requires Inv(s) && Closes(s, Stop(s, x, env).0, id)
    ensures id == x && Stop(s, x, env).0.items[id].status.Stopped? && env.confirmed && env.released
  {
    assert Consistent(s, x);
    hide Inv, Consistent, Conclude;
    if x in s.items && Active(s.items[x].status) && env.saveStopping == Reach(true, true) {
      var i := Bump(s.items[x], Stopping);
      var t := Save(s, i, true);
      if Closes(t, Conclude(t, i, env.confirmed, env.released, env.save).0, id) {
        ConcludeCloses(t, i, env.confirmed, env.released, env.save, id);
      }
    }
  }

  lemma ReclaimCloses(s: State, x: string, nextScene: string, held: bool, env: ReclaimEnv, id: string)
    requires Inv(s) && Closes(s, Reclaim(s, x, nextScene, held, env).0, id)
    ensures id == x && Reclaim(s, x, nextScene, held, env).0.items[id].status.Stopped? && env.confirmed && env.released
  {
    assert Consistent(s, x);
    hide Inv, Consistent, Conclude;
    if x in s.items {
      if Closes(s, Conclude(s, s.items[x], env.confirmed, env.released, env.save).0, id) {
        ConcludeCloses(s, s.items[x], env.confirmed, env.released, env.save, id);
      }
    }
  }

  lemma FailStartCloses(s: State, i: Instance, cause: Error, launched: bool, env: FailEnv, id: string)
    requires Closes(s, FailStart(s, i, cause, launched, env).0, id)
    ensures id == i.id && FailStart(s, i, cause, launched, env).0.items[id].status.Failed?
    ensures launched && i.port > 0 ==> env.confirmed && env.released
  {
  }

  lemma LaunchCloses(s: State, i: Instance, env: StartEnv, id: string)
    requires Closes(s, LaunchProcess(s, i, env).0, id)
    ensures id == i.id && LaunchProcess(s, i, env).0.items[id].status.Failed?
    ensures i.port > 0 ==> env.fail.confirmed && env.fail.released
  {
    var t := s.(running := s.running + {i.id});
    if env.launch.Refused? || Blank(env.launch.endpoint) {
      FailStartCloses(t, i, if env.launch.Refused? then LaunchFailed else NoEndpoint, true, env.fail, id);
    }
    hide FailStart, Blank;
  }

  lemma EquipCloses(s: State, i: Instance, env: StartEnv, id: string)
    requires 0 < s.first && i.id !in s.leases && Closes(s, Equip(s, i, env).0, id)
    ensures id == i.id && Equip(s, i, env).0.items[id].status.Failed?
    ensures env.acquire && Acquire(s, i.id).Some? && env.savePort ==> env.fail.confirmed && env.fail.released
  {
    hide FailStart, LaunchProcess;
    var port := if env.acquire then Acquire(s, i.id) else None;
    if port.None? {
      FailStartCloses(s, i, PortUnavailable, false, env.fail, id);
    } else {
      var t := s.(leases := s.leases[i.id := port.value]);
      var j := Bump(i.(port := port.value), Starting);
      if env.savePort {
        LaunchCloses(Save(t, j, true), j, env, id);
      } else {
        FailStartCloses(t, j, StoreFailed, false, env.fail, id);
      }
    }
  }

  lemma StartCloses(s: State, req: Request, env: StartEnv, id: string)
    requires Inv(s) && IdIsFree(s, ChosenId(req, env)) && Closes(s, Start(s, req, env).0, id)
    ensures id == ChosenId(req, env) && Start(s, req, env).0.items[id].status.Failed?
    ensures LauncherAsked(s, req, env) ==> env.fail.confirmed && env.fail.released
  {
    hide Equip, InUse, Blank, FreePort;
    var i := NewInstance(req, ChosenId(req, env), Starting);
    var t := Save(s, i, true);
    if !Declined(s, req, env) && env.bundle && env.directory && env.saveNew == Reach(true, true) {
      assert Closes(t, Equip(t, i, env).0, id);
      EquipCloses(t, i, env, id);
    }
  }

  /** A record gets closed in one way only: as stopped by its own stop or reclaim with a confirmed stop
      and a released port, or as failed by its own start, which had the same proof if the launcher had
      taken over. */
  lemma ClosedOnlyOnEvidence(s: State, step: Step, id: string)
    requires Inv(s) && (step.StartStep? ==> IdIsFree(s, Subject(step))) && Closes(s, Apply(s, step), id)
    ensures id == Subject(step) && !step.DegradeStep?
    ensures step.StartStep? <==> Apply(s, step).items[id].status.Failed?
    ensures match step
      case StartStep(req, env) => LauncherAsked(s, req, env) ==> env.fail.confirmed && env.fail.released
      case StopStep(_, env) => env.confirmed && env.released
      case DegradeStep(_, _, _) => false
      case ReclaimStep(_, _, _, env) => env.confirmed && env.released
  {
    hide Inv, Start, Stop, Reclaim, LauncherAsked;
    match step
    case StartStep(req, env) => StartCloses(s, req, env, id);
    case StopStep(x, env) => StopCloses(s, x, env, id);
    case DegradeStep(x, loads, save) =>
    case ReclaimStep(x, nextScene, held, env) => ReclaimCloses(s, x, nextScene, held, env, id);
  }

  /** Operations other than a start replace a record only by a later revision of the same instance. */
  lemma RevisionsGrow(s: State, step: Step, id: string)
    requires Inv(s) && !step.StartStep? && id in s.items
    ensures id in Apply(s, step).items
    ensures var i, j := s.items[id], Apply(s, step).items[id];
      j == i || (id == Subject(step) && i.revision < j.revision && j.robotId == i.robotId && j.scene == i.scene)
  {
    assert step.id in s.items ==> s.items[step.id].id == step.id by {
      assert Consistent(s, step.id);
    }
    hide Inv, Reclaimable, Start;
  }

  // ---------- start-up ----------

  const DEFAULT_FIRST := 18100
  const RANGE_LENGTH := 99

  /** A process that comes up with this configured port range over what it finds. */
  function StartUp(
    first: int, last: int, items: map<string, Instance>, leases: map<string, nat>, running: set<string>): State
  {
    var from := if first <= 0 then DEFAULT_FIRST else first;
    State(from, if last < from then from + RANGE_LENGTH else last, items, leases, running)
  }

  /** Whatever the configured range, there is at least one port in it, and starting up over empty stores,
      or over those an earlier process has left, keeps the invariant. */
  lemma StartUpKeepsInv(s: State, first: int, last: int)
    ensures var t := StartUp(first, last, s.items, s.leases, s.running); 0 < t.first <= t.last
    ensures Inv(StartUp(first, last, map[], map[], {}))
    ensures Inv(s) ==> Inv(StartUp(first, last, s.items, s.leases, s.running))
  {
    if Inv(s) {
      var t := StartUp(first, last, s.items, s.leases, s.running);
      forall id ensures Consistent(t, id) {
        assert Consistent(s, id);
      }
    }
  }

  /** Everything a start asks for works. */
  const ALL_WORKS := StartEnv(
    true, "", true, true, Reach(true, true), true, true, Launched("e"), Reach(true, true), true,
    FailEnv(true, true, Reach(true, true)))

  lemma StartsWithLease(s: State, req: Request)
    requires Inv(s) && s.items == map[] && s.leases == map[] && s.first <= s.last && req.id != ""
    requires !Blank(req.pilot) && !Blank(req.robotId)
    ensures var t := Start(s, req, ALL_WORKS).0;
      req.id in t.leases && t.items.Keys == {req.id} && t.items[req.id].robotId == req.robotId
  {
    assert s.leases.Values == {};
    assert Acquire(s, req.id) == Some(s.first);
    assert !Blank("e") by {
      assert 'e' in "e";
    }
  }

  /** It does happen: one robot's instance is started under an ID, a start on another robot asks for the
      same ID, and for some of its failures nothing holds any more. */
  lemma OtherRobotsIdIsUnsafe(first: int, last: int)
    ensures var s := StartUp(first, last, map[], map[], {});
      var step := StartStep(Request("x", "p", "r", "", "mujoco"), ALL_WORKS);
      && History(s, [step])
      && exists env: StartEnv :: !Inv(Start(Run(s, [step]), Request("x", "p", "q", "", "mujoco"), env).0)
  {
    var s := StartUp(first, last, map[], map[], {});
    var mine, other := Request("x", "p", "r", "", "mujoco"), Request("x", "p", "q", "", "mujoco");
    var step := StartStep(mine, ALL_WORKS);
    assert 'p' in "p" && 'r' in "r" && 'q' in "q";
    StartUpKeepsInv(s, first, last);
    StartsWithLease(s, mine);
    assert [step][1..] == [];
    hide StartUp;
    RunKeepsInv(s, [step]);
    var t := Run(s, [step]);
    assert t == Start(s, mine, ALL_WORKS).0;
    hide Run, History, Inv, Start, Blank;
    assert !InUse(t, "q");
    RequestedIdMustHoldNoLease(t, other);
  }

  // ---------- the orchestrator object ----------

  class Orchestrator {
    const first: nat
    const last: nat
    var items: map<string, Instance>
    var leases: map<string, nat>
    ghost var running: set<string>

    ghost function View(): State
      reads this
    {
      State(first, last, items, leases, running)
    }

    /** The process comes up over the stores, and over the processes that may still be running. */
    constructor (first: int, last: int, items: map<string, Instance>, leases: map<string, nat>,
                 ghost running: set<string>)
      ensures View() == StartUp(first, last, items, leases, running)
    {
      var from := if first <= 0 then DEFAULT_FIRST else first;
      this.first, this.last := from, if last < from then from + RANGE_LENGTH else last;
      this.items, this.leases, this.running := items, leases, running;
    }

    /** Store the instance, then publish it. */
    method Persist(i: Instance, reach: Reach) returns (error: Option<Error>)
      modifies this`items
      ensures (View(), error) == SaveAndPublish(old(View()), i, reach)
    {
      if !reach.saved {
        return Some(StoreFailed);
      }
      items := items[i.id := i];
      return if reach.published then None else Some(PublishFailed);
    }

    method LeasePort(id: string, works: bool) returns (port: Option<nat>)
      modifies this`leases
      ensures port == if works then Acquire(old(View()), id) else None
      ensures View() == if port.Some? then old(View()).(leases := old(leases)[id := port.value]) else old(View())
    {
      if !works {
        return None;
      }
      if id in leases {
        assert leases == leases[id := leases[id]];
        return Some(leases[id]);
      }
      var candidate := first;
      while candidate <= last
        invariant leases == old(leases) && running == old(running)
        invariant FreePort(leases, first, last) == FreePort(leases, candidate, last)
      {
        if candidate !in leases.Values {
          leases := leases[id := candidate];
          return Some(candidate);
        }
        candidate := candidate + 1;
      }
      return None;
    }

    /** The launcher's answer to a stop; only a confirmed one is proof that nothing runs. */
    method StopProcess(id: string, confirmed: bool) returns (proven: bool)
      modifies this`running
      ensures proven == confirmed && View() == Confirm(old(View()), id, confirmed)
    {
      if confirmed {
        running := running - {id};
      }
      return confirmed;
    }

    method ReleasePort(id: string, released: bool) returns (ok: bool)
      modifies this`leases
      ensures ok == released && View() == Release(old(View()), id, released)
    {
      if released {
        leases := leases - {id};
      }
      return released;
    }

    method AbandonStart(i: Instance, cause: Error, launched: bool, env: FailEnv) returns (r: Outcome)
      modifies this
      ensures (View(), r) == FailStart(old(View()), i, cause, launched, env)
    {
      var confirmed := true;
      if launched {
        confirmed := StopProcess(i.id, env.confirmed);
      }
      if confirmed && i.port > 0 {
        confirmed := ReleasePort(i.id, env.released);
      }
      var j := Bump(i, if confirmed then Failed else Interrupted);
      var _ := Persist(j, env.save);
      return Outcome(Some(j), Some(cause));
    }

    method LeaveInterrupted(i: Instance, cause: Error, save: Reach) returns (r: Outcome)
      modifies this
      ensures (View(), r) == InterruptStop(old(View()), i, cause, save)
    {
      var j := Bump(i, Interrupted);
      var _ := Persist(j, save);
      return Outcome(Some(j), Some(cause));
    }

    method StartInstance(req: Request, env: StartEnv) returns (r: Outcome)
      modifies this
      ensures (View(), r) == Start(old(View()), req, env)
    {
      if Blank(req.pilot) || Blank(req.robotId) {
        return Outcome(None, Some(InvalidRequest));
      }
      if !env.lookup {
        return Outcome(None, Some(StoreFailed));
      }
      if exists id <- items :: items[id].robotId == req.robotId && Active(items[id].status) {
        return Outcome(None, Some(AlreadyInUse));
      }
      var id := if req.id == "" then env.newId else req.id;
      if !env.bundle {
        var failed := NewInstance(req, id, Failed);
        var _ := Persist(failed, env.saveNew);
        return Outcome(Some(failed), Some(BundleMissing));
      }
      if !env.directory {
        return Outcome(None, Some(DirectoryFailed));
      }
      var i := NewInstance(req, id, Starting);
      var error := Persist(i, env.saveNew);
      if error.Some? {
        return Outcome(None, error);
      }
      r := EquipInstance(i, env);
    }

    method EquipInstance(i: Instance, env: StartEnv) returns (r: Outcome)
      modifies this
      ensures (View(), r) == Equip(old(View()), i, env)
    {
      var port := LeasePort(i.id, env.acquire);
      if port.None? {
        r := AbandonStart(i, PortUnavailable, false, env.fail);
        return;
      }
      var j := Bump(i.(port := port.value), Starting);
      if !env.savePort {
        r := AbandonStart(j, StoreFailed, false, env.fail);
        return;
      }
      items := items[j.id := j];
      running := running + {j.id};
      if env.launch.Refused? {
        r := AbandonStart(j, LaunchFailed, true, env.fail);
        return;
      }
      if Blank(env.launch.endpoint) {
        r := AbandonStart(j, NoEndpoint, true, env.fail);
        return;
      }
      j := Bump(j.(endpoint := env.launch.endpoint), Ready);
      var error := Persist(j, env.saveReady);
      if error.Some? {
        j := Bump(j, Interrupted);
        if env.saveInterrupted {
          items := items[j.id := j];
        }
        return Outcome(Some(j), error);
      }
      return Outcome(Some(j), None);
    }

    /** From the launcher's answer on, stopping and reclaiming are the same. */
    method ConcludeStop(i: Instance, confirmed: bool, released: bool, save: Reach) returns (r: Outcome)
      modifies this
      ensures (View(), r) == Conclude(old(View()), i, confirmed, released, save)
    {
      var proven := StopProcess(i.id, confirmed);
      if !proven {
        r := LeaveInterrupted(i, StopUnconfirmed, save);
        return;
      }
      var freed := ReleasePort(i.id, released);
      if !freed {
        r := LeaveInterrupted(i, ReleaseFailed, save);
        return;
      }
      var j := Bump(i, Stopped);
      var error := Persist(j, save);
      return Outcome(Some(j), error);
    }

    method StopInstance(id: string, env: StopEnv) returns (r: Outcome)
      modifies this
      ensures (View(), r) == Stop(old(View()), id, env)
    {
      if !env.loads || id !in items {
        return Outcome(None, Some(NotFound));
      }
      if items[id].status == Stopped || items[id].status == Failed {
        return Outcome(Some(items[id]), None);
      }
      var i := Bump(items[id], Stopping);
      var error := Persist(i, env.saveStopping);
      if error.Some? {
        return Outcome(Some(i), error);
      }
      r := ConcludeStop(i, env.confirmed, env.released, env.save);
    }

    method DegradeInstance(id: string, loads: bool, save: Reach) returns (r: Outcome)
      modifies this
      ensures (View(), r) == MarkDegraded(old(View()), id, loads, save)
    {
      if !loads || id !in items {
        return Outcome(None, Some(NotFound));
      }
      if items[id].status != Ready && items[id].status != Degraded {
        return Outcome(Some(items[id]), Some(NotServing));
      }
      var i := Bump(items[id], Degraded);
      var error := Persist(i, save);
      return Outcome(Some(i), error);
    }

    method ReclaimInstance(id: string, nextScene: string, held: bool, env: ReclaimEnv) returns (r: Outcome)
      modifies this
      ensures (View(), r) == Reclaim(old(View()), id, nextScene, held, env)
    {
      if !env.loads || id !in items {
        return Outcome(None, Some(NotFound));
      }
      var i := items[id];
      if i.status != Interrupted || (i.backend != "mujoco" && i.backend != "isaac") || Blank(nextScene)
        || (i.scene == nextScene && !held) {
        return Outcome(Some(i), Some(NotReclaimable));
      }
      if !env.supported {
        return Outcome(Some(i), Some(ReclaimUnsupported));
      }
      r := ConcludeStop(i, env.confirmed, env.released, env.save);
    }
  }
}
