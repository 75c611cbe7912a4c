/** The scene's use of the orchestrator: clearing a robot for a new scene, and stopping all the robots
    of a scene. */
module SceneRobots {
  import opened Common
  import opened Orchestrator

  datatype PrepareEnv = PrepareEnv(lookup: bool, stop: StopEnv, reclaim: ReclaimEnv)

  /** already: the robot runs for this very scene; failed: an error is returned. */
  datatype Prepared = Prepared(already: bool, failed: bool)

  /** What the lookup of a robot's active instance finds. */
  predicate Finds(s: State, robotId: string, existing: Option<string>) {
    match existing
    case None => !InUse(s, robotId)
    case Some(id) => id in s.items && s.items[id].robotId == robotId && Active(s.items[id].status)
  }

  function ReclaimOld(s: State, id: string, scene: string, env: ReclaimEnv): (State, Prepared) {
    var (t, r) := Reclaim(s, id, scene, false, env);
    (t, Prepared(false, r.error.Some?))
  }

  predicate LeftInterrupted(r: Outcome) {
    r.instance.Some? && r.instance.value.status.Interrupted?
  }

  function Prepare(s: State, existing: Option<string>, scene: string, env: PrepareEnv): (State, Prepared)
    requires existing.Some? ==> existing.value in s.items
  {
    if !env.lookup then (s, Prepared(false, true))
    else if existing.None? then (s, Prepared(false, false))
    else
      var i := s.items[existing.value];
      if i.scene == scene then
        var running := i.status.Starting? || Serving(i.status);
        (s, Prepared(running, !running))
      else if !Simulated(i.backend) then (s, Prepared(false, true))
      else if i.status.Interrupted? then ReclaimOld(s, existing.value, scene, env.reclaim)
      else
        var (t, r) := Stop(s, existing.value, env.stop);
        if LeftInterrupted(r) then ReclaimOld(t, existing.value, scene, env.reclaim)
        else (t, Prepared(false, r.error.Some?))
  }

  lemma ConcludeReturnsStored(s: State, i: Instance, confirmed: bool, released: bool, save: Reach)
    requires i.id in s.items && s.items[i.id].robotId == i.robotId
    ensures var (t, r) := Conclude(s, i, confirmed, released, save);
      && OnlyTouches(s, t, i.id) && i.id in t.items && t.items[i.id].robotId == i.robotId
      && (r.error.None? ==> r.instance == Some(t.items[i.id]) && t.items[i.id].status.Stopped?)
  {
  }

  lemma TouchesCompose(s: State, t: State, u: State, id: string)
    requires OnlyTouches(s, t, id) && OnlyTouches(t, u, id)
    ensures OnlyTouches(s, u, id)
  {
  }

  lemma SaveTouches(s: State, i: Instance, works: bool)
    ensures OnlyTouches(s, Save(s, i, works), i.id)
  {
  }

  lemma TouchesNothing(s: State, id: string)
    ensures OnlyTouches(s, s, id)
  {
  }

  lemma StopReturnsStored(s: State, id: string, env: StopEnv)
    requires Inv(s)
    ensures var (t, r) := Stop(s, id, env);
      && Inv(t) && OnlyTouches(s, t, id)
      && (r.error.None? ==> id in s.items && id in t.items && r.instance == Some(t.items[id]))
      && (id in s.items && Active(s.items[id].status) && r.error.None? ==> t.items[id].status.Stopped?)
      && (id in s.items ==> id in t.items && t.items[id].robotId == s.items[id].robotId)
  {
    assert id in s.items ==> s.items[id].id == id by {
      assert Consistent(s, id);
    }
    hide Inv, Consistent, Conclude, OnlyTouches;
    StopKeepsInv(s, id, env);
    if id in s.items && Active(s.items[id].status) {
      var i := Bump(s.items[id], Stopping);
      var t := Save(s, i, env.saveStopping.saved);
      SaveTouches(s, i, env.saveStopping.saved);
      if env.saveStopping.saved {
        ConcludeReturnsStored(t, i, env.confirmed, env.released, env.save);
        TouchesCompose(s, t, Conclude(t, i, env.confirmed, env.released, env.save).0, id);
      }
    } else {
      TouchesNothing(s, id);
    }
  }

  lemma ReclaimReturnsStored(s: State, id: string, nextScene: string, held: bool, env: ReclaimEnv)
    requires Inv(s)
    ensures var (t, r) := Reclaim(s, id, nextScene, held, env);
      && Inv(t) && OnlyTouches(s, t, id)
      && (r.error.None? ==> id in t.items && r.instance == Some(t.items[id]) && t.items[id].status.Stopped?)
      && (id in s.items ==> id in t.items && t.items[id].robotId == s.items[id].robotId)
  {
    assert id in s.items ==> s.items[id].id == id by {
      assert Consistent(s, id);
    }
    hide Inv, Consistent, Conclude, Reclaimable, OnlyTouches;
    ReclaimKeepsInv(s, id, nextScene, held, env);
    TouchesNothing(s, id);
    if id in s.items {
      ConcludeReturnsStored(s, s.items[id], env.confirmed, env.released, env.save);
    }
  }

  /** When preparing reports that the robot is neither running for this scene nor blocked, its old
      instance is closed without lease or process, the robot has no active instance, and the start
      that follows is not refused as already in use. */
  lemma PreparedRobotCanStart(s: State, robotId: string, existing: Option<string>, scene: string, env: PrepareEnv)
    requires Inv(s) && Finds(s, robotId, existing)
    ensures var (t, p) := Prepare(s, existing, scene, env);
      && Inv(t)
      && (p == Prepared(false, false) ==> !InUse(t, robotId))
      && (p == Prepared(false, false) ==> forall req: Request, start: StartEnv ::
            req.robotId == robotId ==> Start(t, req, start).1.error != Some(AlreadyInUse))
      && (p == Prepared(false, false) && existing.Some? ==>
            && existing.value in t.items && t.items[existing.value].status.Stopped?
            && existing.value !in t.leases && existing.value !in t.running)
  {
    hide FreePort, Blank, InUse, Inv, Stop, Reclaim, Start;
    var (t, p) := Prepare(s, existing, scene, env);
    if env.lookup && existing.Some? {
      var id := existing.value;
      var (u, r) := Stop(s, id, env.stop);
      StopReturnsStored(s, id, env.stop);
      ReclaimReturnsStored(s, id, scene, false, env.reclaim);
      ReclaimReturnsStored(u, id, scene, false, env.reclaim);
      if p == Prepared(false, false) {
        var q := Reclaim(if s.items[id].status.Interrupted? then s else u, id, scene, false, env.reclaim).1;
        assert q.error.None? || q.error.Some?;
        assert id in t.items && t.items[id].status.Stopped?;
        ClosedRobotIsFree(s, t, id);
      }
    }
    hide Prepare;
    if p == Prepared(false, false) {
      FreeRobotIsNotRefused(t, robotId);
    }
  }

  /** Closing a robot's one active instance, and touching no other, frees the robot. */
  lemma ClosedRobotIsFree(s: State, t: State, id: string)
    requires Inv(s) && Inv(t) && OnlyTouches(s, t, id)
    requires id in s.items && Active(s.items[id].status)
    requires id in t.items && t.items[id].robotId == s.items[id].robotId && t.items[id].status.Stopped?
    ensures !InUse(t, s.items[id].robotId) && id !in t.leases && id !in t.running
  {
    assert Consistent(t, id);
    forall x | x in t.items && t.items[x].robotId == s.items[id].robotId ensures !Active(t.items[x].status) {
      assert x != id ==> x in s.items && s.items[x] == t.items[x];
    }
  }

  lemma FreeRobotIsNotRefused(s: State, robotId: string)
    requires !InUse(s, robotId)
    ensures forall req: Request, start: StartEnv ::
      req.robotId == robotId ==> Start(s, req, start).1.error != Some(AlreadyInUse)
  {
    hide FreePort, Blank;
  }

  // ---------- stopping a scene ----------

  datatype StopSceneEnv = StopSceneEnv(stop: StopEnv, reclaim: ReclaimEnv, converges: bool)

  predicate Concerns(i: Instance, scene: string) {
    i.scene == scene && Active(i.status)
  }

  predicate Converged(r: Outcome, env: StopSceneEnv) {
    r.instance.Some? && r.instance.value.status.Stopped? ==> env.converges
  }

  /** One listed instance: a normal stop, and for an interrupted simulation the reclaim that the
      scene's own hold allows. */
  function StopOne(s: State, i: Instance, scene: string, env: StopSceneEnv): (State, bool) {
    if !Concerns(i, scene) then (s, true)
    else
      var (t, r) := Stop(s, i.id, env.stop);
      if r.error.None? then (t, Converged(r, env))
      else if !LeftInterrupted(r) || !Simulated(r.instance.value.backend) then (t, false)
      else
        var (u, q) := Reclaim(t, i.id, r.instance.value.scene, true, env.reclaim);
        (u, q.error.None? && Converged(q, env))
  }

  /** The instances in listed order; the result says whether no error was collected. */
  function StopScene(s: State, listed: seq<Instance>, scene: string, envs: seq<StopSceneEnv>): (State, bool)
    requires |envs| == |listed|
    decreases |listed|
  {
    if listed == [] then (s, true)
    else
      var n := |listed| - 1;
      var (t, ok) := StopScene(s, listed[..n], scene, envs[..n]);
      var (u, one) := StopOne(t, listed[n], scene, envs[n]);
      (u, ok && one)
  }

  lemma StopOneStops(s: State, i: Instance, scene: string, env: StopSceneEnv)
    requires Inv(s) && i.id in s.items && s.items[i.id] == i
    ensures var (t, ok) := StopOne(s, i, scene, env);
      && Inv(t) && OnlyTouches(s, t, i.id) && i.id in t.items
      && (!Concerns(i, scene) ==> t == s)
      && (ok && Concerns(i, scene) ==> t.items[i.id].status.Stopped?)
  {
    hide Stop, Reclaim, Inv, OnlyTouches;
    var (t, r) := Stop(s, i.id, env.stop);
    TouchesNothing(s, i.id);
    StopReturnsStored(s, i.id, env.stop);
    if LeftInterrupted(r) {
      var nextScene := r.instance.value.scene;
      ReclaimReturnsStored(t, i.id, nextScene, true, env.reclaim);
      TouchesCompose(s, t, Reclaim(t, i.id, nextScene, true, env.reclaim).0, i.id);
    }
  }

  /** The list is a snapshot of the stored instances, each once. */
  predicate Snapshot(s: State, listed: seq<Instance>) {
    && (forall k :: 0 <= k < |listed| ==> listed[k].id in s.items && s.items[listed[k].id] == listed[k])
    && (forall j, k :: 0 <= j < k < |listed| ==> listed[j].id != listed[k].id)
  }

  predicate SameAt(s: State, t: State, id: string) {
    && (id in s.items <==> id in t.items) && (id in s.items ==> s.items[id] == t.items[id])
    && (id in s.leases <==> id in t.leases) && (id in s.leases ==> s.leases[id] == t.leases[id])
    && (id in s.running <==> id in t.running)
  }

  ghost predicate AllStopped(t: State, listed: seq<Instance>, scene: string) {
    forall k :: 0 <= k < |listed| && Concerns(listed[k], scene) ==>
      listed[k].id in t.items && t.items[listed[k].id].status.Stopped?
  }

  predicate Spared(listed: seq<Instance>, scene: string, id: string) {
    forall k :: 0 <= k < |listed| && Concerns(listed[k], scene) ==> listed[k].id != id
  }

  ghost predicate OthersSame(s: State, t: State, listed: seq<Instance>, scene: string) {
    forall id :: Spared(listed, scene, id) ==> SameAt(s, t, id)
  }

  lemma OneMoreStopped(t: State, u: State, shorter: seq<Instance>, i: Instance, scene: string)
    requires AllStopped(t, shorter, scene) && OnlyTouches(t, u, i.id)
    requires forall k :: 0 <= k < |shorter| ==> shorter[k].id != i.id
    requires Concerns(i, scene) ==> i.id in u.items && u.items[i.id].status.Stopped?
    ensures AllStopped(u, shorter + [i], scene)
  {
    var longer := shorter + [i];
    forall k | 0 <= k < |longer| && Concerns(longer[k], scene)
      ensures longer[k].id in u.items && u.items[longer[k].id].status.Stopped?
    {
      assert k < |shorter| ==> longer[k] == shorter[k];
    }
  }

  lemma OneMoreSpared(s: State, t: State, u: State, shorter: seq<Instance>, i: Instance, scene: string)
    requires OthersSame(s, t, shorter, scene) && OnlyTouches(t, u, i.id) && (!Concerns(i, scene) ==> u == t)
    ensures OthersSame(s, u, shorter + [i], scene)
  {
    var longer := shorter + [i];
    forall id | Spared(longer, scene, id) ensures SameAt(s, u, id) {
      assert longer[|shorter|] == i;
      assert forall k :: 0 <= k < |shorter| ==> longer[k] == shorter[k];
      assert SameAt(s, t, id);
    }
  }

  lemma RecordsStay(s: State, t: State, id: string)
    requires OnlyTouches(s, t, id) && id in t.items
    ensures s.items.Keys <= t.items.Keys
  {
  }

  lemma SnapshotShrinks(s: State, t: State, listed: seq<Instance>, n: nat, scene: string)
    requires Snapshot(s, listed) && n == |listed| - 1 && OthersSame(s, t, listed[..n], scene)
    ensures listed[n].id in t.items && t.items[listed[n].id] == listed[n]
    ensures forall k :: 0 <= k < n ==> listed[..n][k].id != listed[n].id
  {
    assert Spared(listed[..n], scene, listed[n].id);
  }

  /** Stopping a scene: without an error every listed active instance of it is stored as stopped, and
      an instance that is not one of these keeps its record, lease and process in any case. */
  lemma {:induction false} StopSceneStops(s: State, listed: seq<Instance>, scene: string, envs: seq<StopSceneEnv>)
    requires Inv(s) && Snapshot(s, listed) && |envs| == |listed|
    ensures var (t, ok) := StopScene(s, listed, scene, envs);
      && Inv(t) && s.items.Keys <= t.items.Keys
      && (ok ==> AllStopped(t, listed, scene))
      && OthersSame(s, t, listed, scene)
    decreases |listed|
  {
    if listed != [] {
      var n := |listed| - 1;
      var (t, ok) := StopScene(s, listed[..n], scene, envs[..n]);
      var (u, one) := StopOne(t, listed[n], scene, envs[n]);
      assert StopScene(s, listed, scene, envs) == (u, ok && one);
      assert Snapshot(s, listed[..n]);
      hide Inv, StopOne, StopScene, AllStopped, OthersSame, OnlyTouches, Snapshot;
      StopSceneStops(s, listed[..n], scene, envs[..n]);
      SnapshotShrinks(s, t, listed, n, scene);
      StopOneStops(t, listed[n], scene, envs[n]);
      assert listed == listed[..n] + [listed[n]];
      RecordsStay(t, u, listed[n].id);
      OneMoreSpared(s, t, u, listed[..n], listed[n], scene);
      if ok && one {
        OneMoreStopped(t, u, listed[..n], listed[n], scene);
      }
    }
  }

  // ---------- the callers ----------

  /** prepareSceneRobotStart over the orchestrator object; existing is what the lookup returned. */
  method PrepareSceneRobotStart(
    o: Orchestrator, robotId: string, existing: Option<string>, scene: string, env: PrepareEnv)
    returns (p: Prepared)
    requires Finds(o.View(), robotId, existing)
    modifies o
    ensures (o.View(), p) == Prepare(old(o.View()), existing, scene, env)
  {
    if !env.lookup {
      return Prepared(false, true);
    }
    if existing.None? {
      return Prepared(false, false);
    }
    var i := o.items[existing.value];
    if i.scene == scene {
      var up := i.status == Starting || i.status == Ready || i.status == Degraded;
      return Prepared(up, !up);
    }
    if i.backend != "mujoco" && i.backend != "isaac" {
      return Prepared(false, true);
    }
    var interrupted := i.status == Interrupted;
    if !interrupted {
      var r := o.StopInstance(existing.value, env.stop);
      interrupted := r.instance.Some? && r.instance.value.status == Interrupted;
      if r.error.Some? && !interrupted {
        return Prepared(false, true);
      }
    }
    if interrupted {
      var r := o.ReclaimInstance(existing.value, scene, false, env.reclaim);
      return Prepared(false, r.error.Some?);
    }
    return Prepared(false, false);
  }

  /** StopSceneRobots over the orchestrator object; errors counts what it collects. */
  method StopSceneRobots(o: Orchestrator, listed: seq<Instance>, scene: string, envs: seq<StopSceneEnv>)
    returns (errors: nat)
    requires |envs| == |listed|
    modifies o
    ensures (o.View(), errors == 0) == StopScene(old(o.View()), listed, scene, envs)
  {
    errors := 0;
    for k := 0 to |listed|
      invariant (o.View(), errors == 0) == StopScene(old(o.View()), listed[..k], scene, envs[..k])
    {
      ghost var before, clean := o.View(), errors == 0;
      assert listed[..k + 1][..k] == listed[..k] && envs[..k + 1][..k] == envs[..k];
      var ok := StopListed(o, listed[k], scene, envs[k]);
      if !ok {
        errors := errors + 1;
      }
      assert (o.View(), ok) == StopOne(before, listed[k], scene, envs[k]);
    }
    assert listed[..|listed|] == listed && envs[..|envs|] == envs;
  }

  method StopListed(o: Orchestrator, i: Instance, scene: string, env: StopSceneEnv) returns (ok: bool)
    modifies o
    ensures (o.View(), ok) == StopOne(old(o.View()), i, scene, env)
  {
    if i.scene != scene || i.status == Stopped || i.status == Failed {
      return true;
    }
    var r := o.StopInstance(i.id, env.stop);
    if r.error.Some? {
      if r.instance.None? || r.instance.value.status != Interrupted
        || (r.instance.value.backend != "mujoco" && r.instance.value.backend != "isaac") {
        return false;
      }
      r := o.ReclaimInstance(i.id, r.instance.value.scene, true, env.reclaim);
      if r.error.Some? {
        return false;
      }
    }
    return !(r.instance.Some? && r.instance.value.status == Stopped) || env.converges;
  }
}
