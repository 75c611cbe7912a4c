/** Histories in which a robot is given up although an action of the execution holds its lock: one for
    each exception that SkillLocks admits, from any execution that is up, and one that gets there. */
module SkillLockHistories {
  import opened Common
  import Store = SkillStore
  import opened SkillRuntime

  /** The execution runs on the robot, registered and claimed, with no end in sight and its flag down;
      the robot is free. */
  predicate Up(s: State, id: string, robotId: string) {
    && id in s.running && id in s.items && s.items[id].id == id && s.items[id].robotId == robotId
    && s.items[id].status == Store.Running
    && id in s.active && !s.active[id] && Holds(s, id, robotId)
    && robotId !in s.locks && id !in s.failing && id !in s.stopMu
  }

  /** At the end of the history the step gives the robot up although the execution owns its lock. */
  predicate GivesUpLocked(s: State, steps: seq<Step>, step: Step, id: string, robotId: string) {
    && History(s, steps)
    && Enabled(SkillRuntime.Run(s, steps), step)
    && Drops(SkillRuntime.Run(s, steps), SkillRuntime.Apply(SkillRuntime.Run(s, steps), step), id, robotId)
    && OwnsLock(SkillRuntime.Run(s, steps), id)
  }

  lemma GivesUpAfter(s: State, x: Step, t: State, rest: seq<Step>, step: Step, id: string, robotId: string)
    requires Leads(s, x, t) && GivesUpLocked(t, rest, step, id, robotId)
    ensures GivesUpLocked(s, [x] + rest, step, id, robotId)
  {
    hide SkillRuntime.Apply, Enabled, OwnsLock, Drops, History, SkillRuntime.Run;
    ReachesFrom(s, x, t, rest, SkillRuntime.Run(t, rest));
  }

  lemma GivesUpNow(s: State, step: Step, id: string, robotId: string)
    requires Enabled(s, step) && Drops(s, SkillRuntime.Apply(s, step), id, robotId) && OwnsLock(s, id)
    ensures GivesUpLocked(s, [], step, id, robotId)
  {
    ReachesItself(s);
    hide SkillRuntime.Apply, Enabled, OwnsLock, Drops, History, SkillRuntime.Run;
  }

  // The steps the histories are made of, each with the state it leads to.

  function Locked(s: State, id: string, robotId: string, action: string): State {
    s.(locks := s.locks[robotId := action], owners := s.owners[action := id])
  }

  function Held(s: State, k: string, holder: Holder): State {
    s.(stopMu := s.stopMu[k := holder])
  }

  function Failing(s: State, k: string, phase: FailPhase): State {
    s.(failing := s.failing[k := phase])
  }

  function Stored(s: State, e: Store.Skill): State {
    s.(items := s.items[e.id := e])
  }

  /** The execution has a record of its own that is not over. */
  predicate Live(s: State, id: string) {
    id in s.items && s.items[id].id == id && !Store.Terminal(s.items[id].status)
  }

  predicate CanTake(s: State, id: string, robotId: string, action: string) {
    id in s.running && id in s.items && s.items[id].robotId == robotId && robotId !in s.locks && action !in s.owners
  }

  lemma LockedOwns(s: State, id: string, robotId: string, action: string)
    requires id in s.items && s.items[id].robotId == robotId
    ensures OwnsLock(Locked(s, id, robotId, action), id)
  {
  }

  lemma Taking(s: State, id: string, robotId: string, action: string)
    requires CanTake(s, id, robotId, action) && id !in s.stopMu && id !in s.failing
    ensures HandlerEnabled(s, PhysicalStart(id, action))
    ensures ApplyHandler(s, PhysicalStart(id, action)) == Locked(s, id, robotId, action)
  {
  }

  lemma TakingNoted(s: State, id: string, robotId: string, action: string)
    requires CanTake(s, id, robotId, action)
    requires (id in s.stopMu && id !in s.failing) || (id !in s.stopMu && id in s.failing)
    ensures HandlerEnabled(s, PhysicalStart(id, action))
    ensures ApplyHandler(s, PhysicalStart(id, action)) ==
      if id in s.stopMu then Held(Locked(s, id, robotId, action), id, Noted(s.stopMu[id]))
      else Failing(Locked(s, id, robotId, action), id, s.failing[id].(startedSince := true))
  {
  }

  lemma Choosing(s: State, id: string)
    requires id in s.running && id !in s.failing && !(id in s.active && s.active[id])
    ensures FailEnabled(s, ChooseFail(id))
    ensures ApplyFail(s, ChooseFail(id)) == Failing(s, id, FailChosen(OwnsLock(s, id), false))
  {
    hide OwnsLock;
  }

  lemma ReadingForFail(s: State, id: string, held: bool, since: bool)
    requires Live(s, id) && id in s.failing && s.failing[id] == FailChosen(held, since)
    ensures FailEnabled(s, ReadForFail(id))
    ensures ApplyFail(s, ReadForFail(id)) == Failing(s, id, FailRead(held, since))
  {
  }

  lemma SavingFailure(s: State, id: string, held: bool, since: bool)
    requires Live(s, id) && id in s.failing && s.failing[id] == FailRead(held, since)
    ensures FailEnabled(s, FailSave(s.items[id], true))
    ensures ApplyFail(s, FailSave(s.items[id], true)) ==
      Failing(Stored(s, s.items[id].(status := Store.Failed)), id, FailWritten(held, since))
  {
  }

  lemma ReadingForFinish(s: State, id: string)
    requires Live(s, id) && s.items[id].status != Store.Stopping && id in s.running && id !in s.stopMu
    ensures FinishEnabled(s, ReadForFinish(id))
    ensures ApplyFinish(s, ReadForFinish(id)) == Held(s, id, FinishRead)
  {
  }

  lemma Deciding(s: State, id: string)
    requires Live(s, id) && id in s.stopMu && s.stopMu[id] == FinishRead && !OwnsLock(s, id)
    ensures FinishEnabled(s, FinishDecide(s.items[id], Store.Completed, true))
    ensures ApplyFinish(s, FinishDecide(s.items[id], Store.Completed, true)) ==
            Held(s, id, Finishing(Store.Completed, false))
  {
    hide OwnsLock, SkillRuntime.Write;
  }

  lemma SavingVerdict(s: State, id: string, since: bool)
    requires Live(s, id) && id in s.stopMu && s.stopMu[id] == Finishing(Store.Completed, since)
    ensures FinishEnabled(s, FinishSave(s.items[id], true))
    ensures ApplyFinish(s, FinishSave(s.items[id], true)) ==
      Held(Stored(s, s.items[id].(status := Store.Completed)), id, Finished(since))
  {
  }

  lemma Entering(s: State, id: string)
    requires Live(s, id) && id in s.fetched && id !in s.stopMu
    ensures StopEnabled(s, StopEnter(id))
    ensures ApplyStop(s, StopEnter(id)) == Held(s, id, StopEntered)
  {
  }

  lemma Marking(s: State, id: string)
    requires Live(s, id) && id in s.stopMu && s.stopMu[id] == StopEntered
    ensures StopEnabled(s, StopMark(s.items[id], true))
    ensures ApplyStop(s, StopMark(s.items[id], true)) ==
      Held(Stored(s, s.items[id].(status := Store.Stopping)), id, StopMarked)
  {
  }

  lemma Concluding(s: State, id: string, e: Store.Skill)
    requires Live(s, id) && e.id == id && e.robotId == s.items[id].robotId
    requires id in s.stopMu && s.stopMu[id] == StopMarked
    ensures StopEnabled(s, StopConclude(e, Answered(true), true))
    ensures ApplyStop(s, StopConclude(e, Answered(true), true)) ==
      Held(Stored(s, e.(stopOutcome := Some(true), status := Store.Stopped)), id, StopSafe(OwnsLock(s, id), false))
  {
    hide OwnsLock;
  }

  lemma CleaningFrees(s: State, id: string, robotId: string)
    requires id in s.items && s.items[id].robotId == robotId && Holds(s, id, robotId)
    ensures Drops(s, Cleanup(s, id), id, robotId)
  {
  }

  lemma FailureDrops(s: State, id: string, robotId: string)
    requires id in s.items && s.items[id].robotId == robotId && Holds(s, id, robotId)
    requires id in s.failing && s.failing[id].FailWritten?
    ensures FailEnabled(s, FailCleanup(id)) && Drops(s, ApplyFail(s, FailCleanup(id)), id, robotId)
  {
    CleaningFrees(s, id, robotId);
    hide SetFailing, Cleanup;
  }

  lemma FinishDrops(s: State, id: string, robotId: string)
    requires id in s.items && s.items[id].robotId == robotId && Holds(s, id, robotId)
    requires id in s.stopMu && s.stopMu[id].Finished?
    ensures FinishEnabled(s, FinishCleanup(id)) && Drops(s, ApplyFinish(s, FinishCleanup(id)), id, robotId)
  {
    CleaningFrees(s, id, robotId);
    hide SetHolder, Cleanup;
  }

  lemma StopDrops(s: State, id: string, robotId: string)
    requires id in s.items && s.items[id].robotId == robotId && Holds(s, id, robotId)
    requires id in s.stopMu && s.stopMu[id].StopSafe?
    ensures StopEnabled(s, StopCleanup(id)) && Drops(s, ApplyStop(s, StopCleanup(id)), id, robotId)
  {
    CleaningFrees(s, id, robotId);
    hide SetHolder, Cleanup;
  }

  /** The execution has the claim on the robot, owns its lock and is not over. */
  predicate OnRobot(s: State, id: string, robotId: string) {
    Live(s, id) && s.items[id].robotId == robotId && Holds(s, id, robotId) && OwnsLock(s, id)
  }

  lemma FailureSaved(s: State, id: string, robotId: string, held: bool, since: bool)
    requires OnRobot(s, id, robotId) && id in s.failing && s.failing[id] == FailRead(held, since)
    ensures GivesUpLocked(s, [OfFail(FailSave(s.items[id], true))], OfFail(FailCleanup(id)), id, robotId)
  {
    var t := Failing(Stored(s, s.items[id].(status := Store.Failed)), id, FailWritten(held, since));
    SavingFailure(s, id, held, since);
    assert Holds(t, id, robotId) && OwnsLock(t, id);
    hide ApplyFail, FailEnabled, GivesUpLocked;
    FailureDrops(t, id, robotId);
    GivesUpNow(t, OfFail(FailCleanup(id)), id, robotId);
    GivesUpAfter(s, OfFail(FailSave(s.items[id], true)), t, [], OfFail(FailCleanup(id)), id, robotId);
    assert [OfFail(FailSave(s.items[id], true))] + [] == [OfFail(FailSave(s.items[id], true))];
  }

  lemma FailureRead(s: State, id: string, robotId: string, held: bool, since: bool) returns (steps: seq<Step>)
    requires OnRobot(s, id, robotId) && id in s.failing && s.failing[id] == FailChosen(held, since)
    ensures GivesUpLocked(s, steps, OfFail(FailCleanup(id)), id, robotId)
  {
    var t := Failing(s, id, FailRead(held, since));
    ReadingForFail(s, id, held, since);
    assert OnRobot(t, id, robotId);
    hide ApplyFail, FailEnabled, GivesUpLocked, OnRobot;
    FailureSaved(t, id, robotId, held, since);
    var save := OfFail(FailSave(t.items[id], true));
    GivesUpAfter(s, OfFail(ReadForFail(id)), t, [save], OfFail(FailCleanup(id)), id, robotId);
    steps := [OfFail(ReadForFail(id))] + [OfFail(FailSave(t.items[id], true))];
  }

  /** The lock is held when the flag is read down: the failure counts as early, and gives the robot up. */
  lemma EarlyFailureOverHeldLock(s: State, id: string, robotId: string, action: string) returns (steps: seq<Step>)
    requires Up(s, id, robotId) && action !in s.owners
    ensures GivesUpLocked(s, steps, OfFail(FailCleanup(id)), id, robotId)
  {
    var take, choose := OfHandler(PhysicalStart(id, action)), OfFail(ChooseFail(id));
    var s1 := Locked(s, id, robotId, action);
    var s2 := Failing(s1, id, FailChosen(true, false));
    Taking(s, id, robotId, action);
    Choosing(s1, id);
    LockedOwns(s, id, robotId, action);
    assert OnRobot(s2, id, robotId);
    hide ApplyHandler, HandlerEnabled, ApplyFail, FailEnabled, GivesUpLocked, OnRobot;
    var rest := FailureRead(s2, id, robotId, true, false);
    GivesUpAfter(s1, choose, s2, rest, OfFail(FailCleanup(id)), id, robotId);
    GivesUpAfter(s, take, s1, [choose] + rest, OfFail(FailCleanup(id)), id, robotId);
    steps := [take] + ([choose] + rest);
  }

  /** The lock is free when the flag is read, and taken before the failure is written. */
  lemma EarlyFailureOverLaterLock(s: State, id: string, robotId: string, action: string) returns (steps: seq<Step>)
    requires Up(s, id, robotId) && action !in s.owners
    ensures GivesUpLocked(s, steps, OfFail(FailCleanup(id)), id, robotId)
    ensures !OwnsLock(s, id) && steps != [] && steps[0] == OfFail(ChooseFail(id))
  {
    var take, choose := OfHandler(PhysicalStart(id, action)), OfFail(ChooseFail(id));
    var s1 := Failing(s, id, FailChosen(false, false));
    var s2 := Failing(Locked(s1, id, robotId, action), id, FailChosen(false, true));
    Choosing(s, id);
    TakingNoted(s1, id, robotId, action);
    LockedOwns(s, id, robotId, action);
    assert OnRobot(s2, id, robotId);
    hide ApplyHandler, HandlerEnabled, ApplyFail, FailEnabled, GivesUpLocked, OnRobot;
    var rest := FailureRead(s2, id, robotId, false, true);
    GivesUpAfter(s1, take, s2, rest, OfFail(FailCleanup(id)), id, robotId);
    GivesUpAfter(s, choose, s1, [take] + rest, OfFail(FailCleanup(id)), id, robotId);
    steps := [choose] + ([take] + rest);
  }

  lemma VerdictSaved(s: State, id: string, robotId: string)
    requires OnRobot(s, id, robotId) && id in s.stopMu && s.stopMu[id] == Finishing(Store.Completed, true)
    ensures GivesUpLocked(s, [OfFinish(FinishSave(s.items[id], true))], OfFinish(FinishCleanup(id)), id, robotId)
  {
    var t := Held(Stored(s, s.items[id].(status := Store.Completed)), id, Finished(true));
    SavingVerdict(s, id, true);
    assert Holds(t, id, robotId) && OwnsLock(t, id);
    hide ApplyFinish, FinishEnabled, GivesUpLocked;
    FinishDrops(t, id, robotId);
    GivesUpNow(t, OfFinish(FinishCleanup(id)), id, robotId);
    GivesUpAfter(s, OfFinish(FinishSave(s.items[id], true)), t, [], OfFinish(FinishCleanup(id)), id, robotId);
    assert [OfFinish(FinishSave(s.items[id], true))] + [] == [OfFinish(FinishSave(s.items[id], true))];
  }

  lemma VerdictThenLock(s: State, id: string, robotId: string, action: string) returns (steps: seq<Step>)
    requires Live(s, id) && Holds(s, id, robotId) && CanTake(s, id, robotId, action) && id !in s.failing
    requires id in s.stopMu && s.stopMu[id] == Finishing(Store.Completed, false)
    ensures GivesUpLocked(s, steps, OfFinish(FinishCleanup(id)), id, robotId)
  {
    var take := OfHandler(PhysicalStart(id, action));
    var t := Held(Locked(s, id, robotId, action), id, Finishing(Store.Completed, true));
    TakingNoted(s, id, robotId, action);
    LockedOwns(s, id, robotId, action);
    assert OnRobot(t, id, robotId);
    hide ApplyHandler, HandlerEnabled, GivesUpLocked, OnRobot;
    VerdictSaved(t, id, robotId);
    steps := [take] + [OfFinish(FinishSave(t.items[id], true))];
    GivesUpAfter(s, take, t, [OfFinish(FinishSave(t.items[id], true))], OfFinish(FinishCleanup(id)), id, robotId);
  }

  /** A completed worker's action takes the lock between its verdict and the write of it. */
  lemma CompletionOverLaterLock(s: State, id: string, robotId: string, action: string) returns (steps: seq<Step>)
    requires Up(s, id, robotId) && action !in s.owners
    ensures GivesUpLocked(s, steps, OfFinish(FinishCleanup(id)), id, robotId)
  {
    var read, decide := OfFinish(ReadForFinish(id)), OfFinish(FinishDecide(s.items[id], Store.Completed, true));
    var s1 := Held(s, id, FinishRead);
    var s2 := Held(s1, id, Finishing(Store.Completed, false));
    ReadingForFinish(s, id);
    Deciding(s1, id);
    hide ApplyFinish, FinishEnabled, GivesUpLocked;
    var rest := VerdictThenLock(s2, id, robotId, action);
    GivesUpAfter(s1, decide, s2, rest, OfFinish(FinishCleanup(id)), id, robotId);
    GivesUpAfter(s, read, s1, [decide] + rest, OfFinish(FinishCleanup(id)), id, robotId);
    steps := [read] + ([decide] + rest);
  }

  lemma StopConcluded(s: State, id: string, robotId: string)
    requires OnRobot(s, id, robotId) && id in s.stopMu && s.stopMu[id] == StopMarked
    ensures var conclude := OfStop(StopConclude(s.items[id], Answered(true), true));
      GivesUpLocked(s, [conclude], OfStop(StopCleanup(id)), id, robotId)
  {
    var e := s.items[id];
    var t := Held(Stored(s, e.(stopOutcome := Some(true), status := Store.Stopped)), id, StopSafe(true, false));
    Concluding(s, id, e);
    assert Holds(t, id, robotId) && OwnsLock(t, id);
    hide ApplyStop, StopEnabled, GivesUpLocked;
    StopDrops(t, id, robotId);
    GivesUpNow(t, OfStop(StopCleanup(id)), id, robotId);
    GivesUpAfter(s, OfStop(StopConclude(e, Answered(true), true)), t, [], OfStop(StopCleanup(id)), id, robotId);
    assert [OfStop(StopConclude(e, Answered(true), true))] + [] == [OfStop(StopConclude(e, Answered(true), true))];
  }

  lemma StopWhileLocked(s: State, id: string, robotId: string) returns (steps: seq<Step>)
    requires OnRobot(s, id, robotId) && id in s.fetched && id !in s.stopMu
    ensures GivesUpLocked(s, steps, OfStop(StopCleanup(id)), id, robotId)
  {
    var enter, mark := OfStop(StopEnter(id)), OfStop(StopMark(s.items[id], true));
    var s1 := Held(s, id, StopEntered);
    var s2 := Held(Stored(s1, s.items[id].(status := Store.Stopping)), id, StopMarked);
    Entering(s, id);
    Marking(s1, id);
    assert OnRobot(s2, id, robotId);
    hide ApplyStop, StopEnabled, GivesUpLocked, OnRobot;
    StopConcluded(s2, id, robotId);
    var rest := [OfStop(StopConclude(s2.items[id], Answered(true), true))];
    GivesUpAfter(s1, mark, s2, rest, OfStop(StopCleanup(id)), id, robotId);
    GivesUpAfter(s, enter, s1, [mark] + rest, OfStop(StopCleanup(id)), id, robotId);
    steps := [enter] + ([mark] + rest);
  }

  /** The worker answers that the stop was safe while its action still holds the lock. */
  lemma SafeStopOverHeldLock(s: State, id: string, robotId: string, action: string) returns (steps: seq<Step>)
    requires Up(s, id, robotId) && action !in s.owners
    ensures GivesUpLocked(s, steps, OfStop(StopCleanup(id)), id, robotId)
  {
    var take, look := OfHandler(PhysicalStart(id, action)), OfStop(StopFetch(id));
    var s1 := Locked(s, id, robotId, action);
    var s2 := s1.(fetched := s1.fetched + {id});
    Taking(s, id, robotId, action);
    LockedOwns(s, id, robotId, action);
    assert Leads(s1, look, s2) && OnRobot(s2, id, robotId);
    hide ApplyHandler, HandlerEnabled, ApplyStop, StopEnabled, GivesUpLocked, OnRobot;
    var rest := StopWhileLocked(s2, id, robotId);
    GivesUpAfter(s1, look, s2, rest, OfStop(StopCleanup(id)), id, robotId);
    GivesUpAfter(s, take, s1, [look] + rest, OfStop(StopCleanup(id)), id, robotId);
    steps := [take] + ([look] + rest);
  }

  /** A new execution gets there: booting over nothing, claiming, recording, launching and marking. */
  lemma UpIsReachable(e: Store.Skill) returns (steps: seq<Step>)
    ensures History(Boot(map[], map[], map[]), steps)
    ensures var s := SkillRuntime.Run(Boot(map[], map[], map[]), steps);
      Up(s, e.id, e.robotId) && s.owners == map[]
  {
    hide History, SkillRuntime.Run;
    var boot := Boot(map[], map[], map[]);
    var claim, record := OfStart(Claim(e.id, e.robotId)), OfStart(Record(e, true));
    var launch, mark := OfStart(LaunchWorker(e, true, true)), OfStart(MarkRunning(e, true));
    var s0 := boot.(booted := true);
    assert RecoverEnabled(boot, Booted) && ApplyRecover(boot, Booted) == s0;
    var s1 := s0.(activeRobots := map[e.robotId := e.id], starting := map[e.id := Claimed(e.robotId)]);
    assert StartEnabled(s0, claim.start) && ApplyStart(s0, claim.start) == s1;
    Recording(s1, e);
    var s2 := s1.(items := map[e.id := e.(status := Store.Starting)], starting := map[e.id := Recorded(e.robotId)]);
    var s3 := s2.(active := map[e.id := false], starting := map[e.id := Registered(e.robotId)]);
    assert StartEnabled(s2, launch.start) && ApplyStart(s2, launch.start) == s3;
    MarkingRunning(s3, e);
    hide ApplyStart, StartEnabled, ApplyRecover, RecoverEnabled;
    var s4 := s3.(items := map[e.id := e.(status := Store.Running)], starting := map[], running := {e.id});
    ReachesItself(s4);
    ReachesFrom(s3, mark, s4, [], s4);
    ReachesFrom(s2, launch, s3, [mark] + [], s4);
    ReachesFrom(s1, record, s2, [launch] + ([mark] + []), s4);
    ReachesFrom(s0, claim, s1, [record] + ([launch] + ([mark] + [])), s4);
    ReachesFrom(boot, OfRecover(Booted), s0, [claim] + ([record] + ([launch] + ([mark] + []))), s4);
    steps := [OfRecover(Booted)] + ([claim] + ([record] + ([launch] + ([mark] + []))));
  }

  lemma Recording(s: State, e: Store.Skill)
    requires s.items == map[] && s.starting == map[e.id := Claimed(e.robotId)]
    ensures StartEnabled(s, Record(e, true))
    ensures ApplyStart(s, Record(e, true)) ==
      s.(items := map[e.id := e.(status := Store.Starting)], starting := map[e.id := Recorded(e.robotId)])
  {
  }

  lemma MarkingRunning(s: State, e: Store.Skill)
    requires s.items == map[e.id := e.(status := Store.Starting)] && s.starting == map[e.id := Registered(e.robotId)]
    requires s.running == {}
    ensures StartEnabled(s, MarkRunning(e, true))
    ensures ApplyStart(s, MarkRunning(e, true)) ==
      s.(items := map[e.id := e.(status := Store.Running)], starting := map[], running := {e.id})
  {
    var t := SkillRuntime.Write(s, e, Store.Running, true);
    assert t == s.(items := map[e.id := e.(status := Store.Running)]);
    hide SkillRuntime.Write;
    assert map[e.id := Registered(e.robotId)] - {e.id} == map[];
  }
}
