/** Histories in which an execution is over for the runtime while the store says something else. */
module SkillEndings {
  import opened Common
  import Store = SkillStore
  import opened SkillRuntime
  import opened SkillRuntimeCalls
  import opened SkillLockHistories

  /** A stop with no current action, answered as safe, with every write working. */
  const SAFE_STOP := StopEnv([], Answered(true), true, true)

  /** An interrupted execution, looked up by a stop. */
  function InterruptedAndFetched(s: State, id: string): State
    requires id in s.items
  {
    s.(items := s.items[id := s.items[id].(status := Store.Interrupted)], fetched := s.fetched + {id})
  }

  lemma GetsInterrupted(s: State, id: string, robotId: string) returns (steps: seq<Step>)
    requires Up(s, id, robotId)
    ensures Reaches(s, steps, InterruptedAndFetched(s, id))
  {
    var interrupt, look := OfHandler(Interrupt(s.items[id], true)), OfStop(StopFetch(id));
    var s1 := s.(items := s.items[id := s.items[id].(status := Store.Interrupted)]);
    var s2 := InterruptedAndFetched(s, id);
    assert Leads(s, interrupt, s1) && Leads(s1, look, s2);
    hide Leads, Reaches, Up, InterruptedAndFetched;
    ReachesItself(s2);
    ReachesFrom(s1, look, s2, [], s2);
    ReachesFrom(s, interrupt, s1, [look] + [], s2);
    steps := [interrupt] + ([look] + []);
  }

  /** A running execution is interrupted and then stopped safely: the stop deregisters it, frees its
      robot and reports stopped, and the store keeps interrupted. */
  lemma SafeStopOverInterrupted(s: State, id: string, robotId: string) returns (steps: seq<Step>, before: State)
    requires Up(s, id, robotId)
    ensures Reaches(s, steps, before) && Own(before, id)
    ensures var (t, reported) := Stop(before, id, SAFE_STOP);
      && Reaches(before, StopSteps(before, id, SAFE_STOP), t)
      && reported == Store.Stopped && id in t.items && t.items[id].status == Store.Interrupted
      && id !in t.active && !Holds(t, id, robotId)
  {
    steps := GetsInterrupted(s, id, robotId);
    before := InterruptedAndFetched(s, id);
    assert Own(before, id) && Holds(before, id, robotId) && ActionsStop(SAFE_STOP);
    hide Reaches, Stop, StopSteps;
    StopIsItsSteps(before, id, SAFE_STOP);
    StopOutcome(before, id, SAFE_STOP);
  }

  /** A running execution completes and the write of that fails: it is deregistered and its robot is
      free, the store keeps running, and the next boot takes it for one to be recovered. */
  lemma CompletedButStoredRunning(s: State, id: string, robotId: string) returns (steps: seq<Step>, t: State)
    requires Up(s, id, robotId)
    ensures Reaches(s, steps, t)
    ensures id !in t.active && !Holds(t, id, robotId)
    ensures id in t.items && t.items[id] == s.items[id] && t.items[id].status == Store.Running
    ensures id in Boot(t.items, map[], t.owners).recoverable
  {
    steps, t := FinishSteps(s, id, Store.Completed, false), Finish(s, id, Store.Completed, false);
    assert Own(s, id) && !OwnsLock(s, id);
    FinishIsItsSteps(s, id, Store.Completed, false);
    FinishOutcome(s, id, Store.Completed, false);
    hide Reaches, FinishSteps;
  }
}
