/** The runtime object: the critical sections and calls of the skill runtime over its own fields,
    each one moving the whole state as the corresponding steps do when nothing runs between them. */
module SkillRuntimeCalls {
  import opened Common
  import opened SkillStore
  import opened SkillRuntime

  /** A worker's run has returned and nothing else happens until its end is settled. */
  function Finish(s: State, id: string, verdict: Status, saves: bool): State
    requires id in s.items
  {
    var e := s.items[id];
    if e.status == Stopping || Terminal(e.status) then s
    else if OwnsLock(s, id) then SkillRuntime.Write(s, e, Interrupted, saves)
    else if verdict == Completed || verdict == Failed then Cleanup(SkillRuntime.Write(s, e, verdict, saves), id)
    else if verdict == Stopping then s
    else SkillRuntime.Write(s, e, Interrupted, saves)
  }

  /** What a stop meets: whether each current action stopped, the worker's answer, and the two writes. */
  datatype StopEnv = StopEnv(actions: seq<bool>, reply: Reply, marks: bool, saves: bool)

  predicate ActionsStop(env: StopEnv) {
    forall stopped <- env.actions :: stopped
  }

  /** A stop, undisturbed up to its end; the result is what it reports. */
  function Stop(s: State, id: string, env: StopEnv): (State, Status)
    requires id in s.items && s.items[id].id == id
  {
    var e := s.items[id];
    if Terminal(e.status) && e.status != Interrupted then (s, e.status)
    else if id !in s.active then (SkillRuntime.Write(s, e, Interrupted, env.saves), Interrupted)
    else EndStop(SkillRuntime.Write(s, e, Stopping, env.marks), e, env)
  }

  /** The rest of a stop, once the execution is marked as stopping. */
  function EndStop(s: State, e: Skill, env: StopEnv): (State, Status)
    requires e.id in s.items
  {
    if !ActionsStop(env) then (SkillRuntime.Write(s, e, Interrupted, env.saves), Interrupted)
    else if SafelyStopped(s, e.id, env.reply) then
      (Cleanup(SkillRuntime.Write(s, e.(stopOutcome := Some(true)), Stopped, env.saves), e.id), Stopped)
    else (SkillRuntime.Write(s, e.(stopOutcome := Evidence(e, env.reply)), Interrupted, env.saves), Interrupted)
  }

  // ---------- the calls are their steps ----------

  /** Moving the stop mutex on and writing or cleaning up do not get in each other's way. */
  lemma WriteCommutes(s: State, k: string, holder: Option<Holder>, e: Skill, status: Status, saves: bool)
    ensures SkillRuntime.Write(SetHolder(s, k, holder), e, status, saves)
         == SetHolder(SkillRuntime.Write(s, e, status, saves), k, holder)
  {
  }

  lemma CleanupCommutes(s: State, k: string, holder: Option<Holder>, id: string)
    requires id in s.items
    ensures Cleanup(SetHolder(s, k, holder), id) == SetHolder(Cleanup(s, id), k, holder)
  {
  }

  lemma HolderReplaced(s: State, k: string, first: Option<Holder>, second: Option<Holder>)
    ensures SetHolder(SetHolder(s, k, first), k, second) == SetHolder(s, k, second)
    ensures k !in s.stopMu ==> SetHolder(s, k, None) == s
  {
    assert k !in s.stopMu ==> s.stopMu - {k} == s.stopMu;
  }

  /** A write by the holder of the mutex, who then passes to another stage. */
  lemma WriteAndPass(s: State, first: Option<Holder>, second: Option<Holder>, e: Skill, status: Status, saves: bool)
    ensures SetHolder(SkillRuntime.Write(SetHolder(s, e.id, first), e, status, saves), e.id, second)
         == SetHolder(SkillRuntime.Write(s, e, status, saves), e.id, second)
  {
    WriteCommutes(s, e.id, first, e, status, saves);
    HolderReplaced(SkillRuntime.Write(s, e, status, saves), e.id, first, second);
    hide SkillRuntime.Write, SetHolder;
  }

  lemma CleanupAndLeave(s: State, id: string, holder: Option<Holder>)
    requires id in s.items && id !in s.stopMu
    ensures SetHolder(Cleanup(SetHolder(s, id, holder), id), id, None) == Cleanup(s, id)
  {
    CleanupCommutes(s, id, holder, id);
    HolderReplaced(Cleanup(s, id), id, holder, None);
    hide Cleanup, SetHolder;
  }

  /** What a run that may be settled, or an execution that may be stopped, brings along. */
  predicate Own(s: State, id: string) {
    id in s.items && s.items[id].id == id && id !in s.stopMu
  }

  lemma FinishReads(s: State, id: string)
    requires Own(s, id) && id in s.running && s.items[id].status != Stopping && !Terminal(s.items[id].status)
    ensures Leads(s, OfFinish(ReadForFinish(id)), SetHolder(s, id, Some(FinishRead)))
  {
    hide SetHolder;
  }

  lemma FinishDecides(s: State, id: string, verdict: Status, saves: bool)
    requires Own(s, id)
    ensures var decided := if OwnsLock(s, id) then SkillRuntime.Write(s, s.items[id], Interrupted, saves)
        else if verdict == Completed || verdict == Failed then SetHolder(s, id, Some(Finishing(verdict, false)))
        else if verdict == Stopping then s
        else SkillRuntime.Write(s, s.items[id], Interrupted, saves);
      Leads(SetHolder(s, id, Some(FinishRead)), OfFinish(FinishDecide(s.items[id], verdict, saves)), decided)
  {
    var t := SetHolder(s, id, Some(FinishRead));
    HolderReplaced(s, id, Some(FinishRead), None);
    HolderReplaced(s, id, Some(FinishRead), Some(Finishing(verdict, false)));
    assert OwnsLock(t, id) == OwnsLock(s, id);
    assert FinishEnabled(t, FinishDecide(s.items[id], verdict, saves));
    hide SkillRuntime.Write, OwnsLock, SetHolder, FinishEnabled;
  }

  lemma FinishSaves(s: State, id: string, verdict: Status, saves: bool)
    requires Own(s, id)
    ensures Leads(SetHolder(s, id, Some(Finishing(verdict, false))), OfFinish(FinishSave(s.items[id], saves)),
                  SetHolder(SkillRuntime.Write(s, s.items[id], verdict, saves), id, Some(Finished(false))))
  {
    assert FinishEnabled(SetHolder(s, id, Some(Finishing(verdict, false))), FinishSave(s.items[id], saves));
    WriteAndPass(s, Some(Finishing(verdict, false)), Some(Finished(false)), s.items[id], verdict, saves);
    assert SetHolder(s, id, Some(Finishing(verdict, false))).stopMu[id] == Finishing(verdict, false);
    hide SkillRuntime.Write, SetHolder, FinishEnabled;
  }

  lemma FinishCleans(s: State, id: string)
    requires Own(s, id)
    ensures Leads(SetHolder(s, id, Some(Finished(false))), OfFinish(FinishCleanup(id)), Cleanup(s, id))
  {
    assert FinishEnabled(SetHolder(s, id, Some(Finished(false))), FinishCleanup(id));
    CleanupAndLeave(s, id, Some(Finished(false)));
    hide Cleanup, SetHolder, FinishEnabled;
  }

  function FinishSteps(s: State, id: string, verdict: Status, saves: bool): seq<Step>
    requires id in s.items
  {
    var e := s.items[id];
    var read, decide := OfFinish(ReadForFinish(id)), OfFinish(FinishDecide(e, verdict, saves));
    if e.status == Stopping || Terminal(e.status) then [read] + []
    else if !OwnsLock(s, id) && (verdict == Completed || verdict == Failed) then
      [read] + ([decide] + ([OfFinish(FinishSave(e, saves))] + ([OfFinish(FinishCleanup(id))] + [])))
    else [read] + ([decide] + [])
  }

  lemma FinishWritesAndCleans(s: State, id: string, verdict: Status, saves: bool)
    requires Own(s, id)
    ensures Reaches(SetHolder(s, id, Some(Finishing(verdict, false))),
      [OfFinish(FinishSave(s.items[id], saves))] + ([OfFinish(FinishCleanup(id))] + []),
      Cleanup(SkillRuntime.Write(s, s.items[id], verdict, saves), id))
  {
    var written := SkillRuntime.Write(s, s.items[id], verdict, saves);
    assert Own(written, id);
    FinishSaves(s, id, verdict, saves);
    FinishCleans(written, id);
    hide Leads, Reaches, SkillRuntime.Write, Cleanup, SetHolder, OwnsLock;
    ReachesItself(Cleanup(written, id));
    ReachesFrom(SetHolder(written, id, Some(Finished(false))), OfFinish(FinishCleanup(id)), Cleanup(written, id), [],
      Cleanup(written, id));
    ReachesFrom(SetHolder(s, id, Some(Finishing(verdict, false))), OfFinish(FinishSave(s.items[id], saves)),
      SetHolder(written, id, Some(Finished(false))), [OfFinish(FinishCleanup(id))] + [], Cleanup(written, id));
  }

  /** A run whose end is judged, after its record has been read. */
  lemma JudgedFinishIsItsSteps(s: State, id: string, verdict: Status, saves: bool)
    requires Own(s, id) && id in s.running && s.items[id].status != Stopping && !Terminal(s.items[id].status)
    ensures Reaches(s, FinishSteps(s, id, verdict, saves), Finish(s, id, verdict, saves))
  {
    var e := s.items[id];
    var t := SetHolder(s, id, Some(FinishRead));
    var read, decide := OfFinish(ReadForFinish(id)), OfFinish(FinishDecide(e, verdict, saves));
    var end := Finish(s, id, verdict, saves);
    FinishReads(s, id);
    FinishDecides(s, id, verdict, saves);
    FinishWritesAndCleans(s, id, verdict, saves);
    hide Leads, Reaches, SkillRuntime.Write, Cleanup, SetHolder, OwnsLock, Own, Terminal;
    if !OwnsLock(s, id) && (verdict == Completed || verdict == Failed) {
      var tail := [OfFinish(FinishSave(e, saves))] + ([OfFinish(FinishCleanup(id))] + []);
      ReachesFrom(t, decide, SetHolder(s, id, Some(Finishing(verdict, false))), tail, end);
      ReachesFrom(s, read, t, [decide] + tail, end);
    } else {
      ReachesItself(end);
      ReachesFrom(t, decide, end, [], end);
      ReachesFrom(s, read, t, [decide] + [], end);
    }
  }

  /** Settling a run at once is its steps one after the other, in every branch. */
  lemma FinishIsItsSteps(s: State, id: string, verdict: Status, saves: bool)
    requires Own(s, id) && id in s.running
    ensures Reaches(s, FinishSteps(s, id, verdict, saves), Finish(s, id, verdict, saves))
  {
    var e := s.items[id];
    if e.status == Stopping || Terminal(e.status) {
      ReachesItself(s);
      ReachesFrom(s, OfFinish(ReadForFinish(id)), s, [], s);
    } else {
      JudgedFinishIsItsSteps(s, id, verdict, saves);
    }
  }

  lemma StopEnters(s: State, id: string)
    requires Own(s, id) && id in s.fetched && !(Terminal(s.items[id].status) && !s.items[id].status.Interrupted?)
    ensures Leads(s, OfStop(StopEnter(id)), SetHolder(s, id, Some(StopEntered)))
  {
    hide SetHolder;
  }

  lemma StopMarks(s: State, id: string, marks: bool)
    requires Own(s, id)
    ensures Leads(SetHolder(s, id, Some(StopEntered)), OfStop(StopMark(s.items[id], marks)),
                  SetHolder(SkillRuntime.Write(s, s.items[id], Stopping, marks), id, Some(StopMarked)))
  {
    assert StopEnabled(SetHolder(s, id, Some(StopEntered)), StopMark(s.items[id], marks));
    WriteAndPass(s, Some(StopEntered), Some(StopMarked), s.items[id], Stopping, marks);
    hide SkillRuntime.Write, SetHolder, StopEnabled;
  }

  /** The copy belongs to the stored record. */
  predicate CopyOf(s: State, e: Skill) {
    Own(s, e.id) && e.robotId == s.items[e.id].robotId
  }

  lemma StopGivesUp(s: State, e: Skill, saves: bool)
    requires CopyOf(s, e)
    ensures Leads(SetHolder(s, e.id, Some(StopMarked)), OfStop(StopGiveUp(e, saves)),
                  SkillRuntime.Write(s, e, Interrupted, saves))
  {
    assert StopEnabled(SetHolder(s, e.id, Some(StopMarked)), StopGiveUp(e, saves));
    WriteAndPass(s, Some(StopMarked), None, e, Interrupted, saves);
    HolderReplaced(SkillRuntime.Write(s, e, Interrupted, saves), e.id, None, None);
    assert SkillRuntime.Write(s, e, Interrupted, saves).stopMu == s.stopMu;
    hide SkillRuntime.Write, SetHolder, StopEnabled;
  }

  lemma StopConcludes(s: State, e: Skill, reply: Reply, saves: bool)
    requires CopyOf(s, e)
    ensures Leads(SetHolder(s, e.id, Some(StopMarked)), OfStop(StopConclude(e, reply, saves)),
      if SafelyStopped(s, e.id, reply) then
        SetHolder(SkillRuntime.Write(s, e.(stopOutcome := Some(true)), Stopped, saves), e.id,
                  Some(StopSafe(OwnsLock(s, e.id), false)))
      else SkillRuntime.Write(s, e.(stopOutcome := Evidence(e, reply)), Interrupted, saves))
  {
    var t := SetHolder(s, e.id, Some(StopMarked));
    assert StopEnabled(t, StopConclude(e, reply, saves));
    assert SafelyStopped(t, e.id, reply) == SafelyStopped(s, e.id, reply) && OwnsLock(t, e.id) == OwnsLock(s, e.id);
    hide StopEnabled, SafelyStopped, OwnsLock;
    if SafelyStopped(s, e.id, reply) {
      var safe := StopSafe(OwnsLock(s, e.id), false);
      WriteAndPass(s, Some(StopMarked), Some(safe), e.(stopOutcome := Some(true)), Stopped, saves);
      hide SkillRuntime.Write, SetHolder;
    } else {
      var unsure := e.(stopOutcome := Evidence(e, reply));
      WriteAndPass(s, Some(StopMarked), None, unsure, Interrupted, saves);
      HolderReplaced(SkillRuntime.Write(s, unsure, Interrupted, saves), e.id, None, None);
      assert SkillRuntime.Write(s, unsure, Interrupted, saves).stopMu == s.stopMu;
      hide SkillRuntime.Write, SetHolder;
    }
  }

  lemma StopCleans(s: State, id: string, held: bool)
    requires Own(s, id)
    ensures Leads(SetHolder(s, id, Some(StopSafe(held, false))), OfStop(StopCleanup(id)), Cleanup(s, id))
  {
    assert StopEnabled(SetHolder(s, id, Some(StopSafe(held, false))), StopCleanup(id));
    CleanupAndLeave(s, id, Some(StopSafe(held, false)));
    hide Cleanup, SetHolder, StopEnabled;
  }

  function StopSteps(s: State, id: string, env: StopEnv): seq<Step>
    requires id in s.items && s.items[id].id == id
  {
    var e := s.items[id];
    if Terminal(e.status) && e.status != Interrupted then [OfStop(StopEnter(id))] + []
    else if id !in s.active then [OfStop(StopUnknown(e, env.saves))] + []
    else
      [OfStop(StopEnter(id))]
      + ([OfStop(StopMark(e, env.marks))] + EndSteps(SkillRuntime.Write(s, e, Stopping, env.marks), e, env))
  }

  function EndSteps(s: State, e: Skill, env: StopEnv): seq<Step> {
    if !ActionsStop(env) then [OfStop(StopGiveUp(e, env.saves))] + []
    else if SafelyStopped(s, e.id, env.reply) then
      [OfStop(StopConclude(e, env.reply, env.saves))] + ([OfStop(StopCleanup(e.id))] + [])
    else [OfStop(StopConclude(e, env.reply, env.saves))] + []
  }

  lemma StopEnds(s: State, e: Skill, env: StopEnv)
    requires CopyOf(s, e)
    ensures Reaches(SetHolder(s, e.id, Some(StopMarked)), EndSteps(s, e, env), EndStop(s, e, env).0)
  {
    var t, end := SetHolder(s, e.id, Some(StopMarked)), EndStop(s, e, env).0;
    var giveUp, conclude := OfStop(StopGiveUp(e, env.saves)), OfStop(StopConclude(e, env.reply, env.saves));
    var stopped := SkillRuntime.Write(s, e.(stopOutcome := Some(true)), Stopped, env.saves);
    assert Own(stopped, e.id);
    StopGivesUp(s, e, env.saves);
    StopConcludes(s, e, env.reply, env.saves);
    StopCleans(stopped, e.id, OwnsLock(s, e.id));
    hide Leads, Reaches, SkillRuntime.Write, Cleanup, SetHolder, OwnsLock, SafelyStopped, ActionsStop;
    ReachesItself(end);
    if !ActionsStop(env) {
      ReachesFrom(t, giveUp, end, [], end);
    } else if SafelyStopped(s, e.id, env.reply) {
      var safe := SetHolder(stopped, e.id, Some(StopSafe(OwnsLock(s, e.id), false)));
      ReachesFrom(safe, OfStop(StopCleanup(e.id)), end, [], end);
      ReachesFrom(t, conclude, safe, [OfStop(StopCleanup(e.id))] + [], end);
    } else {
      ReachesFrom(t, conclude, end, [], end);
    }
  }

  lemma MarkedStopIsItsSteps(s: State, id: string, env: StopEnv)
    requires Own(s, id) && id in s.fetched && id in s.active
    requires !(Terminal(s.items[id].status) && !s.items[id].status.Interrupted?)
    ensures Reaches(s, StopSteps(s, id, env), Stop(s, id, env).0)
  {
    var e, end := s.items[id], Stop(s, id, env).0;
    var enter, mark := OfStop(StopEnter(id)), OfStop(StopMark(e, env.marks));
    var marked := SkillRuntime.Write(s, e, Stopping, env.marks);
    assert CopyOf(marked, e);
    StopEnters(s, id);
    StopMarks(s, id, env.marks);
    hide Leads, Reaches, SkillRuntime.Write, SetHolder, EndStop, EndSteps, CopyOf;
    StopEnds(marked, e, env);
    var tail := EndSteps(marked, e, env);
    ReachesFrom(SetHolder(s, id, Some(StopEntered)), mark, SetHolder(marked, id, Some(StopMarked)), tail, end);
    ReachesFrom(s, enter, SetHolder(s, id, Some(StopEntered)), [mark] + tail, end);
  }

  /** A stop at once is its steps one after the other, in every branch: nothing to stop, no worker, an
      action that does not stop, a safe and an unsafe answer. */
  lemma StopIsItsSteps(s: State, id: string, env: StopEnv)
    requires Own(s, id) && id in s.fetched
    ensures Reaches(s, StopSteps(s, id, env), Stop(s, id, env).0)
  {
    var e, end := s.items[id], Stop(s, id, env).0;
    if Terminal(e.status) && e.status != Interrupted {
      ReachesItself(s);
      ReachesFrom(s, OfStop(StopEnter(id)), s, [], s);
    } else if id !in s.active {
      var unknown := OfStop(StopUnknown(e, env.saves));
      assert Leads(s, unknown, end) by {
        hide SkillRuntime.Write;
      }
      ReachesItself(end);
      ReachesFrom(s, unknown, end, [], end);
    } else {
      MarkedStopIsItsSteps(s, id, env);
    }
    hide Leads, Reaches, SkillRuntime.Write, EndStop, EndSteps;
  }

  // ---------- how the calls turn out ----------

  /** A write by the holder of a current copy, as far as one execution goes. */
  lemma WriteStores(s: State, e: Skill, status: Status, saves: bool)
    requires e.id in s.items && e.robotId == s.items[e.id].robotId
    ensures var t := SkillRuntime.Write(s, e, status, saves);
      && t.items[e.id].robotId == e.robotId
      && (t.items[e.id].status == status <==>
            s.items[e.id].status == status || (saves && !Terminal(s.items[e.id].status)))
      && (t.items[e.id].status == status || t.items[e.id].status == s.items[e.id].status)
  {
  }

  lemma CleanupFrees(s: State, id: string)
    requires id in s.items
    ensures id !in Cleanup(s, id).active && !Holds(Cleanup(s, id), id, s.items[id].robotId)
  {
  }

  /** How the end of a run turns out. Only an open execution is decided; one with its own action on
      the robot stays registered and claimed; any other one that completed or failed is deregistered
      and frees the robot, whether or not its status could be stored, and is stored as over exactly if
      the write works. */
  predicate FinishedAs(s: State, id: string, verdict: Status, saves: bool, t: State)
    requires id in s.items && id in t.items
  {
    var open := !Terminal(s.items[id].status) && s.items[id].status != Stopping;
    var ends := open && !OwnsLock(s, id) && (verdict == Completed || verdict == Failed);
    && (!open ==> t == s)
    && (ends ==> id !in t.active && !Holds(t, id, s.items[id].robotId))
    && (ends && saves ==> t.items[id].status == verdict)
    && (ends ==> (Terminal(t.items[id].status) <==> saves) && (!saves ==> t.items == s.items))
    && (!ends ==> t.active == s.active && t.activeRobots == s.activeRobots)
    && (open && !ends && saves && verdict != Stopping ==> t.items[id].status == Interrupted)
  }

  lemma FinishOutcome(s: State, id: string, verdict: Status, saves: bool)
    requires id in s.items && s.items[id].id == id
    ensures id in Finish(s, id, verdict, saves).items
    ensures FinishedAs(s, id, verdict, saves, Finish(s, id, verdict, saves))
  {
    var e := s.items[id];
    WriteStores(s, e, Interrupted, saves);
    WriteStores(s, e, verdict, saves);
    CleanupFrees(SkillRuntime.Write(s, e, verdict, saves), id);
    hide SkillRuntime.Write, Cleanup, Holds, OwnsLock;
  }

  /** How a stop turns out, whichever writes work. The robot is freed exactly if every action stops and
      the answer or the stored evidence is safe; the stored status is then the reported one exactly if
      the last write works, except that an interrupted record stays interrupted. */
  lemma StopOutcome(s: State, id: string, env: StopEnv)
    requires id in s.items && s.items[id].id == id && id in s.active && Holds(s, id, s.items[id].robotId)
    requires !(Terminal(s.items[id].status) && s.items[id].status != Interrupted)
    ensures var (t, reported) := Stop(s, id, env);
      var safe := ActionsStop(env) && SafelyStopped(s, id, env.reply);
      var was := s.items[id].status == Interrupted;
      && id in t.items && reported == (if safe then Stopped else Interrupted)
      && (id !in t.active <==> safe) && (!Holds(t, id, s.items[id].robotId) <==> safe)
      && (t.items[id].status == reported <==> if safe then env.saves && !was else env.saves || was)
  {
    var e := s.items[id];
    var t := SkillRuntime.Write(s, e, Stopping, env.marks);
    var safe := e.(stopOutcome := Some(true));
    var unsafe := e.(stopOutcome := Evidence(e, env.reply));
    WriteStores(s, e, Stopping, env.marks);
    WriteStores(t, safe, Stopped, env.saves);
    WriteStores(t, unsafe, Interrupted, env.saves);
    WriteStores(t, e, Interrupted, env.saves);
    assert SafelyStopped(t, id, env.reply) == SafelyStopped(s, id, env.reply);
    CleanupFrees(SkillRuntime.Write(t, safe, Stopped, env.saves), id);
    hide SkillRuntime.Write, Cleanup, SafelyStopped, ActionsStop;
  }

  class Runtime {
    var items: map<string, Skill>
    var active: map<string, bool>
    var activeRobots: map<string, string>
    var locks: map<string, string>
    var owners: map<string, string>
    ghost var rest: State

    /** The fields, and beside them the phases of the other calls in progress. */
    ghost function View(): State
      reads this
    {
      rest.(items := items, active := active, activeRobots := activeRobots, locks := locks, owners := owners)
    }

    /** The part of start under the runtime's mutex. */
    method Admit(id: string, robotId: string) returns (admitted: bool)
      requires View().booted && id !in items && id !in View().starting
      modifies this`activeRobots, this`rest
      ensures admitted == (robotId !in old(activeRobots) && robotId !in locks)
      ensures View() == if admitted then ApplyStart(old(View()), Claim(id, robotId)) else old(View())
    {
      if robotId in activeRobots || robotId in locks {
        return false;
      }
      activeRobots := activeRobots[robotId := id];
      rest := SetPhase(rest, id, Claimed(robotId));
      return true;
    }

    method ReleaseClaim(robotId: string, id: string)
      modifies this`activeRobots
      ensures View() == ReleaseRobot(old(View()), robotId, id)
    {
      if robotId in activeRobots && activeRobots[robotId] == id {
        activeRobots := activeRobots - {robotId};
      }
    }

    method CleanUp(id: string)
      requires id in items
      modifies this`active, this`activeRobots
      ensures View() == Cleanup(old(View()), id)
    {
      active := active - {id};
      ReleaseClaim(items[id].robotId, id);
    }

    method SaveStatus(e: Skill, status: Status, saves: bool)
      modifies this`items
      ensures View() == SkillRuntime.Write(old(View()), e, status, saves)
    {
      var f := e.(status := status);
      if saves && !(f.id in items && Terminal(items[f.id].status) && items[f.id].status != f.status) {
        items := items[f.id := f];
      }
    }

    /** The end of a worker's run; the stop mutex is held throughout. */
    method FinishRun(id: string, verdict: Status, saves: bool)
      requires id in items && items[id].id == id
      modifies this
      ensures View() == Finish(old(View()), id, verdict, saves)
    {
      var e := items[id];
      if e.status == Stopping || Terminal(e.status) {
        return;
      }
      if e.robotId in locks && locks[e.robotId] in owners && owners[locks[e.robotId]] == id {
        SaveStatus(e, Interrupted, saves);
        return;
      }
      if verdict == Stopping {
        return;
      }
      if verdict != Completed && verdict != Failed {
        SaveStatus(e, Interrupted, saves);
        return;
      }
      SaveStatus(e, verdict, saves);
      CleanUp(id);
    }

    /** A stop; env says which of the current actions stop and what the worker answers. */
    method StopExecution(id: string, env: StopEnv) returns (reported: Status)
      requires id in items && items[id].id == id
      modifies this
      ensures (View(), reported) == Stop(old(View()), id, env)
    {
      var e := items[id];
      if Terminal(e.status) && e.status != Interrupted {
        return e.status;
      }
      if id !in active {
        SaveStatus(e, Interrupted, env.saves);
        return Interrupted;
      }
      SaveStatus(e, Stopping, env.marks);
      for k := 0 to |env.actions|
        invariant View() == SkillRuntime.Write(old(View()), e, Stopping, env.marks)
        invariant forall j :: 0 <= j < k ==> env.actions[j]
      {
        if !env.actions[k] {
          assert env.actions[k] in env.actions;
          SaveStatus(e, Interrupted, env.saves);
          return Interrupted;
        }
      }
      if env.reply == Answered(true) || (env.reply == Unanswered(true) && e.stopOutcome == Some(true)) {
        SaveStatus(e.(stopOutcome := Some(true)), Stopped, env.saves);
        CleanUp(id);
        return Stopped;
      }
      SaveStatus(e.(stopOutcome := Evidence(e, env.reply)), Interrupted, env.saves);
      return Interrupted;
    }
  }
}
