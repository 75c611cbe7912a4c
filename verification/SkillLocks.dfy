/** What the physical lock says at the moment an execution gives its robot up: over every history, and
    with the histories in which the robot is given up although an action of the execution holds it. */
module SkillLocks {
  import opened Common
  import Store = SkillStore
  import opened SkillRuntime

  /** No action was ever started for this execution. */
  predicate Actionless(s: State, id: string) {
    forall action <- s.owners :: s.owners[action] != id
  }

  /** Its worker has not been run: not recorded yet, or still being started. */
  predicate Unborn(s: State, id: string) {
    id !in s.items || (id in s.starting && !s.starting[id].Recovered?)
  }

  /** The notes taken with a standing judgement admit that the lock may be held: a verdict is given
      without it, an early failure or a safe stop may be judged with it. */
  predicate Admits(s: State, id: string) {
    && (id in s.stopMu && s.stopMu[id].Finishing? ==> s.stopMu[id].startedSince)
    && (id in s.stopMu && s.stopMu[id].Finished? ==> s.stopMu[id].startedSince)
    && (id in s.stopMu && s.stopMu[id].StopSafe? ==> s.stopMu[id].held || s.stopMu[id].startedSince)
    && (id in s.failing ==> s.failing[id].held || s.failing[id].startedSince)
  }

  predicate Watched(s: State, id: string) {
    && (OwnsLock(s, id) ==> Admits(s, id))
    && (Unborn(s, id) ==> Actionless(s, id))
    && (id in s.running ==> !Unborn(s, id))
  }

  ghost predicate AllWatched(s: State) {
    forall id :: Watched(s, id)
  }

  predicate Takes(step: Step, id: string) {
    step.OfHandler? && step.handler.PhysicalStart? && step.handler.id == id
  }

  /** The action that holds the robot of this execution is over, or declared so. */
  predicate Frees(s: State, step: Step, id: string) {
    && step.OfHandler? && step.handler.PhysicalEnd?
    && id in s.items && s.items[id].robotId == step.handler.robotId
  }

  /** Records are never lost and keep their robot. */
  predicate KeepsRecord(s: State, t: State, id: string) {
    id in s.items ==> id in t.items && t.items[id].robotId == s.items[id].robotId
  }

  predicate SameLocks(s: State, t: State, id: string) {
    s.locks == t.locks && s.owners == t.owners && KeepsRecord(s, t, id)
  }

  /** With the same locks and owners an execution owns its lock only if it did before. */
  lemma SameLocksOwn(s: State, t: State, id: string)
    requires SameLocks(s, t, id) && (id !in s.items ==> Actionless(s, id))
    ensures OwnsLock(t, id) <==> OwnsLock(s, id)
  {
  }

  lemma WriteKeepsRecord(s: State, e: Store.Skill, status: Store.Status, saves: bool, id: string)
    requires e.id in s.items ==> e.robotId == s.items[e.id].robotId
    ensures KeepsRecord(s, SkillRuntime.Write(s, e, status, saves), id)
    ensures id in SkillRuntime.Write(s, e, status, saves).items ==> id in s.items || id == e.id
  {
  }

  /** What starting and recovering leave alone: locks, owners and judgements; and nothing becomes unborn
      again, or runs while it is. */
  predicate Quiet(s: State, t: State, id: string) {
    && SameLocks(s, t, id) && t.stopMu == s.stopMu && t.failing == s.failing
    && (Unborn(t, id) ==> Unborn(s, id))
    && (id in t.running ==> id in s.running || !Unborn(t, id))
  }

  lemma ClaimIsQuiet(s: State, k: string, robotId: string, id: string)
    requires StartEnabled(s, Claim(k, robotId))
    ensures Quiet(s, ApplyStart(s, Claim(k, robotId)), id)
  {
  }

  lemma RecordIsQuiet(s: State, e: Store.Skill, saves: bool, id: string)
    requires SkillRuntime.Sound(s, e.id) && StartEnabled(s, Record(e, saves))
    ensures Quiet(s, ApplyStart(s, Record(e, saves)), id)
  {
    hide SkillRuntime.Write;
    assert e.id !in s.items;
    WriteKeepsRecord(s, e, Store.Starting, saves, id);
  }

  lemma LaunchIsQuiet(s: State, e: Store.Skill, up: bool, saves: bool, id: string)
    requires StartEnabled(s, LaunchWorker(e, up, saves))
    ensures Quiet(s, ApplyStart(s, LaunchWorker(e, up, saves)), id)
  {
    hide SkillRuntime.Write;
    WriteKeepsRecord(s, e, Store.Failed, saves, id);
  }

  lemma MarkIsQuiet(s: State, e: Store.Skill, saves: bool, id: string)
    requires StartEnabled(s, MarkRunning(e, saves))
    ensures Quiet(s, ApplyStart(s, MarkRunning(e, saves)), id)
  {
    hide SkillRuntime.Write;
    WriteKeepsRecord(s, e, Store.Running, true, id);
  }

  lemma AbortIsQuiet(s: State, k: string, id: string)
    requires StartEnabled(s, AbortStart(k))
    ensures Quiet(s, ApplyStart(s, AbortStart(k)), id)
  {
    hide ReleaseRobot;
  }

  lemma StartIsQuiet(s: State, step: StartStep, id: string)
    requires SkillRuntime.Inv(s) && StartEnabled(s, step)
    ensures Quiet(s, ApplyStart(s, step), id)
  {
    assert step.Record? ==> SkillRuntime.Sound(s, step.e.id);
    hide SkillRuntime.Inv, SkillRuntime.Sound, StartEnabled, ApplyStart, Quiet;
    match step
    case Claim(k, robotId) => ClaimIsQuiet(s, k, robotId, id);
    case Record(e, saves) => RecordIsQuiet(s, e, saves, id);
    case LaunchWorker(e, up, saves) => LaunchIsQuiet(s, e, up, saves, id);
    case MarkRunning(e, saves) => MarkIsQuiet(s, e, saves, id);
    case AbortStart(k) => AbortIsQuiet(s, k, id);
  }

  lemma RecoverClaimIsQuiet(s: State, e: Store.Skill, usable: bool, saves: bool, id: string)
    requires RecoverEnabled(s, RecoverClaim(e, usable, saves))
    ensures Quiet(s, ApplyRecover(s, RecoverClaim(e, usable, saves)), id)
  {
    hide SkillRuntime.Write;
    WriteKeepsRecord(Unlist(s, e.id), e, Store.Interrupted, saves, id);
  }

  lemma RecoverWorkerIsQuiet(s: State, e: Store.Skill, up: bool, saves: bool, id: string)
    requires RecoverEnabled(s, RecoverWorker(e, up, saves))
    ensures Quiet(s, ApplyRecover(s, RecoverWorker(e, up, saves)), id)
  {
    hide SkillRuntime.Write;
    WriteKeepsRecord(s.(recovering := s.recovering - {e.id}), e, Store.Interrupted, saves, id);
  }

  lemma RecoverMarkIsQuiet(s: State, e: Store.Skill, saves: bool, id: string)
    requires RecoverEnabled(s, RecoverMark(e, saves))
    ensures Quiet(s, ApplyRecover(s, RecoverMark(e, saves)), id)
  {
    hide SkillRuntime.Write;
    WriteKeepsRecord(s, e, Store.Running, saves, id);
  }

  lemma RecoverIsQuiet(s: State, step: RecoverStep, id: string)
    requires RecoverEnabled(s, step)
    ensures Quiet(s, ApplyRecover(s, step), id)
  {
    match step {
      case RecoverClaim(e, usable, saves) => RecoverClaimIsQuiet(s, e, usable, saves, id);
      case RecoverWorker(e, up, saves) => RecoverWorkerIsQuiet(s, e, up, saves, id);
      case RecoverMark(e, saves) => RecoverMarkIsQuiet(s, e, saves, id);
      case Booted =>
    }
    hide Quiet, SkillRuntime.Write;
  }

  lemma QuietKeepsWatch(s: State, t: State, id: string)
    requires Watched(s, id) && Quiet(s, t, id)
    ensures Watched(t, id) && (OwnsLock(t, id) <==> OwnsLock(s, id))
  {
    SameLocksOwn(s, t, id);
    hide OwnsLock;
  }

  // ---------- ends ----------

  /** What the end of an execution leaves alone, in whatever way it is judged. */
  predicate EndsOnly(s: State, t: State, id: string) {
    SameLocks(s, t, id) && t.starting == s.starting && t.running == s.running && (id in t.items ==> id in s.items)
  }

  lemma WriteEnds(s: State, e: Store.Skill, status: Store.Status, saves: bool, id: string)
    requires e.id in s.items && e.robotId == s.items[e.id].robotId
    ensures EndsOnly(s, SkillRuntime.Write(s, e, status, saves), id)
  {
    WriteKeepsRecord(s, e, status, saves, id);
    hide SkillRuntime.Write;
  }

  lemma MovesEnd(s: State, k: string, holder: Option<Holder>, phase: Option<FailPhase>, id: string)
    ensures EndsOnly(s, SetHolder(s, k, holder), id) && EndsOnly(s, SetFailing(s, k, phase), id)
    ensures k in s.items ==> EndsOnly(s, Cleanup(s, k), id)
    ensures EndsOnly(s, s, id)
  {
    hide SetHolder, SetFailing, Cleanup;
  }

  lemma EndsCompose(s: State, t: State, u: State, id: string)
    requires EndsOnly(s, t, id) && EndsOnly(t, u, id)
    ensures EndsOnly(s, u, id)
  {
  }

  lemma FinishEndsOnly(s: State, step: FinishStep, id: string)
    requires FinishEnabled(s, step)
    ensures EndsOnly(s, ApplyFinish(s, step), id)
  {
    hide SkillRuntime.Write, Cleanup, SetHolder, EndsOnly, OwnsLock;
    match step
    case ReadForFinish(k) => MovesEnd(s, k, Some(FinishRead), None, id);
    case FinishDecide(e, verdict, saves) =>
      var freed := SetHolder(s, e.id, None);
      MovesEnd(s, e.id, None, None, id);
      MovesEnd(s, e.id, Some(Finishing(verdict, false)), None, id);
      WriteEnds(freed, e, Store.Interrupted, saves, id);
      EndsCompose(s, freed, SkillRuntime.Write(freed, e, Store.Interrupted, saves), id);
    case FinishSave(e, saves) =>
      var written := SkillRuntime.Write(s, e, s.stopMu[e.id].verdict, saves);
      var holder := Some(Finished(s.stopMu[e.id].startedSince));
      WriteEnds(s, e, s.stopMu[e.id].verdict, saves, id);
      MovesEnd(written, e.id, holder, None, id);
      EndsCompose(s, written, SetHolder(written, e.id, holder), id);
    case FinishCleanup(k) =>
      MovesEnd(s, k, None, None, id);
      MovesEnd(Cleanup(s, k), k, None, None, id);
      EndsCompose(s, Cleanup(s, k), SetHolder(Cleanup(s, k), k, None), id);
  }

  lemma FailEndsOnly(s: State, step: FailStep, id: string)
    requires FailEnabled(s, step)
    ensures EndsOnly(s, ApplyFail(s, step), id)
  {
    hide SkillRuntime.Write, Cleanup, SetFailing, EndsOnly, OwnsLock;
    match step
    case ChooseFail(k) => MovesEnd(s, k, None, Some(FailChosen(OwnsLock(s, k), false)), id);
    case ReadForFail(k) =>
      MovesEnd(s, k, None, None, id);
      MovesEnd(s, k, None, Some(FailRead(s.failing[k].held, s.failing[k].startedSince)), id);
    case FailSave(e, saves) =>
      var f, written := s.failing[e.id], SkillRuntime.Write(s, e, Store.Failed, saves);
      var phase := if saves then Some(FailWritten(f.held, f.startedSince)) else None;
      WriteEnds(s, e, Store.Failed, saves, id);
      MovesEnd(written, e.id, None, phase, id);
      EndsCompose(s, written, SetFailing(written, e.id, phase), id);
    case FailCleanup(k) =>
      MovesEnd(s, k, None, None, id);
      MovesEnd(Cleanup(s, k), k, None, None, id);
      EndsCompose(s, Cleanup(s, k), SetFailing(Cleanup(s, k), k, None), id);
  }

  lemma WriteThenHold(s: State, e: Store.Skill, status: Store.Status, saves: bool, holder: Option<Holder>, id: string)
    requires e.id in s.items && e.robotId == s.items[e.id].robotId
    ensures EndsOnly(s, SetHolder(SkillRuntime.Write(s, e, status, saves), e.id, holder), id)
  {
    hide SkillRuntime.Write, SetHolder, EndsOnly;
    var written := SkillRuntime.Write(s, e, status, saves);
    WriteEnds(s, e, status, saves, id);
    MovesEnd(written, e.id, holder, None, id);
    EndsCompose(s, written, SetHolder(written, e.id, holder), id);
  }

  lemma StopEndsOnly(s: State, step: StopStep, id: string)
    requires StopEnabled(s, step)
    ensures EndsOnly(s, ApplyStop(s, step), id)
  {
    if step.StopFetch? {
      return;
    }
    hide SkillRuntime.Write, Cleanup, SetHolder, EndsOnly, OwnsLock, SafelyStopped;
    match step
    case StopUnknown(e, saves) => WriteEnds(s, e, Store.Interrupted, saves, id);
    case StopFetch(_) =>
    case StopEnter(k) => MovesEnd(s, k, Some(StopEntered), None, id);
    case StopMark(e, saves) => WriteThenHold(s, e, Store.Stopping, saves, Some(StopMarked), id);
    case StopGiveUp(e, saves) => WriteThenHold(s, e, Store.Interrupted, saves, None, id);
    case StopConclude(e, reply, saves) =>
      var outcome := Evidence(e, reply);
      var safe := StopSafe(OwnsLock(s, e.id), false);
      WriteThenHold(s, e.(stopOutcome := Some(true)), Store.Stopped, saves, Some(safe), id);
      WriteThenHold(s, e.(stopOutcome := outcome), Store.Interrupted, saves, None, id);
    case StopCleanup(k) =>
      MovesEnd(s, k, None, None, id);
      MovesEnd(Cleanup(s, k), k, None, None, id);
      EndsCompose(s, Cleanup(s, k), SetHolder(Cleanup(s, k), k, None), id);
  }

  /** Judging with the lock held is noted; a verdict is not given then. */
  lemma HolderAdmits(s: State, k: string, holder: Option<Holder>, id: string)
    requires Admits(s, id)
    requires id == k && holder.Some? ==>
      match holder.value
      case Finishing(_, since) => since
      case Finished(since) => since
      case StopSafe(held, since) => held || since
      case _ => true
    ensures Admits(SetHolder(s, k, holder), id)
  {
  }

  lemma FailingAdmits(s: State, k: string, phase: Option<FailPhase>, id: string)
    requires Admits(s, id) && (id == k && phase.Some? ==> phase.value.held || phase.value.startedSince)
    ensures Admits(SetFailing(s, k, phase), id)
  {
  }

  lemma MutedAdmits(s: State, t: State, id: string)
    requires Admits(s, id) && t.stopMu == s.stopMu && t.failing == s.failing
    ensures Admits(t, id)
  {
  }

  lemma FinishAdmits(s: State, step: FinishStep, id: string)
    requires FinishEnabled(s, step) && OwnsLock(s, id) && Admits(s, id)
    ensures Admits(ApplyFinish(s, step), id)
  {
    var since := step.FinishSave? && s.stopMu[step.e.id].startedSince;
    assert step.FinishSave? && step.e.id == id ==> since;
    hide SkillRuntime.Write, Cleanup, SetHolder, Admits;
    match step
    case ReadForFinish(k) => HolderAdmits(s, k, Some(FinishRead), id);
    case FinishDecide(e, verdict, saves) =>
      HolderAdmits(s, e.id, None, id);
      var freed := SetHolder(s, e.id, None);
      MutedAdmits(freed, SkillRuntime.Write(freed, e, Store.Interrupted, saves), id);
      if e.id != id {
        HolderAdmits(s, e.id, Some(Finishing(verdict, false)), id);
      }
    case FinishSave(e, saves) =>
      var written := SkillRuntime.Write(s, e, s.stopMu[e.id].verdict, saves);
      MutedAdmits(s, written, id);
      HolderAdmits(written, e.id, Some(Finished(since)), id);
    case FinishCleanup(k) =>
      MutedAdmits(s, Cleanup(s, k), id);
      HolderAdmits(Cleanup(s, k), k, None, id);
  }

  lemma FailSaveAdmits(s: State, e: Store.Skill, saves: bool, id: string)
    requires FailEnabled(s, FailSave(e, saves)) && Admits(s, id)
    requires e.id == id ==> s.failing[id].held || s.failing[id].startedSince
    ensures Admits(ApplyFail(s, FailSave(e, saves)), id)
  {
    hide SkillRuntime.Write, SetFailing, Admits;
    var written := SkillRuntime.Write(s, e, Store.Failed, saves);
    MutedAdmits(s, written, id);
    FailingAdmits(written, e.id, None, id);
    FailingAdmits(written, e.id, Some(FailWritten(s.failing[e.id].held, s.failing[e.id].startedSince)), id);
  }

  lemma FailAdmits(s: State, step: FailStep, id: string)
    requires FailEnabled(s, step) && OwnsLock(s, id) && Admits(s, id)
    ensures Admits(ApplyFail(s, step), id)
  {
    var k := if step.FailSave? then step.e.id else step.id;
    assert !step.ChooseFail? && k == id ==> s.failing[k].held || s.failing[k].startedSince;
    hide SkillRuntime.Write, Cleanup, SetFailing, Admits, OwnsLock;
    match step
    case ChooseFail(_) => FailingAdmits(s, k, Some(FailChosen(OwnsLock(s, k), false)), id);
    case ReadForFail(_) =>
      FailingAdmits(s, k, None, id);
      FailingAdmits(s, k, Some(FailRead(s.failing[k].held, s.failing[k].startedSince)), id);
    case FailSave(e, saves) => FailSaveAdmits(s, e, saves, id);
    case FailCleanup(_) =>
      MutedAdmits(s, Cleanup(s, k), id);
      FailingAdmits(Cleanup(s, k), k, None, id);
  }

  lemma ConcludeAdmits(s: State, e: Store.Skill, reply: Reply, saves: bool, id: string)
    requires e.id in s.items && OwnsLock(s, id) && Admits(s, id)
    ensures Admits(Conclude(s, e, reply, saves), id)
  {
    hide SkillRuntime.Write, SetHolder, Admits, SafelyStopped;
    var outcome := Evidence(e, reply);
    var stopped := SkillRuntime.Write(s, e.(stopOutcome := Some(true)), Store.Stopped, saves);
    var unsure := SkillRuntime.Write(s, e.(stopOutcome := outcome), Store.Interrupted, saves);
    MutedAdmits(s, stopped, id);
    MutedAdmits(s, unsure, id);
    HolderAdmits(stopped, e.id, Some(StopSafe(OwnsLock(s, e.id), false)), id);
    HolderAdmits(unsure, e.id, None, id);
  }

  lemma StopAdmits(s: State, step: StopStep, id: string)
    requires StopEnabled(s, step) && OwnsLock(s, id) && Admits(s, id)
    ensures Admits(ApplyStop(s, step), id)
  {
    hide SkillRuntime.Write, Cleanup, SetHolder, Admits, Conclude, OwnsLock;
    match step
    case StopUnknown(e, saves) => MutedAdmits(s, SkillRuntime.Write(s, e, Store.Interrupted, saves), id);
    case StopFetch(k) => MutedAdmits(s, s.(fetched := s.fetched + {k}), id);
    case StopEnter(k) => HolderAdmits(s, k, Some(StopEntered), id);
    case StopMark(e, saves) =>
      MutedAdmits(s, SkillRuntime.Write(s, e, Store.Stopping, saves), id);
      HolderAdmits(SkillRuntime.Write(s, e, Store.Stopping, saves), e.id, Some(StopMarked), id);
    case StopGiveUp(e, saves) =>
      MutedAdmits(s, SkillRuntime.Write(s, e, Store.Interrupted, saves), id);
      HolderAdmits(SkillRuntime.Write(s, e, Store.Interrupted, saves), e.id, None, id);
    case StopConclude(e, reply, saves) => ConcludeAdmits(s, e, reply, saves, id);
    case StopCleanup(k) =>
      MutedAdmits(s, Cleanup(s, k), id);
      HolderAdmits(Cleanup(s, k), k, None, id);
  }

  // ---------- the invariant ----------

  /** An end keeps the watch: whoever owns the lock owned it before, and its judgement says so. */
  lemma EndKeepsWatch(s: State, t: State, id: string)
    requires Watched(s, id) && EndsOnly(s, t, id) && (OwnsLock(s, id) ==> Admits(t, id))
    ensures Watched(t, id) && (OwnsLock(t, id) <==> OwnsLock(s, id))
  {
    SameLocksOwn(s, t, id);
    hide OwnsLock, Admits;
  }

  lemma TakingKeepsWatch(s: State, k: string, action: string, id: string)
    requires Watched(s, id) && Watched(s, k) && HandlerEnabled(s, PhysicalStart(k, action))
    ensures Watched(TakeLock(s, k, action), id)
    ensures OwnsLock(TakeLock(s, k, action), id) <==> id == k || OwnsLock(s, id)
  {
    assert action !in s.owners && s.items[k].robotId !in s.locks;
  }

  lemma ReleasingKeepsWatch(s: State, robotId: string, id: string)
    requires Watched(s, id)
    ensures Watched(s.(locks := s.locks - {robotId}), id)
    ensures OwnsLock(s.(locks := s.locks - {robotId}), id) <==>
      OwnsLock(s, id) && s.items[id].robotId != robotId
  {
  }

  lemma HandlerKeepsWatch(s: State, step: HandlerStep, id: string)
    requires AllWatched(s) && HandlerEnabled(s, step)
    ensures var t := ApplyHandler(s, step);
      && Watched(t, id)
      && (OwnsLock(t, id) <==> (OwnsLock(s, id) && !Frees(s, OfHandler(step), id)) || Takes(OfHandler(step), id))
  {
    assert Watched(s, id);
    assert step.PhysicalStart? ==> Watched(s, step.id);
    hide SkillRuntime.Write, Admits, Watched, AllWatched, TakeLock, OwnsLock, EndsOnly;
    match step
    case HandlerSave(e) =>
      WriteEnds(s, e, e.status, true, id);
      AdmitsStay(s, SkillRuntime.Write(s, e, e.status, true), id);
    case StopEvidence(k, safe) =>
      OutcomeEnds(s, k, safe, id);
      AdmitsStay(s, ApplyHandler(s, step), id);
    case Interrupt(e, saves) =>
      WriteEnds(s, e, Store.Interrupted, saves, id);
      AdmitsStay(s, SkillRuntime.Write(s, e, Store.Interrupted, saves), id);
    case PhysicalStart(k, action) => TakingKeepsWatch(s, k, action, id);
    case NoteStarted(k) =>
      NoteEnds(s, k, id);
      AdmitsStay(s, ApplyHandler(s, step), id);
    case PhysicalEnd(robotId) => ReleasingKeepsWatch(s, robotId, id);
  }

  lemma OutcomeEnds(s: State, k: string, safe: bool, id: string)
    ensures EndsOnly(s, s.(items := Store.SetOutcome(s.items, k, Some(safe))), id)
  {
  }

  lemma NoteEnds(s: State, k: string, id: string)
    ensures EndsOnly(s, s.(active := s.active[k := true]), id)
  {
  }

  /** A step that ends nothing and moves no judgement. */
  lemma AdmitsStay(s: State, t: State, id: string)
    requires Watched(s, id) && EndsOnly(s, t, id) && t.stopMu == s.stopMu && t.failing == s.failing
    ensures Watched(t, id) && (OwnsLock(t, id) <==> OwnsLock(s, id))
  {
    if OwnsLock(s, id) {
      MutedAdmits(s, t, id);
    }
    EndKeepsWatch(s, t, id);
  }

  /** Every step keeps the watch, and after it an execution owns its robot's lock exactly if it has
      just taken it, or owned it and the action is not over. */
  lemma StepKeepsWatch(s: State, step: Step, id: string)
    requires SkillRuntime.Inv(s) && AllWatched(s) && Enabled(s, step)
    ensures Watched(SkillRuntime.Apply(s, step), id)
    ensures OwnsLock(SkillRuntime.Apply(s, step), id) <==>
      (OwnsLock(s, id) && !Frees(s, step, id)) || Takes(step, id)
  {
    assert Watched(s, id);
    assert OwnsLock(s, id) ==> Admits(s, id);
    hide SkillRuntime.Inv, ApplyStart, ApplyRecover, ApplyHandler, ApplyFinish, ApplyFail, ApplyStop;
    hide StartEnabled, RecoverEnabled, HandlerEnabled, FinishEnabled, FailEnabled, StopEnabled;
    hide Watched, Admits, OwnsLock, EndsOnly, Quiet, AllWatched;
    match step
    case OfStart(x) =>
      StartIsQuiet(s, x, id);
      QuietKeepsWatch(s, ApplyStart(s, x), id);
    case OfRecover(x) =>
      RecoverIsQuiet(s, x, id);
      QuietKeepsWatch(s, ApplyRecover(s, x), id);
    case OfHandler(x) => HandlerKeepsWatch(s, x, id);
    case OfFinish(x) =>
      FinishEndsOnly(s, x, id);
      if OwnsLock(s, id) {
        FinishAdmits(s, x, id);
      }
      EndKeepsWatch(s, ApplyFinish(s, x), id);
    case OfFail(x) =>
      FailEndsOnly(s, x, id);
      if OwnsLock(s, id) {
        FailAdmits(s, x, id);
      }
      EndKeepsWatch(s, ApplyFail(s, x), id);
    case OfStop(x) =>
      StopEndsOnly(s, x, id);
      if OwnsLock(s, id) {
        StopAdmits(s, x, id);
      }
      EndKeepsWatch(s, ApplyStop(s, x), id);
  }

  lemma {:induction false} RunKeepsWatch(s: State, steps: seq<Step>)
    requires SkillRuntime.Inv(s) && AllWatched(s) && History(s, steps)
    ensures SkillRuntime.Inv(SkillRuntime.Run(s, steps)) && AllWatched(SkillRuntime.Run(s, steps))
    decreases |steps|
  {
    if steps != [] {
      var t := SkillRuntime.Apply(s, steps[0]);
      SkillRuntime.StepKeepsInv(s, steps[0]);
      forall id ensures Watched(t, id) {
        StepKeepsWatch(s, steps[0], id);
      }
      hide SkillRuntime.Inv, Watched;
      RunKeepsWatch(t, steps[1..]);
    }
  }

  // ---------- the lock at the moment a robot is given up ----------

  /** A boot over a store of own records, whose lock owners are among them. */
  predicate Bootable(items: map<string, Store.Skill>, owners: map<string, string>) {
    && (forall id <- items :: items[id].id == id)
    && (forall action <- owners :: owners[action] in items)
  }

  lemma BootIsWatched(items: map<string, Store.Skill>, locks: map<string, string>, owners: map<string, string>)
    requires Bootable(items, owners)
    ensures SkillRuntime.Inv(Boot(items, locks, owners)) && AllWatched(Boot(items, locks, owners))
  {
    forall id ensures SkillRuntime.Sound(Boot(items, locks, owners), id) && Watched(Boot(items, locks, owners), id) {
    }
  }

  /** What the lock can say at each kind of drop: an aborted start never owns it; a finished worker owns
      it only through an action started after its verdict; an early failure only if the lock was held
      when the flag was read down, or was taken after; a safe stop only if it was held when the stop was
      judged safe, or was taken after. */
  predicate DropsWithReason(s: State, step: Step, id: string) {
    || (step == OfStart(AbortStart(id)) && !OwnsLock(s, id))
    || (step == OfFinish(FinishCleanup(id)) && id in s.stopMu && s.stopMu[id].Finished?
        && (OwnsLock(s, id) ==> s.stopMu[id].startedSince))
    || (step == OfFail(FailCleanup(id)) && id in s.failing && s.failing[id].FailWritten?
        && (OwnsLock(s, id) ==> s.failing[id].held || s.failing[id].startedSince))
    || (step == OfStop(StopCleanup(id)) && id in s.stopMu && s.stopMu[id].StopSafe?
        && (OwnsLock(s, id) ==> s.stopMu[id].held || s.stopMu[id].startedSince))
  }

  lemma StepDropsWithReason(s: State, step: Step, id: string, robotId: string)
    requires SkillRuntime.Inv(s) && AllWatched(s) && Enabled(s, step)
    requires Drops(s, SkillRuntime.Apply(s, step), id, robotId)
    ensures DropsWithReason(s, step, id)
  {
    assert Watched(s, id) && SkillRuntime.Sound(s, id);
    hide SkillRuntime.Inv, ClaimHeld;
    hide ApplyStart, ApplyRecover, ApplyHandler, ApplyFinish, ApplyFail, ApplyStop, AllWatched, Holds, OwnsLock;
    match step {
      case OfStart(x) => StartDropsClaim(s, x, id, robotId);
      case OfRecover(x) => RecoveryKeepsClaims(s, x, id, robotId);
      case OfHandler(x) => HandlerKeepsClaims(s, x, id, robotId);
      case OfFinish(x) => FinishDropsClaim(s, x, id, robotId);
      case OfFail(x) => FailDropsClaim(s, x, id, robotId);
      case OfStop(x) => StopDropsClaim(s, x, id, robotId);
    }
    if step.OfStart? {
      AbortingOwnsNothing(s, id);
    }
  }

  lemma AbortingOwnsNothing(s: State, id: string)
    requires Watched(s, id)
    ensures id in s.starting && s.starting[id].Aborting? ==> !OwnsLock(s, id)
  {
  }

  /** In every history, whoever gives a robot up does it in one of the four ways, with that lock. */
  lemma ClaimsAreDroppedForAReason(
    items: map<string, Store.Skill>, locks: map<string, string>, owners: map<string, string>,
    steps: seq<Step>, step: Step, id: string, robotId: string)
    requires Bootable(items, owners) && History(Boot(items, locks, owners), steps)
    requires var s := SkillRuntime.Run(Boot(items, locks, owners), steps);
      Enabled(s, step) && Drops(s, SkillRuntime.Apply(s, step), id, robotId)
    ensures DropsWithReason(SkillRuntime.Run(Boot(items, locks, owners), steps), step, id)
  {
    BootIsWatched(items, locks, owners);
    RunKeepsWatch(Boot(items, locks, owners), steps);
    StepDropsWithReason(SkillRuntime.Run(Boot(items, locks, owners), steps), step, id, robotId);
  }

  lemma DecisionTouchesNoFailure(s: State, e: Store.Skill, verdict: Store.Status, saves: bool)
    requires FinishEnabled(s, FinishDecide(e, verdict, saves))
    ensures Decide(s, e, verdict, saves).failing == s.failing
  {
    hide SkillRuntime.Write, SetHolder, OwnsLock, FinishEnabled;
    var free := SetHolder(s, e.id, None);
    assert SkillRuntime.Write(free, e, Store.Interrupted, saves).failing == free.failing == s.failing;
    assert SetHolder(s, e.id, Some(Finishing(verdict, false))).failing == s.failing;
  }

  lemma FinishTouchesNoFailure(s: State, step: FinishStep)
    requires FinishEnabled(s, step)
    ensures ApplyFinish(s, step).failing == s.failing
  {
    if step.FinishDecide? {
      DecisionTouchesNoFailure(s, step.e, step.verdict, step.saves);
    }
    hide SkillRuntime.Write, Cleanup, SetHolder, Decide;
  }

  lemma StopTouchesNoFailure(s: State, step: StopStep)
    requires StopEnabled(s, step)
    ensures ApplyStop(s, step).failing == s.failing
  {
    hide SkillRuntime.Write, Cleanup, SetHolder, Conclude;
  }

  lemma NotesAfter(s: State, k: string, phase: Option<FailPhase>, id: string)
    requires id in SetFailing(s, k, phase).failing
    ensures SetFailing(s, k, phase).failing[id] == if id == k && phase.Some? then phase.value else s.failing[id]
    ensures id != k ==> id in s.failing
    ensures id == k ==> phase.Some?
  {
  }

  /** What a failure's steps do to the notes of one execution. */
  lemma FailStepNotes(s: State, step: FailStep, id: string)
    requires FailEnabled(s, step) && id in ApplyFail(s, step).failing
    ensures var f := ApplyFail(s, step).failing[id];
      if step == ChooseFail(id) then !(id in s.active && s.active[id]) && f.held == OwnsLock(s, id) && !f.startedSince
      else id in s.failing && f.held == s.failing[id].held && f.startedSince == s.failing[id].startedSince
  {
    hide SkillRuntime.Write, Cleanup, OwnsLock, SetFailing;
    match step
    case ChooseFail(k) =>
      if !(k in s.active && s.active[k]) {
        NotesAfter(s, k, Some(FailChosen(OwnsLock(s, k), false)), id);
      }
    case ReadForFail(k) =>
      var f := s.failing[k];
      NotesAfter(s, k, if Store.Terminal(s.items[k].status) then None else Some(FailRead(f.held, f.startedSince)), id);
    case FailSave(e, saves) =>
      var f := s.failing[e.id];
      NotesAfter(SkillRuntime.Write(s, e, Store.Failed, saves), e.id,
        if saves then Some(FailWritten(f.held, f.startedSince)) else None, id);
    case FailCleanup(k) => NotesAfter(Cleanup(s, k), k, None, id);
  }

  lemma HandlerNotes(s: State, step: HandlerStep, id: string)
    requires HandlerEnabled(s, step) && id in ApplyHandler(s, step).failing
    ensures var f := ApplyHandler(s, step).failing[id];
      && id in s.failing && f.held == s.failing[id].held
      && (f.startedSince <==> s.failing[id].startedSince || Takes(OfHandler(step), id))
  {
    hide SkillRuntime.Write;
  }

  /** What an early failure notes: it begins with the flag down, noting whether the lock is held, and
      raises the other note exactly when the execution takes the lock. */
  lemma FailNotesAreTrue(s: State, step: Step, id: string)
    requires SkillRuntime.Inv(s) && Enabled(s, step) && id in SkillRuntime.Apply(s, step).failing
    ensures var f := SkillRuntime.Apply(s, step).failing[id];
      if step == OfFail(ChooseFail(id)) then
        !(id in s.active && s.active[id]) && f.held == OwnsLock(s, id) && !f.startedSince
      else id in s.failing && f.held == s.failing[id].held
           && (f.startedSince <==> s.failing[id].startedSince || Takes(step, id))
  {
    hide ApplyStart, ApplyRecover, ApplyHandler, ApplyFinish, ApplyFail, ApplyStop, OwnsLock, SkillRuntime.Inv;
    match step
    case OfStart(x) => StartIsQuiet(s, x, id);
    case OfRecover(x) => RecoverIsQuiet(s, x, id);
    case OfHandler(x) => HandlerNotes(s, x, id);
    case OfFinish(x) => FinishTouchesNoFailure(s, x);
    case OfFail(x) => FailStepNotes(s, x, id);
    case OfStop(x) => StopTouchesNoFailure(s, x);
  }

  // ---------- exactly when the lock is still owned ----------

  predicate NeverFreed(steps: seq<Step>, robotId: string) {
    forall i :: 0 <= i < |steps| ==> steps[i] != OfHandler(PhysicalEnd(robotId))
  }

  predicate TakenIn(steps: seq<Step>, id: string) {
    exists i :: 0 <= i < |steps| && Takes(steps[i], id)
  }

  /** From the moment an end is judged, as long as no action on the robot is reported over, the
      execution owns the lock at a later moment, such as its cleanup, exactly if it owned the lock then
      or has taken it since. For every history between the two. */
  lemma {:induction false} LockSinceJudged(s: State, steps: seq<Step>, id: string)
    requires SkillRuntime.Inv(s) && AllWatched(s) && History(s, steps)
    requires id in s.items && NeverFreed(steps, s.items[id].robotId)
    ensures OwnsLock(SkillRuntime.Run(s, steps), id) <==> OwnsLock(s, id) || TakenIn(steps, id)
    decreases |steps|
  {
    if steps != [] {
      var x, rest := steps[0], steps[1..];
      var t := SkillRuntime.Apply(s, x);
      SkillRuntime.StepKeepsInv(s, x);
      forall k ensures Watched(t, k) {
        StepKeepsWatch(s, x, k);
      }
      StepKeepsWatch(s, x, id);
      StepKeepsRobot(s, x, id);
      assert steps[0] != OfHandler(PhysicalEnd(s.items[id].robotId));
      TakenLaterOrNow(steps, id);
      hide SkillRuntime.Inv, Watched, OwnsLock, SkillRuntime.Apply, Enabled, TakenIn;
      assert forall i :: 0 <= i < |rest| ==> rest[i] == steps[i + 1];
      LockSinceJudged(t, rest, id);
    }
  }

  lemma TakenLaterOrNow(steps: seq<Step>, id: string)
    requires steps != []
    ensures TakenIn(steps, id) <==> Takes(steps[0], id) || TakenIn(steps[1..], id)
  {
    assert forall i :: 0 <= i < |steps[1..]| ==> steps[1..][i] == steps[i + 1];
    if TakenIn(steps, id) && !Takes(steps[0], id) {
      var i :| 0 <= i < |steps| && Takes(steps[i], id);
      assert steps[1..][i - 1] == steps[i];
    }
  }

  lemma StepKeepsRobot(s: State, step: Step, id: string)
    requires SkillRuntime.Inv(s) && Enabled(s, step) && id in s.items
    ensures id in SkillRuntime.Apply(s, step).items
            && SkillRuntime.Apply(s, step).items[id].robotId == s.items[id].robotId
  {
    hide ApplyStart, ApplyRecover, ApplyFinish, ApplyFail, ApplyStop;
    hide SkillRuntime.Inv, OwnsLock, Admits, SkillRuntime.Write;
    match step
    case OfStart(x) => StartIsQuiet(s, x, id);
    case OfRecover(x) => RecoverIsQuiet(s, x, id);
    case OfHandler(x) => HandlerKeepsRobot(s, x, id);
    case OfFinish(x) => FinishEndsOnly(s, x, id);
    case OfFail(x) => FailEndsOnly(s, x, id);
    case OfStop(x) => StopEndsOnly(s, x, id);
  }

  lemma HandlerKeepsRobot(s: State, step: HandlerStep, id: string)
    requires HandlerEnabled(s, step) && id in s.items
    ensures id in ApplyHandler(s, step).items && ApplyHandler(s, step).items[id].robotId == s.items[id].robotId
  {
  }
}
