/** The component store: installed receipts, and per robot one current binding with its history. Every
    operation runs under the store's mutex; each file write may fail on its own. */
module Bindings {
  import opened Common
  import opened BindingSelection
  import PackageSet

  datatype Binding = Binding(robotId: string, model: string, revision: string, choice: Choice)

  datatype State = State(
    receipts: Receipts, current: map<string, Binding>, history: map<string, map<string, Binding>>)

  const INIT := State(map[], map[], map[])

  /** The history entry is written first, the current binding only after it. */
  datatype Writes = Writes(history: bool, current: bool)

  datatype Error =
    | UnknownComponent | Unsuitable | IdentityMismatch | NothingToBind | BadSelection | BadRevision
    | UnknownRevision | StillBound | Vetoed | WriteFailed

  datatype Result<T> = Ok(value: T) | Err(error: Error)

  function ProjectDefaultKey(projectId: string, model: string): string {
    "project-default:" + projectId + ":" + model
  }

  function HistoryOf(s: State, robotId: string): map<string, Binding> {
    if robotId in s.history then s.history[robotId] else map[]
  }

  function Record(s: State, b: Binding, works: bool): (t: State)
    ensures t == s.(history := t.history)
  {
    if works then s.(history := s.history[b.robotId := HistoryOf(s, b.robotId)[b.revision := b]]) else s
  }

  function SetCurrent(s: State, b: Binding, works: bool): (t: State)
    ensures t == s.(current := t.current)
  {
    if works then s.(current := s.current[b.robotId := b]) else s
  }

  /** Both writes, in order, and what is reported. */
  function Commit(s: State, b: Binding, w: Writes): (State, Result<Binding>) {
    (SetCurrent(Record(s, b, w.history), b, w.history && w.current),
     if w.history && w.current then Ok(b) else Err(WriteFailed))
  }

  predicate Uses(b: Binding, id: string) {
    b.choice.model == Some(id) || exists role <- b.choice.abilities :: b.choice.abilities[role].componentId == id
  }

  // ---------- the operations ----------

  /** The binding a robot has, or an empty one. */
  function Existing(s: State, robotId: string, model: string): Binding {
    if robotId in s.current then s.current[robotId] else Binding(robotId, model, "", Choice(map[], None))
  }

  /** The roles of an Ability component, each bound to the last entry that names it. */
  function WithAbilities(
    taken: map<string, BoundAbility>, id: string, abilities: seq<Ability>): map<string, BoundAbility>
    decreases |abilities|
  {
    if abilities == [] then taken
    else
      var last := abilities[|abilities| - 1];
      WithAbilities(taken, id, abilities[..|abilities| - 1])[last.role := BoundAbility(id, last)]
  }

  function WithComponent(c: Choice, id: string, item: Component): Choice {
    match item.kind
    case RobotAbility => c.(abilities := WithAbilities(c.abilities, id, item.abilities))
    case Model => c.(model := Some(id))
    case Other => c
  }

  function Bind(s: State, id: string, robotId: string, model: string, revision: string, w: Writes)
    : (State, Result<Binding>)
  {
    if !Installed(s.receipts, id) then (s, Err(UnknownComponent))
    else
      var item := s.receipts[id];
      if robotId == "" || model !in item.models then (s, Err(Unsuitable))
      else
        var b := Existing(s, robotId, model);
        if b.robotId != robotId || b.model != model then (s, Err(IdentityMismatch))
        else if item.kind.Other? then (s, Err(NothingToBind))
        else Commit(s, b.(revision := revision, choice := WithComponent(b.choice, id, item)), w)
  }

  /** A selection that passed its checks, with what it binds; chosen is None for a refused one. */
  function Select(s: State, robotId: string, model: string, chosen: Option<Choice>, revision: string, w: Writes)
    : (State, Result<Binding>)
  {
    if chosen.None? then (s, Err(BadSelection))
    else Commit(s, Binding(robotId, model, revision, chosen.value), w)
  }

  /** A robot without a binding gets a copy of its project's default; the result says whether it has
      one afterwards. */
  function Ensure(s: State, projectId: string, robotId: string, model: string, w: Writes): (State, Result<bool>) {
    var key := ProjectDefaultKey(projectId, model);
    if robotId in s.current then (s, Ok(true))
    else if key !in s.current then (s, Ok(false))
    else
      var (t, r) := Commit(s, s.current[key].(robotId := robotId), w);
      (t, if r.Ok? then Ok(true) else Err(WriteFailed))
  }

  /** Every component of the binding still has its receipt. */
  predicate Restorable(r: Receipts, b: Binding) {
    && (forall role <- b.choice.abilities :: Installed(r, b.choice.abilities[role].componentId))
    && (b.choice.model.Some? ==> Installed(r, b.choice.model.value))
  }

  function Rollback(s: State, robotId: string, revision: string, works: bool): (State, Result<Binding>) {
    if !PackageSet.ComponentSegment(revision) then (s, Err(BadRevision))
    else if revision !in HistoryOf(s, robotId) then (s, Err(UnknownRevision))
    else
      var b := HistoryOf(s, robotId)[revision];
      if b.robotId != robotId then (s, Err(IdentityMismatch))
      else if !Restorable(s.receipts, b) then (s, Err(UnknownComponent))
      else (SetCurrent(s, b, works), if works then Ok(b) else Err(WriteFailed))
  }

  predicate Bound(s: State, id: string) {
    exists robotId <- s.current :: Uses(s.current[robotId], id)
  }

  /** The receipt goes last, and only when the directories are gone. */
  function Remove(s: State, id: string, veto: bool, works: bool): (State, Result<string>) {
    if !Installed(s.receipts, id) then (s, Err(UnknownComponent))
    else if Bound(s, id) then (s, Err(StillBound))
    else if veto then (s, Err(Vetoed))
    else if !works then (s, Err(WriteFailed))
    else (s.(receipts := s.receipts - {id}), Ok(id))
  }

  datatype Step =
    | InstallStep(id: string, item: Component)
    | BindStep(id: string, robotId: string, model: string, revision: string, w: Writes)
    | SelectStep(ids: seq<string>, robotId: string, model: string, profile: string, choice: Choice,
                 revision: string, w: Writes)
    | EnsureStep(projectId: string, robotId: string, model: string, w: Writes)
    | RollbackStep(robotId: string, revision: string, works: bool)
    | RemoveStep(id: string, veto: bool, works: bool)

  function Chosen(s: State, step: Step): Option<Choice>
    requires step.SelectStep?
  {
    if Selectable(s.receipts, step.ids, step.robotId, step.model, step.profile) then Some(step.choice) else None
  }

  /** Revisions are clock readings that no earlier binding of the robot has; a receipt's ID is the
      digest of its component; a selection binds what it offers. */
  ghost predicate Enabled(s: State, step: Step) {
    match step
    case InstallStep(id, item) =>
      |id| == 64 && PackageSet.ComponentSegment(id) && (id in s.receipts ==> s.receipts[id] == item)
    case BindStep(_, robotId, _, revision, _) => revision !in HistoryOf(s, robotId)
    case SelectStep(ids, robotId, _, _, choice, revision, _) =>
      revision !in HistoryOf(s, robotId) && (Chosen(s, step).Some? ==> Binds(s.receipts, ids, choice))
    case _ => true
  }

  function Apply(s: State, step: Step): State {
    match step
    case InstallStep(id, item) => s.(receipts := s.receipts[id := item])
    case BindStep(id, robotId, model, revision, w) => Bind(s, id, robotId, model, revision, w).0
    case SelectStep(_, robotId, model, _, _, revision, w) =>
      Select(s, robotId, model, Chosen(s, step), revision, w).0
    case EnsureStep(projectId, robotId, model, w) => Ensure(s, projectId, robotId, model, w).0
    case RollbackStep(robotId, revision, works) => Rollback(s, robotId, revision, works).0
    case RemoveStep(id, veto, works) => Remove(s, id, veto, works).0
  }

  // ---------- the invariant ----------

  /** Entries are filed under their own robot and revision. */
  predicate Filed(s: State, robotId: string) {
    forall revision <- HistoryOf(s, robotId) ::
      HistoryOf(s, robotId)[revision].robotId == robotId && HistoryOf(s, robotId)[revision].revision == revision
  }

  /** A current binding is its robot's, is the history entry of its own revision, and names installed
      components only. */
  predicate CurrentHolds(s: State, robotId: string) {
    robotId in s.current ==>
      var b := s.current[robotId];
      && b.robotId == robotId && b.revision in HistoryOf(s, robotId) && HistoryOf(s, robotId)[b.revision] == b
      && Restorable(s.receipts, b)
  }

  ghost predicate Inv(s: State) {
    forall robotId :: Filed(s, robotId) && CurrentHolds(s, robotId)
  }

  /** Committing under a revision that is new to the robot, or for a robot without a binding. */
  lemma CommitKeepsInv(s: State, b: Binding, w: Writes)
    requires Inv(s) && Restorable(s.receipts, b)
    requires b.revision !in HistoryOf(s, b.robotId) || b.robotId !in s.current
    ensures Inv(Commit(s, b, w).0)
  {
    var t := Commit(s, b, w).0;
    forall robotId ensures Filed(t, robotId) && CurrentHolds(t, robotId) {
      assert Filed(s, robotId) && CurrentHolds(s, robotId);
      assert HistoryOf(t, robotId) == if w.history && robotId == b.robotId
        then HistoryOf(s, robotId)[b.revision := b] else HistoryOf(s, robotId);
    }
  }

  lemma {:induction false} AbilitiesAreRestorable(
    r: Receipts, taken: map<string, BoundAbility>, id: string, abilities: seq<Ability>)
    requires Installed(r, id) && forall role <- taken :: Installed(r, taken[role].componentId)
    ensures forall role <- WithAbilities(taken, id, abilities) ::
      Installed(r, WithAbilities(taken, id, abilities)[role].componentId)
    decreases |abilities|
  {
    if abilities != [] {
      AbilitiesAreRestorable(r, taken, id, abilities[..|abilities| - 1]);
    }
  }

  lemma BindKeepsInv(s: State, id: string, robotId: string, model: string, revision: string, w: Writes)
    requires Inv(s) && revision !in HistoryOf(s, robotId)
    ensures Inv(Bind(s, id, robotId, model, revision, w).0)
  {
    if Installed(s.receipts, id) && model in s.receipts[id].models {
      assert CurrentHolds(s, robotId);
      var b := Existing(s, robotId, model);
      var item := s.receipts[id];
      AbilitiesAreRestorable(s.receipts, b.choice.abilities, id, item.abilities);
      hide Installed, Inv, WithAbilities;
      CommitKeepsInv(s, b.(revision := revision, choice := WithComponent(b.choice, id, item)), w);
    }
  }

  lemma SelectKeepsInv(s: State, step: Step)
    requires Inv(s) && step.SelectStep? && Enabled(s, step)
    ensures Inv(Apply(s, step))
  {
    if Chosen(s, step).Some? {
      var b := Binding(step.robotId, step.model, step.revision, step.choice);
      assert Restorable(s.receipts, b) by {
        forall role | role in step.choice.abilities
          ensures Installed(s.receipts, step.choice.abilities[role].componentId)
        {
          var bound := step.choice.abilities[role];
          assert Offered(s.receipts, step.ids, bound.componentId, bound.ability);
        }
      }
      CommitKeepsInv(s, b, step.w);
    }
    hide Commit, Inv;
  }

  lemma OthersKeepInv(s: State, step: Step)
    requires Inv(s) && Enabled(s, step) && !step.BindStep? && !step.SelectStep? && !step.EnsureStep?
    ensures Inv(Apply(s, step))
  {
    var t := Apply(s, step);
    forall robotId ensures Filed(t, robotId) && CurrentHolds(t, robotId) {
      assert Filed(s, robotId) && CurrentHolds(s, robotId);
      assert HistoryOf(t, robotId) == HistoryOf(s, robotId);
      if step.RollbackStep? {
        assert Filed(s, step.robotId);
      } else if step.RemoveStep? && t != s && robotId in s.current {
        assert !Uses(s.current[robotId], step.id);
      }
    }
  }

  lemma StepKeepsInv(s: State, step: Step)
    requires Inv(s) && Enabled(s, step)
    ensures Inv(Apply(s, step))
  {
    match step
    case BindStep(id, robotId, model, revision, w) => BindKeepsInv(s, id, robotId, model, revision, w);
    case SelectStep(_, _, _, _, _, _, _) => SelectKeepsInv(s, step);
    case EnsureStep(projectId, robotId, model, w) =>
      var key := ProjectDefaultKey(projectId, model);
      if key in s.current && robotId !in s.current {
        assert CurrentHolds(s, key);
        CommitKeepsInv(s, s.current[key].(robotId := robotId), w);
      }
    case _ => OthersKeepInv(s, step);
  }

  // ---------- whole histories ----------

  ghost predicate History(s: State, steps: seq<Step>)
    decreases |steps|
  {
    steps == [] || (Enabled(s, steps[0]) && History(Apply(s, steps[0]), steps[1..]))
  }

  function Run(s: State, steps: seq<Step>): State
    decreases |steps|
  {
    if steps == [] then s else Run(Apply(s, steps[0]), steps[1..])
  }

  lemma {:induction false} RunKeepsInv(s: State, steps: seq<Step>)
    requires Inv(s) && History(s, steps)
    ensures Inv(Run(s, steps))
    decreases |steps|
  {
    if steps != [] {
      StepKeepsInv(s, steps[0]);
      hide Inv;
      RunKeepsInv(Apply(s, steps[0]), steps[1..]);
    }
  }

  /** Over any run from an empty store, with any failing writes: every component a current binding
      names is installed, so that its removal is refused, and the binding can be found in its robot's
      history under its own revision. */
  lemma BoundComponentsStay(steps: seq<Step>)
    requires History(INIT, steps)
    ensures var s := Run(INIT, steps);
      && (forall robotId <- s.current, id: string :: Uses(s.current[robotId], id) ==> Installed(s.receipts, id))
      && (forall id, veto, works :: Bound(s, id) ==> Remove(s, id, veto, works).0 == s)
      && (forall robotId <- s.current ::
            s.current[robotId].revision in HistoryOf(s, robotId)
            && HistoryOf(s, robotId)[s.current[robotId].revision] == s.current[robotId])
  {
    RunKeepsInv(INIT, steps);
    var s := Run(INIT, steps);
    hide Run, History, Installed;
    forall robotId | robotId in s.current ensures CurrentHolds(s, robotId) {
    }
  }

  /** What a robot that has a binding has in its history is never lost nor changed. */
  predicate Keeps(s: State, t: State, robotId: string) {
    robotId in s.current ==>
      && robotId in t.current
      && forall revision <- HistoryOf(s, robotId) ::
           revision in HistoryOf(t, robotId) && HistoryOf(t, robotId)[revision] == HistoryOf(s, robotId)[revision]
  }

  lemma CommitKeepsHistory(s: State, b: Binding, w: Writes, robotId: string)
    requires b.revision !in HistoryOf(s, b.robotId) || b.robotId !in s.current
    ensures Keeps(s, Commit(s, b, w).0, robotId)
  {
    var t := Commit(s, b, w).0;
    assert HistoryOf(t, robotId) == if w.history && robotId == b.robotId
      then HistoryOf(s, robotId)[b.revision := b] else HistoryOf(s, robotId);
  }

  lemma StepKeepsHistory(s: State, step: Step, robotId: string)
    requires Inv(s) && Enabled(s, step)
    ensures Keeps(s, Apply(s, step), robotId)
  {
    match step
    case BindStep(id, r, model, revision, w) =>
      if Installed(s.receipts, id) {
        var b := Existing(s, r, model);
        assert CurrentHolds(s, r);
        var choice := WithComponent(b.choice, id, s.receipts[id]);
        CommitKeepsHistory(s, b.(revision := revision, choice := choice), w, robotId);
      }
    case SelectStep(_, r, model, _, choice, revision, w) =>
      CommitKeepsHistory(s, Binding(r, model, revision, choice), w, robotId);
    case EnsureStep(projectId, r, model, w) =>
      if ProjectDefaultKey(projectId, model) in s.current && r !in s.current {
        CommitKeepsHistory(s, s.current[ProjectDefaultKey(projectId, model)].(robotId := r), w, robotId);
      }
    case _ => assert HistoryOf(Apply(s, step), robotId) == HistoryOf(s, robotId);
  }

  lemma {:induction false} RunKeepsHistory(s: State, steps: seq<Step>, robotId: string)
    requires Inv(s) && History(s, steps)
    ensures Keeps(s, Run(s, steps), robotId)
    decreases |steps|
  {
    if steps != [] {
      StepKeepsInv(s, steps[0]);
      StepKeepsHistory(s, steps[0], robotId);
      hide Inv, Apply, Enabled;
      RunKeepsHistory(Apply(s, steps[0]), steps[1..], robotId);
    }
  }

  /** Rolling back succeeds exactly when the revision is well formed and recorded, its components are
      all still installed and the write works; it then restores that very entry. */
  lemma RollbackOutcome(s: State, robotId: string, revision: string, works: bool)
    requires Inv(s)
    ensures var (t, r) := Rollback(s, robotId, revision, works);
      && (r.Ok? <==> PackageSet.ComponentSegment(revision) && revision in HistoryOf(s, robotId)
                     && Restorable(s.receipts, HistoryOf(s, robotId)[revision]) && works)
      && (r.Ok? ==> robotId in t.current && t.current[robotId] == HistoryOf(s, robotId)[revision])
      && (!r.Ok? ==> t == s)
  {
    assert Filed(s, robotId);
  }

  /** The round trip: after any run, a robot's earlier binding comes back exactly as it was, provided
      its components are installed (again). */
  lemma RollbackRestores(s: State, steps: seq<Step>, robotId: string)
    requires Inv(s) && History(s, steps) && robotId in s.current
    requires PackageSet.ComponentSegment(s.current[robotId].revision)
    requires Restorable(Run(s, steps).receipts, s.current[robotId])
    ensures var (t, r) := Rollback(Run(s, steps), robotId, s.current[robotId].revision, true);
      r == Ok(s.current[robotId]) && t.current[robotId] == s.current[robotId]
  {
    assert CurrentHolds(s, robotId);
    RunKeepsHistory(s, steps, robotId);
    RunKeepsInv(s, steps);
    hide Run, History;
    RollbackOutcome(Run(s, steps), robotId, s.current[robotId].revision, true);
  }

  /** After a removal exactly those revisions can still be rolled back to that do not use the removed
      component, with the same entry; every current binding is among them. Installing the component
      again undoes the removal. */
  lemma RemovalEndsItsRollbacks(
    s: State, id: string, veto: bool, works: bool, robotId: string, revision: string)
    requires Inv(s) && Remove(s, id, veto, works).1.Ok?
    ensures var t := Remove(s, id, veto, works).0;
      && (Rollback(t, robotId, revision, true).1.Ok? <==>
            Rollback(s, robotId, revision, true).1.Ok? && !Uses(HistoryOf(s, robotId)[revision], id))
      && (Rollback(t, robotId, revision, true).1.Ok? ==>
            Rollback(t, robotId, revision, true).1 == Rollback(s, robotId, revision, true).1)
      && (robotId in s.current ==> !Uses(s.current[robotId], id) && Restorable(t.receipts, s.current[robotId]))
      && Apply(t, InstallStep(id, s.receipts[id])) == s
  {
    var t := Remove(s, id, veto, works).0;
    RollbackOutcome(s, robotId, revision, true);
    assert CurrentHolds(s, robotId);
    assert t.receipts[id := s.receipts[id]] == s.receipts;
    if robotId in s.current {
      assert !Uses(s.current[robotId], id);
    }
  }

  // ---------- a project's defaults ----------

  /** One binding after another, up to the first error. */
  function BindAll(
    s: State, id: string, projectId: string, models: seq<string>, revisions: seq<string>, ws: seq<Writes>)
    : (State, bool)
    requires |models| == |revisions| == |ws|
    decreases |models|
  {
    if models == [] then (s, true)
    else
      var n := |models| - 1;
      var (t, ok) := BindAll(s, id, projectId, models[..n], revisions[..n], ws[..n]);
      if !ok then (t, false)
      else
        var (u, r) := Bind(t, id, ProjectDefaultKey(projectId, models[n]), models[n], revisions[n], ws[n]);
        (u, r.Ok?)
  }

  lemma KeysDiffer(projectId: string, model: string, other: string)
    requires ProjectDefaultKey(projectId, model) == ProjectDefaultKey(projectId, other)
    ensures model == other
  {
    var prefix := "project-default:" + projectId + ":";
    assert model == ProjectDefaultKey(projectId, model)[|prefix|..];
    assert other == ProjectDefaultKey(projectId, other)[|prefix|..];
  }

  lemma BindSets(s: State, id: string, robotId: string, model: string, revision: string, w: Writes)
    requires Inv(s)
    ensures var (t, r) := Bind(s, id, robotId, model, revision, w);
      && t.receipts == s.receipts
      && (r.Ok? ==> robotId in t.current && id in s.receipts)
      && (r.Ok? ==>
            t.current[robotId].choice == WithComponent(Existing(s, robotId, model).choice, id, s.receipts[id]))
  {
    assert CurrentHolds(s, robotId);
    hide WithComponent, Installed;
  }

  /** Every listed model's default has taken up the component; every other binding is as it was. */
  ghost predicate AllSet(s: State, t: State, id: string, projectId: string, models: seq<string>) {
    forall k :: 0 <= k < |models| ==> DefaultSet(s, t, id, projectId, models[k])
  }

  ghost predicate OthersKept(s: State, t: State, projectId: string, models: seq<string>) {
    forall robotId :: IsDefaultOf(projectId, models, robotId) || Untouched(s, t, robotId)
  }

  predicate IsDefaultOf(projectId: string, models: seq<string>, robotId: string) {
    exists k :: 0 <= k < |models| && robotId == ProjectDefaultKey(projectId, models[k])
  }

  lemma {:induction false} AbilitiesOverride(taken: map<string, BoundAbility>, id: string, abilities: seq<Ability>)
    ensures WithAbilities(taken, id, abilities) == taken + WithAbilities(map[], id, abilities)
    decreases |abilities|
  {
    if abilities != [] {
      AbilitiesOverride(taken, id, abilities[..|abilities| - 1]);
    }
  }

  /** A component joins a choice once and for all. */
  lemma JoiningAgain(c: Choice, id: string, item: Component)
    ensures WithComponent(WithComponent(c, id, item), id, item) == WithComponent(c, id, item)
  {
    if item.kind.RobotAbility? {
      var own := WithAbilities(map[], id, item.abilities);
      AbilitiesOverride(c.abilities, id, item.abilities);
      AbilitiesOverride(c.abilities + own, id, item.abilities);
      assert (c.abilities + own) + own == c.abilities + own;
    }
  }

  lemma SetAgain(s: State, t: State, u: State, id: string, projectId: string, model: string)
    requires DefaultSet(t, u, id, projectId, model) && t.receipts == s.receipts
    requires DefaultSet(s, t, id, projectId, model) || Untouched(s, t, ProjectDefaultKey(projectId, model))
    ensures DefaultSet(s, u, id, projectId, model)
  {
    var key := ProjectDefaultKey(projectId, model);
    hide WithComponent;
    JoiningAgain(Existing(s, key, model).choice, id, s.receipts[id]);
  }

  lemma OneMoreDefault(
    s: State, t: State, u: State, id: string, projectId: string, models: seq<string>, model: string)
    requires OthersKept(s, t, projectId, models) && t.receipts == s.receipts
    requires forall robotId :: robotId != ProjectDefaultKey(projectId, model) ==> Untouched(t, u, robotId)
    ensures OthersKept(s, u, projectId, models + [model])
  {
    hide ProjectDefaultKey;
    var longer, key := models + [model], ProjectDefaultKey(projectId, model);
    forall robotId ensures IsDefaultOf(projectId, longer, robotId) || Untouched(s, u, robotId) {
      if IsDefaultOf(projectId, models, robotId) {
        var k :| 0 <= k < |models| && robotId == ProjectDefaultKey(projectId, models[k]);
        assert longer[k] == models[k];
      } else if robotId == key {
        assert longer[|models|] == model;
      } else {
        assert Untouched(s, t, robotId) && Untouched(t, u, robotId);
      }
    }
  }

  lemma OneMoreSet(
    s: State, t: State, u: State, id: string, projectId: string, models: seq<string>, model: string)
    requires AllSet(s, t, id, projectId, models) && OthersKept(s, t, projectId, models) && t.receipts == s.receipts
    requires DefaultSet(t, u, id, projectId, model)
    requires forall robotId :: robotId != ProjectDefaultKey(projectId, model) ==> Untouched(t, u, robotId)
    ensures AllSet(s, u, id, projectId, models + [model])
  {
    var longer, key := models + [model], ProjectDefaultKey(projectId, model);
    assert DefaultSet(s, u, id, projectId, model) by {
      if k :| 0 <= k < |models| && key == ProjectDefaultKey(projectId, models[k]) {
        KeysDiffer(projectId, model, models[k]);
        assert DefaultSet(s, t, id, projectId, models[k]);
      } else {
        assert !IsDefaultOf(projectId, models, key);
      }
      SetAgain(s, t, u, id, projectId, model);
    }
    forall k | 0 <= k < |longer| ensures DefaultSet(s, u, id, projectId, longer[k]) {
      if k < |models| && models[k] != model {
        assert DefaultSet(s, t, id, projectId, models[k]);
        if ProjectDefaultKey(projectId, models[k]) == key {
          KeysDiffer(projectId, models[k], model);
        }
        assert Untouched(t, u, ProjectDefaultKey(projectId, models[k]));
      }
    }
  }

  /** The new entries in the histories are filed under the revisions of the models' own binds. */
  ghost predicate OnlyNew(s: State, t: State, projectId: string, models: seq<string>, revisions: seq<string>)
    requires |models| == |revisions|
  {
    forall robotId, revision :: revision in HistoryOf(t, robotId) ==>
      revision in HistoryOf(s, robotId) || IsNew(projectId, models, revisions, robotId, revision)
  }

  predicate IsNew(projectId: string, models: seq<string>, revisions: seq<string>, robotId: string, revision: string)
    requires |models| == |revisions|
  {
    exists k :: 0 <= k < |models| && ProjectDefaultKey(projectId, models[k]) == robotId && revisions[k] == revision
  }

  lemma OneMoreNew(
    s: State, t: State, u: State, projectId: string, models: seq<string>, revisions: seq<string>, n: nat)
    requires |models| == |revisions| && n == |models| - 1 && OnlyNew(s, t, projectId, models[..n], revisions[..n])
    requires forall robotId, revision :: revision in HistoryOf(u, robotId) ==>
      revision in HistoryOf(t, robotId)
      || (robotId == ProjectDefaultKey(projectId, models[n]) && revision == revisions[n])
    ensures OnlyNew(s, u, projectId, models, revisions)
  {
    hide ProjectDefaultKey, HistoryOf;
    forall robotId, revision | revision in HistoryOf(u, robotId) && revision !in HistoryOf(s, robotId)
      ensures IsNew(projectId, models, revisions, robotId, revision)
    {
      if revision in HistoryOf(t, robotId) {
        assert IsNew(projectId, models[..n], revisions[..n], robotId, revision);
        var k :| 0 <= k < n && ProjectDefaultKey(projectId, models[..n][k]) == robotId && revisions[..n][k] == revision;
        assert models[k] == models[..n][k] && revisions[k] == revisions[..n][k];
      } else {
        assert ProjectDefaultKey(projectId, models[n]) == robotId && revisions[n] == revision;
      }
    }
  }

  /** A clock reading that the robot's history does not have, even if a model is listed twice. */
  predicate FreshRevisions(s: State, projectId: string, models: seq<string>, revisions: seq<string>)
    requires |models| == |revisions|
  {
    && (forall k :: 0 <= k < |models| ==> revisions[k] !in HistoryOf(s, ProjectDefaultKey(projectId, models[k])))
    && (forall j, k :: 0 <= j < k < |models| && models[j] == models[k] ==> revisions[j] != revisions[k])
  }

  lemma NotYetFiled(s: State, t: State, projectId: string, models: seq<string>, revisions: seq<string>, n: nat)
    requires |models| == |revisions| && n < |models| && FreshRevisions(s, projectId, models, revisions)
    requires OnlyNew(s, t, projectId, models[..n], revisions[..n])
    ensures revisions[n] !in HistoryOf(t, ProjectDefaultKey(projectId, models[n]))
  {
    hide HistoryOf;
    var key := ProjectDefaultKey(projectId, models[n]);
    if IsNew(projectId, models[..n], revisions[..n], key, revisions[n]) {
      var k :| 0 <= k < n && ProjectDefaultKey(projectId, models[..n][k]) == key && revisions[..n][k] == revisions[n];
      KeysDiffer(projectId, models[k], models[n]);
    }
  }

  /** Setting a project's defaults: on success the component has joined the default binding of each of
      the models, and in any case no other binding has changed. */
  lemma {:induction false} DefaultsAreSet(
    s: State, id: string, projectId: string, models: seq<string>, revisions: seq<string>, ws: seq<Writes>)
    requires Inv(s) && |models| == |revisions| == |ws| && FreshRevisions(s, projectId, models, revisions)
    ensures var (t, ok) := BindAll(s, id, projectId, models, revisions, ws);
      && Inv(t) && t.receipts == s.receipts
      && OthersKept(s, t, projectId, models)
      && OnlyNew(s, t, projectId, models, revisions)
      && (ok ==> AllSet(s, t, id, projectId, models))
    decreases |models|
  {
    if models != [] {
      var n := |models| - 1;
      var (t, ok) := BindAll(s, id, projectId, models[..n], revisions[..n], ws[..n]);
      var key := ProjectDefaultKey(projectId, models[n]);
      var (u, r) := Bind(t, id, key, models[n], revisions[n], ws[n]);
      assert BindAll(s, id, projectId, models, revisions, ws) == if ok then (u, r.Ok?) else (t, false);
      assert FreshRevisions(s, projectId, models[..n], revisions[..n]);
      assert forall robotId :: Untouched(t, t, robotId);
      hide Inv, Bind, BindAll, OthersKept, AllSet, OnlyNew, Untouched, FreshRevisions, ProjectDefaultKey;
      DefaultsAreSet(s, id, projectId, models[..n], revisions[..n], ws[..n]);
      NotYetFiled(s, t, projectId, models, revisions, n);
      BindKeepsInv(t, id, key, models[n], revisions[n], ws[n]);
      BindSets(t, id, key, models[n], revisions[n], ws[n]);
      BindOnlyRecords(t, id, key, models[n], revisions[n], ws[n]);
      assert models == models[..n] + [models[n]];
      OneMoreDefault(s, t, t, id, projectId, models[..n], models[n]);
      OneMoreDefault(s, t, u, id, projectId, models[..n], models[n]);
      OneMoreNew(s, t, t, projectId, models, revisions, n);
      OneMoreNew(s, t, u, projectId, models, revisions, n);
      if ok && r.Ok? {
        OneMoreSet(s, t, u, id, projectId, models[..n], models[n]);
      }
    }
  }

  lemma BindOnlyRecords(s: State, id: string, robotId: string, model: string, revision: string, w: Writes)
    requires Inv(s)
    ensures var t := Bind(s, id, robotId, model, revision, w).0;
      && (forall other :: other != robotId ==> Untouched(s, t, other))
      && (forall other, r :: r in HistoryOf(t, other) ==>
            r in HistoryOf(s, other) || (other == robotId && r == revision))
  {
    assert CurrentHolds(s, robotId);
    hide WithComponent, Installed;
  }

  predicate Untouched(s: State, t: State, robotId: string) {
    && (robotId in s.current <==> robotId in t.current)
    && (robotId in s.current ==> t.current[robotId] == s.current[robotId])
    && HistoryOf(t, robotId) == HistoryOf(s, robotId)
  }

  predicate DefaultSet(s: State, t: State, id: string, projectId: string, model: string) {
    var key := ProjectDefaultKey(projectId, model);
    key in t.current && id in s.receipts
    && t.current[key].choice == WithComponent(Existing(s, key, model).choice, id, s.receipts[id])
  }

  // ---------- the store object ----------

  class ComponentStore {
    var receipts: Receipts
    var current: map<string, Binding>
    var history: map<string, map<string, Binding>>

    ghost function View(): State
      reads this
    {
      State(receipts, current, history)
    }

    /** History first, then the current binding. */
    method Write(b: Binding, w: Writes) returns (r: Result<Binding>)
      modifies this`current, this`history
      ensures (View(), r) == Commit(old(View()), b, w)
    {
      if !w.history {
        return Err(WriteFailed);
      }
      var entries := if b.robotId in history then history[b.robotId] else map[];
      history := history[b.robotId := entries[b.revision := b]];
      if !w.current {
        return Err(WriteFailed);
      }
      current := current[b.robotId := b];
      return Ok(b);
    }

    method BindComponent(id: string, robotId: string, model: string, revision: string, w: Writes)
      returns (r: Result<Binding>)
      modifies this`current, this`history
      ensures (View(), r) == Bind(old(View()), id, robotId, model, revision, w)
    {
      if !Installed(receipts, id) {
        return Err(UnknownComponent);
      }
      var item := receipts[id];
      if robotId == "" || model !in item.models {
        return Err(Unsuitable);
      }
      var b := Binding(robotId, model, "", Choice(map[], None));
      if robotId in current {
        b := current[robotId];
      }
      if b.robotId != robotId || b.model != model {
        return Err(IdentityMismatch);
      }
      match item.kind {
        case RobotAbility =>
          var abilities := b.choice.abilities;
          for k := 0 to |item.abilities|
            invariant abilities == WithAbilities(b.choice.abilities, id, item.abilities[..k])
          {
            assert item.abilities[..k + 1][..k] == item.abilities[..k];
            abilities := abilities[item.abilities[k].role := BoundAbility(id, item.abilities[k])];
          }
          assert item.abilities[..|item.abilities|] == item.abilities;
          b := b.(choice := b.choice.(abilities := abilities));
        case Model => b := b.(choice := b.choice.(model := Some(id)));
        case Other => return Err(NothingToBind);
      }
      r := Write(b.(revision := revision), w);
    }

    method SelectBinding(ids: seq<string>, robotId: string, model: string, profile: string, revision: string, w: Writes)
      returns (r: Result<Binding>)
      modifies this`current, this`history
      ensures exists chosen: Option<Choice> ::
        (chosen.Some? <==> Selectable(old(receipts), ids, robotId, model, profile))
        && (chosen.Some? ==> Binds(old(receipts), ids, chosen.value))
        && (View(), r) == Select(old(View()), robotId, model, chosen, revision, w)
    {
      var chosen := SelectComponents(receipts, ids, robotId, model, profile);
      if chosen.None? {
        return Err(BadSelection);
      }
      r := Write(Binding(robotId, model, revision, chosen.value), w);
    }

    method SetProjectDefault(projectId: string, id: string, revisions: seq<string>, ws: seq<Writes>) returns (ok: bool)
      requires Installed(receipts, id) ==> |receipts[id].models| == |revisions| == |ws|
      modifies this`current, this`history
      ensures !Installed(receipts, id) ==> !ok && View() == old(View())
      ensures Installed(receipts, id) ==>
        (View(), ok) == BindAll(old(View()), id, projectId, receipts[id].models, revisions, ws)
    {
      if !Installed(receipts, id) {
        return false;
      }
      var models := receipts[id].models;
      for k := 0 to |models|
        invariant (View(), true) == BindAll(old(View()), id, projectId, models[..k], revisions[..k], ws[..k])
      {
        assert models[..k + 1][..k] == models[..k];
        assert revisions[..k + 1][..k] == revisions[..k] && ws[..k + 1][..k] == ws[..k];
        var r := BindComponent(id, ProjectDefaultKey(projectId, models[k]), models[k], revisions[k], ws[k]);
        if r.Err? {
          FirstErrorEnds(old(View()), id, projectId, models, revisions, ws, k + 1);
          return false;
        }
      }
      assert models[..|models|] == models && revisions[..|models|] == revisions && ws[..|models|] == ws;
      return true;
    }

    method EnsureRobotBinding(projectId: string, robotId: string, model: string, w: Writes) returns (r: Result<bool>)
      modifies this`current, this`history
      ensures (View(), r) == Ensure(old(View()), projectId, robotId, model, w)
    {
      if robotId in current {
        return Ok(true);
      }
      var key := ProjectDefaultKey(projectId, model);
      if key !in current {
        return Ok(false);
      }
      var written := Write(current[key].(robotId := robotId), w);
      return if written.Ok? then Ok(true) else Err(WriteFailed);
    }

    method RollbackBinding(robotId: string, revision: string, works: bool) returns (r: Result<Binding>)
      modifies this`current
      ensures (View(), r) == Rollback(old(View()), robotId, revision, works)
    {
      if !PackageSet.ComponentSegment(revision) {
        return Err(BadRevision);
      }
      if robotId !in history || revision !in history[robotId] {
        return Err(UnknownRevision);
      }
      var b := history[robotId][revision];
      if b.robotId != robotId {
        return Err(IdentityMismatch);
      }
      if !Restorable(receipts, b) {
        return Err(UnknownComponent);
      }
      if !works {
        return Err(WriteFailed);
      }
      current := current[robotId := b];
      return Ok(b);
    }

    method RemoveComponent(id: string, veto: bool, works: bool) returns (r: Result<string>)
      modifies this`receipts
      ensures (View(), r) == Remove(old(View()), id, veto, works)
    {
      if !Installed(receipts, id) {
        return Err(UnknownComponent);
      }
      var todo := current.Keys;
      while todo != {}
        invariant todo <= current.Keys && View() == old(View())
        invariant forall robotId <- current.Keys - todo :: !Uses(current[robotId], id)
        decreases todo
      {
        var robotId :| robotId in todo;
        if Uses(current[robotId], id) {
          assert Bound(View(), id);
          return Err(StillBound);
        }
        todo := todo - {robotId};
      }
      if veto {
        return Err(Vetoed);
      }
      if !works {
        return Err(WriteFailed);
      }
      receipts := receipts - {id};
      return Ok(id);
    }
  }

  lemma {:induction false} FirstErrorEnds(
    s: State, id: string, projectId: string, models: seq<string>, revisions: seq<string>, ws: seq<Writes>, k: nat)
    requires |models| == |revisions| == |ws| && k <= |models|
    requires !BindAll(s, id, projectId, models[..k], revisions[..k], ws[..k]).1
    ensures BindAll(s, id, projectId, models, revisions, ws) ==
            BindAll(s, id, projectId, models[..k], revisions[..k], ws[..k])
    decreases |models|
  {
    if k == |models| {
      assert models[..k] == models && revisions[..k] == revisions && ws[..k] == ws;
    } else {
      var n := |models| - 1;
      assert models[..n][..k] == models[..k] && revisions[..n][..k] == revisions[..k] && ws[..n][..k] == ws[..k];
      FirstErrorEnds(s, id, projectId, models[..n], revisions[..n], ws[..n], k);
    }
  }
}
