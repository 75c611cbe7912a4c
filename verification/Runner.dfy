/** The action runner: each call is one step against the journal, the per-robot physical lock and
    the feedback throttles, with arbitrary answers from the Ability and writes that may fail. */
module Runner {
  import opened Common
  import opened ActionJournal
  import Throttle

  datatype Request = Request(skillExecutionId: string, key: string, json: string, robotId: string, interval: int)

  /** What the Ability reports about an invocation; status is its own free-form word. */
  datatype AbilityState = AbilityState(status: string, feedback: seq<Throttle.Feedback>)

  /** How StartTask ended: acknowledged, refused before anything ran, or unknown, in which case
      reconciled is the answer to the single follow-up query. */
  datatype StartAnswer = Acknowledged | Rejected | Lost(reconciled: Option<AbilityState>)

  datatype Error =
    | MissingKey | KeyConflict | ReplayForbidden | NotBound | RobotBusy | JournalFailed
    | StartRejected | StartUnconfirmed | AbilityUnavailable | StopUnconfirmed
    | NotFound | ManualCheckRequired

  datatype Outcome = Outcome(action: Option<Action>, error: Option<Error>)

  /** unresolved maps every physical action that was sent, and that neither the Ability nor a
      person has declared over, to its robot; released holds the actions a person let go of. */
  datatype State = State(
    journal: Journal, locks: map<string, string>, throttles: map<string, Throttle.State>,
    unresolved: map<string, string>, released: set<string>)

  /** The environment of one StartAction: the catalogue's answer, the new id, the clock, the
      Ability's answers and which journal writes succeed. */
  datatype StartEnv = StartEnv(
    physical: Option<bool>, id: string, now: int, answer: StartAnswer,
    saveNew: bool, saveApplied: bool, saveFinal: bool, refresh: CallEnv)

  /** The environment of one query or stop. */
  datatype CallEnv = CallEnv(reply: Option<AbilityState>, now: int, saveFirst: bool, saveLast: bool)

  function Normalize(status: string): Status {
    if status == "accepted" then Accepted
    else if status == "running" then Running
    else if status == "stopping" then Stopping
    else if status == "succeeded" || status == "completed" then Succeeded
    else if status == "failed" then Failed
    else if status == "stopped" || status == "cancelled" then Stopped
    else Interrupted
  }

  predicate ConfirmedTerminal(status: string) {
    !Unresolved(Normalize(status))
  }

  /** A journal write; it changes nothing when the store fails or the key belongs to another action. */
  function Store(s: State, a: Action, works: bool): State {
    if works then s.(journal := Save(s.journal, a)) else s
  }

  predicate Stores(s: State, a: Action, works: bool) {
    works && !Conflicts(s.journal, a)
  }

  function Configure(s: State, id: string, interval: int): State {
    if id in s.throttles then s
    else s.(throttles := s.throttles[id := Throttle.NewThrottle(interval)])
  }

  function Unlock(s: State, robotId: string, id: string): State {
    if robotId in s.locks && s.locks[robotId] == id then s.(locks := s.locks - {robotId}) else s
  }

  /** Apply the Ability's answer: status, throttled feedback, journal, and the lock if it is over. */
  function ApplyAbility(s: State, a: Action, reply: AbilityState, now: int, works: bool): (State, Action) {
    var (t, b) := ApplyReport(s, a, Normalize(reply.status), reply.feedback, now);
    var u := Store(t, b, works);
    (if Unresolved(b.status) then u else Resolve(u, a), b)
  }

  /** The status and throttled feedback of a report; a terminal report ends the throttle. */
  function ApplyReport(s: State, a: Action, status: Status, incoming: seq<Throttle.Feedback>, now: int)
    : (State, Action)
  {
    var t := Configure(s, a.id, 0);
    var stream := Throttle.ApplyPoll(Throttle.Stream(t.throttles[a.id], a.cursor, a.feedback),
                                     Throttle.Poll(incoming, now, Terminal(status)));
    (t.(throttles := if Terminal(status) then t.throttles - {a.id} else t.throttles[a.id := stream.throttle]),
     a.(status := status, cursor := stream.cursor, feedback := stream.emitted))
  }

  /** The Ability has said that the action is over. */
  function Resolve(s: State, a: Action): State {
    Unlock(s, a.robotId, a.id).(unresolved := s.unresolved - {a.id})
  }

  function MarkInterrupted(s: State, a: Action, works: bool): (State, Action) {
    (Store(s, a.(status := Interrupted), works), a.(status := Interrupted))
  }

  function Refresh(s: State, id: string, env: CallEnv): (State, Outcome) {
    if id !in s.journal.byID then (s, Outcome(None, Some(NotFound)))
    else
      var a := s.journal.byID[id];
      if Terminal(a.status) then (s, Outcome(Some(a), None))
      else if env.reply.None? then
        var (t, b) := MarkInterrupted(s, a, env.saveLast);
        (t, Outcome(Some(b), Some(AbilityUnavailable)))
      else
        var (t, b) := ApplyAbility(s, a, env.reply.value, env.now, env.saveLast);
        (t, Outcome(Some(b), None))
  }

  function Stop(s: State, id: string, env: CallEnv): (State, Outcome) {
    if id !in s.journal.byID then (s, Outcome(None, Some(NotFound)))
    else
      var a := s.journal.byID[id];
      if Terminal(a.status) && !a.status.Interrupted? then (s, Outcome(Some(a), None))
      else
        var b := a.(status := Stopping);
        if !Stores(s, b, env.saveFirst) then (s, Outcome(None, Some(JournalFailed)))
        else
          var t := Store(s, b, env.saveFirst);
          if env.reply.None? then
            var (u, c) := MarkInterrupted(t, b, env.saveLast);
            (u, Outcome(Some(c), Some(StopUnconfirmed)))
          else
            var (u, c) := ApplyAbility(t, b, env.reply.value, env.now, env.saveLast);
            (u, Outcome(Some(c), None))
  }

  /** A person has checked the scene: the lock goes, the journal still says interrupted. */
  function ConfirmInterrupted(s: State, id: string): (State, Outcome) {
    if id !in s.journal.byID then (s, Outcome(None, Some(NotFound)))
    else if !s.journal.byID[id].status.Interrupted? then (s, Outcome(None, Some(ManualCheckRequired)))
    else
      var a := s.journal.byID[id];
      (Unlock(s, a.robotId, id).(released := s.released + {id}, unresolved := s.unresolved - {id}),
       Outcome(Some(a), None))
  }

  function NewAction(req: Request, env: StartEnv): Action
    requires env.physical.Some?
  {
    Action(env.id, req.skillExecutionId, req.key, req.json, req.robotId, env.physical.value, Accepted, 0, [])
  }

  /** The record is journalled and the robot locked; StartTask now goes out exactly once. */
  function Launch(s: State, req: Request, env: StartEnv): State
    requires env.physical.Some?
  {
    var a := NewAction(req, env);
    var t := Configure(Store(s, a, env.saveNew), a.id, req.interval);
    if a.physical then t.(locks := t.locks[a.robotId := a.id], unresolved := t.unresolved[a.id := a.robotId])
    else t
  }

  function Finish(s: State, a: Action, env: StartEnv): (State, Outcome) {
    match env.answer
    case Acknowledged =>
      var b := a.(status := Running);
      (Store(s, b, env.saveFinal),
       if Stores(s, b, env.saveFinal) then Outcome(Some(b), None) else Outcome(None, Some(JournalFailed)))
    case Rejected =>
      var b := a.(status := Failed);
      var freed := if a.physical then s.(locks := s.locks - {a.robotId}, unresolved := s.unresolved - {a.id}) else s;
      (Store(freed, b, env.saveFinal), Outcome(Some(b), Some(StartRejected)))
    case Lost(reconciled) =>
      if reconciled.Some? && ConfirmedTerminal(reconciled.value.status) then
        var (t, b) := ApplyAbility(s, a, reconciled.value, env.now, env.saveApplied);
        (Store(t, b, env.saveFinal), Outcome(Some(b), Some(StartUnconfirmed)))
      else
        var (t, b) := MarkInterrupted(s, a, env.saveFinal);
        (t, Outcome(Some(b), Some(StartUnconfirmed)))
  }

  function StartAction(s: State, req: Request, env: StartEnv): (State, Outcome) {
    if req.skillExecutionId == "" || req.key == "" then (s, Outcome(None, Some(MissingKey)))
    else
      var known := Lookup(s.journal, req.skillExecutionId, req.key);
      if known.Some? then
        var a := known.value;
        if a.requestJSON != req.json then (s, Outcome(None, Some(KeyConflict)))
        else if a.status.Interrupted? then (s, Outcome(Some(a), Some(ReplayForbidden)))
        else if Terminal(a.status) then (s, Outcome(Some(a), None))
        else Refresh(Configure(s, a.id, req.interval), a.id, env.refresh)
      else if env.physical.None? then (s, Outcome(None, Some(NotBound)))
      else if env.physical.value && req.robotId in s.locks then (s, Outcome(None, Some(RobotBusy)))
      else if !Stores(s, NewAction(req, env), env.saveNew) then (s, Outcome(None, Some(JournalFailed)))
      else Finish(Launch(s, req, env), NewAction(req, env), env)
  }

  // ---------- calls and runs ----------

  datatype Call =
    | Start(req: Request, start: StartEnv)
    | Query(id: string, env: CallEnv)
    | StopCall(id: string, env: CallEnv)
    | Confirm(id: string)

  function Apply(s: State, call: Call): State {
    match call
    case Start(req, env) => StartAction(s, req, env).0
    case Query(id, env) => Refresh(s, id, env).0
    case StopCall(id, env) => Stop(s, id, env).0
    case Confirm(id) => ConfirmInterrupted(s, id).0
  }

  /** Action ids are UUIDs: a new one is not in use. */
  predicate FreshId(s: State, call: Call) {
    call.Start? ==> call.start.id != "" && call.start.id !in s.journal.byID
                    && call.start.id !in s.unresolved && call.start.id !in s.released
  }

  predicate Valid(s: State, calls: seq<Call>)
    decreases |calls|
  {
    calls == [] || (FreshId(s, calls[0]) && Valid(Apply(s, calls[0]), calls[1..]))
  }

  function Run(s: State, calls: seq<Call>): State
    requires Valid(s, calls)
    decreases |calls|
  {
    if calls == [] then s else Run(Apply(s, calls[0]), calls[1..])
  }

  function Init(): State {
    State(Journal(map[], map[]), map[], map[], map[], {})
  }

  // ---------- the lock never lets two unresolved physical actions share a robot ----------

  /** Whatever writes fail, a physical action that is not known to be over holds its robot's lock. */
  predicate Guarded(s: State) {
    && WellIndexed(s.journal)
    && (forall id <- s.unresolved :: s.unresolved[id] in s.locks && s.locks[s.unresolved[id]] == id)
    && (forall id :: id in s.unresolved && id in s.journal.byID ==> s.journal.byID[id].robotId == s.unresolved[id])
  }

  /** A copy of a journalled record that differs only in what the runner may change. */
  predicate CopyOf(j: Journal, a: Action) {
    a.id in j.byID && a.id != "" && KeyOf(a) == KeyOf(j.byID[a.id]) && a.requestJSON == j.byID[a.id].requestJSON
    && a.robotId == j.byID[a.id].robotId && a.physical == j.byID[a.id].physical
  }

  lemma StoreKeepsGuarded(s: State, a: Action, works: bool)
    requires Guarded(s) && CopyOf(s.journal, a)
    ensures var t := Store(s, a, works);
      && Guarded(t) && CopyOf(t.journal, a)
      && !Conflicts(s.journal, a)
      && (forall b: Action :: CopyOf(s.journal, b) ==> CopyOf(t.journal, b))
  {
    assert s.journal.bySkill[KeyOf(a)] == a.id;
    SaveKeepsIndexes(s.journal, a);
  }

  lemma ResolveKeepsGuarded(s: State, a: Action)
    requires Guarded(s) && CopyOf(s.journal, a)
    ensures Guarded(Resolve(s, a))
  {
  }

  /** All a report changes besides the throttles is one record, and the lock when it is over. */
  lemma AbilityChangesOneRecord(s: State, a: Action, reply: AbilityState, now: int, works: bool)
    ensures var (t, b) := ApplyAbility(s, a, reply, now, works);
      var u := Store(s.(throttles := t.throttles), b, works);
      && b == a.(status := b.status, cursor := b.cursor, feedback := b.feedback)
      && t == if Unresolved(b.status) then u else Resolve(u, a)
  {
    hide Normalize, Throttle.ApplyPoll;
  }

  lemma AbilityKeepsGuarded(s: State, a: Action, reply: AbilityState, now: int, works: bool)
    requires Guarded(s) && CopyOf(s.journal, a)
    ensures var (t, b) := ApplyAbility(s, a, reply, now, works);
      Guarded(t) && CopyOf(t.journal, b)
  {
    AbilityChangesOneRecord(s, a, reply, now, works);
    var (t, b) := ApplyAbility(s, a, reply, now, works);
    hide ApplyAbility;
    var s1 := s.(throttles := t.throttles);
    StoreKeepsGuarded(s1, b, works);
    ResolveKeepsGuarded(Store(s1, b, works), a);
  }

  lemma RefreshKeepsGuarded(s: State, id: string, env: CallEnv)
    requires Guarded(s)
    ensures Guarded(Refresh(s, id, env).0)
  {
    if id in s.journal.byID && !Terminal(s.journal.byID[id].status) {
      var a := s.journal.byID[id];
      if env.reply.None? {
        StoreKeepsGuarded(s, a.(status := Interrupted), env.saveLast);
      } else {
        AbilityKeepsGuarded(s, a, env.reply.value, env.now, env.saveLast);
      }
    }
  }

  lemma StopKeepsGuarded(s: State, id: string, env: CallEnv)
    requires Guarded(s)
    ensures Guarded(Stop(s, id, env).0)
  {
    if id in s.journal.byID && Unresolved(s.journal.byID[id].status) {
      var b := s.journal.byID[id].(status := Stopping);
      StoreKeepsGuarded(s, b, env.saveFirst);
      var t := Store(s, b, env.saveFirst);
      if env.reply.None? {
        StoreKeepsGuarded(t, b.(status := Interrupted), env.saveLast);
      } else {
        AbilityKeepsGuarded(t, b, env.reply.value, env.now, env.saveLast);
      }
    }
  }

  lemma LaunchKeepsGuarded(s: State, req: Request, env: StartEnv)
    requires Guarded(s) && env.physical.Some? && FreshId(s, Start(req, env))
    requires env.physical.value ==> req.robotId !in s.locks
    requires Stores(s, NewAction(req, env), env.saveNew)
    ensures Guarded(Launch(s, req, env)) && CopyOf(Launch(s, req, env).journal, NewAction(req, env))
  {
    SaveKeepsIndexes(s.journal, NewAction(req, env));
  }

  lemma FinishKeepsGuarded(s: State, a: Action, env: StartEnv)
    requires Guarded(s) && CopyOf(s.journal, a)
    requires a.physical ==> a.robotId in s.locks && s.locks[a.robotId] == a.id
    ensures Guarded(Finish(s, a, env).0)
  {
    match env.answer
    case Acknowledged => StoreKeepsGuarded(s, a.(status := Running), env.saveFinal);
    case Rejected =>
      var freed := if a.physical then s.(locks := s.locks - {a.robotId}, unresolved := s.unresolved - {a.id}) else s;
      StoreKeepsGuarded(freed, a.(status := Failed), env.saveFinal);
    case Lost(reconciled) =>
      if reconciled.Some? && ConfirmedTerminal(reconciled.value.status) {
        AbilityKeepsGuarded(s, a, reconciled.value, env.now, env.saveApplied);
        var (t, b) := ApplyAbility(s, a, reconciled.value, env.now, env.saveApplied);
        StoreKeepsGuarded(t, b, env.saveFinal);
      } else {
        StoreKeepsGuarded(s, a.(status := Interrupted), env.saveFinal);
      }
  }

  lemma CallKeepsGuarded(s: State, call: Call)
    requires Guarded(s) && FreshId(s, call)
    ensures Guarded(Apply(s, call))
  {
    match call
    case Query(id, env) => RefreshKeepsGuarded(s, id, env);
    case StopCall(id, env) => StopKeepsGuarded(s, id, env);
    case Confirm(id) =>
    case Start(req, env) =>
      var known := Lookup(s.journal, req.skillExecutionId, req.key);
      if req.skillExecutionId == "" || req.key == "" {
      } else if known.Some? {
        RefreshKeepsGuarded(Configure(s, known.value.id, req.interval), known.value.id, env.refresh);
      } else if env.physical.Some? && !(env.physical.value && req.robotId in s.locks)
                && Stores(s, NewAction(req, env), env.saveNew) {
        LaunchKeepsGuarded(s, req, env);
        FinishKeepsGuarded(Launch(s, req, env), NewAction(req, env), env);
      }
  }

  lemma {:induction false} RunKeepsGuarded(s: State, calls: seq<Call>)
    requires Guarded(s) && Valid(s, calls)
    ensures Guarded(Run(s, calls))
    decreases |calls|
  {
    if calls != [] {
      CallKeepsGuarded(s, calls[0]);
      RunKeepsGuarded(Apply(s, calls[0]), calls[1..]);
    }
  }

  /** Over every run, with any answers and any failed writes, two physical actions whose outcome is
      unknown never belong to the same robot. */
  lemma OneUnresolvedActionPerRobot(calls: seq<Call>, a: string, b: string)
    requires Valid(Init(), calls)
    requires a in Run(Init(), calls).unresolved && b in Run(Init(), calls).unresolved
    requires Run(Init(), calls).unresolved[a] == Run(Init(), calls).unresolved[b]
    ensures a == b
  {
    RunKeepsGuarded(Init(), calls);
  }

  // ---------- with working writes, the lock table is what the journal says ----------

  predicate AllWritesWork(call: Call) {
    match call
    case Start(_, env) =>
      env.saveNew && env.saveApplied && env.saveFinal && env.refresh.saveFirst && env.refresh.saveLast
    case Query(_, env) => env.saveFirst && env.saveLast
    case StopCall(_, env) => env.saveFirst && env.saveLast
    case Confirm(_) => true
  }

  /** A physical record whose outcome is open and that nobody has let go of. */
  predicate Holding(a: Action, released: set<string>) {
    a.physical && Unresolved(a.status) && a.id !in released
  }

  /** The lock of a robot names an action exactly when that action is the robot's open one. */
  predicate Mirrors(j: Journal, locks: map<string, string>, released: set<string>) {
    && (forall r <- locks :: locks[r] in j.byID && j.byID[locks[r]].robotId == r && Holding(j.byID[locks[r]], released))
    && (forall id <- j.byID :: Holding(j.byID[id], released)
          ==> j.byID[id].robotId in locks && locks[j.byID[id].robotId] == id)
  }

  predicate Mirrored(s: State) {
    WellIndexed(s.journal) && Mirrors(s.journal, s.locks, s.released)
  }

  /** A record's status has moved on and its outcome is still open. */
  lemma MirrorsStay(j: Journal, t: Journal, locks: map<string, string>, released: set<string>, b: Action)
    requires Mirrors(j, locks, released) && CopyOf(j, b) && j.byID[b.id].id == b.id && t.byID == j.byID[b.id := b]
    requires Unresolved(j.byID[b.id].status) && Unresolved(b.status)
    ensures Mirrors(t, locks, released)
  {
    hide KeyOf, Unresolved;
  }

  /** A record's outcome is settled, and its lock is given back. */
  lemma MirrorsFreed(j: Journal, t: Journal, locks: map<string, string>, released: set<string>, b: Action)
    requires Mirrors(j, locks, released) && CopyOf(j, b) && j.byID[b.id].id == b.id && t.byID == j.byID[b.id := b]
    requires Unresolved(j.byID[b.id].status) && !Unresolved(b.status)
    ensures var held := b.robotId in locks && locks[b.robotId] == b.id;
      Mirrors(t, if held then locks - {b.robotId} else locks, released)
  {
    hide KeyOf, Unresolved;
  }

  /** A new record takes its robot's lock if it is physical. */
  lemma MirrorsGrow(j: Journal, t: Journal, locks: map<string, string>, released: set<string>, a: Action)
    requires Mirrors(j, locks, released) && a.id !in j.byID && a.id !in released && t.byID == j.byID[a.id := a]
    requires Unresolved(a.status) && (a.physical ==> a.robotId !in locks)
    ensures Mirrors(t, if a.physical then locks[a.robotId := a.id] else locks, released)
  {
    hide Unresolved;
  }

  lemma StoreKeepsMirrored(s: State, b: Action)
    requires Mirrored(s) && CopyOf(s.journal, b) && Unresolved(s.journal.byID[b.id].status)
    ensures !Conflicts(s.journal, b) && CopyOf(Save(s.journal, b), b) && Save(s.journal, b).byID[b.id] == b
    ensures Unresolved(b.status) ==> Mirrored(Store(s, b, true))
    ensures !Unresolved(b.status) ==> Mirrored(Unlock(Store(s, b, true), b.robotId, b.id))
  {
    assert s.journal.bySkill[KeyOf(b)] == b.id;
    SaveKeepsIndexes(s.journal, b);
    hide Mirrors, WellIndexed, Unresolved, KeyOf;
    if Unresolved(b.status) {
      MirrorsStay(s.journal, Save(s.journal, b), s.locks, s.released, b);
    } else {
      MirrorsFreed(s.journal, Save(s.journal, b), s.locks, s.released, b);
    }
  }

  lemma AbilityKeepsMirrored(s: State, a: Action, reply: AbilityState, now: int)
    requires Mirrored(s) && CopyOf(s.journal, a) && Unresolved(s.journal.byID[a.id].status)
    ensures var (t, b) := ApplyAbility(s, a, reply, now, true);
      Mirrored(t) && CopyOf(t.journal, b) && t.journal.byID[b.id] == b && Store(t, b, true) == t
  {
    AbilityChangesOneRecord(s, a, reply, now, true);
    var (t, b) := ApplyAbility(s, a, reply, now, true);
    hide ApplyAbility;
    StoreKeepsMirrored(s.(throttles := t.throttles), b);
    assert t.journal == Save(s.journal, b);
    SaveTwice(s.journal, b);
  }

  lemma SaveTwice(j: Journal, b: Action)
    requires !Conflicts(j, b)
    ensures Save(Save(j, b), b) == Save(j, b)
  {
    var once := Save(j, b);
    assert once.byID[b.id := b] == once.byID && once.bySkill[KeyOf(b) := b.id] == once.bySkill;
  }

  lemma RefreshKeepsMirrored(s: State, id: string, env: CallEnv)
    requires Mirrored(s) && env.saveLast
    ensures Mirrored(Refresh(s, id, env).0)
  {
    if id in s.journal.byID && !Terminal(s.journal.byID[id].status) {
      var a := s.journal.byID[id];
      if env.reply.None? {
        StoreKeepsMirrored(s, a.(status := Interrupted));
      } else {
        AbilityKeepsMirrored(s, a, env.reply.value, env.now);
      }
    }
  }

  lemma StopKeepsMirrored(s: State, id: string, env: CallEnv)
    requires Mirrored(s) && env.saveFirst && env.saveLast
    ensures Mirrored(Stop(s, id, env).0)
  {
    if id in s.journal.byID && Unresolved(s.journal.byID[id].status) {
      var b := s.journal.byID[id].(status := Stopping);
      StoreKeepsMirrored(s, b);
      var t := Store(s, b, true);
      if env.reply.None? {
        StoreKeepsMirrored(t, b.(status := Interrupted));
      } else {
        AbilityKeepsMirrored(t, b, env.reply.value, env.now);
      }
    }
  }

  lemma LaunchKeepsMirrored(s: State, req: Request, env: StartEnv)
    requires Mirrored(s) && env.physical.Some? && FreshId(s, Start(req, env)) && env.saveNew
    requires env.physical.value ==> req.robotId !in s.locks
    requires !Conflicts(s.journal, NewAction(req, env))
    ensures var t := Launch(s, req, env);
      && Mirrored(t) && CopyOf(t.journal, NewAction(req, env))
      && t.journal.byID[env.id] == NewAction(req, env)
  {
    var a := NewAction(req, env);
    SaveKeepsIndexes(s.journal, a);
    hide Mirrors, WellIndexed, KeyOf;
    MirrorsGrow(s.journal, Save(s.journal, a), s.locks, s.released, a);
  }

  lemma FinishKeepsMirrored(s: State, a: Action, env: StartEnv)
    requires Mirrored(s) && CopyOf(s.journal, a) && s.journal.byID[a.id] == a
    requires a.status.Accepted? && a.id !in s.released && env.saveApplied && env.saveFinal
    ensures Mirrored(Finish(s, a, env).0)
  {
    match env.answer
    case Acknowledged => StoreKeepsMirrored(s, a.(status := Running));
    case Rejected => StoreKeepsMirrored(s, a.(status := Failed));
    case Lost(reconciled) =>
      if reconciled.Some? && ConfirmedTerminal(reconciled.value.status) {
        AbilityKeepsMirrored(s, a, reconciled.value, env.now);
      } else {
        StoreKeepsMirrored(s, a.(status := Interrupted));
      }
  }

  lemma StartKeepsMirrored(s: State, req: Request, env: StartEnv)
    requires Mirrored(s) && FreshId(s, Start(req, env)) && AllWritesWork(Start(req, env))
    ensures Mirrored(StartAction(s, req, env).0)
  {
    var known := Lookup(s.journal, req.skillExecutionId, req.key);
    if req.skillExecutionId == "" || req.key == "" {
    } else if known.Some? {
      RefreshKeepsMirrored(Configure(s, known.value.id, req.interval), known.value.id, env.refresh);
    } else if env.physical.Some? && !(env.physical.value && req.robotId in s.locks)
              && Stores(s, NewAction(req, env), env.saveNew) {
      LaunchKeepsMirrored(s, req, env);
      FinishKeepsMirrored(Launch(s, req, env), NewAction(req, env), env);
    }
  }

  lemma CallKeepsMirrored(s: State, call: Call)
    requires Mirrored(s) && FreshId(s, call) && AllWritesWork(call)
    ensures Mirrored(Apply(s, call))
  {
    match call
    case Query(id, env) => RefreshKeepsMirrored(s, id, env);
    case StopCall(id, env) => StopKeepsMirrored(s, id, env);
    case Confirm(id) =>
    case Start(req, env) => StartKeepsMirrored(s, req, env);
  }

  lemma {:induction false} RunKeepsMirrored(s: State, calls: seq<Call>)
    requires Mirrored(s) && Valid(s, calls)
    requires forall i :: 0 <= i < |calls| ==> AllWritesWork(calls[i])
    ensures Mirrored(Run(s, calls))
    decreases |calls|
  {
    if calls != [] {
      CallKeepsMirrored(s, calls[0]);
      RunKeepsMirrored(Apply(s, calls[0]), calls[1..]);
    }
  }

  /** Over every run with working writes, a robot's lock names an action exactly when that action is
      a physical one of that robot, not succeeded, failed or stopped, and not let go by a person. */
  lemma LockMirrorsJournal(calls: seq<Call>, robotId: string, id: string)
    requires Valid(Init(), calls)
    requires forall i :: 0 <= i < |calls| ==> AllWritesWork(calls[i])
    ensures var s := Run(Init(), calls);
      (robotId in s.locks && s.locks[robotId] == id) <==>
      (id in s.journal.byID && s.journal.byID[id].robotId == robotId && Holding(s.journal.byID[id], s.released))
  {
    RunKeepsMirrored(Init(), calls);
  }

  // ---------- restart ----------

  predicate ActivePhysical(a: Action) {
    a.physical && !Terminal(a.status)
  }

  /** What a restarted runner may put in its lock table: for each robot with physical records that
      are still active, one of them; interrupted records are not among the active ones. */
  predicate Rebuilt(j: Journal, locks: map<string, string>) {
    && (forall r <- locks :: locks[r] in j.byID && j.byID[locks[r]].robotId == r && ActivePhysical(j.byID[locks[r]]))
    && (forall id <- j.byID :: ActivePhysical(j.byID[id]) ==> j.byID[id].robotId in locks)
  }

  ghost function SomeActive(j: Journal, robotId: string): (id: string)
    requires exists id <- j.byID :: ActivePhysical(j.byID[id]) && j.byID[id].robotId == robotId
    ensures id in j.byID && ActivePhysical(j.byID[id]) && j.byID[id].robotId == robotId
  {
    var id :| id in j.byID && ActivePhysical(j.byID[id]) && j.byID[id].robotId == robotId;
    id
  }

  /** A record that is active can be the one that the rebuilt table names; and there always is a table. */
  lemma CanBeRebuilt(j: Journal, choice: Option<string>) returns (locks: map<string, string>)
    requires choice.Some? ==> choice.value in j.byID && ActivePhysical(j.byID[choice.value])
    ensures Rebuilt(j, locks)
    ensures choice.Some? ==> locks[j.byID[choice.value].robotId] == choice.value
  {
    var robots := set id | id in j.byID && ActivePhysical(j.byID[id]) :: j.byID[id].robotId;
    locks := map r | r in robots :: SomeActive(j, r);
    if choice.Some? {
      locks := locks[j.byID[choice.value].robotId := choice.value];
    }
  }

  /** A physical record that keeps its lock is not interrupted, and one that a person has let go of has
      not become active again. */
  predicate SurvivesRestart(s: State, id: string)
    requires id in s.journal.byID
  {
    var a := s.journal.byID[id];
    a.physical ==> if id in s.released then Terminal(a.status) else !a.status.Interrupted?
  }

  lemma RebuiltIsTheSame(s: State, locks: map<string, string>)
    requires Mirrored(s) && Rebuilt(s.journal, locks) && forall id <- s.journal.byID :: SurvivesRestart(s, id)
    ensures locks == s.locks
  {
    forall r | r in locks ensures r in s.locks && s.locks[r] == locks[r] {
      assert SurvivesRestart(s, locks[r]);
      assert Holding(s.journal.byID[locks[r]], s.released);
    }
    forall r | r in s.locks ensures r in locks {
      assert SurvivesRestart(s, s.locks[r]);
      assert ActivePhysical(s.journal.byID[s.locks[r]]);
    }
    assert locks.Keys == s.locks.Keys;
  }

  /** A restart recovers the lock table, whichever active record it finds first, exactly when every
      physical record survives it. */
  lemma RestartRebuildsLocks(s: State)
    requires Mirrored(s)
    ensures (forall locks :: Rebuilt(s.journal, locks) ==> locks == s.locks) <==>
            (forall id <- s.journal.byID :: SurvivesRestart(s, id))
  {
    forall locks | Rebuilt(s.journal, locks) && (forall id <- s.journal.byID :: SurvivesRestart(s, id))
      ensures locks == s.locks
    {
      RebuiltIsTheSame(s, locks);
    }
    if forall locks :: Rebuilt(s.journal, locks) ==> locks == s.locks {
      var locks := CanBeRebuilt(s.journal, None);
      forall id | id in s.journal.byID ensures SurvivesRestart(s, id) {
        var a := s.journal.byID[id];
        if a.physical && id in s.released && !Terminal(a.status) {
          var other := CanBeRebuilt(s.journal, Some(id));
        } else if a.physical && id !in s.released && a.status.Interrupted? {
          assert Holding(a, s.released);
        }
      }
    }
  }

  // ---------- the runner object ----------

  class ActionRunner {
    const journal: MemoryActionJournal
    var activePhysical: map<string, string>
    var feedback: map<string, Throttle.State>
    ghost var unresolved: map<string, string>
    ghost var released: set<string>

    ghost function View(): State
      reads this, journal
    {
      State(journal.View(), activePhysical, feedback, unresolved, released)
    }

    constructor (journal: MemoryActionJournal)
      requires WellIndexed(journal.View())
      ensures this.journal == journal && feedback == map[]
      ensures Rebuilt(journal.View(), activePhysical)
    {
      this.journal := journal;
      feedback, unresolved, released := map[], map[], {};
      var active := journal.ListActiveActions();
      var locks: map<string, string> := map[];
      for i := 0 to |active|
        invariant forall r <- locks ::
                    (exists k :: 0 <= k < i && active[k].physical && active[k].robotId == r && active[k].id == locks[r])
        invariant forall k :: 0 <= k < i && active[k].physical ==> active[k].robotId in locks
      {
        if active[i].physical {
          locks := locks[active[i].robotId := active[i].id];
        }
      }
      forall r | r in locks
        ensures locks[r] in journal.byID && journal.byID[locks[r]].robotId == r
                && ActivePhysical(journal.byID[locks[r]])
      {
        var k :| 0 <= k < |active| && active[k].physical && active[k].robotId == r && active[k].id == locks[r];
        assert active[k] in active;
      }
      activePhysical := locks;
    }

    method Write(a: Action, works: bool) returns (ok: bool)
      modifies journal
      ensures journal.View() == Store(old(View()), a, works).journal
      ensures ok == Stores(old(View()), a, works)
    {
      if !works {
        return false;
      }
      ok := journal.SaveAction(a);
    }

    method ConfigureFeedback(id: string, interval: int)
      modifies this`feedback
      ensures View() == Configure(old(View()), id, interval)
    {
      if id !in feedback {
        feedback := feedback[id := Throttle.NewThrottle(interval)];
      }
    }

    method ReleasePhysical(robotId: string, id: string)
      modifies this`activePhysical
      ensures View() == Unlock(old(View()), robotId, id)
    {
      if robotId in activePhysical && activePhysical[robotId] == id {
        activePhysical := activePhysical - {robotId};
      }
    }

    method ApplyFeedback(a: Action, status: Status, incoming: seq<Throttle.Feedback>, now: int) returns (b: Action)
      modifies this`feedback
      ensures b == ApplyReport(old(View()), a, status, incoming, now).1
      ensures View() == ApplyReport(old(View()), a, status, incoming, now).0
    {
      ConfigureFeedback(a.id, 0);
      var terminal := Terminal(status);
      var throttle := new Throttle.FeedbackThrottle.From(feedback[a.id]);
      var cursor, emitted := throttle.Apply(a.cursor, a.feedback, Throttle.Poll(incoming, now, terminal));
      if terminal {
        feedback := feedback - {a.id};
      } else {
        feedback := feedback[a.id := throttle.Value()];
      }
      b := a.(status := status, cursor := cursor, feedback := emitted);
    }

    method ApplyAbilityState(a: Action, reply: AbilityState, now: int, works: bool) returns (b: Action)
      modifies this, journal
      ensures View() == ApplyAbility(old(View()), a, reply, now, works).0
      ensures b == ApplyAbility(old(View()), a, reply, now, works).1
    {
      b := ApplyFeedback(a, Normalize(reply.status), reply.feedback, now);
      var _ := Write(b, works);
      if Terminal(b.status) && !b.status.Interrupted? {
        ReleasePhysical(b.robotId, b.id);
        unresolved := unresolved - {b.id};
      }
    }

    method MarkUnconfirmed(a: Action, works: bool) returns (b: Action)
      modifies journal
      ensures View() == MarkInterrupted(old(View()), a, works).0
      ensures b == MarkInterrupted(old(View()), a, works).1
    {
      b := a.(status := Interrupted);
      var _ := Write(b, works);
    }

    method RefreshAction(id: string, env: CallEnv) returns (outcome: Outcome)
      modifies this, journal
      ensures (View(), outcome) == Refresh(old(View()), id, env)
    {
      if id !in journal.byID {
        return Outcome(None, Some(NotFound));
      }
      var a := journal.byID[id];
      if Terminal(a.status) {
        return Outcome(Some(a), None);
      }
      match env.reply
      case None =>
        var b := MarkUnconfirmed(a, env.saveLast);
        return Outcome(Some(b), Some(AbilityUnavailable));
      case Some(reply) =>
        var b := ApplyAbilityState(a, reply, env.now, env.saveLast);
        return Outcome(Some(b), None);
    }

    /** Query the action, then hand out its feedback above the reader's last sequence. */
    method ReadFeedback(id: string, after: int, env: CallEnv)
      returns (items: seq<Throttle.Feedback>, terminal: bool, error: Option<Error>)
      modifies this, journal
      ensures var (t, r) := Refresh(old(View()), id, env);
        && View() == t && error == r.error
        && items == (if r.action.Some? then Throttle.After(r.action.value.feedback, after) else [])
        && terminal == (r.action.Some? && Terminal(r.action.value.status))
    {
      var r := RefreshAction(id, env);
      items, terminal, error := [], false, r.error;
      if r.action.None? {
        return;
      }
      var all := r.action.value.feedback;
      for k := 0 to |all|
        invariant items == Throttle.After(all[..k], after)
      {
        assert all[..k + 1][..k] == all[..k];
        if all[k].sequence > after {
          items := items + [all[k]];
        }
      }
      assert all[..|all|] == all;
      terminal := Terminal(r.action.value.status);
    }

    method StopAction(id: string, env: CallEnv) returns (outcome: Outcome)
      modifies this, journal
      ensures (View(), outcome) == Stop(old(View()), id, env)
    {
      if id !in journal.byID {
        return Outcome(None, Some(NotFound));
      }
      var a := journal.byID[id];
      if Terminal(a.status) && !a.status.Interrupted? {
        return Outcome(Some(a), None);
      }
      a := a.(status := Stopping);
      var ok := Write(a, env.saveFirst);
      if !ok {
        return Outcome(None, Some(JournalFailed));
      }
      match env.reply
      case None =>
        var b := MarkUnconfirmed(a, env.saveLast);
        return Outcome(Some(b), Some(StopUnconfirmed));
      case Some(reply) =>
        var b := ApplyAbilityState(a, reply, env.now, env.saveLast);
        return Outcome(Some(b), None);
    }

    method ConfirmByHand(id: string) returns (outcome: Outcome)
      modifies this
      ensures (View(), outcome) == ConfirmInterrupted(old(View()), id)
    {
      if id !in journal.byID {
        return Outcome(None, Some(NotFound));
      }
      var a := journal.byID[id];
      if !a.status.Interrupted? {
        return Outcome(None, Some(ManualCheckRequired));
      }
      ReleasePhysical(a.robotId, id);
      released, unresolved := released + {id}, unresolved - {id};
      return Outcome(Some(a), None);
    }

    method StartNew(a: Action, req: Request, env: StartEnv) returns (outcome: Outcome)
      requires env.physical.Some? && a == NewAction(req, env)
      modifies this, journal
      ensures !Stores(old(View()), a, env.saveNew) ==>
                View() == old(View()) && outcome == Outcome(None, Some(JournalFailed))
      ensures Stores(old(View()), a, env.saveNew) ==>
                (View(), outcome) == Finish(Launch(old(View()), req, env), a, env)
    {
      var ok := Write(a, env.saveNew);
      if !ok {
        return Outcome(None, Some(JournalFailed));
      }
      ConfigureFeedback(a.id, req.interval);
      if a.physical {
        activePhysical := activePhysical[a.robotId := a.id];
        unresolved := unresolved[a.id := a.robotId];
      }
      assert View() == Launch(old(View()), req, env);
      outcome := AfterStartTask(a, env);
    }

    /** StartTask has been sent once; this records how it ended. */
    method AfterStartTask(a: Action, env: StartEnv) returns (outcome: Outcome)
      modifies this, journal
      ensures (View(), outcome) == Finish(old(View()), a, env)
    {
      match env.answer
      case Acknowledged =>
        var b := a.(status := Running);
        var ok := Write(b, env.saveFinal);
        return if ok then Outcome(Some(b), None) else Outcome(None, Some(JournalFailed));
      case Rejected =>
        var b := a.(status := Failed);
        if a.physical {
          activePhysical := activePhysical - {a.robotId};
          unresolved := unresolved - {a.id};
        }
        var _ := Write(b, env.saveFinal);
        return Outcome(Some(b), Some(StartRejected));
      case Lost(reconciled) =>
        var b: Action;
        if reconciled.Some? && ConfirmedTerminal(reconciled.value.status) {
          b := ApplyAbilityState(a, reconciled.value, env.now, env.saveApplied);
          var _ := Write(b, env.saveFinal);
        } else {
          b := MarkUnconfirmed(a, env.saveFinal);
        }
        return Outcome(Some(b), Some(StartUnconfirmed));
    }

    method Begin(req: Request, env: StartEnv) returns (outcome: Outcome)
      requires WellIndexed(journal.View())
      modifies this, journal
      ensures (View(), outcome) == StartAction(old(View()), req, env)
    {
      if req.skillExecutionId == "" || req.key == "" {
        return Outcome(None, Some(MissingKey));
      }
      var known := journal.GetAction(req.skillExecutionId, req.key);
      if known.Some? {
        var a := known.value;
        if a.requestJSON != req.json {
          return Outcome(None, Some(KeyConflict));
        }
        if a.status.Interrupted? {
          return Outcome(Some(a), Some(ReplayForbidden));
        }
        if Terminal(a.status) {
          return Outcome(Some(a), None);
        }
        ConfigureFeedback(a.id, req.interval);
        outcome := RefreshAction(a.id, env.refresh);
        return;
      }
      if env.physical.None? {
        return Outcome(None, Some(NotBound));
      }
      if env.physical.value && req.robotId in activePhysical {
        return Outcome(None, Some(RobotBusy));
      }
      outcome := StartNew(NewAction(req, env), req, env);
    }
  }
}
