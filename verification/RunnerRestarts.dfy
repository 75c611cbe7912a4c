/** The action runner over restarts: the journal survives, the lock table is rebuilt from the records that
    are active, and what goes on at the robots goes on. */
module RunnerRestarts {
  import opened Common
  import opened ActionJournal
  import opened Runner

  /** The process comes up again with this table. */
  function Restarted(s: State, locks: map<string, string>): State {
    State(s.journal, locks, map[], s.unresolved, s.released)
  }

  datatype Event = Do(call: Call) | Restart(locks: map<string, string>)

  predicate Happens(s: State, event: Event) {
    match event
    case Do(call) => FreshId(s, call)
    case Restart(locks) => Rebuilt(s.journal, locks)
  }

  function After(s: State, event: Event): State {
    match event
    case Do(call) => Runner.Apply(s, call)
    case Restart(locks) => Restarted(s, locks)
  }

  predicate Life(s: State, events: seq<Event>)
    decreases |events|
  {
    events == [] || (Happens(s, events[0]) && Life(After(s, events[0]), events[1..]))
  }

  function Live(s: State, events: seq<Event>): State
    decreases |events|
  {
    if events == [] then s else Live(After(s, events[0]), events[1..])
  }

  // ---------- the records of unresolved actions ----------

  /** What may still be going on has a record that says so. */
  predicate Tracked(s: State) {
    forall id <- s.unresolved ::
      && id in s.journal.byID && s.journal.byID[id].physical && Unresolved(s.journal.byID[id].status)
      && s.journal.byID[id].robotId == s.unresolved[id]
  }

  lemma StoreKeepsTracked(s: State, a: Action, works: bool)
    requires Tracked(s) && CopyOf(s.journal, a) && (a.id in s.unresolved ==> Unresolved(a.status))
    ensures Tracked(Store(s, a, works))
  {
    hide KeyOf, Unresolved;
  }

  lemma AbilityKeepsTracked(s: State, a: Action, reply: AbilityState, now: int, works: bool)
    requires Tracked(s) && CopyOf(s.journal, a)
    ensures Tracked(ApplyAbility(s, a, reply, now, works).0)
  {
    AbilityChangesOneRecord(s, a, reply, now, works);
    var (t, b) := ApplyAbility(s, a, reply, now, works);
    assert CopyOf(s.journal, b);
    hide ApplyAbility, KeyOf;
    if Unresolved(b.status) {
      StoreKeepsTracked(s.(throttles := t.throttles), b, works);
    } else {
      StoreKeepsTracked(s.(throttles := t.throttles, unresolved := s.unresolved - {a.id}), b, works);
    }
    hide Unresolved;
  }

  lemma RefreshKeepsTracked(s: State, id: string, env: CallEnv)
    requires Guarded(s) && Tracked(s)
    ensures Tracked(Refresh(s, id, env).0)
  {
    if id in s.journal.byID && !Terminal(s.journal.byID[id].status) {
      var a := s.journal.byID[id];
      if env.reply.None? {
        StoreKeepsTracked(s, a.(status := Interrupted), env.saveLast);
      } else {
        AbilityKeepsTracked(s, a, env.reply.value, env.now, env.saveLast);
      }
    }
    hide Tracked;
  }

  lemma StopKeepsTracked(s: State, id: string, env: CallEnv)
    requires Guarded(s) && Tracked(s)
    ensures Tracked(Runner.Stop(s, id, env).0)
  {
    if id in s.journal.byID && Unresolved(s.journal.byID[id].status) {
      var b := s.journal.byID[id].(status := Stopping);
      StoreKeepsGuarded(s, b, env.saveFirst);
      StoreKeepsTracked(s, b, env.saveFirst);
      var t := Store(s, b, env.saveFirst);
      if env.reply.None? {
        StoreKeepsTracked(t, b.(status := Interrupted), env.saveLast);
      } else {
        AbilityKeepsTracked(t, b, env.reply.value, env.now, env.saveLast);
      }
    }
    hide Tracked;
  }

  lemma LaunchKeepsTracked(s: State, req: Request, env: StartEnv)
    requires Tracked(s) && env.physical.Some? && FreshId(s, Start(req, env))
    requires Stores(s, NewAction(req, env), env.saveNew)
    ensures Tracked(Launch(s, req, env))
  {
    hide KeyOf;
  }

  lemma FinishKeepsTracked(s: State, a: Action, env: StartEnv)
    requires Guarded(s) && Tracked(s) && CopyOf(s.journal, a)
    requires a.physical <==> a.id in s.unresolved
    ensures Tracked(Finish(s, a, env).0)
  {
    match env.answer {
      case Acknowledged => StoreKeepsTracked(s, a.(status := Running), env.saveFinal);
      case Rejected =>
        var freed := if a.physical then s.(locks := s.locks - {a.robotId}, unresolved := s.unresolved - {a.id}) else s;
        StoreKeepsTracked(freed, a.(status := Failed), env.saveFinal);
      case Lost(reconciled) =>
        if reconciled.Some? && ConfirmedTerminal(reconciled.value.status) {
          AbilityKeepsTracked(s, a, reconciled.value, env.now, env.saveApplied);
          AbilityKeepsGuarded(s, a, reconciled.value, env.now, env.saveApplied);
          ConfirmedIsResolved(s, a, reconciled.value, env.now, env.saveApplied);
          var (t, b) := ApplyAbility(s, a, reconciled.value, env.now, env.saveApplied);
          StoreKeepsTracked(t, b, env.saveFinal);
        } else {
          StoreKeepsTracked(s, a.(status := Interrupted), env.saveFinal);
        }
    }
    hide Tracked;
  }

  lemma ConfirmedIsResolved(s: State, a: Action, reply: AbilityState, now: int, works: bool)
    requires ConfirmedTerminal(reply.status)
    ensures a.id !in ApplyAbility(s, a, reply, now, works).0.unresolved
    ensures ApplyAbility(s, a, reply, now, works).1.id == a.id
  {
    hide Normalize, Throttle.ApplyPoll;
  }

  lemma CallKeepsTracked(s: State, call: Call)
    requires Guarded(s) && Tracked(s) && FreshId(s, call)
    ensures Tracked(Runner.Apply(s, call))
  {
    match call
    case Query(id, env) => RefreshKeepsTracked(s, id, env);
    case StopCall(id, env) => StopKeepsTracked(s, id, env);
    case Confirm(id) =>
    case Start(req, env) => StartKeepsTracked(s, req, env);
  }

  lemma StartKeepsTracked(s: State, req: Request, env: StartEnv)
    requires Guarded(s) && Tracked(s) && FreshId(s, Start(req, env))
    ensures Tracked(StartAction(s, req, env).0)
  {
    var known := Lookup(s.journal, req.skillExecutionId, req.key);
    if req.skillExecutionId == "" || req.key == "" {
    } else if known.Some? {
      RefreshKeepsTracked(Configure(s, known.value.id, req.interval), known.value.id, env.refresh);
    } else if env.physical.Some? && !(env.physical.value && req.robotId in s.locks)
              && Stores(s, NewAction(req, env), env.saveNew) {
      LaunchKeepsGuarded(s, req, env);
      LaunchKeepsTracked(s, req, env);
      FinishKeepsTracked(Launch(s, req, env), NewAction(req, env), env);
    }
  }

  // ---------- what a restart keeps ----------

  /** Its record is active, and no other active physical record is on its robot. */
  predicate FoundAgain(s: State, id: string)
    requires id in s.journal.byID
  {
    var a := s.journal.byID[id];
    && !a.status.Interrupted?
    && forall other <- s.journal.byID ::
         (ActivePhysical(s.journal.byID[other]) && s.journal.byID[other].robotId == a.robotId) ==> other == id
  }

  /** Whichever table is rebuilt, every unresolved action still holds its robot's lock, exactly if each of
      them has an active record that is its robot's only one. */
  lemma RestartGuardsExactly(s: State)
    requires Guarded(s) && Tracked(s)
    ensures (forall locks :: Rebuilt(s.journal, locks) ==> Guarded(Restarted(s, locks))) <==>
            (forall id <- s.unresolved :: FoundAgain(s, id))
  {
    forall locks | Rebuilt(s.journal, locks) && (forall id <- s.unresolved :: FoundAgain(s, id))
      ensures Guarded(Restarted(s, locks))
    {
      FoundAgainGuards(s, locks);
    }
    if forall locks :: Rebuilt(s.journal, locks) ==> Guarded(Restarted(s, locks)) {
      forall id | id in s.unresolved ensures FoundAgain(s, id) {
        OnlyItsOwn(s, id);
      }
    }
  }

  lemma FoundAgainGuards(s: State, locks: map<string, string>)
    requires Guarded(s) && Tracked(s) && Rebuilt(s.journal, locks) && forall id <- s.unresolved :: FoundAgain(s, id)
    ensures Guarded(Restarted(s, locks))
  {
    forall id | id in s.unresolved ensures s.unresolved[id] in locks && locks[s.unresolved[id]] == id {
      assert FoundAgain(s, id) && ActivePhysical(s.journal.byID[id]);
    }
    hide WellIndexed;
  }

  lemma OnlyItsOwn(s: State, id: string)
    requires Tracked(s) && id in s.unresolved
    requires forall locks :: Rebuilt(s.journal, locks) ==> Guarded(Restarted(s, locks))
    ensures FoundAgain(s, id)
  {
    var r := s.unresolved[id];
    var locks := CanBeRebuilt(s.journal, None);
    assert Guarded(Restarted(s, locks)) && locks[r] == id;
    var records := s.journal.byID;
    forall other | other in records && ActivePhysical(records[other]) && records[other].robotId == r
      ensures other == id
    {
      var named := CanBeRebuilt(s.journal, Some(other));
      assert Guarded(Restarted(s, named));
    }
    hide WellIndexed;
  }

  /** At every restart each unresolved action is found again. */
  predicate FindsAgain(s: State, events: seq<Event>)
    decreases |events|
  {
    events == [] ||
    ((events[0].Restart? ==> forall id <- s.unresolved :: id in s.journal.byID && FoundAgain(s, id))
     && FindsAgain(After(s, events[0]), events[1..]))
  }

  lemma {:induction false} LifeKeepsGuarded(s: State, events: seq<Event>)
    requires Guarded(s) && Tracked(s) && Life(s, events) && FindsAgain(s, events)
    ensures Guarded(Live(s, events)) && Tracked(Live(s, events))
    decreases |events|
  {
    if events != [] {
      var t := After(s, events[0]);
      if events[0].Restart? {
        FoundAgainGuards(s, events[0].locks);
        assert Tracked(t);
      } else {
        CallKeepsGuarded(s, events[0].call);
        CallKeepsTracked(s, events[0].call);
      }
      hide Guarded, Tracked, After, Happens, FoundAgain;
      LifeKeepsGuarded(t, events[1..]);
    }
  }

  /** Over every life of the runner, with any answers, failed writes and restarts at which each unresolved
      action is found again, two physical actions whose outcome is unknown never belong to one robot. */
  lemma OneUnresolvedAcrossRestarts(events: seq<Event>, a: string, b: string)
    requires Life(Init(), events) && FindsAgain(Init(), events)
    requires a in Live(Init(), events).unresolved && b in Live(Init(), events).unresolved
    requires Live(Init(), events).unresolved[a] == Live(Init(), events).unresolved[b]
    ensures a == b
  {
    LifeKeepsGuarded(Init(), events);
    hide Live, Life, FindsAgain;
  }

  // ---------- lives in which a restart forgets an action ----------

  const NO_ANSWER := CallEnv(None, 0, true, true)

  /** A start of a physical action with every write working. */
  function PhysicalStart(execution: string, id: string, robotId: string, answer: StartAnswer): Call {
    Start(Request(execution, "k", "", robotId, 0),
          StartEnv(Some(true), id, 0, answer, true, true, true, NO_ANSWER))
  }

  function Record(execution: string, id: string, robotId: string, status: Status): Action {
    Action(id, execution, "k", "", robotId, true, status, 0, [])
  }

  /** On a runner with this journal and free robots, such a start is journalled with this status. */
  lemma Starts(s: State, execution: string, id: string, robotId: string, answer: StartAnswer)
    requires execution != "" && id != "" && id !in s.journal.byID && id !in s.unresolved && id !in s.released
    requires JoinKey(execution, "k") !in s.journal.bySkill && "" !in s.journal.byID && robotId !in s.locks
    requires answer == Acknowledged || answer == Lost(None)
    ensures var call := PhysicalStart(execution, id, robotId, answer);
      var t := Runner.Apply(s, call);
      var a := Record(execution, id, robotId, if answer.Lost? then Interrupted else Running);
      && FreshId(s, call)
      && t.journal == Journal(s.journal.byID[id := a], s.journal.bySkill[JoinKey(execution, "k") := id])
      && t.locks == s.locks[robotId := id] && t.unresolved == s.unresolved[id := robotId] && t.released == s.released
  {
    var call := PhysicalStart(execution, id, robotId, answer);
    var a := NewAction(call.req, call.start);
    hide JoinKey;
    var b := Record(execution, id, robotId, if answer.Lost? then Interrupted else Running);
    var once := Journal(s.journal.byID[id := a], s.journal.bySkill[JoinKey(execution, "k") := id]);
    assert Lookup(s.journal, execution, "k").None? && Stores(s, a, true) && Save(s.journal, a) == once;
    assert Save(once, b) == Journal(s.journal.byID[id := b], s.journal.bySkill[JoinKey(execution, "k") := id]) by {
      assert once.byID[id := b] == s.journal.byID[id := b];
      assert once.bySkill[JoinKey(execution, "k") := id] == once.bySkill;
    }
    assert StartAction(s, call.req, call.start) == Finish(Launch(s, call.req, call.start), a, call.start);
    assert Launch(s, call.req, call.start).journal == once;
    hide Save, Lookup;
  }

  /** It does happen: an action is started and nobody knows what became of it; it holds the robot's lock,
      and a restart may come up without any lock. */
  lemma RestartForgetsTheLock(robotId: string)
    ensures var call := PhysicalStart("a", "x", robotId, Lost(None));
      var s := Run(Init(), [call]);
      && Valid(Init(), [call])
      && robotId in s.locks && s.locks[robotId] == "x" && "x" in s.unresolved
      && "x" in s.journal.byID && !SurvivesRestart(s, "x") && Rebuilt(s.journal, map[])
  {
    var call := PhysicalStart("a", "x", robotId, Lost(None));
    Starts(Init(), "a", "x", robotId, Lost(None));
    var s := Runner.Apply(Init(), call);
    NothingActive(s.journal, Record("a", "x", robotId, Interrupted));
    hide StartAction, JoinKey, Rebuilt;
    assert [call][1..] == [];
    assert Run(Init(), [call]) == s;
  }

  lemma LivesOn(s: State, event: Event, rest: seq<Event>)
    requires Happens(s, event) && Life(After(s, event), rest)
    ensures Life(s, [event] + rest) && Live(s, [event] + rest) == Live(After(s, event), rest)
  {
    assert ([event] + rest)[1..] == rest;
    hide Happens, After;
  }

  lemma LivesOne(s: State, event: Event)
    requires Happens(s, event)
    ensures Life(s, [event]) && Live(s, [event]) == After(s, event)
  {
    assert Life(After(s, event), []) && Live(After(s, event), []) == After(s, event);
    LivesOn(s, event, []);
    assert [event] + [] == [event];
    hide Happens, After;
  }

  /** And then the next start on that robot goes out: two actions of unknown outcome on one robot. */
  lemma RestartLetsAnotherIn(robotId: string)
    ensures var first := Do(PhysicalStart("a", "x", robotId, Lost(None)));
      var events := [first] + ([Restart(map[])] + [Do(PhysicalStart("b", "y", robotId, Acknowledged))]);
      && Life(Init(), events)
      && var s := Live(Init(), events);
         "x" in s.unresolved && "y" in s.unresolved && s.unresolved["x"] == s.unresolved["y"] == robotId
  {
    var first := Do(PhysicalStart("a", "x", robotId, Lost(None)));
    var second := Do(PhysicalStart("b", "y", robotId, Acknowledged));
    var none: map<string, string> := map[];
    var s := After(Init(), first);
    Starts(Init(), "a", "x", robotId, Lost(None));
    NothingActive(s.journal, Record("a", "x", robotId, Interrupted));
    assert JoinKey("a", "k")[0] == 'a' && JoinKey("b", "k")[0] == 'b';
    Starts(Restarted(s, none), "b", "y", robotId, Acknowledged);
    assert Happens(Init(), first) && Happens(s, Restart(none)) && Happens(After(s, Restart(none)), second);
    assert After(s, Restart(none)) == Restarted(s, none);
    hide Happens, After, Life, Live;
    LivesOne(After(s, Restart(none)), second);
    LivesOn(s, Restart(none), [second]);
    LivesOn(Init(), first, [Restart(none)] + [second]);
  }

  lemma NothingActive(j: Journal, a: Action)
    requires j.byID == map[a.id := a] && !ActivePhysical(a)
    ensures Rebuilt(j, map[])
  {
  }
}
