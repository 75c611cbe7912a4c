/** Starting an action, split at every journal access, lock access and network send, so that any
    number of StartAction calls interleave and a crash can fall between any two steps. */
module StartOnce {
  import opened ActionJournal

  datatype Request = Request(skillExecutionId: string, key: string, json: string, robotId: string)

  /** Where one StartAction call stands; a refused one has freed the lock and has yet to be stored. */
  datatype Call =
    | Asked(req: Request)
    | Unknown(req: Request, physical: bool)
    | Free(req: Request, physical: bool)
    | Saved(action: Action)
    | Locked(action: Action)
    | Sent(action: Action)
    | Refused(action: Action)
    | Done

  /** A StartTask that reached the network: the joined key it was for and the request it carried. */
  datatype Delivery = Delivery(key: string, json: string)

  datatype State = State(
    journal: Journal, calls: map<nat, Call>, locks: map<string, string>, sent: seq<Delivery>)

  /** Rewrite is any other Runner call storing a newer, or a stale, copy of a known record, Release one
      that reports an action over; Refuse is the Ability's refusal, which frees the robot's lock. Crash
      keeps the journal and what has been sent, and nothing else. A write that reports failure may
      or may not have reached the journal. */
  datatype Step =
    | Arrive(call: nat, req: Request)
    | Search(call: nat, physical: bool)
    | CheckBusy(call: nat)
    | Write(call: nat, id: string, reported: bool, reached: bool)
    | TakeLock(call: nat)
    | SendTask(call: nat)
    | Refuse(call: nat)
    | Settle(call: nat, status: Status, reached: bool)
    | GiveUp(call: nat)
    | Rewrite(copy: Action)
    | Release(robotId: string, id: string)
    | Crash(rebuilt: map<string, string>)

  function Known(s: State, call: nat): Call {
    if call in s.calls then s.calls[call] else Done
  }

  predicate InFlight(call: Call) {
    call.Saved? || call.Locked? || call.Sent? || call.Refused?
  }

  function NewAction(id: string, req: Request, physical: bool): Action {
    Action(id, req.skillExecutionId, req.key, req.json, req.robotId, physical, Accepted, 0, [])
  }

  predicate Enabled(s: State, step: Step) {
    match step
    case Arrive(c, _) => c !in s.calls
    case Search(c, _) => Known(s, c).Asked?
    case CheckBusy(c) => Known(s, c).Unknown?
    // action ids are UUIDs: a new one is never in use
    case Write(c, id, reported, reached) =>
      && Known(s, c).Free? && id != "" && id !in s.journal.byID && (reported ==> reached)
      && (forall d <- s.calls :: InFlight(s.calls[d]) ==> s.calls[d].action.id != id)
    case TakeLock(c) => Known(s, c).Saved?
    // a virtual action never takes the lock
    case SendTask(c) => Known(s, c).Locked? || (Known(s, c).Saved? && !Known(s, c).action.physical)
    case Refuse(c) => Known(s, c).Sent?
    case Settle(c, status, _) => Known(s, c).Sent? || (Known(s, c).Refused? && status.Failed?)
    case GiveUp(c) => Known(s, c).Asked? || Known(s, c).Unknown?
    // the Runner rewrites a record only from a copy of that record
    case Rewrite(copy) =>
      && copy.id in s.journal.byID && KeyOf(copy) == KeyOf(s.journal.byID[copy.id])
      && copy.requestJSON == s.journal.byID[copy.id].requestJSON
    case Release(_, _) => true
    case Crash(_) => true
  }

  function Apply(s: State, step: Step): State
    requires Enabled(s, step)
  {
    match step
    case Arrive(c, req) => s.(calls := s.calls[c := Asked(req)])
    case Search(c, physical) =>
      var req := s.calls[c].req;
      s.(calls := s.calls[c := if Lookup(s.journal, req.skillExecutionId, req.key).Some? then Done
                               else Unknown(req, physical)])
    case CheckBusy(c) =>
      var call := s.calls[c];
      s.(calls := s.calls[c := if call.physical && call.req.robotId in s.locks then Done
                               else Free(call.req, call.physical)])
    case Write(c, id, reported, reached) =>
      var action := NewAction(id, s.calls[c].req, s.calls[c].physical);
      var ok := reported && !Conflicts(s.journal, action);
      s.(journal := if reached then Save(s.journal, action) else s.journal,
         calls := s.calls[c := if ok then Saved(action) else Done])
    case TakeLock(c) =>
      var action := s.calls[c].action;
      s.(calls := s.calls[c := Locked(action)],
         locks := if action.physical then s.locks[action.robotId := action.id] else s.locks)
    case SendTask(c) =>
      var action := s.calls[c].action;
      s.(calls := s.calls[c := Sent(action)], sent := s.sent + [Delivery(KeyOf(action), action.requestJSON)])
    case Refuse(c) =>
      var action := s.calls[c].action;
      s.(calls := s.calls[c := Refused(action)],
         locks := if action.physical then s.locks - {action.robotId} else s.locks)
    case Settle(c, status, reached) =>
      var action := s.calls[c].action.(status := status);
      s.(calls := s.calls[c := Done], journal := if reached then Save(s.journal, action) else s.journal)
    case GiveUp(c) => s.(calls := s.calls[c := Done])
    case Rewrite(copy) => s.(journal := Save(s.journal, copy))
    case Release(robotId, id) =>
      if robotId in s.locks && s.locks[robotId] == id then s.(locks := s.locks - {robotId}) else s
    case Crash(rebuilt) => State(s.journal, map[], rebuilt, s.sent)
  }

  // ---------- the invariant ----------

  /** The journal has this call's record under its key, with its request. */
  predicate Recorded(j: Journal, a: Action) {
    && a.id in j.byID && KeyOf(j.byID[a.id]) == KeyOf(a) && j.byID[a.id].requestJSON == a.requestJSON
  }

  predicate SentFor(sent: seq<Delivery>, key: string) {
    exists i :: 0 <= i < |sent| && sent[i].key == key
  }

  predicate DeliveredFromJournal(j: Journal, d: Delivery) {
    d.key in j.bySkill && j.bySkill[d.key] in j.byID && j.byID[j.bySkill[d.key]].requestJSON == d.json
  }

  predicate Inv(s: State) {
    && WellIndexed(s.journal)
    && (forall c <- s.calls :: InFlight(s.calls[c]) ==> Recorded(s.journal, s.calls[c].action))
    && (forall c <- s.calls :: (s.calls[c].Saved? || s.calls[c].Locked?)
          ==> !SentFor(s.sent, KeyOf(s.calls[c].action)))
    && (forall c, d :: c in s.calls && d in s.calls && c != d && InFlight(s.calls[c]) && InFlight(s.calls[d])
          ==> s.calls[c].action.id != s.calls[d].action.id)
    && (forall i :: 0 <= i < |s.sent| ==> DeliveredFromJournal(s.journal, s.sent[i]))
    && (forall i, k :: 0 <= i < k < |s.sent| ==> s.sent[i].key != s.sent[k].key)
  }

  /** Saving a record under the key it already has, or under a free key, disturbs no other record. */
  lemma SaveKeepsRecords(j: Journal, a: Action)
    requires WellIndexed(j) && a.id != ""
    requires a.id in j.byID ==> KeyOf(a) == KeyOf(j.byID[a.id]) && a.requestJSON == j.byID[a.id].requestJSON
    ensures WellIndexed(Save(j, a))
    ensures forall b: Action :: Recorded(j, b) ==> Recorded(Save(j, a), b)
    ensures forall d: Delivery :: DeliveredFromJournal(j, d) ==> DeliveredFromJournal(Save(j, a), d)
    ensures !Conflicts(j, a) ==> Recorded(Save(j, a), a)
  {
    if !Conflicts(j, a) {
      SaveKeepsIndexes(j, a);
    }
  }

  /** A journal write that disturbs no record of a call in flight and nothing sent. */
  lemma JournalMoves(s: State, j: Journal)
    requires Inv(s) && WellIndexed(j)
    requires forall b: Action :: Recorded(s.journal, b) ==> Recorded(j, b)
    requires forall d: Delivery :: DeliveredFromJournal(s.journal, d) ==> DeliveredFromJournal(j, d)
    ensures Inv(s.(journal := j))
  {
    hide Recorded, DeliveredFromJournal, SentFor, WellIndexed;
  }

  /** A call takes up a fresh record whose key nothing was sent for. */
  lemma RecordTakenUp(s: State, c: nat, action: Action)
    requires Inv(s) && c in s.calls && s.calls[c].Free? && Recorded(s.journal, action)
    requires !SentFor(s.sent, KeyOf(action))
    requires forall d <- s.calls :: InFlight(s.calls[d]) ==> s.calls[d].action.id != action.id
    ensures Inv(s.(calls := s.calls[c := Saved(action)]))
  {
    hide Recorded, DeliveredFromJournal, SentFor, WellIndexed;
  }

  lemma WriteKeepsInv(s: State, step: Step)
    requires Inv(s) && Enabled(s, step) && step.Write?
    ensures Inv(Apply(s, step))
  {
    var action := NewAction(step.id, s.calls[step.call].req, s.calls[step.call].physical);
    var j := if step.reached then Save(s.journal, action) else s.journal;
    SaveKeepsRecords(s.journal, action);
    JournalMoves(s, j);
    var moved := s.(journal := j);
    if step.reported && !Conflicts(s.journal, action) {
      assert !SentFor(s.sent, KeyOf(action)) by {
        assert KeyOf(action) !in s.journal.bySkill;
        assert forall i :: 0 <= i < |s.sent| ==> DeliveredFromJournal(s.journal, s.sent[i]);
      }
      RecordTakenUp(moved, step.call, action);
    } else {
      MoveKeepsInv(moved, step.call, Done, s.locks);
    }
    hide Inv;
  }

  lemma SendKeepsInv(s: State, step: Step)
    requires Inv(s) && Enabled(s, step) && step.SendTask?
    ensures Inv(Apply(s, step))
  {
    var t := Apply(s, step);
    var action := s.calls[step.call].action;
    forall c | c in t.calls && (t.calls[c].Saved? || t.calls[c].Locked?)
      ensures !SentFor(t.sent, KeyOf(t.calls[c].action))
    {
      assert c != step.call && t.calls[c] == s.calls[c];
      assert !SentFor(s.sent, KeyOf(s.calls[c].action));
      assert s.journal.bySkill[KeyOf(action)] == action.id;
    }
    assert forall i :: 0 <= i < |s.sent| ==> s.sent[i].key != KeyOf(action);
    assert DeliveredFromJournal(s.journal, Delivery(KeyOf(action), action.requestJSON));
  }

  lemma SettleKeepsInv(s: State, step: Step)
    requires Inv(s) && Enabled(s, step) && (step.Settle? || step.Rewrite?)
    ensures Inv(Apply(s, step))
  {
    var copy := if step.Settle? then s.calls[step.call].action.(status := step.status) else step.copy;
    assert step.Settle? ==> Recorded(s.journal, s.calls[step.call].action);
    SaveKeepsRecords(s.journal, copy);
    var j := if step.Settle? && !step.reached then s.journal else Save(s.journal, copy);
    JournalMoves(s, j);
    hide Inv, Save, Conflicts, Recorded, DeliveredFromJournal;
    if step.Settle? {
      MoveKeepsInv(s.(journal := j), step.call, Done, s.locks);
    }
  }

  /** A step that only moves one call on, without a new record or a send. */
  lemma MoveKeepsInv(s: State, c: nat, call: Call, locks: map<string, string>)
    requires Inv(s)
    requires InFlight(call) ==>
      (c in s.calls && ((s.calls[c].Saved? && call == Locked(s.calls[c].action))
                        || (s.calls[c].Sent? && call == Refused(s.calls[c].action))))
    ensures Inv(s.(calls := s.calls[c := call], locks := locks))
  {
  }

  /** No step of any call, of any other writer, or of a crash breaks the invariant. */
  lemma StepKeepsInv(s: State, step: Step)
    requires Inv(s) && Enabled(s, step)
    ensures Inv(Apply(s, step))
  {
    var t := Apply(s, step);
    match step
    case Write(_, _, _, _) => WriteKeepsInv(s, step);
    case SendTask(_) => SendKeepsInv(s, step);
    case Settle(_, _, _) => SettleKeepsInv(s, step);
    case Rewrite(_) => SettleKeepsInv(s, step);
    case Release(_, _) =>
    case Crash(_) =>
    case Refuse(c) => MoveKeepsInv(s, c, t.calls[c], t.locks);
    case Arrive(c, _) => MoveKeepsInv(s, c, t.calls[c], t.locks);
    case Search(c, _) => MoveKeepsInv(s, c, t.calls[c], t.locks);
    case CheckBusy(c) => MoveKeepsInv(s, c, t.calls[c], t.locks);
    case TakeLock(c) => MoveKeepsInv(s, c, t.calls[c], t.locks);
    case GiveUp(c) => MoveKeepsInv(s, c, t.calls[c], t.locks);
  }

  // ---------- whole histories ----------

  predicate History(s: State, steps: seq<Step>)
    decreases |steps|
  {
    steps == [] || (Enabled(s, steps[0]) && History(Apply(s, steps[0]), steps[1..]))
  }

  function Run(s: State, steps: seq<Step>): State
    requires History(s, steps)
    decreases |steps|
  {
    if steps == [] then s else Run(Apply(s, steps[0]), steps[1..])
  }

  function Init(): State {
    State(Journal(map[], map[]), map[], map[], [])
  }

  lemma {:induction false} RunKeepsInv(s: State, steps: seq<Step>)
    requires Inv(s) && History(s, steps)
    ensures Inv(Run(s, steps))
    decreases |steps|
  {
    if steps != [] {
      StepKeepsInv(s, steps[0]);
      RunKeepsInv(Apply(s, steps[0]), steps[1..]);
    }
  }

  /** Whatever the interleaving and wherever it crashes, no key is sent twice, and what was sent is
      the request the journal holds for that key. */
  lemma StartTaskAtMostOnce(steps: seq<Step>)
    requires History(Init(), steps)
    ensures var s := Run(Init(), steps);
      && (forall i, k :: 0 <= i < k < |s.sent| ==> s.sent[i].key != s.sent[k].key)
      && (forall i :: 0 <= i < |s.sent| ==> DeliveredFromJournal(s.journal, s.sent[i]))
  {
    RunKeepsInv(Init(), steps);
  }

  /** Once a key is journalled, no later step of any history sends a different request for it. */
  lemma {:induction false} KeyStaysBound(s: State, steps: seq<Step>, id: string)
    requires Inv(s) && History(s, steps) && id in s.journal.byID
    ensures var t := Run(s, steps);
      && id in t.journal.byID
      && KeyOf(t.journal.byID[id]) == KeyOf(s.journal.byID[id])
      && (forall i :: 0 <= i < |t.sent| && t.sent[i].key == KeyOf(s.journal.byID[id])
            ==> t.sent[i].json == s.journal.byID[id].requestJSON)
    decreases |steps|
  {
    if steps == [] {
      forall i | 0 <= i < |s.sent| && s.sent[i].key == KeyOf(s.journal.byID[id])
        ensures s.sent[i].json == s.journal.byID[id].requestJSON
      {
        assert DeliveredFromJournal(s.journal, s.sent[i]);
      }
    } else {
      var a := s.journal.byID[id];
      StepKeepsInv(s, steps[0]);
      StepKeepsRecord(s, steps[0], a);
      KeyStaysBound(Apply(s, steps[0]), steps[1..], id);
    }
  }

  lemma StepKeepsRecord(s: State, step: Step, a: Action)
    requires Inv(s) && Enabled(s, step) && Recorded(s.journal, a)
    ensures Recorded(Apply(s, step).journal, a)
  {
    match step
    case Write(c, id, _, _) => SaveKeepsRecords(s.journal, NewAction(id, s.calls[c].req, s.calls[c].physical));
    case Settle(c, status, _) => SaveKeepsRecords(s.journal, s.calls[c].action.(status := status));
    case Rewrite(copy) => SaveKeepsRecords(s.journal, copy);
    case _ =>
  }
}
