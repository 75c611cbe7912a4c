/** The gap in a start: whether a robot is busy is asked in one critical section and its physical lock is
    taken in a later one, after the journal write. Exactly when two starts may both be in between. */
module StartExclusion {
  import opened ActionJournal
  import opened StartOnce

  /** Past the busy check of this robot and not yet holding its lock. */
  predicate InGap(call: Call, robotId: string) {
    || (call.Free? && call.physical && call.req.robotId == robotId)
    || (call.Saved? && call.action.physical && call.action.robotId == robotId)
  }

  /** Its physical action holds the lock, or has been sent. */
  predicate Engaged(call: Call, robotId: string) {
    (call.Locked? || call.Sent?) && call.action.physical && call.action.robotId == robotId
  }

  predicate Past(call: Call, robotId: string) {
    InGap(call, robotId) || Engaged(call, robotId)
  }

  /** One start at most is past the robot's busy check, and the lock is its action's while it is engaged. */
  predicate Exclusive(s: State, robotId: string) {
    && (forall c, d | c in s.calls && d in s.calls && Past(s.calls[c], robotId) && Past(s.calls[d], robotId) :: c == d)
    && (forall c | c in s.calls && Engaged(s.calls[c], robotId) ::
          robotId in s.locks && s.locks[robotId] == s.calls[c].action.id)
  }

  /** A start passes the busy check while another one is in the gap. */
  predicate Overlaps(s: State, step: Step, robotId: string) {
    && step.CheckBusy? && Known(s, step.call).Unknown? && Known(s, step.call).physical
    && Known(s, step.call).req.robotId == robotId && robotId !in s.locks
    && exists d | d in s.calls :: InGap(s.calls[d], robotId)
  }

  /** Its action is reported over while the start is still under way. */
  predicate LetsGo(s: State, step: Step, robotId: string) {
    && step.Release? && step.robotId == robotId
    && exists d | d in s.calls :: Engaged(s.calls[d], robotId) && s.calls[d].action.id == step.id
  }

  /** A call moves on: it was past the check already, or nobody was. */
  lemma MoveExcludes(s: State, t: State, call: nat, robotId: string)
    requires Exclusive(s, robotId) && call in t.calls && t.calls == s.calls[call := t.calls[call]]
    requires Past(t.calls[call], robotId) ==>
      (call in s.calls && Past(s.calls[call], robotId)) || forall d <- s.calls :: !Past(s.calls[d], robotId)
    requires Engaged(t.calls[call], robotId) ==> robotId in t.locks && t.locks[robotId] == t.calls[call].action.id
    requires !Past(t.calls[call], robotId) && robotId in s.locks ==>
      robotId in t.locks && t.locks[robotId] == s.locks[robotId]
    ensures Exclusive(t, robotId)
  {
    hide InGap, Engaged;
  }

  /** A refused start was the only one past the check. */
  lemma RefuseExcludes(s: State, call: nat, robotId: string)
    requires Exclusive(s, robotId) && Enabled(s, Refuse(call))
    ensures Exclusive(Apply(s, Refuse(call)), robotId)
  {
    var t := Apply(s, Refuse(call));
    if Engaged(s.calls[call], robotId) {
      assert forall d <- t.calls :: !Past(t.calls[d], robotId);
    } else {
      MoveExcludes(s, t, call, robotId);
    }
  }

  lemma OrderlyStepExcludes(s: State, step: Step, robotId: string)
    requires Exclusive(s, robotId) && Enabled(s, step)
    requires !Overlaps(s, step, robotId) && !LetsGo(s, step, robotId)
    ensures Exclusive(Apply(s, step), robotId)
  {
    hide Save, Lookup, Conflicts;
    var t := Apply(s, step);
    match step
    case Release(_, _) =>
    case Crash(_) =>
    case Rewrite(_) =>
    case Arrive(c, _) => MoveExcludes(s, t, c, robotId);
    case Search(c, _) => MoveExcludes(s, t, c, robotId);
    case CheckBusy(c) => MoveExcludes(s, t, c, robotId);
    case Write(c, _, _, _) => MoveExcludes(s, t, c, robotId);
    case TakeLock(c) => MoveExcludes(s, t, c, robotId);
    case Refuse(c) => RefuseExcludes(s, c, robotId);
    case SendTask(c) => MoveExcludes(s, t, c, robotId);
    case Settle(c, _, _) => MoveExcludes(s, t, c, robotId);
    case GiveUp(c) => MoveExcludes(s, t, c, robotId);
  }

  /** Whatever the step, exclusion is lost exactly in one of these two ways. */
  lemma LostExactlyBy(s: State, step: Step, robotId: string)
    requires Exclusive(s, robotId) && Enabled(s, step)
    ensures Exclusive(Apply(s, step), robotId) <==> !Overlaps(s, step, robotId) && !LetsGo(s, step, robotId)
  {
    var t := Apply(s, step);
    if Overlaps(s, step, robotId) {
      var d :| d in s.calls && InGap(s.calls[d], robotId);
      assert t.calls[d] == s.calls[d] && Past(t.calls[d], robotId) && Past(t.calls[step.call], robotId);
    } else if LetsGo(s, step, robotId) {
      var d :| d in s.calls && Engaged(s.calls[d], robotId) && s.calls[d].action.id == step.id;
      assert Engaged(t.calls[d], robotId) && robotId !in t.locks;
    } else {
      OrderlyStepExcludes(s, step, robotId);
    }
    hide Save, Lookup, Conflicts, Enabled;
  }

  /** Two starts have sent their StartTask to one robot and have not settled. */
  predicate BothSent(s: State, robotId: string) {
    exists c, d | c in s.calls && d in s.calls :: c != d && s.calls[c].Sent? && s.calls[d].Sent?
      && Engaged(s.calls[c], robotId) && Engaged(s.calls[d], robotId)
  }

  /** A history of steps none of which is one of the two. */
  predicate Orderly(s: State, steps: seq<Step>, robotId: string)
    requires History(s, steps)
    decreases |steps|
  {
    steps == [] ||
    (!Overlaps(s, steps[0], robotId) && !LetsGo(s, steps[0], robotId)
     && Orderly(Apply(s, steps[0]), steps[1..], robotId))
  }

  /** In an orderly history two starts are never both under way on one robot. */
  lemma {:induction false} OrderlyStartsExclude(s: State, steps: seq<Step>, robotId: string)
    requires Exclusive(s, robotId) && History(s, steps) && Orderly(s, steps, robotId)
    ensures Exclusive(Run(s, steps), robotId) && !BothSent(Run(s, steps), robotId)
    decreases |steps|
  {
    if steps == [] {
      assert !BothSent(s, robotId);
    } else {
      LostExactlyBy(s, steps[0], robotId);
      hide Exclusive, Enabled, Apply, Overlaps, LetsGo;
      OrderlyStartsExclude(Apply(s, steps[0]), steps[1..], robotId);
    }
  }
}
