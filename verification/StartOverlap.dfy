/** When two starts that are both past the busy check of one robot are both sent: exactly, and from the
    start of the runner. */
module StartOverlap {
  import opened Common
  import opened ActionJournal
  import opened StartOnce
  import opened StartExclusion

  predicate Uninterrupted(steps: seq<Step>) {
    forall i :: 0 <= i < |steps| ==> !steps[i].Crash?
  }

  /** Without a crash on the way. */
  ghost predicate Leads(s: State, t: State) {
    exists steps :: Uninterrupted(steps) && History(s, steps) && Run(s, steps) == t
  }

  lemma LeadsToItself(s: State)
    ensures Leads(s, s)
  {
    assert Uninterrupted([]) && History(s, []) && Run(s, []) == s;
  }

  lemma {:induction false} HistoryGrows(s: State, steps: seq<Step>, step: Step)
    requires History(s, steps) && Enabled(Run(s, steps), step)
    ensures History(s, steps + [step]) && Run(s, steps + [step]) == Apply(Run(s, steps), step)
    decreases |steps|
  {
    hide Apply, Enabled;
    if steps == [] {
      assert ([] + [step])[1..] == [];
    } else {
      HistoryGrows(Apply(s, steps[0]), steps[1..], step);
      assert (steps + [step])[1..] == steps[1..] + [step];
    }
  }

  lemma Next(s: State, t: State, step: Step, u: State)
    requires Leads(s, t) && Inv(t) && Enabled(t, step) && Apply(t, step) == u && !step.Crash?
    ensures Leads(s, u) && Inv(u)
  {
    StepKeepsInv(t, step);
    hide Apply, Enabled, Inv;
    var steps :| Uninterrupted(steps) && History(s, steps) && Run(s, steps) == t;
    HistoryGrows(s, steps, step);
    assert Uninterrupted(steps + [step]);
  }

  // ---------- a start that can still be sent is sent ----------

  function AskedKey(req: Request): string {
    JoinKey(req.skillExecutionId, req.key)
  }

  /** It has its record, or can still get one. */
  predicate CanSend(s: State, c: nat)
    requires c in s.calls
  {
    s.calls[c].Free? ==> AskedKey(s.calls[c].req) !in s.journal.bySkill
  }

  /** Two that both have yet to be recorded do not want the same key. */
  predicate BothCanSend(s: State, c: nat, d: nat)
    requires c in s.calls && d in s.calls
  {
    && CanSend(s, c) && CanSend(s, d)
    && (s.calls[c].Free? && s.calls[d].Free? ==> AskedKey(s.calls[c].req) != AskedKey(s.calls[d].req))
  }

  /** Its StartTask to this robot has gone out and is not settled. */
  predicate Sending(s: State, c: nat, robotId: string) {
    c in s.calls && s.calls[c].Sent? && Engaged(s.calls[c], robotId)
  }

  lemma {:induction false} LongerThanAll(used: set<string>) returns (n: nat)
    ensures forall x <- used :: |x| <= n
    decreases |used|
  {
    if used == {} {
      n := 0;
    } else {
      var x :| x in used;
      n := LongerThanAll(used - {x});
      n := if |x| > n then |x| else n;
    }
  }

  /** There is always a new action ID. */
  lemma NewId(s: State) returns (id: string)
    ensures id != "" && id !in s.journal.byID
    ensures forall c <- s.calls :: InFlight(s.calls[c]) ==> s.calls[c].action.id != id
  {
    var used := s.journal.byID.Keys + set c | c in s.calls && InFlight(s.calls[c]) :: s.calls[c].action.id;
    var n := LongerThanAll(used);
    id := seq(n + 1, i => 'x');
    assert id !in used;
  }

  lemma LockedIsSent(s: State, t: State, c: nat, robotId: string) returns (u: State)
    requires Leads(s, t) && Inv(t) && c in t.calls && t.calls[c].Locked? && Engaged(t.calls[c], robotId)
    ensures Leads(s, u) && Inv(u) && Sending(u, c, robotId)
    ensures u.calls == t.calls[c := u.calls[c]] && u.journal == t.journal
  {
    hide Leads, Inv;
    u := Apply(t, SendTask(c));
    Next(s, t, SendTask(c), u);
  }

  lemma SavedIsSent(s: State, t: State, c: nat, robotId: string) returns (u: State)
    requires Leads(s, t) && Inv(t) && c in t.calls && t.calls[c].Saved? && InGap(t.calls[c], robotId)
    ensures Leads(s, u) && Inv(u) && Sending(u, c, robotId)
    ensures u.calls == t.calls[c := u.calls[c]] && u.journal == t.journal
  {
    hide Leads, Inv;
    var v := Apply(t, TakeLock(c));
    Next(s, t, TakeLock(c), v);
    u := LockedIsSent(s, v, c, robotId);
  }

  lemma FreeIsSent(s: State, t: State, c: nat, robotId: string) returns (u: State)
    requires Leads(s, t) && Inv(t) && c in t.calls && t.calls[c].Free? && InGap(t.calls[c], robotId) && CanSend(t, c)
    ensures Leads(s, u) && Inv(u) && Sending(u, c, robotId)
    ensures u.calls == t.calls[c := u.calls[c]]
    ensures u.journal.bySkill.Keys == t.journal.bySkill.Keys + {AskedKey(t.calls[c].req)}
  {
    var id := NewId(t);
    hide Leads, Inv;
    var a := NewAction(id, t.calls[c].req, true);
    var v := Apply(t, Write(c, id, true, true));
    assert v.calls == t.calls[c := Saved(a)] && v.journal == Save(t.journal, a);
    Next(s, t, Write(c, id, true, true), v);
    u := SavedIsSent(s, v, c, robotId);
  }

  lemma PastIsSent(s: State, t: State, c: nat, robotId: string) returns (u: State)
    requires Leads(s, t) && Inv(t) && c in t.calls && Past(t.calls[c], robotId) && CanSend(t, c)
    ensures Leads(s, u) && Inv(u) && Sending(u, c, robotId)
    ensures u.calls == t.calls[c := u.calls[c]]
    ensures u.journal.bySkill.Keys <= t.journal.bySkill.Keys
      + if t.calls[c].Free? then {AskedKey(t.calls[c].req)} else {}
  {
    hide Leads, Inv, AskedKey;
    match t.calls[c] {
      case Free(_, _) => u := FreeIsSent(s, t, c, robotId);
      case Saved(_) => u := SavedIsSent(s, t, c, robotId);
      case Locked(_) => u := LockedIsSent(s, t, c, robotId);
      case _ => u := t;
    }
  }

  lemma BothAreSent(s: State, t: State, c: nat, d: nat, robotId: string) returns (u: State)
    requires Leads(s, t) && Inv(t) && c in t.calls && d in t.calls && c != d
    requires Past(t.calls[c], robotId) && Past(t.calls[d], robotId) && BothCanSend(t, c, d)
    ensures Leads(s, u) && Sending(u, c, robotId) && Sending(u, d, robotId)
  {
    hide Leads, Inv, AskedKey, Past, Engaged;
    var v := PastIsSent(s, t, c, robotId);
    u := PastIsSent(s, v, d, robotId);
  }

  // ---------- one that cannot be sent is not ----------

  /** It is over, or another action has its key. */
  predicate Stuck(s: State, c: nat) {
    c in s.calls && (s.calls[c].Done? || (s.calls[c].Free? && AskedKey(s.calls[c].req) in s.journal.bySkill))
  }

  lemma StuckStays(s: State, step: Step, c: nat)
    requires Inv(s) && Enabled(s, step) && !step.Crash? && Stuck(s, c)
    ensures Stuck(Apply(s, step), c)
  {
    hide Lookup, JoinKey;
    if step.Write? && step.call == c {
      assert Conflicts(s.journal, NewAction(step.id, s.calls[c].req, s.calls[c].physical));
    }
  }

  lemma {:induction false} StuckIsNotSent(s: State, steps: seq<Step>, c: nat)
    requires Inv(s) && Uninterrupted(steps) && History(s, steps) && Stuck(s, c)
    ensures Stuck(Run(s, steps), c)
    decreases |steps|
  {
    if steps != [] {
      assert !steps[0].Crash?;
      StepKeepsInv(s, steps[0]);
      StuckStays(s, steps[0], c);
      hide Inv, Apply, Enabled, Stuck;
      StuckIsNotSent(Apply(s, steps[0]), steps[1..], c);
    }
  }

  /** Past the check, or over, with this key. */
  predicate Keyed(s: State, c: nat, key: string) {
    c in s.calls &&
    (s.calls[c].Done? || (s.calls[c].Free? && AskedKey(s.calls[c].req) == key)
     || (InFlight(s.calls[c]) && KeyOf(s.calls[c].action) == key))
  }

  lemma KeyStays(s: State, step: Step, c: nat, key: string)
    requires Enabled(s, step) && !step.Crash? && Keyed(s, c, key)
    ensures Keyed(Apply(s, step), c, key)
  {
    hide Lookup, JoinKey, Save, Conflicts;
  }

  lemma {:induction false} KeyIsKept(s: State, steps: seq<Step>, c: nat, key: string)
    requires Uninterrupted(steps) && History(s, steps) && Keyed(s, c, key)
    ensures Keyed(Run(s, steps), c, key)
    decreases |steps|
  {
    if steps != [] {
      assert !steps[0].Crash?;
      KeyStays(s, steps[0], c, key);
      hide Apply, Enabled, Keyed;
      KeyIsKept(Apply(s, steps[0]), steps[1..], c, key);
    }
  }

  /** No two actions under way have the same key. */
  lemma SentKeysDiffer(s: State, c: nat, d: nat)
    requires Inv(s) && c in s.calls && d in s.calls && c != d && InFlight(s.calls[c]) && InFlight(s.calls[d])
    ensures KeyOf(s.calls[c].action) != KeyOf(s.calls[d].action)
  {
    assert Recorded(s.journal, s.calls[c].action) && Recorded(s.journal, s.calls[d].action);
    hide KeyOf;
  }

  lemma BothSentCould(s: State, steps: seq<Step>, c: nat, d: nat, robotId: string)
    requires Inv(s) && Uninterrupted(steps) && History(s, steps)
    requires c in s.calls && d in s.calls && c != d && Past(s.calls[c], robotId) && Past(s.calls[d], robotId)
    requires Sending(Run(s, steps), c, robotId) && Sending(Run(s, steps), d, robotId)
    ensures BothCanSend(s, c, d)
  {
    RunKeepsInv(s, steps);
    forall x | x in {c, d} ensures CanSend(s, x) {
      if !CanSend(s, x) {
        StuckIsNotSent(s, steps, x);
      }
    }
    if s.calls[c].Free? && s.calls[d].Free? {
      KeyIsKept(s, steps, c, AskedKey(s.calls[c].req));
      KeyIsKept(s, steps, d, AskedKey(s.calls[d].req));
      hide Run, History, Inv, AskedKey, KeyOf;
      SentKeysDiffer(Run(s, steps), c, d);
    }
  }

  /** Two starts past the busy check of one robot can both have their StartTask out exactly if each has
      its record or a key that is not journalled yet, and no common one. */
  lemma BothSentExactly(s: State, c: nat, d: nat, robotId: string)
    requires Inv(s) && c in s.calls && d in s.calls && c != d
    requires Past(s.calls[c], robotId) && Past(s.calls[d], robotId)
    ensures (exists t :: Leads(s, t) && Sending(t, c, robotId) && Sending(t, d, robotId)) <==> BothCanSend(s, c, d)
  {
    if BothCanSend(s, c, d) {
      LeadsToItself(s);
      var t := BothAreSent(s, s, c, d, robotId);
    }
    if t :| Leads(s, t) && Sending(t, c, robotId) && Sending(t, d, robotId) {
      var steps :| Uninterrupted(steps) && History(s, steps) && Run(s, steps) == t;
      BothSentCould(s, steps, c, d, robotId);
    }
    hide Inv, Leads, Past, BothCanSend, Sending;
  }

  // ---------- how two get there ----------

  /** A start of a new key finds the robot free. */
  lemma PassesCheck(s: State, t: State, c: nat, req: Request)
    requires Leads(s, t) && Inv(t) && c !in t.calls && req.robotId !in t.locks && AskedKey(req) !in t.journal.bySkill
    ensures Leads(s, t.(calls := t.calls[c := Free(req, true)])) && Inv(t.(calls := t.calls[c := Free(req, true)]))
  {
    assert Lookup(t.journal, req.skillExecutionId, req.key).None?;
    hide Leads, Inv, Lookup;
    var s1 := t.(calls := t.calls[c := Asked(req)]);
    var s2 := t.(calls := t.calls[c := Unknown(req, true)]);
    var s3 := t.(calls := t.calls[c := Free(req, true)]);
    assert s2.calls == s1.calls[c := s2.calls[c]] && s3.calls == s2.calls[c := s3.calls[c]];
    Next(s, t, Arrive(c, req), s1);
    Next(s, s1, Search(c, true), s2);
    Next(s, s2, CheckBusy(c), s3);
  }

  /** From the start of the runner: two starts for one robot pass the check before either takes the lock,
      and both are sent. */
  lemma TwoStartsCanOverlap(robotId: string)
    ensures exists t :: Leads(Init(), t) && BothSent(t, robotId)
  {
    var p, q := Request("a", "k", "", robotId), Request("b", "k", "", robotId);
    assert JoinKey("a", "k")[0] == 'a' && JoinKey("b", "k")[0] == 'b';
    LeadsToItself(Init());
    assert Inv(Init());
    hide Leads, Inv, JoinKey;
    PassesCheck(Init(), Init(), 0, p);
    var s1 := Init().(calls := Init().calls[0 := Free(p, true)]);
    PassesCheck(Init(), s1, 1, q);
    var t := BothAreSent(Init(), s1.(calls := s1.calls[1 := Free(q, true)]), 0, 1, robotId);
    assert BothSent(t, robotId);
  }

  /** A start is under way and its action is reported over before it has returned: the lock goes, and any
      further start on that robot with a new key can be sent as well. */
  lemma ReportedOverLetsAnotherIn(s: State, d: nat, c: nat, req: Request)
    requires Inv(s) && Exclusive(s, req.robotId) && d in s.calls && Engaged(s.calls[d], req.robotId)
    requires c !in s.calls && AskedKey(req) !in s.journal.bySkill
    ensures exists t :: Leads(s, t) && Sending(t, c, req.robotId) && Sending(t, d, req.robotId)
  {
    var over := Release(req.robotId, s.calls[d].action.id);
    var s1 := Apply(s, over);
    LeadsToItself(s);
    Next(s, s, over, s1);
    assert s1.journal == s.journal && s1.calls == s.calls && req.robotId !in s1.locks;
    hide Leads, Inv, AskedKey, Exclusive;
    PassesCheck(s, s1, c, req);
    var s2 := s1.(calls := s1.calls[c := Free(req, true)]);
    assert BothCanSend(s2, c, d);
    var t := BothAreSent(s, s2, c, d, req.robotId);
  }
}
