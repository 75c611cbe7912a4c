/** The two stores of skill executions and the rule that a terminal status is final. */
module SkillStore {
  import opened Common

  datatype Status =
    | Queued | Starting | Running | WaitingAgent | Stopping
    | Completed | Failed | Stopped | Interrupted

  /** One execution; stopOutcome is the stop evidence, if any, and says whether it was safe. */
  datatype Skill = Skill(
    id: string, robotId: string, skillName: string, skillVersion: string,
    status: Status, checkpoint: string, stopOutcome: Option<bool>)

  predicate Terminal(status: Status) {
    status.Completed? || status.Failed? || status.Stopped? || status.Interrupted?
  }

  /** A stored terminal status refuses any snapshot that disagrees with it. */
  predicate Refuses(items: map<string, Skill>, e: Skill) {
    e.id in items && Terminal(items[e.id].status) && items[e.id].status != e.status
  }

  function Save(items: map<string, Skill>, e: Skill): map<string, Skill> {
    if Refuses(items, e) then items else items[e.id := e]
  }

  function SetOutcome(items: map<string, Skill>, id: string, outcome: Option<bool>): map<string, Skill> {
    if id in items then items[id := items[id].(stopOutcome := outcome)] else items
  }

  // ---------- the SQL table ----------

  /** A row keeps the status as text beside the body, and the statements test the text. */
  datatype Row = Row(status: string, body: Skill)

  function Text(status: Status): string {
    match status
    case Queued => "queued"
    case Starting => "starting"
    case Running => "running"
    case WaitingAgent => "waiting_agent"
    case Stopping => "stopping"
    case Completed => "completed"
    case Failed => "failed"
    case Stopped => "stopped"
    case Interrupted => "interrupted"
  }

  predicate TerminalText(text: string) {
    text == "completed" || text == "failed" || text == "stopped" || text == "interrupted"
  }

  function Upsert(rows: map<string, Row>, e: Skill): map<string, Row> {
    if e.id !in rows || !TerminalText(rows[e.id].status) || rows[e.id].status == Text(e.status)
    then rows[e.id := Row(Text(e.status), e)]
    else rows
  }

  function UpdateBody(rows: map<string, Row>, id: string, outcome: Option<bool>): map<string, Row> {
    if id in rows then rows[id := rows[id].(body := rows[id].body.(stopOutcome := outcome))] else rows
  }

  // ---------- any interleaving of writers ----------

  /** A write of some caller; the snapshot it carries may be as old as it likes. */
  datatype Write = SaveSkill(e: Skill) | UpdateOutcome(id: string, outcome: Option<bool>)

  function Apply(items: map<string, Skill>, w: Write): map<string, Skill> {
    match w
    case SaveSkill(e) => Save(items, e)
    case UpdateOutcome(id, outcome) => SetOutcome(items, id, outcome)
  }

  function ApplyRow(rows: map<string, Row>, w: Write): map<string, Row> {
    match w
    case SaveSkill(e) => Upsert(rows, e)
    case UpdateOutcome(id, outcome) => UpdateBody(rows, id, outcome)
  }

  function Run(items: map<string, Skill>, writes: seq<Write>): map<string, Skill>
    decreases |writes|
  {
    if writes == [] then items else Run(Apply(items, writes[0]), writes[1..])
  }

  function RunRows(rows: map<string, Row>, writes: seq<Write>): map<string, Row>
    decreases |writes|
  {
    if writes == [] then rows else RunRows(ApplyRow(rows, writes[0]), writes[1..])
  }

  function Recoverable(items: map<string, Skill>): set<Skill> {
    set id | id in items && !Terminal(items[id].status) :: items[id]
  }

  function RecoverableRows(rows: map<string, Row>): set<Skill> {
    set id | id in rows && !TerminalText(rows[id].status) :: rows[id].body
  }

  /** The table and the map tell of the same executions, and the text column is the body's status. */
  predicate Agree(items: map<string, Skill>, rows: map<string, Row>) {
    && items.Keys == rows.Keys
    && forall id <- items :: items[id].id == id && rows[id] == Row(Text(items[id].status), items[id])
  }

  /** Whatever late snapshots and stop evidence arrive, a stored terminal status stays as it is. */
  lemma {:induction false} TerminalIsFinal(items: map<string, Skill>, writes: seq<Write>, id: string)
    requires id in items && Terminal(items[id].status)
    ensures id in Run(items, writes) && Run(items, writes)[id].status == items[id].status
    decreases |writes|
  {
    if writes != [] {
      TerminalIsFinal(Apply(items, writes[0]), writes[1..], id);
    }
  }

  /** The saves among the writes. */
  function Saves(writes: seq<Write>): seq<Write>
    decreases |writes|
  {
    if writes == [] then []
    else (if writes[0].SaveSkill? then [writes[0]] else []) + Saves(writes[1..])
  }

  /** The same executions, but for the stop evidence. */
  predicate SameButEvidence(a: map<string, Skill>, b: map<string, Skill>) {
    && a.Keys == b.Keys
    && forall id <- a :: a[id].(stopOutcome := None) == b[id].(stopOutcome := None)
  }

  /** Stop evidence decides nothing: with all of it dropped, any run of writes leaves the same executions
      with the same statuses, and so the same ones to recover. */
  lemma {:induction false} EvidenceDecidesNoStatus(
    a: map<string, Skill>, b: map<string, Skill>, writes: seq<Write>)
    requires SameButEvidence(a, b)
    ensures SameButEvidence(Run(a, writes), Run(b, Saves(writes)))
    decreases |writes|
  {
    if writes != [] {
      var w, rest := writes[0], writes[1..];
      if w.SaveSkill? {
        assert ([w] + Saves(rest))[1..] == Saves(rest);
        if w.e.id in a {
          assert a[w.e.id].status == a[w.e.id].(stopOutcome := None).status == b[w.e.id].status;
        }
        EvidenceDecidesNoStatus(Apply(a, w), Apply(b, w), rest);
      } else {
        assert [] + Saves(rest) == Saves(rest);
        EvidenceDecidesNoStatus(Apply(a, w), b, rest);
      }
    }
  }

  lemma TextDecidesTerminal(a: Status, b: Status)
    ensures TerminalText(Text(a)) <==> Terminal(a)
    ensures Text(a) == Text(b) <==> a == b
  {
  }

  lemma WriteKeepsAgreement(items: map<string, Skill>, rows: map<string, Row>, w: Write)
    requires Agree(items, rows)
    ensures Agree(Apply(items, w), ApplyRow(rows, w))
  {
    if w.SaveSkill? && w.e.id in items {
      TextDecidesTerminal(items[w.e.id].status, w.e.status);
    }
  }

  /** Fed the same writes in the same order, the two stores hold the same executions with the same
      status, and list the same ones for recovery. */
  lemma {:induction false} StoresAgree(items: map<string, Skill>, rows: map<string, Row>, writes: seq<Write>)
    requires Agree(items, rows)
    ensures Agree(Run(items, writes), RunRows(rows, writes))
    ensures Recoverable(Run(items, writes)) == RecoverableRows(RunRows(rows, writes))
    decreases |writes|
  {
    if writes == [] {
      forall id | id in items
        ensures TerminalText(rows[id].status) <==> Terminal(items[id].status)
      {
        TextDecidesTerminal(items[id].status, items[id].status);
      }
    } else {
      WriteKeepsAgreement(items, rows, writes[0]);
      StoresAgree(Apply(items, writes[0]), ApplyRow(rows, writes[0]), writes[1..]);
    }
  }

  // ---------- the stores ----------

  class MemorySkillStore {
    var items: map<string, Skill>

    constructor ()
      ensures items == map[]
    {
      items := map[];
    }

    method SaveSkillExecution(e: Skill)
      modifies this
      ensures items == Save(old(items), e)
    {
      if e.id in items && Terminal(items[e.id].status) && items[e.id].status != e.status {
        return;
      }
      items := items[e.id := e];
    }

    method UpdateSkillStopOutcome(id: string, outcome: Option<bool>) returns (found: bool)
      modifies this
      ensures found == (id in old(items))
      ensures items == SetOutcome(old(items), id, outcome)
    {
      if id !in items {
        return false;
      }
      var e := items[id].(stopOutcome := outcome);
      items := items[id := e];
      return true;
    }

    method ListRecoverable() returns (result: seq<Skill>)
      ensures forall e :: e in result <==> e in Recoverable(items)
    {
      result := [];
      var todo := items.Keys;
      while todo != {}
        invariant todo <= items.Keys
        invariant forall e :: e in result <==>
                    exists id :: id in items.Keys - todo && items[id] == e && !Terminal(e.status)
        decreases todo
      {
        var id :| id in todo;
        todo := todo - {id};
        if !Terminal(items[id].status) {
          result := result + [items[id]];
        }
      }
    }
  }

  class SqliteSkillStore {
    var rows: map<string, Row>

    constructor ()
      ensures rows == map[]
    {
      rows := map[];
    }

    /** INSERT ... ON CONFLICT(id) DO UPDATE ... WHERE the stored status is open or the same. */
    method SaveSkillExecution(e: Skill)
      modifies this
      ensures rows == Upsert(old(rows), e)
    {
      if e.id !in rows {
        rows := rows[e.id := Row(Text(e.status), e)];
      } else if !TerminalText(rows[e.id].status) || rows[e.id].status == Text(e.status) {
        rows := rows[e.id := Row(Text(e.status), e)];
      }
    }

    method UpdateSkillStopOutcome(id: string, outcome: Option<bool>) returns (found: bool)
      modifies this
      ensures found == (id in old(rows))
      ensures rows == UpdateBody(old(rows), id, outcome)
    {
      found := id in rows;
      if found {
        rows := rows[id := Row(rows[id].status, rows[id].body.(stopOutcome := outcome))];
      }
    }
  }
}
