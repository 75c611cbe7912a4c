/** The action journal: two indexes over the same records, and what saving does to them. */
module ActionJournal {
  import opened Common
  import Throttle

  datatype Status = Accepted | Running | Stopping | Succeeded | Failed | Stopped | Interrupted

  /** One journalled action; requestJSON is the normalised request it was created for. */
  datatype Action = Action(
    id: string, skillExecutionId: string, key: string, requestJSON: string,
    robotId: string, physical: bool, status: Status,
    cursor: int, feedback: seq<Throttle.Feedback>)

  predicate Terminal(status: Status) {
    status.Succeeded? || status.Failed? || status.Stopped? || status.Interrupted?
  }

  /** The physical outcome is not known to be over. */
  predicate Unresolved(status: Status) {
    !(status.Succeeded? || status.Failed? || status.Stopped?)
  }

  datatype Journal = Journal(byID: map<string, Action>, bySkill: map<string, string>)

  function JoinKey(skillExecutionId: string, key: string): string {
    skillExecutionId + "\0" + key
  }

  function KeyOf(a: Action): string {
    JoinKey(a.skillExecutionId, a.key)
  }

  function Lookup(j: Journal, skillExecutionId: string, key: string): Option<Action> {
    var k := JoinKey(skillExecutionId, key);
    var id := if k in j.bySkill then j.bySkill[k] else "";
    if id in j.byID then Some(j.byID[id]) else None
  }

  predicate Conflicts(j: Journal, a: Action) {
    KeyOf(a) in j.bySkill && j.bySkill[KeyOf(a)] != "" && j.bySkill[KeyOf(a)] != a.id
  }

  function Save(j: Journal, a: Action): Journal {
    if Conflicts(j, a) then j
    else Journal(j.byID[a.id := a], j.bySkill[KeyOf(a) := a.id])
  }

  /** The two indexes describe the same records: one record per key and one key per record. */
  predicate WellIndexed(j: Journal) {
    && (forall id <- j.byID :: id != "" && j.byID[id].id == id
          && KeyOf(j.byID[id]) in j.bySkill && j.bySkill[KeyOf(j.byID[id])] == id)
    && (forall k <- j.bySkill :: j.bySkill[k] in j.byID && KeyOf(j.byID[j.bySkill[k]]) == k)
  }

  /** A save that goes through keeps the indexes in step exactly when a known id keeps its key. */
  lemma SaveKeepsIndexes(j: Journal, a: Action)
    requires WellIndexed(j) && !Conflicts(j, a) && a.id != ""
    ensures WellIndexed(Save(j, a)) <==> (a.id in j.byID ==> KeyOf(j.byID[a.id]) == KeyOf(a))
  {
    var t := Save(j, a);
    if a.id in j.byID && KeyOf(j.byID[a.id]) != KeyOf(a) {
      var stale := KeyOf(j.byID[a.id]);
      assert stale in t.bySkill && t.bySkill[stale] == a.id && KeyOf(t.byID[a.id]) != stale;
    } else if KeyOf(a) in j.bySkill {
      assert j.bySkill[KeyOf(a)] == a.id;
    }
  }

  /** In a well indexed journal a key names at most one record, and looking it up finds that record. */
  lemma LookupIsExact(j: Journal, id: string)
    requires WellIndexed(j) && id in j.byID
    ensures Lookup(j, j.byID[id].skillExecutionId, j.byID[id].key) == Some(j.byID[id])
    ensures forall other <- j.byID :: KeyOf(j.byID[other]) == KeyOf(j.byID[id]) ==> other == id
  {
    assert KeyOf(j.byID[id]) in j.bySkill;
  }

  class MemoryActionJournal {
    var byID: map<string, Action>
    var bySkill: map<string, string>

    ghost function View(): Journal
      reads this
    {
      Journal(byID, bySkill)
    }

    constructor ()
      ensures View() == Journal(map[], map[]) && WellIndexed(View())
    {
      byID, bySkill := map[], map[];
    }

    method GetAction(skillExecutionId: string, key: string) returns (found: Option<Action>)
      ensures found == Lookup(View(), skillExecutionId, key)
    {
      var k := JoinKey(skillExecutionId, key);
      var id := if k in bySkill then bySkill[k] else "";
      if id in byID {
        return Some(byID[id]);
      }
      return None;
    }

    method SaveAction(a: Action) returns (ok: bool)
      modifies this
      ensures ok == !Conflicts(old(View()), a)
      ensures View() == Save(old(View()), a)
    {
      var k := JoinKey(a.skillExecutionId, a.key);
      var existing := if k in bySkill then bySkill[k] else "";
      if existing != "" && existing != a.id {
        return false;
      }
      byID := byID[a.id := a];
      bySkill := bySkill[k := a.id];
      return true;
    }

    /** Every record that is not terminal, once; interrupted records are terminal here. */
    method ListActiveActions() returns (result: seq<Action>)
      requires WellIndexed(View())
      ensures forall a :: a in result <==> a.id in byID && byID[a.id] == a && !Terminal(a.status)
      ensures forall i, k :: 0 <= i < k < |result| ==> result[i].id != result[k].id
    {
      result := [];
      var todo := byID.Keys;
      while todo != {}
        invariant todo <= byID.Keys
        invariant forall a :: a in result <==>
                    a.id in byID.Keys - todo && byID[a.id] == a && !Terminal(a.status)
        invariant forall i, k :: 0 <= i < k < |result| ==> result[i].id != result[k].id
        decreases todo
      {
        var id :| id in todo;
        todo := todo - {id};
        if !Terminal(byID[id].status) {
          assert forall i :: 0 <= i < |result| ==> result[i] in result;
          result := result + [byID[id]];
        }
      }
    }
  }
}
