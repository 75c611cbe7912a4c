/** The directory of MCP tools: each server's listed tools replace its entries, and a server's health
    is shared by all of them. Each critical section is one step. */
module Registry {
  import opened Common

  datatype Health = Healthy | Unavailable

  datatype Tool = Tool(name: string, description: string, schema: string)

  datatype Entry = Entry(
    fullName: string, server: string, tool: string, description: string, schema: string, risk: string,
    health: Health, updatedAt: int)

  datatype State = State(entries: map<string, Entry>, specs: set<string>, health: map<string, Health>)

  const INIT := State(map[], {}, map[])

  datatype Report = Report(added: set<string>, updated: set<string>, removed: set<string>)

  const NO_CHANGE := Report({}, {}, {})

  const DEFAULT_RISK := "medium"
  const DEFAULT_SCHEMA := "{\"type\":\"object\"}"

  function FullName(server: string, tool: string): string {
    server + "." + tool
  }

  function NamesOf(server: string, tools: seq<Tool>): set<string> {
    set t <- tools :: FullName(server, t.name)
  }

  function Candidate(server: string, risk: string, now: int, t: Tool): Entry {
    var fullName := FullName(server, t.name);
    Entry(fullName, server, t.name,
          if t.description == "" then fullName else t.description,
          if t.schema == "" then DEFAULT_SCHEMA else t.schema,
          if risk == "" then DEFAULT_RISK else risk, Healthy, now)
  }

  predicate SameContent(a: Entry, b: Entry) {
    a.description == b.description && a.schema == b.schema && a.risk == b.risk
  }

  /** The part of the directory that comes from one server. */
  function EntriesOf(entries: map<string, Entry>, server: string): map<string, Entry> {
    map k | k in entries && entries[k].server == server :: entries[k]
  }

  /** Where the comparison stands: the new entries, the prior ones not met yet, and what was reported. */
  datatype Scan = Scan(listed: map<string, Entry>, left: map<string, Entry>, added: set<string>, updated: set<string>)

  function ScanTool(scan: Scan, c: Entry): Scan {
    var k := c.fullName;
    var left := scan.left - {k};
    if k !in scan.left then Scan(scan.listed[k := c], left, scan.added + {k}, scan.updated)
    else if SameContent(scan.left[k], c)
    then Scan(scan.listed[k := c.(updatedAt := scan.left[k].updatedAt)], left, scan.added, scan.updated)
    else Scan(scan.listed[k := c], left, scan.added, scan.updated + {k})
  }

  function ScanTools(prior: map<string, Entry>, server: string, risk: string, now: int, tools: seq<Tool>): Scan
    decreases |tools|
  {
    if tools == [] then Scan(map[], prior, {}, {})
    else
      var n := |tools| - 1;
      ScanTool(ScanTools(prior, server, risk, now, tools[..n]), Candidate(server, risk, now, tools[n]))
  }

  function Reconcile(
    entries: map<string, Entry>, server: string, risk: string, now: int, tools: seq<Tool>): (map<string, Entry>, Report)
  {
    var prior := EntriesOf(entries, server);
    var scan := ScanTools(prior, server, risk, now, tools);
    ((entries - prior.Keys) + scan.listed, Report(scan.added, scan.updated, scan.left.Keys))
  }

  function MarkHealth(s: State, server: string, health: Health): State {
    if server in s.health && s.health[server] == health then s
    else s.(health := s.health[server := health], entries := Marked(s.entries, server, health))
  }

  function MarkedOne(e: Entry, server: string, health: Health): Entry {
    if e.server == server then e.(health := health) else e
  }

  function Marked(entries: map<string, Entry>, server: string, health: Health): map<string, Entry> {
    map k <- entries :: MarkedOne(entries[k], server, health)
  }

  function RemoveServer(s: State, server: string): State {
    State(s.entries - EntriesOf(s.entries, server).Keys, s.specs - {server}, s.health - {server})
  }

  /** How the connection, or the listing, went: cut short by the caller, failed, or listed. */
  datatype SyncOutcome = SyncCancelled | SyncFailed | Listed(tools: seq<Tool>)

  function SyncServer(s: State, server: string, risk: string, now: int, outcome: SyncOutcome): (State, Option<Report>) {
    var t := s.(specs := s.specs + {server});
    match outcome
    case SyncCancelled => (t, None)
    case SyncFailed => (MarkHealth(t, server, Unavailable), None)
    case Listed(tools) =>
      var (entries, report) := Reconcile(t.entries, server, risk, now, tools);
      (MarkHealth(t.(entries := entries), server, Healthy), Some(report))
  }

  /** The directory, and the servers whose entries have been replaced and whose health has yet to be
      marked, once for each synchronisation that stands between the two. */
  datatype Shared = Shared(dir: State, settling: multiset<string>)

  /** The critical sections: a synchronisation records the specification, replaces the entries and marks
      the health; a failed one, a lost or a working call and an outside mark only mark it. */
  datatype Step =
    | Record(server: string)
    | Replace(server: string, risk: string, now: int, tools: seq<Tool>)
    | Settle(server: string)
    | Mark(server: string, health: Health)
    | Remove(server: string)

  predicate Enabled(s: Shared, step: Step) {
    step.Settle? ==> step.server in s.settling
  }

  function Apply(s: Shared, step: Step): Shared
    requires Enabled(s, step)
  {
    match step
    case Record(server) => s.(dir := s.dir.(specs := s.dir.specs + {server}))
    case Replace(server, risk, now, tools) =>
      Shared(s.dir.(entries := Reconcile(s.dir.entries, server, risk, now, tools).0), s.settling + multiset{server})
    case Settle(server) => Shared(MarkHealth(s.dir, server, Healthy), s.settling - multiset{server})
    case Mark(server, health) => s.(dir := MarkHealth(s.dir, server, health))
    case Remove(server) => s.(dir := RemoveServer(s.dir, server))
  }

  // ---------- the invariant ----------

  /** Entries are filed under their full names and have their server's recorded health. */
  predicate Filed(entries: map<string, Entry>) {
    forall k <- entries :: entries[k].fullName == k && k == FullName(entries[k].server, entries[k].tool)
  }

  predicate HealthIsRecorded(s: State, k: string)
    requires k in s.entries
  {
    s.entries[k].server in s.health && s.entries[k].health == s.health[s.entries[k].server]
  }

  /** An entry has its server's recorded health, or is newly listed and about to be marked healthy. */
  predicate HealthHolds(s: Shared, k: string)
    requires k in s.dir.entries
  {
    HealthIsRecorded(s.dir, k) || (s.dir.entries[k].server in s.settling && s.dir.entries[k].health == Healthy)
  }

  predicate Inv(s: Shared) {
    Filed(s.dir.entries) && forall k <- s.dir.entries :: HealthHolds(s, k)
  }

  /** After the tools with these names: what the new entries are and which prior ones are left. */
  predicate Scanned(prior: map<string, Entry>, server: string, names: set<string>, scan: Scan) {
    && scan.listed.Keys == names && Filed(scan.listed)
    && (forall k <- scan.listed :: scan.listed[k].server == server && scan.listed[k].health == Healthy)
    && scan.left == prior - names
  }

  lemma ScanOneTool(prior: map<string, Entry>, server: string, names: set<string>, scan: Scan, c: Entry)
    requires Scanned(prior, server, names, scan)
    requires c.server == server && c.fullName == FullName(server, c.tool) && c.health == Healthy
    ensures Scanned(prior, server, names + {c.fullName}, ScanTool(scan, c))
  {
    hide FullName, SameContent;
    assert (prior - names) - {c.fullName} == prior - (names + {c.fullName});
  }

  lemma NamesAppend(server: string, tools: seq<Tool>, t: Tool)
    ensures NamesOf(server, tools + [t]) == NamesOf(server, tools) + {FullName(server, t.name)}
  {
  }

  lemma CandidateOf(server: string, risk: string, now: int, t: Tool)
    ensures var c := Candidate(server, risk, now, t);
      c.server == server && c.tool == t.name && c.fullName == FullName(server, t.name) && c.health == Healthy
  {
    hide FullName;
  }

  lemma ScanNothing(prior: map<string, Entry>, server: string)
    ensures Scanned(prior, server, NamesOf(server, []), Scan(map[], prior, {}, {}))
  {
    hide FullName;
    assert prior - {} == prior;
  }

  lemma {:induction false} ScanListsTools(
    prior: map<string, Entry>, server: string, risk: string, now: int, tools: seq<Tool>)
    ensures Scanned(prior, server, NamesOf(server, tools), ScanTools(prior, server, risk, now, tools))
    decreases |tools|
  {
    hide Scanned, ScanTool, NamesOf, FullName, Candidate;
    if tools == [] {
      ScanNothing(prior, server);
    } else {
      var n := |tools| - 1;
      var scan, c := ScanTools(prior, server, risk, now, tools[..n]), Candidate(server, risk, now, tools[n]);
      assert ScanTools(prior, server, risk, now, tools) == ScanTool(scan, c);
      hide ScanTools;
      CandidateOf(server, risk, now, tools[n]);
      ScanListsTools(prior, server, risk, now, tools[..n]);
      ScanOneTool(prior, server, NamesOf(server, tools[..n]), scan, c);
      NamesAppend(server, tools[..n], tools[n]);
      assert tools == tools[..n] + [tools[n]];
    }
  }

  /** Reconciling makes the server's entries exactly the listed tools, all healthy; any other entry is
      kept unless a listed tool has its full name. */
  lemma ReconcileListsTools(
    entries: map<string, Entry>, server: string, risk: string, now: int, tools: seq<Tool>)
    requires Filed(entries)
    ensures var (after, report) := Reconcile(entries, server, risk, now, tools);
      && Filed(after)
      && EntriesOf(after, server).Keys == NamesOf(server, tools)
      && (forall k <- EntriesOf(after, server) :: after[k].health == Healthy)
      && (forall k | k !in NamesOf(server, tools) && k in entries && entries[k].server != server ::
            k in after && after[k] == entries[k])
      && (forall k | k in after && after[k].server != server :: k in entries && after[k] == entries[k])
  {
    ScanListsTools(EntriesOf(entries, server), server, risk, now, tools);
    hide ScanTools, NamesOf, FullName;
  }

  lemma MarkKeepsInv(s: Shared, server: string, health: Health)
    requires Inv(s)
    ensures Inv(s.(dir := MarkHealth(s.dir, server, health)))
  {
    hide FullName;
    var t := s.(dir := MarkHealth(s.dir, server, health));
    forall k | k in t.dir.entries ensures HealthHolds(t, k) {
      assert HealthHolds(s, k);
    }
  }

  /** Once marked healthy, the server's entries all have the recorded health. */
  lemma SettleKeepsInv(s: Shared, server: string)
    requires Inv(s) && server in s.settling
    ensures Inv(Apply(s, Settle(server)))
  {
    hide FullName;
    var t := Apply(s, Settle(server));
    forall k | k in t.dir.entries ensures HealthHolds(t, k) {
      assert HealthHolds(s, k);
    }
  }

  lemma ReplaceKeepsInv(s: Shared, server: string, risk: string, now: int, tools: seq<Tool>)
    requires Inv(s)
    ensures Inv(Apply(s, Replace(server, risk, now, tools)))
  {
    var t := Apply(s, Replace(server, risk, now, tools));
    ReconcileListsTools(s.dir.entries, server, risk, now, tools);
    hide Reconcile, FullName, NamesOf, Filed;
    forall k | k in t.dir.entries ensures HealthHolds(t, k) {
      if t.dir.entries[k].server == server {
        assert k in EntriesOf(t.dir.entries, server);
      } else {
        assert HealthHolds(s, k);
      }
    }
  }

  lemma StepKeepsInv(s: Shared, step: Step)
    requires Inv(s) && Enabled(s, step)
    ensures Inv(Apply(s, step))
  {
    match step
    case Record(server) => assert forall k <- s.dir.entries :: HealthHolds(s, k);
    case Replace(server, risk, now, tools) => ReplaceKeepsInv(s, server, risk, now, tools);
    case Settle(server) => SettleKeepsInv(s, server);
    case Mark(server, health) => MarkKeepsInv(s, server, health);
    case Remove(server) =>
      var t := Apply(s, step);
      forall k | k in t.dir.entries ensures HealthHolds(t, k) {
        assert HealthHolds(s, k);
      }
  }

  predicate History(s: Shared, steps: seq<Step>)
    decreases |steps|
  {
    steps == [] || (Enabled(s, steps[0]) && History(Apply(s, steps[0]), steps[1..]))
  }

  function Run(s: Shared, steps: seq<Step>): Shared
    requires History(s, steps)
    decreases |steps|
  {
    if steps == [] then s else Run(Apply(s, steps[0]), steps[1..])
  }

  lemma {:induction false} RunKeepsInv(s: Shared, steps: seq<Step>)
    requires Inv(s) && History(s, steps)
    ensures Inv(Run(s, steps))
    decreases |steps|
  {
    if steps != [] {
      StepKeepsInv(s, steps[0]);
      hide Inv;
      RunKeepsInv(Apply(s, steps[0]), steps[1..]);
    }
  }

  /** However the critical sections interleave: every entry is filed under its own full name, and the
      entries of a server have the health recorded for it, unless one of its synchronisations stands
      between its two sections; then an entry can be healthy already. */
  lemma HealthIsShared(steps: seq<Step>)
    requires History(Shared(INIT, multiset{}), steps)
    ensures var s := Run(Shared(INIT, multiset{}), steps);
      && Filed(s.dir.entries)
      && (forall k | k in s.dir.entries && s.dir.entries[k].server !in s.settling :: HealthIsRecorded(s.dir, k))
      && (forall k <- s.dir.entries :: HealthIsRecorded(s.dir, k) || s.dir.entries[k].health == Healthy)
  {
    RunKeepsInv(Shared(INIT, multiset{}), steps);
    var s := Run(Shared(INIT, multiset{}), steps);
    hide Run, History, Filed;
    forall k | k in s.dir.entries ensures HealthHolds(s, k) {
    }
  }

  function SyncSteps(server: string, risk: string, now: int, outcome: SyncOutcome): seq<Step> {
    match outcome
    case SyncCancelled => [Record(server)] + []
    case SyncFailed => [Record(server)] + ([Mark(server, Unavailable)] + [])
    case Listed(tools) => [Record(server)] + ([Replace(server, risk, now, tools)] + ([Settle(server)] + []))
  }

  lemma Prepend(s: Shared, step: Step, rest: seq<Step>)
    requires Enabled(s, step) && History(Apply(s, step), rest)
    ensures History(s, [step] + rest) && Run(s, [step] + rest) == Run(Apply(s, step), rest)
  {
    assert ([step] + rest)[1..] == rest;
    hide Apply, Enabled;
  }

  /** A synchronisation that nothing disturbs is its critical sections one after the other. */
  lemma SyncIsItsSteps(s: Shared, server: string, risk: string, now: int, outcome: SyncOutcome)
    ensures var steps := SyncSteps(server, risk, now, outcome);
      History(s, steps) && Run(s, steps) == Shared(SyncServer(s.dir, server, risk, now, outcome).0, s.settling)
  {
    hide Reconcile, MarkHealth, History, Run;
    var r := Apply(s, Record(server));
    match outcome
    case SyncCancelled =>
      RunsNothing(r);
      Prepend(s, Record(server), []);
    case SyncFailed =>
      RunsNothing(Apply(r, Mark(server, Unavailable)));
      Prepend(r, Mark(server, Unavailable), []);
      Prepend(s, Record(server), [Mark(server, Unavailable)] + []);
    case Listed(tools) =>
      var replace, settle := Replace(server, risk, now, tools), Settle(server);
      var u := Apply(r, replace);
      assert Apply(u, settle).settling == s.settling;
      RunsNothing(Apply(u, settle));
      Prepend(u, settle, []);
      Prepend(r, replace, [settle] + []);
      Prepend(s, Record(server), [replace] + ([settle] + []));
  }

  lemma RunsNothing(s: Shared)
    ensures History(s, []) && Run(s, []) == s
  {
  }

  // ---------- what a reconciliation reports ----------

  predicate DistinctNames(tools: seq<Tool>) {
    forall i, j :: 0 <= i < j < |tools| ==> tools[i].name != tools[j].name
  }

  /** The entry of a listed tool: as before, time included, if its content has not changed. */
  function Settled(prior: map<string, Entry>, c: Entry): Entry {
    if c.fullName in prior && SameContent(prior[c.fullName], c)
    then c.(updatedAt := prior[c.fullName].updatedAt) else c
  }

  /** With distinct tool names every tool is judged against the prior directory alone. */
  ghost predicate JudgedAlone(prior: map<string, Entry>, cs: seq<Entry>, scan: Scan) {
    && (forall i :: 0 <= i < |cs| ==>
          cs[i].fullName in scan.listed && scan.listed[cs[i].fullName] == Settled(prior, cs[i]))
    && scan.added == scan.listed.Keys - prior.Keys
    && (forall k :: k in scan.updated <==>
          k in scan.listed && k in prior && !SameContent(prior[k], scan.listed[k]))
  }

  function Candidates(server: string, risk: string, now: int, tools: seq<Tool>): (cs: seq<Entry>)
    ensures |cs| == |tools| && forall i :: 0 <= i < |cs| ==> cs[i] == Candidate(server, risk, now, tools[i])
  {
    seq(|tools|, i requires 0 <= i < |tools| => Candidate(server, risk, now, tools[i]))
  }

  lemma JudgeOne(prior: map<string, Entry>, cs: seq<Entry>, scan: Scan, c: Entry)
    requires JudgedAlone(prior, cs, scan) && c.fullName !in scan.listed
    requires c.fullName in scan.left <==> c.fullName in prior
    requires c.fullName in prior ==> scan.left[c.fullName] == prior[c.fullName]
    ensures JudgedAlone(prior, cs + [c], ScanTool(scan, c))
  {
    var k, t := c.fullName, ScanTool(scan, c);
    assert t.listed == scan.listed[k := Settled(prior, c)];
    assert t.updated == if k in prior && !SameContent(prior[k], c) then scan.updated + {k} else scan.updated;
    assert k in prior ==> (SameContent(prior[k], t.listed[k]) <==> SameContent(prior[k], c));
    hide SameContent, Settled, ScanTool;
  }

  lemma FullNameIsInjective(server: string, a: string, b: string)
    requires FullName(server, a) == FullName(server, b)
    ensures a == b
  {
    assert a == FullName(server, a)[|server| + 1..];
    assert b == FullName(server, b)[|server| + 1..];
  }

  lemma NewName(server: string, tools: seq<Tool>, n: nat)
    requires DistinctNames(tools) && n < |tools|
    ensures FullName(server, tools[n].name) !in NamesOf(server, tools[..n])
  {
    forall i | 0 <= i < n ensures FullName(server, tools[i].name) != FullName(server, tools[n].name) {
      if FullName(server, tools[i].name) == FullName(server, tools[n].name) {
        FullNameIsInjective(server, tools[i].name, tools[n].name);
      }
    }
  }

  lemma {:induction false} DistinctToolsAreJudgedAlone(
    prior: map<string, Entry>, server: string, risk: string, now: int, tools: seq<Tool>)
    requires DistinctNames(tools)
    ensures JudgedAlone(prior, Candidates(server, risk, now, tools), ScanTools(prior, server, risk, now, tools))
    decreases |tools|
  {
    hide JudgedAlone, ScanTool, FullName, NamesOf, Scanned, Candidate;
    var cs := Candidates(server, risk, now, tools);
    if tools == [] {
      JudgeNothing(prior);
      assert cs == [];
    } else {
      var n := |tools| - 1;
      var scan := ScanTools(prior, server, risk, now, tools[..n]);
      assert ScanTools(prior, server, risk, now, tools) == ScanTool(scan, cs[n]);
      hide ScanTools;
      NotYetScanned(prior, server, risk, now, tools, n);
      CandidateOf(server, risk, now, tools[n]);
      DistinctToolsAreJudgedAlone(prior, server, risk, now, tools[..n]);
      JudgeOne(prior, Candidates(server, risk, now, tools[..n]), scan, cs[n]);
      assert cs == Candidates(server, risk, now, tools[..n]) + [cs[n]];
    }
  }

  lemma JudgeNothing(prior: map<string, Entry>)
    ensures JudgedAlone(prior, [], Scan(map[], prior, {}, {}))
  {
  }

  lemma NotYetScanned(prior: map<string, Entry>, server: string, risk: string, now: int, tools: seq<Tool>, n: nat)
    requires DistinctNames(tools) && n < |tools|
    ensures var scan, k := ScanTools(prior, server, risk, now, tools[..n]), FullName(server, tools[n].name);
      k !in scan.listed && (k in scan.left <==> k in prior) && (k in prior ==> scan.left[k] == prior[k])
  {
    ScanListsTools(prior, server, risk, now, tools[..n]);
    NewName(server, tools, n);
    hide ScanTools, NamesOf, FullName, Filed;
  }

  /** With distinct tool names, the old and new names split into added, updated, unchanged and
      removed ones, and an entry that is not reported keeps its content and its time. */
  lemma ReportIsAPartition(entries: map<string, Entry>, server: string, risk: string, now: int, tools: seq<Tool>)
    requires Filed(entries) && DistinctNames(tools)
    ensures var (after, report) := Reconcile(entries, server, risk, now, tools);
      var before, names := EntriesOf(entries, server), NamesOf(server, tools);
      && report.added == names - before.Keys
      && report.removed == before.Keys - names
      && report.updated <= names * before.Keys
      && report.added !! report.updated !! report.removed
      && (forall k | k in names :: k in after)
      && (forall k | k in names && k in before.Keys ::
            k in report.updated <==> !SameContent(before[k], after[k]))
      && (forall k | k in names && k in before.Keys && k !in report.updated ::
            after[k] == before[k].(health := Healthy))
  {
    var prior := EntriesOf(entries, server);
    ScanListsTools(prior, server, risk, now, tools);
    DistinctToolsAreJudgedAlone(prior, server, risk, now, tools);
    var cs, scan := Candidates(server, risk, now, tools), ScanTools(prior, server, risk, now, tools);
    forall k | k in scan.listed && k in prior ensures scan.listed[k].tool == prior[k].tool {
      FullNameIsInjective(server, scan.listed[k].tool, prior[k].tool);
    }
    hide ScanTools, FullName;
    forall i | 0 <= i < |cs| && cs[i].fullName in prior
      ensures SameContent(prior[cs[i].fullName], scan.listed[cs[i].fullName]) ==>
        scan.listed[cs[i].fullName].updatedAt == prior[cs[i].fullName].updatedAt
    {
      assert scan.listed[cs[i].fullName] == Settled(prior, cs[i]);
    }
    forall k | k in scan.listed && k in prior
      ensures k !in scan.updated ==> scan.listed[k] == prior[k].(health := Healthy)
    {
      var t :| t in tools && FullName(server, t.name) == k;
      var i :| 0 <= i < |tools| && tools[i] == t;
      assert cs[i].fullName == k;
    }
  }

  /** Judged against entries that already are its settled ones, nothing happens. */
  lemma NothingToJudge(prior: map<string, Entry>, cs: seq<Entry>, scan: Scan)
    requires JudgedAlone(prior, cs, scan) && scan.listed.Keys == prior.Keys && scan.left == map[]
    requires forall k <- scan.listed :: exists i :: 0 <= i < |cs| && cs[i].fullName == k
    requires forall i :: 0 <= i < |cs| ==> cs[i].fullName in prior && SameContent(prior[cs[i].fullName], cs[i])
    requires forall i :: 0 <= i < |cs| ==> Settled(prior, cs[i]) == prior[cs[i].fullName]
    ensures scan == Scan(prior, map[], {}, {})
  {
    hide Settled;
    forall k | k in scan.listed ensures scan.listed[k] == prior[k] {
      var i :| 0 <= i < |cs| && cs[i].fullName == k;
    }
  }

  /** A settled entry settles to itself at any later time. */
  lemma SettledStays(before: map<string, Entry>, after: map<string, Entry>, c: Entry, d: Entry)
    requires d == c.(updatedAt := d.updatedAt)
    requires c.fullName in after && after[c.fullName] == Settled(before, c)
    ensures SameContent(after[d.fullName], d) && Settled(after, d) == after[d.fullName]
  {
  }

  lemma CandidatesCover(server: string, risk: string, now: int, tools: seq<Tool>)
    ensures forall k <- NamesOf(server, tools) ::
      exists i :: 0 <= i < |tools| && Candidates(server, risk, now, tools)[i].fullName == k
  {
    hide FullName;
    forall k | k in NamesOf(server, tools)
      ensures exists i :: 0 <= i < |tools| && Candidates(server, risk, now, tools)[i].fullName == k
    {
      var t :| t in tools && FullName(server, t.name) == k;
      var i :| 0 <= i < |tools| && tools[i] == t;
      assert Candidates(server, risk, now, tools)[i].fullName == k;
    }
  }

  lemma ListedAreSettled(
    before: map<string, Entry>, server: string, risk: string, now: int, later: int, tools: seq<Tool>)
    requires DistinctNames(tools)
    ensures var listed := ScanTools(before, server, risk, now, tools).listed;
      forall d <- Candidates(server, risk, later, tools) ::
        d.fullName in listed && SameContent(listed[d.fullName], d) && Settled(listed, d) == listed[d.fullName]
  {
    var listed := ScanTools(before, server, risk, now, tools).listed;
    var cs, ds := Candidates(server, risk, now, tools), Candidates(server, risk, later, tools);
    DistinctToolsAreJudgedAlone(before, server, risk, now, tools);
    hide ScanTools, FullName, Settled, SameContent;
    forall i | 0 <= i < |ds|
      ensures ds[i].fullName in listed && SameContent(listed[ds[i].fullName], ds[i])
      ensures Settled(listed, ds[i]) == listed[ds[i].fullName]
    {
      assert ds[i] == cs[i].(updatedAt := ds[i].updatedAt);
      SettledStays(before, listed, cs[i], ds[i]);
    }
  }

  /** The same names, and none left over. */
  lemma SameNamesAgain(before: map<string, Entry>, server: string, risk: string, now: int, later: int, tools: seq<Tool>)
    ensures var listed := ScanTools(before, server, risk, now, tools).listed;
      var again := ScanTools(listed, server, risk, later, tools);
      again.listed.Keys == NamesOf(server, tools) == listed.Keys && again.left == map[]
  {
    ScanListsTools(before, server, risk, now, tools);
    ScanListsTools(ScanTools(before, server, risk, now, tools).listed, server, risk, later, tools);
    hide ScanTools, FullName, NamesOf, Filed;
  }

  /** Scanning the entries that a scan of the same tools has just produced. */
  lemma ScanningAgain(before: map<string, Entry>, server: string, risk: string, now: int, later: int, tools: seq<Tool>)
    requires DistinctNames(tools)
    ensures var listed := ScanTools(before, server, risk, now, tools).listed;
      ScanTools(listed, server, risk, later, tools) == Scan(listed, map[], {}, {})
  {
    var listed := ScanTools(before, server, risk, now, tools).listed;
    var again := ScanTools(listed, server, risk, later, tools);
    hide ScanTools, FullName, Settled, SameContent, JudgedAlone, NamesOf, Candidate, DistinctNames;
    SameNamesAgain(before, server, risk, now, later, tools);
    CandidatesCover(server, risk, later, tools);
    ListedAreSettled(before, server, risk, now, later, tools);
    DistinctToolsAreJudgedAlone(listed, server, risk, later, tools);
    NothingToJudge(listed, Candidates(server, risk, later, tools), again);
  }

  /** Listing the same tools again reports nothing and changes no entry, whatever the time. */
  lemma ReconcilingAgainChangesNothing(
    entries: map<string, Entry>, server: string, risk: string, now: int, later: int, tools: seq<Tool>)
    requires Filed(entries) && DistinctNames(tools)
    ensures var after := Reconcile(entries, server, risk, now, tools).0;
      Reconcile(after, server, risk, later, tools) == (after, NO_CHANGE)
  {
    var before := EntriesOf(entries, server);
    var after := Reconcile(entries, server, risk, now, tools).0;
    var listed := ScanTools(before, server, risk, now, tools).listed;
    assert forall k <- listed :: listed[k].server == server by {
      ScanListsTools(before, server, risk, now, tools);
    }
    ScanningAgain(before, server, risk, now, later, tools);
    hide ScanTools, FullName, NamesOf, EntriesOf;
    ReplacedEntries(entries, server, listed);
    var none: map<string, Entry> := map[];
    assert none.Keys == {};
  }

  /** Replacing a server's entries by given ones of its own: those are then its entries, and replacing
      them again by the same changes nothing. */
  lemma ReplacedEntries(entries: map<string, Entry>, server: string, listed: map<string, Entry>)
    requires forall k <- listed :: listed[k].server == server
    ensures var after := (entries - EntriesOf(entries, server).Keys) + listed;
      EntriesOf(after, server) == listed && (after - listed.Keys) + listed == after
  {
  }

  /** Two tools of the list have this full name. */
  predicate Repeated(server: string, tools: seq<Tool>, k: string) {
    exists i, j :: 0 <= i < j < |tools| && FullName(server, tools[i].name) == k && FullName(server, tools[j].name) == k
  }

  lemma RepeatedIsNamed(server: string, tools: seq<Tool>, k: string)
    ensures Repeated(server, tools, k) ==> k in NamesOf(server, tools)
  {
    hide FullName;
  }

  lemma RepeatedAppend(server: string, tools: seq<Tool>, t: Tool, k: string)
    ensures Repeated(server, tools + [t], k) <==>
            Repeated(server, tools, k) || (k == FullName(server, t.name) && k in NamesOf(server, tools))
  {
    var all, n := tools + [t], |tools|;
    hide FullName;
    if Repeated(server, tools, k) {
      var i, j :| 0 <= i < j < n && FullName(server, tools[i].name) == k && FullName(server, tools[j].name) == k;
      assert all[i] == tools[i] && all[j] == tools[j];
    }
    if k == FullName(server, t.name) && k in NamesOf(server, tools) {
      var u :| u in tools && FullName(server, u.name) == k;
      var i :| 0 <= i < n && tools[i] == u;
      assert all[i] == u && all[n] == t;
    }
  }

  /** What is reported as added: the new names, and the known ones that are listed more than once. */
  lemma {:induction false} AddedExactly(
    prior: map<string, Entry>, server: string, risk: string, now: int, tools: seq<Tool>, k: string)
    ensures k in ScanTools(prior, server, risk, now, tools).added <==>
            k in NamesOf(server, tools) && (k !in prior || Repeated(server, tools, k))
    decreases |tools|
  {
    hide ScanTool, Candidate, FullName, Repeated;
    if tools == [] {
    } else {
      var n := |tools| - 1;
      var scan, c := ScanTools(prior, server, risk, now, tools[..n]), Candidate(server, risk, now, tools[n]);
      assert ScanTools(prior, server, risk, now, tools) == ScanTool(scan, c);
      hide ScanTools, NamesOf;
      assert tools == tools[..n] + [tools[n]];
      AddedExactly(prior, server, risk, now, tools[..n], k);
      LeftOver(prior, server, risk, now, tools[..n], k);
      CandidateOf(server, risk, now, tools[n]);
      ScanAdds(scan, c, k);
      RepeatedIsNamed(server, tools[..n], k);
      RepeatedAppend(server, tools[..n], tools[n], k);
      NamesAppend(server, tools[..n], tools[n]);
    }
  }

  lemma LeftOver(prior: map<string, Entry>, server: string, risk: string, now: int, tools: seq<Tool>, k: string)
    ensures k in ScanTools(prior, server, risk, now, tools).left <==> k in prior && k !in NamesOf(server, tools)
  {
    ScanListsTools(prior, server, risk, now, tools);
    hide ScanTools, NamesOf, Filed;
  }

  lemma ScanAdds(scan: Scan, c: Entry, k: string)
    ensures k in ScanTool(scan, c).added <==> k in scan.added || (k == c.fullName && k !in scan.left)
  {
    hide SameContent;
  }

  /** Whatever is listed, the removed names are the missing ones and only known tools are updated. The
      added ones are the new ones exactly if no tool that the directory had is listed more than once. */
  lemma AddedIsNewUnlessRepeated(
    entries: map<string, Entry>, server: string, risk: string, now: int, tools: seq<Tool>)
    ensures var report := Reconcile(entries, server, risk, now, tools).1;
      var before, names := EntriesOf(entries, server), NamesOf(server, tools);
      && report.removed == before.Keys - names
      && report.added >= names - before.Keys
      && (report.added == names - before.Keys <==> forall k <- before :: !Repeated(server, tools, k))
  {
    var before := EntriesOf(entries, server);
    ScanListsTools(before, server, risk, now, tools);
    forall k ensures k in ScanTools(before, server, risk, now, tools).added <==>
      k in NamesOf(server, tools) && (k !in before || Repeated(server, tools, k))
    {
      AddedExactly(before, server, risk, now, tools, k);
    }
    forall k | Repeated(server, tools, k) ensures k in NamesOf(server, tools) {
      RepeatedIsNamed(server, tools, k);
    }
    hide ScanTools, EntriesOf, NamesOf, Repeated, Filed, FullName;
  }

  /** An input that shows it: a known tool listed twice is reported as added. */
  lemma KnownToolListedTwice(e: Entry, risk: string, now: int, t: Tool)
    requires e.server == "s" && e.tool == t.name && e.fullName == FullName("s", t.name)
    ensures var report := Reconcile(map[e.fullName := e], "s", risk, now, [t, t]).1;
      report.added == {e.fullName} && EntriesOf(map[e.fullName := e], "s").Keys == {e.fullName}
  {
    var before := EntriesOf(map[e.fullName := e], "s");
    var tools := [t, t];
    assert tools[0] == tools[1] == t;
    forall k ensures k in ScanTools(before, "s", risk, now, tools).added <==> k == e.fullName {
      AddedExactly(before, "s", risk, now, tools, k);
    }
  }

  /** A server that cannot be reached loses none of its entries: only their health changes. */
  lemma FailureKeepsEntries(s: State, server: string, risk: string, now: int)
    requires forall k | k in s.entries && s.entries[k].server == server :: HealthIsRecorded(s, k)
    ensures var t := SyncServer(s, server, risk, now, SyncFailed).0;
      && t.entries.Keys == s.entries.Keys
      && (forall k <- s.entries :: t.entries[k] ==
            if s.entries[k].server == server then s.entries[k].(health := Unavailable) else s.entries[k])
  {
    forall k | k in s.entries && s.entries[k].server == server ensures HealthIsRecorded(s, k) {
    }
  }

  // ---------- other servers ----------

  predicate OthersKept(before: map<string, Entry>, after: map<string, Entry>, server: string) {
    forall k <- before :: before[k].server != server ==> k in after && after[k] == before[k]
  }

  /** Other servers' entries survive exactly when no listed tool takes the full name of one of them. */
  lemma OthersKeptExactly(entries: map<string, Entry>, server: string, risk: string, now: int, tools: seq<Tool>)
    requires Filed(entries)
    ensures OthersKept(entries, Reconcile(entries, server, risk, now, tools).0, server) <==>
            (forall t <- tools :: FullName(server, t.name) in entries ==>
               entries[FullName(server, t.name)].server == server)
  {
    ReconcileListsTools(entries, server, risk, now, tools);
    hide Reconcile, FullName, Filed;
    var after := Reconcile(entries, server, risk, now, tools).0;
    if OthersKept(entries, after, server) {
      forall t | t in tools && FullName(server, t.name) in entries
        ensures entries[FullName(server, t.name)].server == server
      {
        assert FullName(server, t.name) in EntriesOf(after, server).Keys;
      }
    }
  }

  predicate DotFree(name: string) {
    '.' !in name
  }

  lemma ServerIsThePrefix(a: string, t: string, b: string, u: string)
    requires DotFree(a) && DotFree(b) && FullName(a, t) == FullName(b, u)
    ensures a == b
  {
    var name := FullName(a, t);
    assert name[|a|] == '.' && name[|b|] == '.';
    assert forall i :: 0 <= i < |a| ==> name[i] == a[i];
    assert forall i :: 0 <= i < |b| ==> name[i] == b[i];
    assert a == name[..|a|] && b == name[..|b|];
  }

  /** Servers whose names have no dot never disturb each other's entries. */
  lemma DotFreeServersDoNotInterfere(
    entries: map<string, Entry>, server: string, risk: string, now: int, tools: seq<Tool>)
    requires Filed(entries) && DotFree(server) && forall k <- entries :: DotFree(entries[k].server)
    ensures OthersKept(entries, Reconcile(entries, server, risk, now, tools).0, server)
  {
    forall t | t in tools && FullName(server, t.name) in entries
      ensures entries[FullName(server, t.name)].server == server
    {
      var e := entries[FullName(server, t.name)];
      ServerIsThePrefix(e.server, e.tool, server, t.name);
    }
    OthersKeptExactly(entries, server, risk, now, tools);
  }

  /** With dots in the names it can happen: server a listing b.c takes the entry of tool c of a.b. */
  lemma DottedServersInterfere(e: Entry, now: int)
    requires e.server == "a.b" && e.tool == "c" && e.fullName == "a.b.c"
    ensures !OthersKept(map["a.b.c" := e], Reconcile(map["a.b.c" := e], "a", "", now, [Tool("b.c", "", "")]).0, "a")
  {
    var tools := [Tool("b.c", "", "")];
    assert FullName("a", tools[0].name) == "a.b.c" == FullName("a.b", "c");
    assert Filed(map["a.b.c" := e]);
    OthersKeptExactly(map["a.b.c" := e], "a", "", now, tools);
    assert tools[0] in tools;
  }

  // ---------- the registry object ----------

  class Directory {
    var entries: map<string, Entry>
    var specs: set<string>
    var health: map<string, Health>

    ghost function View(): State
      reads this
    {
      State(entries, specs, health)
    }

    /** The entries of one server, by their full names. */
    method Collect(server: string) returns (found: map<string, Entry>)
      ensures found == EntriesOf(entries, server)
    {
      found := map[];
      var todo := entries.Keys;
      while todo != {}
        invariant todo <= entries.Keys
        invariant found == map k | k in entries && k !in todo && entries[k].server == server :: entries[k]
        decreases todo
      {
        var k :| k in todo;
        todo := todo - {k};
        if entries[k].server == server {
          found := found[k := entries[k]];
        }
      }
    }

    method DeleteAll(server: string)
      modifies this`entries
      ensures entries == old(entries) - EntriesOf(old(entries), server).Keys
    {
      var todo := entries.Keys;
      while todo != {}
        invariant todo <= old(entries).Keys
        invariant entries ==
          map k | k in old(entries) && (k in todo || old(entries)[k].server != server) :: old(entries)[k]
        decreases todo
      {
        var k :| k in todo;
        todo := todo - {k};
        if entries[k].server == server {
          entries := entries - {k};
        }
      }
    }

    /** Compare the listed tools with the server's entries, then replace those. */
    method ReconcileServer(server: string, risk: string, now: int, tools: seq<Tool>) returns (report: Report)
      modifies this`entries
      ensures (entries, report) == Reconcile(old(entries), server, risk, now, tools)
    {
      var prior := Collect(server);
      var left, listed: map<string, Entry> := prior, map[];
      var added, updated: set<string> := {}, {};
      for n := 0 to |tools|
        invariant Scan(listed, left, added, updated) == ScanTools(prior, server, risk, now, tools[..n])
      {
        assert tools[..n + 1][..n] == tools[..n];
        var c := Candidate(server, risk, now, tools[n]);
        if c.fullName !in left {
          added := added + {c.fullName};
        } else if left[c.fullName].description == c.description && left[c.fullName].schema == c.schema
          && left[c.fullName].risk == c.risk {
          c := c.(updatedAt := left[c.fullName].updatedAt);
        } else {
          updated := updated + {c.fullName};
        }
        listed := listed[c.fullName := c];
        left := left - {c.fullName};
      }
      assert tools[..|tools|] == tools;
      DeleteAll(server);
      entries := entries + listed;
      return Report(added, updated, left.Keys);
    }

    method MoveHealth(server: string, to: Health)
      modifies this`entries, this`health
      ensures View() == MarkHealth(old(View()), server, to)
    {
      if server in health && health[server] == to {
        return;
      }
      health := health[server := to];
      var todo := entries.Keys;
      while todo != {}
        invariant todo <= old(entries).Keys && entries.Keys == old(entries).Keys
        invariant health == old(health)[server := to]
        invariant forall k <- entries ::
          entries[k] == (if k in todo then old(entries)[k] else MarkedOne(old(entries)[k], server, to))
        decreases todo
      {
        var k :| k in todo;
        todo := todo - {k};
        if entries[k].server == server {
          entries := entries[k := entries[k].(health := to)];
        }
      }
      assert entries == Marked(old(entries), server, to);
    }

    method SyncOne(server: string, risk: string, now: int, outcome: SyncOutcome) returns (report: Option<Report>)
      modifies this
      ensures (View(), report) == SyncServer(old(View()), server, risk, now, outcome)
    {
      specs := specs + {server};
      match outcome {
        case SyncCancelled => return None;
        case SyncFailed =>
          MoveHealth(server, Unavailable);
          return None;
        case Listed(tools) =>
          var found := ReconcileServer(server, risk, now, tools);
          MoveHealth(server, Healthy);
          return Some(found);
      }
    }

    method Forget(server: string)
      modifies this
      ensures View() == RemoveServer(old(View()), server)
    {
      DeleteAll(server);
      specs := specs - {server};
      health := health - {server};
    }
  }
}
