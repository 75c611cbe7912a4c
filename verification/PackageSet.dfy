/** Choosing the components of an installation package: the depth-first closure of the selection under
    "requires", in installation order, and the batch that installs them one by one. */
module PackageSet {
  import opened Common

  datatype Entry = Entry(id: string, file: string, needs: seq<string>)

  datatype Error = BadIds | NothingSelected | Missing | Cyclic

  datatype Result = Selected(order: seq<Entry>) | Rejected(error: Error)

  type Graph = map<string, Entry>

  predicate SegmentChar(c: char) {
    'a' <= c <= 'z' || 'A' <= c <= 'Z' || '0' <= c <= '9' || c in {'.', '_', '-'}
  }

  predicate ComponentSegment(s: string) {
    s != "" && s != "." && s != ".." && forall c <- s :: SegmentChar(c)
  }

  // ---------- the requirement graph ----------

  predicate Edge(g: Graph, a: string, b: string) {
    a in g && b in g[a].needs
  }

  predicate Chain(g: Graph, p: seq<string>) {
    |p| > 0 && forall i :: 0 <= i < |p| - 1 ==> Edge(g, p[i], p[i + 1])
  }

  ghost predicate Reaches(g: Graph, a: string, b: string) {
    exists p :: Chain(g, p) && p[0] == a && p[|p| - 1] == b
  }

  ghost predicate OnCycle(g: Graph, a: string) {
    exists p :: Chain(g, p) && |p| >= 2 && p[0] == a && p[|p| - 1] == a
  }

  ghost predicate ReachedFrom(g: Graph, roots: seq<string>, id: string) {
    exists root <- roots :: Reaches(g, root, id)
  }

  /** Everything the roots need is declared, and nothing needs itself. */
  ghost predicate Installable(g: Graph, roots: seq<string>) {
    forall id :: ReachedFrom(g, roots, id) ==> id in g && !OnCycle(g, id)
  }

  lemma ReachesItself(g: Graph, a: string)
    ensures Reaches(g, a, a)
  {
    assert Chain(g, [a]);
  }

  lemma ReachesThrough(g: Graph, a: string, b: string, c: string)
    requires Edge(g, a, b) && Reaches(g, b, c)
    ensures Reaches(g, a, c)
  {
    var p :| Chain(g, p) && p[0] == b && p[|p| - 1] == c;
    var q := [a] + p;
    assert forall i :: 0 <= i < |q| - 1 ==> q[i + 1] == p[i];
    assert Chain(g, q);
  }

  lemma ChainSuffix(g: Graph, p: seq<string>, k: nat)
    requires Chain(g, p) && k < |p|
    ensures Chain(g, p[k..])
  {
    forall i | 0 <= i < |p[k..]| - 1 ensures Edge(g, p[k..][i], p[k..][i + 1]) {
      assert Edge(g, p[k + i], p[k + i + 1]);
    }
  }

  lemma ChainExtend(g: Graph, p: seq<string>, b: string)
    requires Chain(g, p) && Edge(g, p[|p| - 1], b)
    ensures Chain(g, p + [b])
  {
    forall i | 0 <= i < |p| ensures Edge(g, (p + [b])[i], (p + [b])[i + 1]) {
      assert i < |p| - 1 ==> Edge(g, p[i], p[i + 1]);
    }
  }

  /** A chain that comes back to one of its own entries closes a cycle. */
  lemma BackIsCycle(g: Graph, path: seq<string>, id: string)
    requires Chain(g, path + [id]) && id in path
    ensures OnCycle(g, id)
  {
    var k :| 0 <= k < |path| && path[k] == id;
    ChainSuffix(g, path + [id], k);
    var cycle := (path + [id])[k..];
    assert cycle[0] == id && cycle[|cycle| - 1] == id;
  }

  // ---------- installation orders ----------

  predicate Listed(order: seq<Entry>, id: string) {
    exists k :: 0 <= k < |order| && order[k].id == id
  }

  predicate Distinct(order: seq<Entry>) {
    forall j, k :: 0 <= j < k < |order| ==> order[j].id != order[k].id
  }

  /** Each entry is the declared one and comes after everything it needs. */
  predicate Topological(g: Graph, order: seq<Entry>) {
    forall k :: 0 <= k < |order| ==>
      && order[k].id in g && g[order[k].id] == order[k]
      && forall d <- order[k].needs :: Listed(order[..k], d)
  }

  /** Along a chain of requirements the position in the order strictly falls. */
  lemma {:induction false} ChainsFall(g: Graph, order: seq<Entry>, p: seq<string>, k: nat) returns (j: nat)
    requires Topological(g, order) && Chain(g, p) && k < |order| && order[k].id == p[0]
    ensures j <= k && order[j].id == p[|p| - 1] && (|p| >= 2 ==> j < k)
    decreases |p|
  {
    if |p| == 1 {
      j := k;
    } else {
      assert Edge(g, p[0], p[1]) && Listed(order[..k], p[1]);
      var m :| 0 <= m < k && order[..k][m].id == p[1];
      ChainSuffix(g, p, 1);
      j := ChainsFall(g, order, p[1..], m);
    }
  }

  /** Whatever an ordered entry reaches is ordered too, and lies on no cycle. */
  lemma OrderedIsInstallable(g: Graph, order: seq<Entry>, a: string, b: string)
    requires Topological(g, order) && Distinct(order) && Listed(order, a) && Reaches(g, a, b)
    ensures Listed(order, b) && b in g && !OnCycle(g, b)
  {
    var k :| 0 <= k < |order| && order[k].id == a;
    var p :| Chain(g, p) && p[0] == a && p[|p| - 1] == b;
    var j := ChainsFall(g, order, p, k);
    if OnCycle(g, b) {
      var q :| Chain(g, q) && |q| >= 2 && q[0] == b && q[|q| - 1] == b;
      var i := ChainsFall(g, order, q, j);
    }
  }

  lemma TopologicalAppend(g: Graph, order: seq<Entry>, e: Entry)
    requires Topological(g, order) && e.id in g && g[e.id] == e
    requires forall d <- e.needs :: Listed(order, d)
    ensures Topological(g, order + [e])
  {
    forall k | 0 <= k < |order + [e]| ensures (order + [e])[..k] == if k < |order| then order[..k] else order {
    }
  }

  lemma StaysListed(shorter: seq<Entry>, longer: seq<Entry>, id: string)
    requires shorter <= longer && Listed(shorter, id)
    ensures Listed(longer, id)
  {
    var k :| 0 <= k < |shorter| && shorter[k].id == id;
    assert longer[k] == shorter[k];
  }

  lemma ListedAppend(order: seq<Entry>, e: Entry)
    ensures forall id :: Listed(order + [e], id) <==> Listed(order, id) || id == e.id
  {
    forall id ensures Listed(order + [e], id) <==> Listed(order, id) || id == e.id {
      if Listed(order, id) {
        StaysListed(order, order + [e], id);
      }
      assert (order + [e])[|order|] == e;
    }
  }

  lemma DistinctAppend(order: seq<Entry>, e: Entry)
    requires Distinct(order) && !Listed(order, e.id)
    ensures Distinct(order + [e])
  {
  }

  // ---------- the search ----------

  /** The first needs of an entry are ordered, and whatever was ordered since is reached from it. */
  ghost predicate NeedsOrdered(g: Graph, id: string, n: nat, since: nat, order: seq<Entry>)
    requires id in g && n <= |g[id].needs|
  {
    && (forall m :: 0 <= m < n ==> Listed(order, g[id].needs[m]))
    && (forall k :: since <= k < |order| ==> Reaches(g, id, order[k].id))
  }

  lemma OneMoreNeed(g: Graph, id: string, n: nat, since: nat, before: seq<Entry>, after: seq<Entry>)
    requires id in g && n < |g[id].needs| && NeedsOrdered(g, id, n, since, before) && before <= after
    requires Listed(after, g[id].needs[n])
    requires forall k :: |before| <= k < |after| ==> Reaches(g, g[id].needs[n], after[k].id)
    ensures NeedsOrdered(g, id, n + 1, since, after)
  {
    hide Listed, Reaches;
    assert Edge(g, id, g[id].needs[n]);
    forall k | since <= k < |after| ensures Reaches(g, id, after[k].id) {
      if k < |before| {
        assert after[k] == before[k];
      } else {
        ReachesThrough(g, id, g[id].needs[n], after[k].id);
      }
    }
    forall m | 0 <= m < n ensures Listed(after, g[id].needs[m]) {
      StaysListed(before, after, g[id].needs[m]);
    }
  }

  lemma ErrorIsReached(g: Graph, id: string, need: string, error: Error)
    requires Edge(g, id, need)
    requires error == Missing ==> exists b :: Reaches(g, need, b) && b !in g
    requires error == Cyclic ==> exists b :: Reaches(g, need, b) && OnCycle(g, b)
    ensures error == Missing ==> exists b :: Reaches(g, id, b) && b !in g
    ensures error == Cyclic ==> exists b :: Reaches(g, id, b) && OnCycle(g, b)
  {
    hide Reaches, OnCycle;
    if error == Missing || error == Cyclic {
      var b :| Reaches(g, need, b) && if error == Missing then b !in g else OnCycle(g, b);
      ReachesThrough(g, id, need, b);
    }
  }

  datatype Colour = Open | Done

  class Search {
    const byID: Graph
    var state: map<string, Colour>
    var ordered: seq<Entry>

    ghost predicate Valid()
      reads this
    {
      && (forall id <- byID :: byID[id].id == id)
      && Topological(byID, ordered) && Distinct(ordered)
      && (forall id :: id in state && state[id] == Done <==> Listed(ordered, id))
    }

    /** The entries being visited are exactly those on the path. */
    ghost predicate OpenAre(path: seq<string>)
      reads this
    {
      forall id :: id in state && state[id] == Open <==> id in path
    }

    constructor (byID: Graph)
      requires forall id <- byID :: byID[id].id == id
      ensures this.byID == byID && ordered == [] && Valid() && OpenAre([])
    {
      this.byID, state, ordered := byID, map[], [];
    }

    /** Visit an entry below those on the path: either it and everything it needs is ordered, or the
        error names something real that it reaches. */
    method Visit(id: string, ghost path: seq<string>) returns (error: Option<Error>)
      requires Valid() && OpenAre(path) && Chain(byID, path + [id])
      modifies this
      ensures error.None? ==> Valid() && OpenAre(path) && Listed(ordered, id)
      ensures old(state.Keys) <= state.Keys && old(ordered) <= ordered
      ensures error.None? ==> forall k :: |old(ordered)| <= k < |ordered| ==> Reaches(byID, id, ordered[k].id)
      ensures error.Some? ==> error.value in {Missing, Cyclic}
      ensures error == Some(Missing) ==> exists b :: Reaches(byID, id, b) && b !in byID
      ensures error == Some(Cyclic) ==> exists b :: Reaches(byID, id, b) && OnCycle(byID, b)
      decreases byID.Keys - state.Keys
    {
      hide Topological, Distinct, Listed, Chain, Reaches, OnCycle;
      ReachesItself(byID, id);
      if id !in byID {
        return Some(Missing);
      }
      if id in state && state[id] == Open {
        BackIsCycle(byID, path, id);
        return Some(Cyclic);
      }
      if id in state && state[id] == Done {
        return None;
      }
      state := state[id := Open];
      var needs := byID[id].needs;
      assert forall x :: x in path + [id] <==> x in path || x == id;
      for n := 0 to |needs|
        invariant Valid() && OpenAre(path + [id])
        invariant old(state.Keys) + {id} <= state.Keys && old(ordered) <= ordered
        invariant NeedsOrdered(byID, id, n, |old(ordered)|, ordered)
      {
        ghost var before := ordered;
        assert Edge(byID, id, needs[n]);
        ChainExtend(byID, path + [id], needs[n]);
        error := Visit(needs[n], path + [id]);
        if error.Some? {
          ErrorIsReached(byID, id, needs[n], error.value);
          return;
        }
        OneMoreNeed(byID, id, n, |old(ordered)|, before, ordered);
      }
      TopologicalAppend(byID, ordered, byID[id]);
      ListedAppend(ordered, byID[id]);
      DistinctAppend(ordered, byID[id]);
      state := state[id := Done];
      ordered := ordered + [byID[id]];
      return None;
    }
  }

  // ---------- selecting ----------

  predicate IdsValid(entries: seq<Entry>) {
    Distinct(entries) && forall e <- entries :: ComponentSegment(e.id)
  }

  function Declared(entries: seq<Entry>): Graph
    decreases |entries|
  {
    if entries == [] then map[]
    else
      var last := entries[|entries| - 1];
      Declared(entries[..|entries| - 1])[last.id := last]
  }

  /** With distinct IDs the graph has exactly the declared entries. */
  lemma {:induction false} DeclaredHasEach(entries: seq<Entry>)
    requires Distinct(entries)
    ensures forall id :: id in Declared(entries) <==> Listed(entries, id)
    ensures forall k :: 0 <= k < |entries| ==>
      entries[k].id in Declared(entries) && Declared(entries)[entries[k].id] == entries[k]
    decreases |entries|
  {
    if entries != [] {
      var n := |entries| - 1;
      DeclaredHasEach(entries[..n]);
      assert entries == entries[..n] + [entries[n]];
      ListedAppend(entries[..n], entries[n]);
    }
  }

  lemma {:induction false} DeclaredIsKeyed(entries: seq<Entry>)
    ensures forall id <- Declared(entries) :: Declared(entries)[id].id == id
    decreases |entries|
  {
    if entries != [] {
      DeclaredIsKeyed(entries[..|entries| - 1]);
    }
  }

  /** No selection at all means every entry; an empty one means nothing. */
  function Roots(entries: seq<Entry>, selected: Option<seq<string>>): seq<string> {
    if selected.Some? then selected.value else seq(|entries|, k requires 0 <= k < |entries| => entries[k].id)
  }

  /** The order lists exactly what the roots reach, each once and after everything it needs. */
  ghost predicate Closure(g: Graph, roots: seq<string>, order: seq<Entry>) {
    Topological(g, order) && Distinct(order) && forall id :: Listed(order, id) <==> ReachedFrom(g, roots, id)
  }

  /** The selection succeeds exactly when the IDs are valid and distinct, something is selected, and
      everything it reaches is declared and off every cycle; each error names its reason. */
  ghost predicate Selects(entries: seq<Entry>, selected: Option<seq<string>>, r: Result) {
    var g, roots := Declared(entries), Roots(entries, selected);
    && (r.Selected? <==> IdsValid(entries) && roots != [] && Installable(g, roots))
    && (r.Selected? ==> Closure(g, roots, r.order))
    && (r == Rejected(BadIds) <==> !IdsValid(entries))
    && (r == Rejected(NothingSelected) <==> IdsValid(entries) && roots == [])
    && (r == Rejected(Missing) ==> exists id :: ReachedFrom(g, roots, id) && id !in g)
    && (r == Rejected(Cyclic) ==> exists id :: ReachedFrom(g, roots, id) && OnCycle(g, id))
  }

  /** The first roots are ordered, and nothing is ordered that no root needs. */
  ghost predicate RootsOrdered(g: Graph, roots: seq<string>, n: nat, order: seq<Entry>)
    requires n <= |roots|
  {
    && (forall m :: 0 <= m < n ==> Listed(order, roots[m]))
    && (forall k :: 0 <= k < |order| ==> ReachedFrom(g, roots, order[k].id))
  }

  lemma OrderedRootsAreInstallable(g: Graph, roots: seq<string>, order: seq<Entry>)
    requires Topological(g, order) && Distinct(order) && RootsOrdered(g, roots, |roots|, order)
    ensures Installable(g, roots) && Closure(g, roots, order)
  {
    hide Reaches, OnCycle, Topological, Distinct;
    assert forall root <- roots :: Listed(order, root);
    forall id | ReachedFrom(g, roots, id) ensures Listed(order, id) && id in g && !OnCycle(g, id) {
      var root :| root in roots && Reaches(g, root, id);
      OrderedIsInstallable(g, order, root, id);
    }
  }

  /** One more entry keeps the IDs valid exactly if its ID is well formed and not yet in the graph. */
  lemma ValidSoFar(entries: seq<Entry>, k: nat)
    requires k < |entries|
    ensures IdsValid(entries) ==> IdsValid(entries[..k + 1])
    ensures IdsValid(entries[..k + 1]) ==> IdsValid(entries[..k])
    ensures IdsValid(entries[..k]) ==>
      (IdsValid(entries[..k + 1]) <==> ComponentSegment(entries[k].id) && entries[k].id !in Declared(entries[..k]))
    ensures Declared(entries[..k + 1]) == Declared(entries[..k])[entries[k].id := entries[k]]
  {
    var shorter, longer := entries[..k], entries[..k + 1];
    assert longer == shorter + [entries[k]] && longer[..k] == shorter && longer[k] == entries[k];
    if IdsValid(shorter) {
      DeclaredHasEach(shorter);
      hide ComponentSegment;
    }
  }

  method IndexEntries(entries: seq<Entry>) returns (byID: Option<Graph>)
    ensures byID == if IdsValid(entries) then Some(Declared(entries)) else None
  {
    var index: Graph := map[];
    for k := 0 to |entries|
      invariant IdsValid(entries[..k]) && index == Declared(entries[..k])
    {
      ValidSoFar(entries, k);
      hide IdsValid, Declared, ComponentSegment;
      if !ComponentSegment(entries[k].id) || entries[k].id in index {
        return None;
      }
      index := index[entries[k].id := entries[k]];
    }
    assert entries[..|entries|] == entries;
    return Some(index);
  }

  /** The closure of the roots, or the reason why there is none. */
  lemma OneMoreRoot(g: Graph, roots: seq<string>, n: nat, before: seq<Entry>, after: seq<Entry>)
    requires n < |roots| && RootsOrdered(g, roots, n, before) && before <= after && Listed(after, roots[n])
    requires forall k :: |before| <= k < |after| ==> Reaches(g, roots[n], after[k].id)
    ensures RootsOrdered(g, roots, n + 1, after)
  {
    hide Listed, Reaches;
    forall m | 0 <= m < n ensures Listed(after, roots[m]) {
      StaysListed(before, after, roots[m]);
    }
    forall k | 0 <= k < |after| ensures ReachedFrom(g, roots, after[k].id) {
      assert k < |before| ==> after[k] == before[k];
    }
  }

  /** What a root reaches and cannot be installed rules the whole selection out. */
  lemma RejectedRightly(g: Graph, roots: seq<string>, root: string, error: Error)
    requires root in roots && error in {Missing, Cyclic}
    requires error == Missing ==> exists b :: Reaches(g, root, b) && b !in g
    requires error == Cyclic ==> exists b :: Reaches(g, root, b) && OnCycle(g, b)
    ensures !Installable(g, roots)
    ensures error == Missing ==> exists id :: ReachedFrom(g, roots, id) && id !in g
    ensures error == Cyclic ==> exists id :: ReachedFrom(g, roots, id) && OnCycle(g, id)
  {
    hide Reaches, OnCycle;
    var b :| Reaches(g, root, b) && if error == Missing then b !in g else OnCycle(g, b);
    assert ReachedFrom(g, roots, b);
  }

  method CloseOver(g: Graph, roots: seq<string>) returns (r: Result)
    requires forall id <- g :: g[id].id == id
    ensures r.Selected? ==> Installable(g, roots) && Closure(g, roots, r.order)
    ensures r.Rejected? ==> r.error in {Missing, Cyclic} && !Installable(g, roots)
    ensures r == Rejected(Missing) ==> exists id :: ReachedFrom(g, roots, id) && id !in g
    ensures r == Rejected(Cyclic) ==> exists id :: ReachedFrom(g, roots, id) && OnCycle(g, id)
  {
    hide Listed, Reaches, ReachedFrom, Installable, Closure, RootsOrdered, Distinct, Topological, OnCycle;
    var search := new Search(g);
    NoRootsYet(g, roots);
    for n := 0 to |roots|
      invariant search.byID == g && search.Valid() && search.OpenAre([])
      invariant RootsOrdered(g, roots, n, search.ordered)
    {
      ghost var before := search.ordered;
      assert [] + [roots[n]] == [roots[n]];
      var error := search.Visit(roots[n], []);
      if error.Some? {
        RejectedRightly(g, roots, roots[n], error.value);
        return Rejected(error.value);
      }
      OneMoreRoot(g, roots, n, before, search.ordered);
    }
    OrderedRootsAreInstallable(g, roots, search.ordered);
    return Selected(search.ordered);
  }

  lemma NoRootsYet(g: Graph, roots: seq<string>)
    ensures RootsOrdered(g, roots, 0, [])
  {
  }

  method SelectPackageEntries(entries: seq<Entry>, selected: Option<seq<string>>) returns (r: Result)
    ensures Selects(entries, selected, r)
  {
    hide IdsValid, Installable, Closure, Declared, ReachedFrom, OnCycle, Listed;
    var byID := IndexEntries(entries);
    if byID.None? {
      return Rejected(BadIds);
    }
    var roots := Roots(entries, selected);
    if |roots| == 0 {
      return Rejected(NothingSelected);
    }
    DeclaredIsKeyed(entries);
    r := CloseOver(byID.value, roots);
  }

  // ---------- installing ----------

  /** One sub-package's installation: cancelled before it, or run to an end with its resources. */
  datatype Install = Cancelled | Ended(resources: seq<string>, works: bool)

  predicate Works(i: Install) {
    i.Ended? && i.works
  }

  function ResourcesOf(i: Install): seq<string> {
    if i.Ended? then i.resources else []
  }

  function Reported(done: seq<Entry>, install: string -> Install): seq<string>
    decreases |done|
  {
    if done == [] then []
    else Reported(done[..|done| - 1], install) + ResourcesOf(install(done[|done| - 1].id))
  }

  /** The order respects the requirements of its entries. */
  predicate NeedsFirst(order: seq<Entry>) {
    forall k :: 0 <= k < |order| ==> forall d <- order[k].needs :: Listed(order[..k], d)
  }

  lemma PrefixNeedsFirst(order: seq<Entry>, n: nat)
    requires NeedsFirst(order) && n <= |order|
    ensures NeedsFirst(order[..n])
  {
    forall k | 0 <= k < n ensures order[..n][..k] == order[..k] {
    }
  }

  method InstallOneByOne(order: seq<Entry>, install: string -> Install)
    returns (done: seq<Entry>, resources: seq<string>)
    ensures done <= order && forall e <- done :: Works(install(e.id))
    ensures |done| < |order| ==>
      !Works(install(order[|done|].id)) && resources == Reported(order[..|done| + 1], install)
    ensures done == order ==> resources == Reported(order, install)
  {
    done, resources := [], [];
    for k := 0 to |order|
      invariant done == order[..k] && resources == Reported(done, install)
      invariant forall e <- done :: Works(install(e.id))
    {
      ghost var longer := order[..k + 1];
      assert longer[..k] == done && longer[k] == order[k];
      var i := install(order[k].id);
      resources := resources + ResourcesOf(i);
      if !Works(i) {
        return;
      }
      done := order[..k + 1];
    }
  }

  predicate AllChecked(order: seq<Entry>, check: string -> bool) {
    forall e <- order :: check(e.id)
  }

  method CheckAll(order: seq<Entry>, check: string -> bool) returns (ok: bool)
    ensures ok <==> AllChecked(order, check)
  {
    for k := 0 to |order|
      invariant forall j :: 0 <= j < k ==> check(order[j].id)
    {
      if !check(order[k].id) {
        assert order[k] in order;
        return false;
      }
    }
    return true;
  }

  /** Check all of them, then install one by one up to the first failure. */
  method InstallSelection(order: seq<Entry>, check: string -> bool, install: string -> Install)
    returns (done: seq<Entry>, resources: seq<string>, ok: bool)
    requires NeedsFirst(order)
    ensures ok <==> AllChecked(order, check) && forall e <- order :: Works(install(e.id))
    ensures done <= order && NeedsFirst(done) && forall e <- done :: Works(install(e.id))
    ensures !AllChecked(order, check) ==> done == [] && resources == []
    ensures AllChecked(order, check) && !ok ==>
      |done| < |order| && !Works(install(order[|done|].id))
      && resources == Reported(order[..|done| + 1], install)
    ensures ok ==> done == order && resources == Reported(order, install)
  {
    hide Listed, NeedsFirst, Reported, Works, AllChecked;
    done, resources, ok := [], [], false;
    var checked := CheckAll(order, check);
    if !checked {
      PrefixNeedsFirst(order, 0);
      assert done == order[..0];
      return;
    }
    done, resources := InstallOneByOne(order, install);
    ok := |done| == |order|;
    PrefixNeedsFirst(order, |done|);
    assert done == order[..|done|];
  }

  /** Every sub-package is checked before the first one is installed; the installation stops at the
      first failure, and what was completed by then is closed under requirements. */
  method BatchInstall(entries: seq<Entry>, selected: Option<seq<string>>,
                      check: string -> bool, install: string -> Install)
    returns (r: Result, done: seq<Entry>, resources: seq<string>, ok: bool)
    ensures Selects(entries, selected, r)
    ensures ok <==> r.Selected? && AllChecked(r.order, check) && forall e <- r.order :: Works(install(e.id))
    ensures r.Selected? ==> done <= r.order && (ok ==> done == r.order)
    ensures NeedsFirst(done) && forall e <- done :: Works(install(e.id))
    ensures !(r.Selected? && AllChecked(r.order, check)) ==> done == [] && resources == []
    ensures r.Selected? && AllChecked(r.order, check) && !ok ==>
      |done| < |r.order| && !Works(install(r.order[|done|].id))
      && resources == Reported(r.order[..|done| + 1], install)
    ensures ok ==> resources == Reported(done, install)
  {
    r := SelectPackageEntries(entries, selected);
    if r.Rejected? {
      return r, [], [], false;
    }
    assert NeedsFirst(r.order);
    hide Selects, Listed, NeedsFirst, Reported, Works, AllChecked;
    done, resources, ok := InstallSelection(r.order, check, install);
  }
}
