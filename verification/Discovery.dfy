/** Discovering which Ability instance serves which action: one instance per configured role, and an
    action bound only while a single instance offers it. */
module Discovery {
  import opened Common

  datatype ActionRef = ActionRef(kind: string, schemaVersion: int)

  datatype Action = Action(ref: ActionRef, task: string, physical: bool)

  /** One heartbeat with its manifest; error stands for any reason it cannot be used. */
  datatype Item = Item(
    id: string, abilityName: string, role: string, state: string, error: bool,
    tasks: set<string>, actions: seq<Action>)

  /** What the deployment asks of a role; empty strings ask nothing. */
  datatype Desired = Desired(abilityName: string, instanceId: string)

  datatype Binding = Binding(ref: ActionRef, abilityName: string, task: string, instanceId: string, physical: bool)

  // ---------- choosing an instance ----------

  function LowerChar(c: char): char {
    if 'A' <= c <= 'Z' then ((c as int) + 32) as char else c
  }

  function Lower(s: string): string {
    seq(|s|, i requires 0 <= i < |s| => LowerChar(s[i]))
  }

  predicate StateReady(state: string) {
    Lower(state) == "standby" || Lower(state) == "running"
  }

  /** Healthy, and what the role asks for: by name if one is configured, else by role. */
  predicate Matches(item: Item, role: string, desired: Desired) {
    && (if desired.abilityName != "" then item.abilityName == desired.abilityName else item.role == role)
    && StateReady(item.state) && !item.error
    && (desired.instanceId != "" ==> item.id == desired.instanceId)
  }

  /** The first match from k on. */
  function FirstMatch(items: seq<Item>, role: string, desired: Desired, k: nat): (r: Option<nat>)
    requires k <= |items|
    ensures r.Some? ==> k <= r.value < |items| && Matches(items[r.value], role, desired)
    ensures forall i :: k <= i < (if r.Some? then r.value else |items|) ==> !Matches(items[i], role, desired)
    decreases |items| - k
  {
    if k == |items| then None
    else if Matches(items[k], role, desired) then Some(k)
    else FirstMatch(items, role, desired, k + 1)
  }

  function Select(items: seq<Item>, role: string, desired: Desired): Option<nat> {
    var first := FirstMatch(items, role, desired, 0);
    if first.None? || desired.instanceId != "" then first
    else if FirstMatch(items, role, desired, first.value + 1).Some? then None
    else first
  }

  /** A configured instance is found exactly if it is there and healthy; otherwise an instance is
      selected exactly if it is the only healthy match. */
  lemma SelectExactly(items: seq<Item>, role: string, desired: Desired, i: nat)
    requires i < |items|
    ensures desired.instanceId != "" ==>
      (Select(items, role, desired) == Some(i) <==>
        Matches(items[i], role, desired) && forall j :: 0 <= j < i ==> !Matches(items[j], role, desired))
    ensures desired.instanceId == "" ==>
      (Select(items, role, desired) == Some(i) <==>
        && Matches(items[i], role, desired)
        && forall j :: 0 <= j < |items| && j != i ==> !Matches(items[j], role, desired))
  {
  }

  method SelectInstance(items: seq<Item>, role: string, desired: Desired) returns (selected: int)
    ensures -1 <= selected < |items|
    ensures Select(items, role, desired) == if selected < 0 then None else Some(selected as nat)
  {
    selected := -1;
    for index := 0 to |items|
      invariant -1 <= selected < index
      invariant selected >= 0 ==> desired.instanceId == "" && Matches(items[selected], role, desired)
      invariant forall j :: 0 <= j < index && j != selected ==> !Matches(items[j], role, desired)
    {
      var item := items[index];
      var matches := item.role == role;
      if desired.abilityName != "" {
        matches := item.abilityName == desired.abilityName;
      }
      if !matches || !StateReady(item.state) || item.error {
        continue;
      }
      if desired.instanceId != "" {
        if item.id == desired.instanceId {
          return index;
        }
        continue;
      }
      if selected >= 0 {
        return -1;
      }
      selected := index;
    }
  }

  // ---------- binding actions ----------

  function BindingOf(item: Item, a: Action): Binding {
    Binding(a.ref, item.abilityName, a.task, item.id, a.physical)
  }

  /** The bindings an instance offers: its actions whose task it declares. */
  function ItemOffers(item: Item, actions: seq<Action>): (offers: seq<Binding>)
    ensures forall a <- actions :: a.task in item.tasks ==> BindingOf(item, a) in offers
    ensures forall o <- offers :: exists a <- actions :: a.task in item.tasks && o == BindingOf(item, a)
    decreases |actions|
  {
    if actions == [] then []
    else
      var n := |actions| - 1;
      var rest := ItemOffers(item, actions[..n]);
      assert actions == actions[..n] + [actions[n]];
      if actions[n].task in item.tasks then rest + [BindingOf(item, actions[n])] else rest
  }

  function RoleOffers(items: seq<Item>, role: string, desired: Desired): seq<Binding> {
    var i := Select(items, role, desired);
    if i.None? then [] else ItemOffers(items[i.value], items[i.value].actions)
  }

  function Offers(items: seq<Item>, roles: seq<string>, desired: map<string, Desired>): seq<Binding>
    requires forall role <- roles :: role in desired
    decreases |roles|
  {
    if roles == [] then []
    else
      var n := |roles| - 1;
      Offers(items, roles[..n], desired) + RoleOffers(items, roles[n], desired[roles[n]])
  }

  /** The bindings made so far and the actions found to be offered by several instances. */
  datatype Catalog = Catalog(bindings: map<ActionRef, Binding>, ambiguous: set<ActionRef>)

  function Offer(c: Catalog, o: Binding): Catalog {
    var clash := o.ref in c.bindings && c.bindings[o.ref].instanceId != o.instanceId;
    var ambiguous := if clash then c.ambiguous + {o.ref} else c.ambiguous;
    if o.ref in ambiguous then Catalog(c.bindings - {o.ref}, ambiguous)
    else Catalog(c.bindings[o.ref := o], ambiguous)
  }

  function BindAll(c: Catalog, offers: seq<Binding>): Catalog
    decreases |offers|
  {
    if offers == [] then c else Offer(BindAll(c, offers[..|offers| - 1]), offers[|offers| - 1])
  }

  const EMPTY := Catalog(map[], {})

  predicate Offered(offers: seq<Binding>, ref: ActionRef) {
    exists o <- offers :: o.ref == ref
  }

  /** All instances that offer the action are one. */
  predicate OneInstance(offers: seq<Binding>, ref: ActionRef) {
    forall o <- offers, p <- offers :: o.ref == ref && p.ref == ref ==> o.instanceId == p.instanceId
  }

  predicate ExactAt(offers: seq<Binding>, c: Catalog, ref: ActionRef) {
    && (ref in c.bindings <==> Offered(offers, ref) && OneInstance(offers, ref))
    && (ref in c.ambiguous <==> !OneInstance(offers, ref))
    && (ref in c.bindings ==> c.bindings[ref] in offers && c.bindings[ref].ref == ref)
  }

  ghost predicate Exact(offers: seq<Binding>, c: Catalog) {
    forall ref :: ExactAt(offers, c, ref)
  }

  /** Every earlier offer of the action comes from this instance. */
  predicate AllFrom(offers: seq<Binding>, ref: ActionRef, instanceId: string) {
    forall p <- offers :: p.ref == ref ==> p.instanceId == instanceId
  }

  lemma OneMoreOffer(offers: seq<Binding>, o: Binding, ref: ActionRef)
    ensures Offered(offers + [o], ref) <==> Offered(offers, ref) || ref == o.ref
    ensures OneInstance(offers + [o], ref) <==>
      OneInstance(offers, ref) && (ref == o.ref ==> AllFrom(offers, ref, o.instanceId))
  {
    var longer := offers + [o];
    assert o in longer && forall x :: x in longer <==> x in offers || x == o;
  }

  lemma FromBound(offers: seq<Binding>, p: Binding, instanceId: string)
    requires p in offers && OneInstance(offers, p.ref)
    ensures AllFrom(offers, p.ref, instanceId) <==> p.instanceId == instanceId
  {
  }

  lemma NotOffered(offers: seq<Binding>, ref: ActionRef, instanceId: string)
    ensures !Offered(offers, ref) ==> AllFrom(offers, ref, instanceId)
  {
  }

  lemma OfferKeepsExact(offers: seq<Binding>, c: Catalog, o: Binding)
    requires Exact(offers, c)
    ensures Exact(offers + [o], Offer(c, o))
  {
    forall ref ensures ExactAt(offers + [o], Offer(c, o), ref) {
      assert ExactAt(offers, c, ref);
      OneMoreOffer(offers, o, ref);
      NotOffered(offers, ref, o.instanceId);
      if ref == o.ref && ref in c.bindings {
        FromBound(offers, c.bindings[ref], o.instanceId);
      }
      hide Offered, OneInstance, AllFrom;
    }
  }

  /** An action is bound exactly when somebody offers it and all who do are one instance. */
  lemma {:induction false} BindAllIsExact(offers: seq<Binding>)
    ensures Exact(offers, BindAll(EMPTY, offers))
    decreases |offers|
  {
    if offers != [] {
      var n := |offers| - 1;
      BindAllIsExact(offers[..n]);
      OfferKeepsExact(offers[..n], BindAll(EMPTY, offers[..n]), offers[n]);
      assert offers == offers[..n] + [offers[n]];
    }
  }

  /** Only which offers there are decides, not their order: the same actions are bound, each to the
      same instance, and to the same binding where an instance offers an action in one way only. */
  lemma OfferOrderDoesNotMatter(offers: seq<Binding>, other: seq<Binding>)
    requires forall o :: o in offers <==> o in other
    ensures var c, d := BindAll(EMPTY, offers), BindAll(EMPTY, other);
      && c.bindings.Keys == d.bindings.Keys && c.ambiguous == d.ambiguous
      && (forall ref <- c.bindings :: c.bindings[ref].instanceId == d.bindings[ref].instanceId)
      && (OneWay(offers) ==> c == d)
  {
    var c, d := BindAll(EMPTY, offers), BindAll(EMPTY, other);
    BindAllIsExact(offers);
    BindAllIsExact(other);
    hide BindAll;
    forall ref
      ensures (ref in c.bindings <==> ref in d.bindings) && (ref in c.ambiguous <==> ref in d.ambiguous)
      ensures ref in c.bindings ==> c.bindings[ref] in offers && d.bindings[ref] in offers
      ensures ref in c.bindings ==> c.bindings[ref].instanceId == d.bindings[ref].instanceId
      ensures ref in c.bindings ==> c.bindings[ref].ref == ref && d.bindings[ref].ref == ref
    {
      assert ExactAt(offers, c, ref) && ExactAt(other, d, ref);
    }
  }

  /** An instance offers an action in one way only. */
  predicate OneWay(offers: seq<Binding>) {
    forall o <- offers, p <- offers :: o.ref == p.ref && o.instanceId == p.instanceId ==> o == p
  }

  // ---------- the roles ----------

  lemma {:induction false} OffersAreTheRoles(items: seq<Item>, roles: seq<string>, desired: map<string, Desired>)
    requires forall role <- roles :: role in desired
    ensures forall o :: o in Offers(items, roles, desired) <==>
      exists role <- roles :: o in RoleOffers(items, role, desired[role])
    decreases |roles|
  {
    if roles != [] {
      var n := |roles| - 1;
      OffersAreTheRoles(items, roles[..n], desired);
      assert roles == roles[..n] + [roles[n]];
      forall o ensures o in Offers(items, roles, desired) <==>
        exists role <- roles :: o in RoleOffers(items, role, desired[role])
      {
        assert o in RoleOffers(items, roles[n], desired[roles[n]]) ==> roles[n] in roles;
      }
    }
  }

  /** Heartbeats have their own instance IDs, and a manifest names each action once. */
  predicate ProperItems(items: seq<Item>) {
    && (forall i, j :: 0 <= i < j < |items| ==> items[i].id != items[j].id)
    && (forall item <- items, a <- item.actions, b <- item.actions :: a.ref == b.ref ==> a == b)
  }

  lemma OfferHasSource(items: seq<Item>, role: string, want: Desired, o: Binding) returns (i: nat, a: Action)
    requires o in RoleOffers(items, role, want)
    ensures i < |items| && a in items[i].actions && o == BindingOf(items[i], a)
  {
    i := Select(items, role, want).value;
    a :| a in items[i].actions && o == BindingOf(items[i], a);
  }

  lemma ProperItemsOfferOneWay(items: seq<Item>, roles: seq<string>, desired: map<string, Desired>)
    requires ProperItems(items) && forall role <- roles :: role in desired
    ensures OneWay(Offers(items, roles, desired))
  {
    var offers := Offers(items, roles, desired);
    OffersAreTheRoles(items, roles, desired);
    forall o, p | o in offers && p in offers && o.ref == p.ref && o.instanceId == p.instanceId ensures o == p {
      var r :| r in roles && o in RoleOffers(items, r, desired[r]);
      var q :| q in roles && p in RoleOffers(items, q, desired[q]);
      var i, a := OfferHasSource(items, r, desired[r], o);
      var j, b := OfferHasSource(items, q, desired[q], p);
      hide RoleOffers, Offers;
      assert items[i] in items && i == j;
    }
  }

  /** The bindings found do not depend on the order in which the roles are visited. */
  lemma RoleOrderDoesNotMatter(
    items: seq<Item>, roles: seq<string>, other: seq<string>, desired: map<string, Desired>)
    requires forall role <- roles :: role in desired
    requires forall role :: role in roles <==> role in other
    ensures var c, d := BindAll(EMPTY, Offers(items, roles, desired)), BindAll(EMPTY, Offers(items, other, desired));
      && c.bindings.Keys == d.bindings.Keys
      && (forall ref <- c.bindings :: c.bindings[ref].instanceId == d.bindings[ref].instanceId)
      && (ProperItems(items) ==> c == d)
      && (Ready(items, roles, desired) <==> Ready(items, other, desired))
  {
    OffersAreTheRoles(items, roles, desired);
    OffersAreTheRoles(items, other, desired);
    OfferOrderDoesNotMatter(Offers(items, roles, desired), Offers(items, other, desired));
    if ProperItems(items) {
      ProperItemsOfferOneWay(items, roles, desired);
    }
    assert |roles| > 0 ==> roles[0] in other;
    assert |other| > 0 ==> other[0] in roles;
    hide BindAll, Offers, RoleOffers, Complete, ProperItems;
  }

  /** The role has its instance, which declares the service tasks and those its actions name. */
  predicate Complete(items: seq<Item>, role: string, desired: Desired) {
    var i := Select(items, role, desired);
    && i.Some?
    && ServiceTasks(items[i.value]) && AllDeclared(items[i.value], items[i.value].actions)
  }

  /** What the ready status means: there are roles, each is complete, and no action is ambiguous. */
  predicate Ready(items: seq<Item>, roles: seq<string>, desired: map<string, Desired>)
    requires forall role <- roles :: role in desired
  {
    && roles != [] && AllComplete(items, roles, desired)
    && BindAll(EMPTY, Offers(items, roles, desired)).ambiguous == {}
  }

  /** When ready, every action of every role's instance is bound to that instance. */
  lemma ReadyBindsEveryAction(
    items: seq<Item>, roles: seq<string>, desired: map<string, Desired>, role: string)
    requires (forall r <- roles :: r in desired) && Ready(items, roles, desired) && role in roles
    ensures Select(items, role, desired[role]).Some?
    ensures var item := items[Select(items, role, desired[role]).value];
      forall a <- item.actions :: Settled(item, a, BindAll(EMPTY, Offers(items, roles, desired)))
  {
    var offers := Offers(items, roles, desired);
    var c := BindAll(EMPTY, offers);
    BindAllIsExact(offers);
    OffersAreTheRoles(items, roles, desired);
    hide BindAll, Offers;
    assert Complete(items, role, desired[role]);
    var item := items[Select(items, role, desired[role]).value];
    forall a | a in item.actions ensures Settled(item, a, c) {
      var o := BindingOf(item, a);
      assert o in RoleOffers(items, role, desired[role]) && o in offers;
      assert ExactAt(offers, c, a.ref) && Offered(offers, a.ref);
    }
  }

  /** An action of the instance is declared and bound to it. */
  predicate Settled(item: Item, a: Action, c: Catalog) {
    a.task in item.tasks && a.ref in c.bindings && c.bindings[a.ref].instanceId == item.id
  }

  // ---------- the refresh loop ----------

  lemma ItemOffersNext(item: Item, actions: seq<Action>, k: nat)
    requires k < |actions|
    ensures ItemOffers(item, actions[..k + 1]) ==
      ItemOffers(item, actions[..k]) + if actions[k].task in item.tasks then [BindingOf(item, actions[k])] else []
  {
    assert actions[..k + 1][..k] == actions[..k];
  }

  lemma BindOne(c: Catalog, offers: seq<Binding>, o: Binding)
    ensures BindAll(c, offers + [o]) == Offer(BindAll(c, offers), o)
  {
    assert (offers + [o])[..|offers|] == offers;
  }

  lemma {:induction false} BindConcat(c: Catalog, first: seq<Binding>, second: seq<Binding>)
    ensures BindAll(c, first + second) == BindAll(BindAll(c, first), second)
    decreases |second|
  {
    if second == [] {
      assert first + second == first;
    } else {
      var n := |second| - 1;
      BindConcat(c, first, second[..n]);
      assert first + second == (first + second[..n]) + [second[n]];
      BindOne(c, first + second[..n], second[n]);
    }
  }

  /** One action of the selected instance. */
  method BindAction(item: Item, a: Action, c: Catalog) returns (d: Catalog, ok: bool)
    requires c.ambiguous !! c.bindings.Keys
    ensures d == if a.task in item.tasks then Offer(c, BindingOf(item, a)) else c
    ensures ok <==> a.task in item.tasks && a.ref !in d.ambiguous
    ensures d.ambiguous !! d.bindings.Keys && c.ambiguous <= d.ambiguous <= c.ambiguous + {a.ref}
    ensures ok ==> d.ambiguous == c.ambiguous
  {
    if a.task !in item.tasks {
      return c, false;
    }
    var b := BindingOf(item, a);
    var bindings, ambiguous := c.bindings, c.ambiguous;
    if a.ref in bindings && bindings[a.ref].instanceId != b.instanceId {
      ambiguous := ambiguous + {a.ref};
      bindings := bindings - {a.ref};
    }
    if a.ref in ambiguous {
      assert bindings == c.bindings - {a.ref};
      return Catalog(bindings, ambiguous), false;
    }
    return Catalog(bindings[a.ref := b], ambiguous), true;
  }

  /** One selected instance: bind its actions, and say whether all went well. */
  method BindItem(item: Item, c: Catalog) returns (d: Catalog, complete: bool)
    requires c.ambiguous !! c.bindings.Keys
    ensures d == BindAll(c, ItemOffers(item, item.actions))
    ensures d.ambiguous !! d.bindings.Keys && c.ambiguous <= d.ambiguous
    ensures complete ==> d.ambiguous == c.ambiguous && ServiceTasks(item) && AllDeclared(item, item.actions)
    ensures ServiceTasks(item) && AllDeclared(item, item.actions) && d.ambiguous == {} ==> complete
  {
    complete := "GetExecution" in item.tasks && "StopExecution" in item.tasks;
    assert complete == ServiceTasks(item);
    d := c;
    assert d == BindAll(c, ItemOffers(item, item.actions[..0]));
    hide BindAll, ItemOffers, Offer, ServiceTasks;
    for k := 0 to |item.actions|
      invariant d == BindAll(c, ItemOffers(item, item.actions[..k]))
      invariant d.ambiguous !! d.bindings.Keys && c.ambiguous <= d.ambiguous
      invariant complete ==> ServiceTasks(item) && d.ambiguous == c.ambiguous && AllDeclared(item, item.actions[..k])
      invariant ServiceTasks(item) && AllDeclared(item, item.actions[..k]) && d.ambiguous == {} ==> complete
    {
      var a := item.actions[k];
      ItemOffersNext(item, item.actions, k);
      BindOne(c, ItemOffers(item, item.actions[..k]), BindingOf(item, a));
      assert item.actions[..k + 1] == item.actions[..k] + [a];
      var ok;
      d, ok := BindAction(item, a, d);
      complete := complete && ok;
    }
    assert item.actions[..|item.actions|] == item.actions;
  }

  predicate AllDeclared(item: Item, actions: seq<Action>) {
    forall a <- actions :: a.task in item.tasks
  }

  /** One role: select its instance, if there is one, and bind its actions. */
  method BindRole(items: seq<Item>, role: string, want: Desired, c: Catalog) returns (d: Catalog, complete: bool)
    requires c.ambiguous !! c.bindings.Keys
    ensures d == BindAll(c, RoleOffers(items, role, want))
    ensures d.ambiguous !! d.bindings.Keys && c.ambiguous <= d.ambiguous
    ensures complete ==> d.ambiguous == c.ambiguous && Complete(items, role, want)
    ensures Complete(items, role, want) && d.ambiguous == {} ==> complete
  {
    var selected := SelectInstance(items, role, want);
    hide BindAll, ItemOffers, Select;
    if selected < 0 {
      NoOffers(c);
      return c, false;
    }
    d, complete := BindItem(items[selected], c);
  }

  lemma OffersNext(items: seq<Item>, roles: seq<string>, desired: map<string, Desired>, n: nat)
    requires n < |roles| && forall role <- roles :: role in desired
    ensures Offers(items, roles[..n + 1], desired) ==
            Offers(items, roles[..n], desired) + RoleOffers(items, roles[n], desired[roles[n]])
    ensures AllComplete(items, roles[..n + 1], desired) <==>
            AllComplete(items, roles[..n], desired) && Complete(items, roles[n], desired[roles[n]])
  {
    var shorter, longer := roles[..n], roles[..n + 1];
    assert longer[..n] == shorter && longer == shorter + [roles[n]];
    assert forall role :: role in longer <==> role in shorter || role == roles[n];
    hide Complete, RoleOffers;
  }

  /** The binding part of a refresh: which actions are bound, and whether the robot is ready. */
  method BindRoles(items: seq<Item>, roles: seq<string>, desired: map<string, Desired>)
    returns (c: Catalog, ready: bool)
    requires forall role <- roles :: role in desired
    ensures c == BindAll(EMPTY, Offers(items, roles, desired))
    ensures ready <==> Ready(items, roles, desired)
  {
    c := EMPTY;
    var readyRoles := 0;
    for n := 0 to |roles|
      invariant c == BindAll(EMPTY, Offers(items, roles[..n], desired)) && c.ambiguous !! c.bindings.Keys
      invariant 0 <= readyRoles <= n
      invariant readyRoles == n <==> c.ambiguous == {} && AllComplete(items, roles[..n], desired)
    {
      OffersNext(items, roles, desired, n);
      BindConcat(EMPTY, Offers(items, roles[..n], desired), RoleOffers(items, roles[n], desired[roles[n]]));
      hide BindAll, Offers, RoleOffers, Complete, AllComplete;
      var complete;
      c, complete := BindRole(items, roles[n], desired[roles[n]], c);
      if complete {
        readyRoles := readyRoles + 1;
      }
    }
    assert roles[..|roles|] == roles;
    ready := |roles| > 0 && readyRoles == |roles|;
  }

  lemma NoOffers(c: Catalog)
    ensures BindAll(c, []) == c
  {
  }

  predicate AllComplete(items: seq<Item>, roles: seq<string>, desired: map<string, Desired>)
    requires forall role <- roles :: role in desired
  {
    forall role <- roles :: Complete(items, role, desired[role])
  }

  predicate ServiceTasks(item: Item) {
    "GetExecution" in item.tasks && "StopExecution" in item.tasks
  }
}
