/** Choosing a whole set of installed components for a robot: which selections are accepted and what
    they bind, whatever order the components are named in. */
module BindingSelection {
  import opened Common
  import PackageSet

  datatype Ability = Ability(role: string, abilityName: string, template: string, backends: seq<string>)

  datatype Compatibility = Compatibility(role: string, abilityName: string, backend: string, profiles: seq<string>)

  datatype Kind = RobotAbility | Model | Other

  datatype Component = Component(
    kind: Kind, models: seq<string>, abilities: seq<Ability>, compatibility: Option<Compatibility>)

  type Receipts = map<string, Component>

  datatype BoundAbility = BoundAbility(componentId: string, ability: Ability)

  datatype Choice = Choice(abilities: map<string, BoundAbility>, model: Option<string>)

  /** An installed component: its ID is a digest and has a receipt. */
  predicate Installed(r: Receipts, id: string) {
    |id| == 64 && PackageSet.ComponentSegment(id) && id in r
  }

  function Offers(c: Component): seq<Ability> {
    if c.kind.RobotAbility? then c.abilities else []
  }

  predicate IsModel(r: Receipts, ids: seq<string>, id: string) {
    id in ids && id in r && r[id].kind.Model?
  }

  /** The component takes part in a selection for this robot model. */
  predicate Fits(r: Receipts, id: string, model: string) {
    && Installed(r, id) && model in r[id].models
    && (r[id].kind.RobotAbility? || (r[id].kind.Model? && r[id].compatibility.Some?))
  }

  predicate NoRepeats(ids: seq<string>) {
    forall i, j :: 0 <= i < j < |ids| ==> ids[i] != ids[j]
  }

  predicate DistinctRoles(abilities: seq<Ability>) {
    forall i, j :: 0 <= i < j < |abilities| ==> abilities[i].role != abilities[j].role
  }

  predicate Offered(r: Receipts, ids: seq<string>, id: string, a: Ability) {
    id in ids && id in r && a in Offers(r[id])
  }

  /** Each role has one implementation, within a component and across them. */
  predicate RolesUnique(r: Receipts, ids: seq<string>) {
    && (forall id <- ids :: id in r ==> DistinctRoles(Offers(r[id])))
    && (forall x <- ids, y <- ids :: x in r && y in r ==>
          forall a <- Offers(r[x]), b <- Offers(r[y]) :: a.role == b.role ==> x == y)
  }

  predicate OneModel(r: Receipts, ids: seq<string>) {
    forall x <- ids, y <- ids :: IsModel(r, ids, x) && IsModel(r, ids, y) ==> x == y
  }

  predicate Listable(r: Receipts, ids: seq<string>, model: string) {
    NoRepeats(ids) && (forall id <- ids :: Fits(r, id, model)) && RolesUnique(r, ids) && OneModel(r, ids)
  }

  predicate Serves(a: Ability, c: Compatibility) {
    a.role == c.role && a.abilityName == c.abilityName && c.backend in a.backends
  }

  /** A chosen model finds its role, ability name and backend among the offers, and its profile. */
  predicate ModelServed(r: Receipts, ids: seq<string>, profile: string) {
    forall m <- ids :: IsModel(r, ids, m) && r[m].compatibility.Some? ==>
      && profile != "" && profile in r[m].compatibility.value.profiles
      && exists id <- ids :: id in r && exists a <- Offers(r[id]) :: Serves(a, r[m].compatibility.value)
  }

  /** Every ability that needs a model backend has a chosen model for its role. */
  predicate BackendsServed(r: Receipts, ids: seq<string>) {
    forall id <- ids :: id in r ==> forall a <- Offers(r[id]) :: a.backends != [] ==>
      exists m <- ids :: IsModel(r, ids, m) && r[m].compatibility.Some? && r[m].compatibility.value.role == a.role
  }

  /** Which selections are accepted; nothing here depends on the order of the IDs. */
  predicate Selectable(r: Receipts, ids: seq<string>, robotId: string, model: string, profile: string) {
    && robotId != "" && model != "" && ids != []
    && Listable(r, ids, model) && ModelServed(r, ids, profile) && BackendsServed(r, ids)
  }

  /** What an accepted selection binds: each offered role to its offer, and the model. */
  ghost predicate Binds(r: Receipts, ids: seq<string>, c: Choice) {
    && (forall id, a :: Offered(r, ids, id, a) ==> a.role in c.abilities && c.abilities[a.role] == BoundAbility(id, a))
    && (forall role <- c.abilities ::
          Offered(r, ids, c.abilities[role].componentId, c.abilities[role].ability)
          && c.abilities[role].ability.role == role)
    && (forall id :: IsModel(r, ids, id) ==> c.model == Some(id))
    && (c.model.Some? ==> IsModel(r, ids, c.model.value))
  }

  // ---------- order independence ----------

  lemma SameElements(ids: seq<string>, other: seq<string>)
    requires multiset(ids) == multiset(other)
    ensures forall id :: id in ids <==> id in other
    ensures NoRepeats(ids) <==> NoRepeats(other)
  {
    forall id ensures id in ids <==> id in other {
      assert id in ids <==> id in multiset(ids);
      assert id in other <==> id in multiset(other);
    }
    RepeatsCount(ids);
    RepeatsCount(other);
  }

  lemma {:induction false} RepeatsCount(ids: seq<string>)
    ensures NoRepeats(ids) <==> forall id :: multiset(ids)[id] <= 1
    decreases |ids|
  {
    if ids == [] {
    } else {
      var rest, last := ids[..|ids| - 1], ids[|ids| - 1];
      RepeatsCount(rest);
      assert ids == rest + [last];
      assert multiset(ids) == multiset(rest) + multiset{last};
      assert last in rest <==> last in multiset(rest);
      if NoRepeats(ids) {
        assert last !in rest;
      } else if NoRepeats(rest) {
        assert last in rest;
        assert multiset(ids)[last] > 1;
      } else {
        var id :| multiset(rest)[id] > 1;
        assert multiset(ids)[id] > 1;
      }
    }
  }

  ghost predicate SameIds(ids: seq<string>, other: seq<string>) {
    forall id :: id in ids <==> id in other
  }

  lemma ListableAlike(r: Receipts, ids: seq<string>, other: seq<string>, model: string)
    requires SameIds(ids, other) && NoRepeats(other) && Listable(r, ids, model)
    ensures Listable(r, other, model)
  {
    forall id ensures IsModel(r, ids, id) <==> IsModel(r, other, id) {
    }
    hide NoRepeats, DistinctRoles, Fits, IsModel;
  }

  lemma ModelServedAlike(r: Receipts, ids: seq<string>, other: seq<string>, profile: string)
    requires SameIds(ids, other) && ModelServed(r, ids, profile)
    ensures ModelServed(r, other, profile)
  {
    hide Serves, Offers;
    forall m | m in other && IsModel(r, other, m) && r[m].compatibility.Some?
      ensures profile != "" && profile in r[m].compatibility.value.profiles
        && exists id <- other :: id in r && exists a <- Offers(r[id]) :: Serves(a, r[m].compatibility.value)
    {
      assert m in ids && IsModel(r, ids, m);
    }
  }

  lemma BackendsServedAlike(r: Receipts, ids: seq<string>, other: seq<string>)
    requires SameIds(ids, other) && BackendsServed(r, ids)
    ensures BackendsServed(r, other)
  {
    hide Offers;
    forall id, a | id in other && id in r && a in Offers(r[id]) && a.backends != []
      ensures exists m <- other ::
        IsModel(r, other, m) && r[m].compatibility.Some? && r[m].compatibility.value.role == a.role
    {
      assert id in ids;
      var m :| m in ids && IsModel(r, ids, m) && r[m].compatibility.Some? && r[m].compatibility.value.role == a.role;
      assert m in other && IsModel(r, other, m);
    }
  }

  lemma BoundAlike(r: Receipts, ids: seq<string>, other: seq<string>, c: Choice, d: Choice)
    requires SameIds(ids, other) && Binds(r, ids, c) && Binds(r, other, d)
    ensures c == d
  {
    forall id ensures IsModel(r, ids, id) <==> IsModel(r, other, id) {
    }
    forall id, a ensures Offered(r, ids, id, a) <==> Offered(r, other, id, a) {
    }
    hide SameIds, Offered, IsModel;
    assert forall role <- c.abilities :: role in d.abilities && d.abilities[role] == c.abilities[role];
    assert forall role <- d.abilities :: role in c.abilities;
    assert c.abilities == d.abilities;
  }

  /** Naming the same components in another order is accepted or refused alike and binds the same. */
  lemma OrderDoesNotMatter(
    r: Receipts, ids: seq<string>, other: seq<string>, robotId: string, model: string, profile: string,
    c: Choice, d: Choice)
    requires multiset(ids) == multiset(other)
    ensures Selectable(r, ids, robotId, model, profile) <==> Selectable(r, other, robotId, model, profile)
    ensures Binds(r, ids, c) && Binds(r, other, d) ==> c == d
  {
    SameElements(ids, other);
    assert |ids| == |multiset(ids)| == |multiset(other)| == |other|;
    assert SameIds(ids, other) && SameIds(other, ids);
    hide SameIds, Binds, RolesUnique, OneModel, Fits, ModelServed, BackendsServed;
    if Selectable(r, ids, robotId, model, profile) {
      SelectableAlike(r, ids, other, robotId, model, profile);
    }
    if Selectable(r, other, robotId, model, profile) {
      SelectableAlike(r, other, ids, robotId, model, profile);
    }
    if Binds(r, ids, c) && Binds(r, other, d) {
      BoundAlike(r, ids, other, c, d);
    }
  }

  lemma SelectableAlike(
    r: Receipts, ids: seq<string>, other: seq<string>, robotId: string, model: string, profile: string)
    requires SameIds(ids, other) && NoRepeats(other) && |ids| == |other|
    requires Selectable(r, ids, robotId, model, profile)
    ensures Selectable(r, other, robotId, model, profile)
  {
    hide Listable, ModelServed, BackendsServed, SameIds, NoRepeats;
    ListableAlike(r, ids, other, model);
    ModelServedAlike(r, ids, other, profile);
    BackendsServedAlike(r, ids, other);
  }

  // ---------- the selection loop ----------

  lemma PrefixIsListable(r: Receipts, ids: seq<string>, k: nat, model: string)
    requires k <= |ids| && Listable(r, ids, model)
    ensures Listable(r, ids[..k], model)
  {
    assert forall x :: x in ids[..k] ==> x in ids;
    assert forall x :: IsModel(r, ids[..k], x) ==> IsModel(r, ids, x);
    assert forall x <- ids[..k] :: Fits(r, x, model);
    assert forall i :: 0 <= i < k ==> ids[..k][i] == ids[i];
  }

  lemma OfferedWith(r: Receipts, before: seq<string>, id: string)
    ensures forall x, a :: Offered(r, before + [id], x, a) <==>
      Offered(r, before, x, a) || (x == id && id in r && a in Offers(r[id]))
    ensures forall x :: IsModel(r, before + [id], x) <==>
      IsModel(r, before, x) || (x == id && id in r && r[id].kind.Model?)
  {
  }

  /** The new component's roles are its own, and not bound yet. */
  predicate NewRoles(r: Receipts, id: string, c: Choice)
    requires id in r
  {
    DistinctRoles(Offers(r[id])) && forall a <- Offers(r[id]) :: a.role !in c.abilities
  }

  lemma UniqueRolesAreNew(r: Receipts, before: seq<string>, id: string, c: Choice)
    requires Binds(r, before, c) && id in r && id !in before && RolesUnique(r, before + [id])
    ensures NewRoles(r, id, c)
  {
    var longer := before + [id];
    assert id in longer && forall role <- c.abilities ::
      Offered(r, before, c.abilities[role].componentId, c.abilities[role].ability)
      && c.abilities[role].componentId in longer;
  }

  lemma NewRolesStayUnique(r: Receipts, before: seq<string>, id: string, c: Choice)
    requires RolesUnique(r, before) && Binds(r, before, c) && id in r && id !in before && NewRoles(r, id, c)
    ensures RolesUnique(r, before + [id])
  {
    assert forall x :: x in before + [id] <==> x in before || x == id;
    hide DistinctRoles, Offers;
    forall x, a | x in before && x in r && a in Offers(r[x]) ensures a.role in c.abilities {
      assert Offered(r, before, x, a);
    }
  }

  lemma RolesStayUnique(r: Receipts, before: seq<string>, id: string, c: Choice)
    requires RolesUnique(r, before) && Binds(r, before, c) && id in r && id !in before
    ensures RolesUnique(r, before + [id]) <==>
      DistinctRoles(Offers(r[id])) && forall a <- Offers(r[id]) :: a.role !in c.abilities
  {
    hide RolesUnique, Binds, DistinctRoles, Offers;
    if RolesUnique(r, before + [id]) {
      UniqueRolesAreNew(r, before, id, c);
    }
    if NewRoles(r, id, c) {
      NewRolesStayUnique(r, before, id, c);
    }
  }

  lemma ModelStaysOne(r: Receipts, before: seq<string>, id: string, c: Choice)
    requires OneModel(r, before) && Binds(r, before, c) && id in r && id !in before
    ensures OneModel(r, before + [id]) <==> (r[id].kind.Model? ==> c.model.None?)
  {
    OfferedWith(r, before, id);
    if r[id].kind.Model? && c.model.Some? {
      assert IsModel(r, before + [id], id) && IsModel(r, before + [id], c.model.value);
    }
  }

  /** Adding one component to a list that can be chosen from. */
  lemma ListableSoFar(r: Receipts, ids: seq<string>, k: nat, model: string, c: Choice)
    requires k < |ids| && Listable(r, ids[..k], model) && Binds(r, ids[..k], c)
    ensures Listable(r, ids, model) ==> Listable(r, ids[..k + 1], model)
    ensures var id := ids[k];
      Listable(r, ids[..k + 1], model) <==>
        && id !in ids[..k] && Fits(r, id, model) && DistinctRoles(Offers(r[id]))
        && (forall a <- Offers(r[id]) :: a.role !in c.abilities)
        && (r[id].kind.Model? ==> c.model.None?)
  {
    var shorter, longer, id := ids[..k], ids[..k + 1], ids[k];
    if Listable(r, ids, model) {
      PrefixIsListable(r, ids, k + 1, model);
    }
    assert longer == shorter + [id];
    assert forall x :: x in longer <==> x in shorter || x == id;
    assert NoRepeats(longer) <==> id !in shorter;
    assert (forall x <- longer :: Fits(r, x, model)) <==> Fits(r, id, model);
    if id !in shorter && Fits(r, id, model) {
      RolesStayUnique(r, shorter, id, c);
      ModelStaysOne(r, shorter, id, c);
    }
    hide RolesUnique, OneModel, Fits, Binds, NoRepeats, DistinctRoles;
  }

  method SelectComponents(r: Receipts, ids: seq<string>, robotId: string, model: string, profile: string)
    returns (c: Option<Choice>)
    ensures c.Some? <==> Selectable(r, ids, robotId, model, profile)
    ensures c.Some? ==> Binds(r, ids, c.value)
  {
    if robotId == "" || model == "" || |ids| == 0 {
      return None;
    }
    var choice := Choice(map[], None);
    for k := 0 to |ids|
      invariant Listable(r, ids[..k], model) && Binds(r, ids[..k], choice)
    {
      ListableSoFar(r, ids, k, model, choice);
      var next := AddComponent(r, ids[..k], ids[k], model, choice);
      if next.None? {
        return None;
      }
      assert ids[..k + 1] == ids[..k] + [ids[k]];
      choice := next.value;
    }
    assert ids[..|ids|] == ids;
    var served := CheckServed(r, ids, profile, choice);
    return if served then Some(choice) else None;
  }

  /** One turn of the loop: the component is rejected, or joins the choice. */
  method AddComponent(r: Receipts, before: seq<string>, id: string, model: string, choice: Choice)
    returns (next: Option<Choice>)
    requires Binds(r, before, choice)
    ensures next.Some? <==>
      && id !in before && Fits(r, id, model) && DistinctRoles(Offers(r[id]))
      && (forall a <- Offers(r[id]) :: a.role !in choice.abilities)
      && (r[id].kind.Model? ==> choice.model.None?)
    ensures next.Some? ==> Binds(r, before + [id], next.value)
  {
    if id in before || |id| != 64 || !PackageSet.ComponentSegment(id) || id !in r || model !in r[id].models {
      return None;
    }
    var item := r[id];
    match item.kind
    case RobotAbility =>
      OfferedWith(r, before, id);
      var abilities := AddAbilities(choice.abilities, id, item.abilities);
      return if abilities.Some? then Some(choice.(abilities := abilities.value)) else None;
    case Model =>
      if choice.model.Some? || item.compatibility.None? {
        return None;
      }
      OfferedWith(r, before, id);
      return Some(choice.(model := Some(id)));
    case Other => return None;
  }

  method AddAbilities(taken: map<string, BoundAbility>, id: string, abilities: seq<Ability>)
    returns (bound: Option<map<string, BoundAbility>>)
    ensures bound.Some? <==> DistinctRoles(abilities) && forall a <- abilities :: a.role !in taken
    ensures bound.Some? ==> bound.value.Keys == taken.Keys + set a <- abilities :: a.role
    ensures bound.Some? ==> forall role <- taken :: bound.value[role] == taken[role]
    ensures bound.Some? ==> forall a <- abilities :: a.role in bound.value && bound.value[a.role] == BoundAbility(id, a)
  {
    var all := taken;
    for m := 0 to |abilities|
      invariant DistinctRoles(abilities[..m]) && forall a <- abilities[..m] :: a.role !in taken
      invariant all.Keys == taken.Keys + set a <- abilities[..m] :: a.role
      invariant forall role <- taken :: all[role] == taken[role]
      invariant forall a <- abilities[..m] :: all[a.role] == BoundAbility(id, a)
    {
      var a := abilities[m];
      assert abilities[..m + 1] == abilities[..m] + [a];
      if a.role in all {
        assert a in abilities;
        return None;
      }
      all := all[a.role := BoundAbility(id, a)];
    }
    assert abilities[..|abilities|] == abilities;
    return Some(all);
  }

  /** The two order-free conditions, read off the choice. */
  lemma ServedByChoice(r: Receipts, ids: seq<string>, profile: string, c: Choice)
    requires Binds(r, ids, c) && (c.model.Some? ==> r[c.model.value].compatibility.Some?)
    ensures ModelServed(r, ids, profile) <==>
      (c.model.Some? ==>
         var want := r[c.model.value].compatibility.value;
         && want.role in c.abilities && Serves(c.abilities[want.role].ability, want)
         && profile != "" && profile in want.profiles)
    ensures BackendsServed(r, ids) <==> forall role <- c.abilities :: NeedsNoOther(r, c, role)
  {
    if c.model.Some? {
      var want := r[c.model.value].compatibility.value;
      if want.role in c.abilities {
        var b := c.abilities[want.role];
        assert Offered(r, ids, b.componentId, b.ability);
      }
      forall id, a | Offered(r, ids, id, a) && Serves(a, want)
        ensures want.role in c.abilities && c.abilities[want.role].ability == a
      {
      }
      if exists id <- ids :: id in r && exists a <- Offers(r[id]) :: Serves(a, want) {
        var id :| id in ids && id in r && exists a <- Offers(r[id]) :: Serves(a, want);
        var a :| a in Offers(r[id]) && Serves(a, want);
        assert Offered(r, ids, id, a);
      }
    }
    BackendsByChoice(r, ids, c);
  }

  lemma BackendsByChoice(r: Receipts, ids: seq<string>, c: Choice)
    requires Binds(r, ids, c) && (c.model.Some? ==> r[c.model.value].compatibility.Some?)
    ensures BackendsServed(r, ids) <==> forall role <- c.abilities :: NeedsNoOther(r, c, role)
  {
    if BackendsServed(r, ids) {
      forall role | role in c.abilities ensures NeedsNoOther(r, c, role) {
        var b := c.abilities[role];
        assert Offered(r, ids, b.componentId, b.ability);
      }
    }
    if forall role <- c.abilities :: NeedsNoOther(r, c, role) {
      forall id, a | id in ids && id in r && a in Offers(r[id]) && a.backends != []
        ensures exists m <- ids ::
          IsModel(r, ids, m) && r[m].compatibility.Some? && r[m].compatibility.value.role == a.role
      {
        assert Offered(r, ids, id, a) && NeedsNoOther(r, c, a.role);
        assert c.model.value in ids;
      }
    }
  }

  /** The checks after the loop, on the choice made. */
  method CheckServed(r: Receipts, ids: seq<string>, profile: string, c: Choice) returns (ok: bool)
    requires Binds(r, ids, c) && (c.model.Some? ==> r[c.model.value].compatibility.Some?)
    ensures ok <==> ModelServed(r, ids, profile) && BackendsServed(r, ids)
  {
    ServedByChoice(r, ids, profile, c);
    assert forall role <- c.abilities :: c.abilities[role].ability.role == role;
    hide ModelServed, BackendsServed, NeedsNoOther, Binds;
    if c.model.Some? {
      var want := r[c.model.value].compatibility.value;
      if want.role !in c.abilities || c.abilities[want.role].ability.abilityName != want.abilityName
        || want.backend !in c.abilities[want.role].ability.backends {
        return false;
      }
      if profile == "" || profile !in want.profiles {
        return false;
      }
    }
    ok := CheckBackends(r, c);
  }

  method CheckBackends(r: Receipts, c: Choice) returns (ok: bool)
    requires c.model.Some? ==> c.model.value in r && r[c.model.value].compatibility.Some?
    ensures ok <==> forall role <- c.abilities :: NeedsNoOther(r, c, role)
  {
    var todo := c.abilities.Keys;
    while todo != {}
      invariant todo <= c.abilities.Keys
      invariant forall role <- c.abilities.Keys - todo :: NeedsNoOther(r, c, role)
      decreases todo
    {
      var role :| role in todo;
      if |c.abilities[role].ability.backends| > 0
        && (c.model.None? || r[c.model.value].compatibility.value.role != role) {
        assert role in c.abilities && !NeedsNoOther(r, c, role);
        return false;
      }
      todo := todo - {role};
    }
    return true;
  }

  predicate NeedsNoOther(r: Receipts, c: Choice, role: string) {
    role in c.abilities && c.abilities[role].ability.backends != [] ==>
      && c.model.Some? && c.model.value in r && r[c.model.value].compatibility.Some?
      && r[c.model.value].compatibility.value.role == role
  }
}
