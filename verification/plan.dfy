/** The frozen execution plan and the matrix of calls that the budget components demand. */
module ExecutionPlan {
  import opened Budget
  import opened Options
  import opened Campaign
  import opened Counting

  datatype Slot = Slot(
    slotId: Id,
    componentId: Id,
    unitId: Id,
    caseId: Id,
    replicateIndex: int,
    retryIndex: int,
    modelId: Id,
    purpose: Id,
    route: Id,
    routeAuthorityId: Id,
    systemPromptSha: string,
    userPayloadSha: string,
    seed: Option<int>)

  datatype PlanFailure = SlotsEmpty | IndexInvalid | SeedInvalid | SlotIdsRepeat | RetrySlotsRepeat

  predicate IndexValid(index: int) {
    0 <= index <= MAX_BUDGET_VALUE
  }

  predicate SeedValid(seed: Option<int>) {
    seed.Some? ==> -MAX_BUDGET_VALUE <= seed.value <= MAX_BUDGET_VALUE
  }

  predicate SlotShapeValid(slot: Slot) {
    IndexValid(slot.replicateIndex) && IndexValid(slot.retryIndex) && SeedValid(slot.seed)
  }

  function SlotIds(slots: seq<Slot>): seq<Id> {
    seq(|slots|, i requires 0 <= i < |slots| => slots[i].slotId)
  }

  function SlotKeys(slots: seq<Slot>): seq<(Id, Id, int)> {
    seq(|slots|, i requires 0 <= i < |slots| =>
      (slots[i].componentId, slots[i].unitId, slots[i].retryIndex))
  }

  ghost predicate PlanValid(slots: seq<Slot>) {
    && slots != []
    && (forall slot :: slot in slots ==> SlotShapeValid(slot))
    && NoDuplicates(SlotIds(slots))
    && NoDuplicates(SlotKeys(slots))
  }

  /** The plan validator: it finds no failure exactly on the valid plans. */
  method ValidateExecutionPlan(slots: seq<Slot>) returns (failures: seq<PlanFailure>)
    ensures failures == [] <==> PlanValid(slots)
  {
    failures := [];
    if slots == [] {
      failures := failures + [SlotsEmpty];
    }
    var slotIds: seq<Id>, slotKeys: seq<(Id, Id, int)> := [], [];
    for n := 0 to |slots|
      invariant slotIds == SlotIds(slots[..n]) && slotKeys == SlotKeys(slots[..n])
      invariant slots == [] ==> failures != []
      invariant slots != [] ==>
        (failures == [] <==> forall i :: 0 <= i < n ==> SlotShapeValid(slots[i]))
    {
      var slot := slots[n];
      assert slots[..n + 1] == slots[..n] + [slot];
      if !IndexValid(slot.replicateIndex) || !IndexValid(slot.retryIndex) {
        failures := failures + [IndexInvalid];
      }
      if !SeedValid(slot.seed) {
        failures := failures + [SeedInvalid];
      }
      slotIds := slotIds + [slot.slotId];
      slotKeys := slotKeys + [(slot.componentId, slot.unitId, slot.retryIndex)];
    }
    assert slots[..|slots|] == slots;
    SetSizeTellsDuplicates(slotIds);
    SetSizeTellsDuplicates(slotKeys);
    if |slotIds| != |set id | id in slotIds| {
      failures := failures + [SlotIdsRepeat];
    }
    if |slotKeys| != |set key | key in slotKeys| {
      failures := failures + [RetrySlotsRepeat];
    }
  }

  // Lookup tables, filled by assignment in list order.

  function SlotTable(slots: seq<Slot>): map<Id, Slot> {
    if slots == [] then map[]
    else
      var last := slots[|slots| - 1];
      SlotTable(slots[..|slots| - 1])[last.slotId := last]
  }

  lemma {:induction false} SlotTableHoldsPlan(slots: seq<Slot>)
    requires NoDuplicates(SlotIds(slots))
    ensures forall slot :: slot in slots ==>
      slot.slotId in SlotTable(slots) && SlotTable(slots)[slot.slotId] == slot
    ensures forall id :: id in SlotTable(slots) ==>
      SlotTable(slots)[id] in slots && SlotTable(slots)[id].slotId == id
  {
    if slots != [] {
      var init, last := slots[..|slots| - 1], slots[|slots| - 1];
      assert SlotIds(init) == SlotIds(slots)[..|slots| - 1];
      SlotTableHoldsPlan(init);
      forall slot | slot in slots
        ensures slot.slotId in SlotTable(slots) && SlotTable(slots)[slot.slotId] == slot
      {
        var i :| 0 <= i < |slots| && slots[i] == slot;
        assert SlotIds(slots)[i] == slot.slotId && SlotIds(slots)[|slots| - 1] == last.slotId;
        assert slot == last || slot in init;
      }
    }
  }

  // The exact call matrix.

  datatype Binding = Binding(
    caseId: Id,
    replicateIndex: int,
    modelId: Id,
    purpose: Id,
    route: Id,
    routeAuthorityId: Id,
    systemPromptSha: string,
    userPayloadSha: string,
    seed: Option<int>)

  /** Everything about a slot that must not change between the retries of one unit. */
  function BindingOf(slot: Slot): Binding {
    Binding(slot.caseId, slot.replicateIndex, slot.modelId, slot.purpose, slot.route,
            slot.routeAuthorityId, slot.systemPromptSha, slot.userPayloadSha, slot.seed)
  }

  datatype Route = Route(route: Id, authorityId: Id)

  datatype Model = Model(provider: Id, snapshot: Id, allowedSeeds: seq<Option<int>>)

  /** What the campaign authorizes: components, models and case routes, each by id. */
  datatype Authority = Authority(
    components: map<Id, Component>,
    models: map<Id, Model>,
    caseRoutes: map<Id, Route>)

  predicate SlotAuthorized(authority: Authority, slot: Slot) {
    && slot.componentId in authority.components
    && var component := authority.components[slot.componentId];
    && slot.modelId in component.modelIds
    && slot.purpose in component.purposes
    && slot.retryIndex < component.attemptsPerUnit
    && slot.caseId in authority.caseRoutes
    && authority.caseRoutes[slot.caseId] == Route(slot.route, slot.routeAuthorityId)
    && slot.modelId in authority.models
    && slot.seed in authority.models[slot.modelId].allowedSeeds
  }

  function UnitsOf(slots: seq<Slot>, componentId: Id): set<Id> {
    set slot | slot in slots && slot.componentId == componentId :: slot.unitId
  }

  function RetriesOf(slots: seq<Slot>, componentId: Id, unitId: Id): set<int> {
    set slot | slot in slots && slot.componentId == componentId && slot.unitId == unitId
      :: slot.retryIndex
  }

  predicate SameUnit(a: Slot, b: Slot) {
    a.componentId == b.componentId && a.unitId == b.unitId
  }

  /** Every unit of a component carries every retry index once. */
  ghost predicate CoversComponent(slots: seq<Slot>, component: Component, componentId: Id) {
    && |UnitsOf(slots, componentId)| == component.unitCount
    && (forall unitId :: unitId in UnitsOf(slots, componentId) ==>
          forall retry: int :: retry in RetriesOf(slots, componentId, unitId)
            <==> 0 <= retry < component.attemptsPerUnit)
  }

  /** Units of one component are in one-to-one correspondence with case and replicate pairs. */
  ghost predicate OneUnitPerReplicate(slots: seq<Slot>, componentId: Id) {
    forall a, b ::
      a in slots && b in slots && a.componentId == b.componentId == componentId
      && a.caseId == b.caseId && a.replicateIndex == b.replicateIndex
      ==> a.unitId == b.unitId
  }

  ghost predicate ComponentCovered(authority: Authority, slots: seq<Slot>, id: Id)
    requires id in authority.components
  {
    CoversComponent(slots, authority.components[id], id) && OneUnitPerReplicate(slots, id)
  }

  ghost predicate UnitsBound(slots: seq<Slot>) {
    forall a, b :: a in slots && b in slots && SameUnit(a, b) ==> BindingOf(a) == BindingOf(b)
  }

  ghost predicate ExactCallMatrix(authority: Authority, slots: seq<Slot>) {
    && (forall slot :: slot in slots ==> SlotAuthorized(authority, slot))
    && UnitsBound(slots)
    && (forall id {:trigger ComponentCovered(authority, slots, id)} ::
          id in authority.components ==> ComponentCovered(authority, slots, id))
  }

  function BoundUnits(bindings: map<(Id, Id), Binding>, componentId: Id): set<(Id, Id)> {
    set key | key in bindings && key.0 == componentId
  }

  function ReplicateOf(bindings: map<(Id, Id), Binding>, key: (Id, Id)): (Id, int) {
    if key in bindings then (bindings[key].caseId, bindings[key].replicateIndex) else ("", 0)
  }

  function ReplicatesOf(bindings: map<(Id, Id), Binding>, componentId: Id): set<(Id, int)> {
    set key | key in BoundUnits(bindings, componentId) :: ReplicateOf(bindings, key)
  }

  /** `units` and `bindings` are the dictionaries the matrix check has filled from `slots`. */
  ghost predicate Indexed(
    authority: Authority, slots: seq<Slot>,
    units: map<Id, map<Id, set<int>>>, bindings: map<(Id, Id), Binding>)
  {
    && units.Keys == authority.components.Keys
    && (forall id :: id in units ==> IndexedUnits(slots, units[id], id))
    && IndexedBindings(slots, bindings)
  }

  ghost predicate IndexedUnits(slots: seq<Slot>, retries: map<Id, set<int>>, id: Id) {
    && retries.Keys == UnitsOf(slots, id)
    && forall unitId :: unitId in retries ==> retries[unitId] == RetriesOf(slots, id, unitId)
  }

  ghost predicate IndexedBindings(slots: seq<Slot>, bindings: map<(Id, Id), Binding>) {
    && (forall slot :: slot in slots ==>
          && (slot.componentId, slot.unitId) in bindings
          && bindings[(slot.componentId, slot.unitId)] == BindingOf(slot))
    && (forall key :: key in bindings ==> key.1 in UnitsOf(slots, key.0))
  }

  lemma BoundUnitsMatchUnits(
    authority: Authority, slots: seq<Slot>,
    units: map<Id, map<Id, set<int>>>, bindings: map<(Id, Id), Binding>, componentId: Id)
    requires Indexed(authority, slots, units, bindings) && componentId in units
    ensures |BoundUnits(bindings, componentId)| == |units[componentId]|
  {
    var keys, unitIds := BoundUnits(bindings, componentId), units[componentId].Keys;
    forall unitId | unitId in unitIds ensures (componentId, unitId) in keys {
      var slot :| slot in slots && slot.componentId == componentId && slot.unitId == unitId;
    }
    assert unitIds == set key | key in keys :: key.1;
    ImageSizeTellsInjective(keys, unitIds, (key: (Id, Id)) => key.1);
  }

  lemma ReplicatesInjective(
    authority: Authority, slots: seq<Slot>,
    units: map<Id, map<Id, set<int>>>, bindings: map<(Id, Id), Binding>, componentId: Id)
    requires Indexed(authority, slots, units, bindings) && componentId in units
    ensures InjectiveOn(BoundUnits(bindings, componentId), (key: (Id, Id)) => ReplicateOf(bindings, key))
      <==> OneUnitPerReplicate(slots, componentId)
  {
    var keys := BoundUnits(bindings, componentId);
    if OneUnitPerReplicate(slots, componentId) {
      forall a, b | a in keys && b in keys && ReplicateOf(bindings, a) == ReplicateOf(bindings, b)
        ensures a == b
      {
        var x :| x in slots && x.componentId == componentId && x.unitId == a.1;
        var y :| y in slots && y.componentId == componentId && y.unitId == b.1;
      }
    } else {
      var a, b :| a in slots && b in slots && a.componentId == b.componentId == componentId
        && a.caseId == b.caseId && a.replicateIndex == b.replicateIndex && a.unitId != b.unitId;
      assert (componentId, a.unitId) in keys && (componentId, b.unitId) in keys;
      var replicate := (key: (Id, Id)) => ReplicateOf(bindings, key);
      assert replicate((componentId, a.unitId)) == replicate((componentId, b.unitId));
    }
  }

  /** Comparing the two counts is the same as asking for one unit per case and replicate. */
  lemma ReplicateCountTellsUnits(
    authority: Authority, slots: seq<Slot>,
    units: map<Id, map<Id, set<int>>>, bindings: map<(Id, Id), Binding>, componentId: Id)
    requires Indexed(authority, slots, units, bindings) && componentId in units
    ensures |ReplicatesOf(bindings, componentId)| == |units[componentId]|
      <==> OneUnitPerReplicate(slots, componentId)
  {
    BoundUnitsMatchUnits(authority, slots, units, bindings, componentId);
    ReplicatesInjective(authority, slots, units, bindings, componentId);
    var keys := BoundUnits(bindings, componentId);
    ImageSizeTellsInjective(
      keys, ReplicatesOf(bindings, componentId), (key: (Id, Id)) => ReplicateOf(bindings, key));
  }

  /** The components and models the constructor accepts. Ids are unique because they are keys. */
  predicate AuthorityValid(authority: Authority) {
    && authority.components != map[]
    && authority.caseRoutes != map[]
    && (forall id :: id in authority.components ==>
          && authority.components[id].componentId == id
          && authority.components[id].WellFormed()
          && forall model :: model in authority.components[id].modelIds ==> model in authority.models)
  }

  /** `setdefault` then `add`, as the dictionary of units is filled. */
  function WithRetry(units: map<Id, map<Id, set<int>>>, slot: Slot): map<Id, map<Id, set<int>>>
    requires slot.componentId in units
  {
    var retries := units[slot.componentId];
    var before := if slot.unitId in retries then retries[slot.unitId] else {};
    units[slot.componentId := retries[slot.unitId := before + {slot.retryIndex}]]
  }

  lemma UnitsAppend(slots: seq<Slot>, slot: Slot, id: Id)
    ensures UnitsOf(slots + [slot], id)
      == UnitsOf(slots, id) + if slot.componentId == id then {slot.unitId} else {}
  {
    var all := slots + [slot];
    assert all[|slots|] == slot;
    forall unitId | unitId in UnitsOf(slots, id) ensures unitId in UnitsOf(all, id) {
      var s :| s in slots && s.componentId == id && s.unitId == unitId;
      assert s in all;
    }
  }

  lemma RetriesAppend(slots: seq<Slot>, slot: Slot, id: Id, unitId: Id)
    ensures RetriesOf(slots + [slot], id, unitId)
      == RetriesOf(slots, id, unitId)
         + if slot.componentId == id && slot.unitId == unitId then {slot.retryIndex} else {}
  {
    var all := slots + [slot];
    assert all[|slots|] == slot;
    forall retry | retry in RetriesOf(slots, id, unitId) ensures retry in RetriesOf(all, id, unitId) {
      var s :| s in slots && s.componentId == id && s.unitId == unitId && s.retryIndex == retry;
      assert s in all;
    }
  }

  lemma UnitsIndexAppend(slots: seq<Slot>, slot: Slot, units: map<Id, map<Id, set<int>>>, id: Id)
    requires slot.componentId in units && id in units && IndexedUnits(slots, units[id], id)
    ensures IndexedUnits(slots + [slot], WithRetry(units, slot)[id], id)
  {
    UnitsAppend(slots, slot, id);
    forall unitId | unitId in WithRetry(units, slot)[id]
      ensures WithRetry(units, slot)[id][unitId] == RetriesOf(slots + [slot], id, unitId)
    {
      RetriesAppend(slots, slot, id, unitId);
      assert unitId !in UnitsOf(slots, id) ==> RetriesOf(slots, id, unitId) == {};
    }
  }

  lemma BindingsIndexAppend(slots: seq<Slot>, slot: Slot, bindings: map<(Id, Id), Binding>)
    requires IndexedBindings(slots, bindings)
    requires (slot.componentId, slot.unitId) in bindings ==>
      bindings[(slot.componentId, slot.unitId)] == BindingOf(slot)
    ensures IndexedBindings(slots + [slot], bindings[(slot.componentId, slot.unitId) := BindingOf(slot)])
  {
    forall key: (Id, Id) {
      UnitsAppend(slots, slot, key.0);
    }
    hide UnitsOf, BindingOf;
  }

  lemma IndexAppend(
    authority: Authority, slots: seq<Slot>, slot: Slot,
    units: map<Id, map<Id, set<int>>>, bindings: map<(Id, Id), Binding>)
    requires Indexed(authority, slots, units, bindings)
    requires slot.componentId in authority.components
    requires (slot.componentId, slot.unitId) in bindings ==>
      bindings[(slot.componentId, slot.unitId)] == BindingOf(slot)
    ensures slot.componentId in units
    ensures Indexed(
      authority, slots + [slot], WithRetry(units, slot),
      bindings[(slot.componentId, slot.unitId) := BindingOf(slot)])
  {
    hide IndexedBindings, IndexedUnits;
    forall id | id in units {
      UnitsIndexAppend(slots, slot, units, id);
    }
    BindingsIndexAppend(slots, slot, bindings);
  }

  lemma EarlierBinding(
    authority: Authority, slots: seq<Slot>, slot: Slot,
    units: map<Id, map<Id, set<int>>>, bindings: map<(Id, Id), Binding>) returns (earlier: Slot)
    requires Indexed(authority, slots, units, bindings)
    requires (slot.componentId, slot.unitId) in bindings
    ensures earlier in slots && SameUnit(earlier, slot)
    ensures bindings[(slot.componentId, slot.unitId)] == BindingOf(earlier)
  {
    earlier :| earlier in slots && earlier.componentId == slot.componentId && earlier.unitId == slot.unitId;
  }

  lemma BoundAppend(
    authority: Authority, slots: seq<Slot>, slot: Slot,
    units: map<Id, map<Id, set<int>>>, bindings: map<(Id, Id), Binding>)
    requires Indexed(authority, slots, units, bindings) && UnitsBound(slots)
    requires (slot.componentId, slot.unitId) in bindings ==>
      bindings[(slot.componentId, slot.unitId)] == BindingOf(slot)
    ensures UnitsBound(slots + [slot])
  {
    forall earlier | earlier in slots && SameUnit(earlier, slot)
      ensures BindingOf(earlier) == BindingOf(slot)
    {
    }
  }

  lemma IndexEmpty(authority: Authority, units: map<Id, map<Id, set<int>>>)
    requires units == map id | id in authority.components :: map[]
    ensures Indexed(authority, [], units, map[])
  {
  }

  ghost predicate SlotsBound(authority: Authority, slots: seq<Slot>) {
    (forall slot :: slot in slots ==> SlotAuthorized(authority, slot)) && UnitsBound(slots)
  }

  lemma UnboundPrefix(authority: Authority, slots: seq<Slot>, n: nat)
    requires n <= |slots| && !SlotsBound(authority, slots[..n])
    ensures !SlotsBound(authority, slots)
  {
  }

  /** Fills the dictionaries, stopping at the first slot that is not authorized or rebinds its unit. */
  method IndexSlots(authority: Authority, slots: seq<Slot>)
    returns (ok: bool, units: map<Id, map<Id, set<int>>>, bindings: map<(Id, Id), Binding>)
    ensures ok <==> SlotsBound(authority, slots)
    ensures ok ==> Indexed(authority, slots, units, bindings)
  {
    units, bindings := map id | id in authority.components :: map[], map[];
    IndexEmpty(authority, units);
    assert SlotsBound(authority, slots[..0]);
    hide *;
    for n := 0 to |slots|
      invariant Indexed(authority, slots[..n], units, bindings)
      invariant SlotsBound(authority, slots[..n])
    {
      var slot := slots[n];
      assert slots[..n + 1] == slots[..n] + [slot];
      var bound := SlotBinds(authority, slots[..n], slot, units, bindings);
      if !bound {
        UnboundPrefix(authority, slots, n + 1);
        return false, units, bindings;
      }
      IndexAppend(authority, slots[..n], slot, units, bindings);
      units, bindings :=
        WithRetry(units, slot), bindings[(slot.componentId, slot.unitId) := BindingOf(slot)];
    }
    assert slots[..|slots|] == slots;
    ok := true;
  }

  method SlotBinds(
    authority: Authority, slots: seq<Slot>, slot: Slot,
    units: map<Id, map<Id, set<int>>>, bindings: map<(Id, Id), Binding>) returns (ok: bool)
    requires Indexed(authority, slots, units, bindings) && SlotsBound(authority, slots)
    ensures ok <==> SlotsBound(authority, slots + [slot])
    ensures ok ==> slot.componentId in authority.components
    ensures ok ==> (slot.componentId, slot.unitId) in bindings ==>
      bindings[(slot.componentId, slot.unitId)] == BindingOf(slot)
  {
    var key := (slot.componentId, slot.unitId);
    assert slot in slots + [slot];
    if !SlotAuthorized(authority, slot) {
      return false;
    }
    if key in bindings && bindings[key] != BindingOf(slot) {
      ghost var earlier := EarlierBinding(authority, slots, slot, units, bindings);
      assert earlier in slots + [slot];
      return false;
    }
    BoundAppend(authority, slots, slot, units, bindings);
    return true;
  }

  /** The constructor's matrix check over nested dictionaries accepts exactly the exact matrices. */
  method CheckCallMatrix(authority: Authority, slots: seq<Slot>) returns (ok: bool)
    requires AuthorityValid(authority)
    ensures ok <==> ExactCallMatrix(authority, slots)
  {
    var units, bindings;
    ok, units, bindings := IndexSlots(authority, slots);
    hide SlotAuthorized, UnitsBound, ComponentCovered, AuthorityValid, Indexed;
    if ok {
      ok := CheckCoverage(authority, slots, units, bindings);
    }
  }

  lemma RetriesTellCoverage(slots: seq<Slot>, component: Component, retries: map<Id, set<int>>, id: Id)
    requires IndexedUnits(slots, retries, id) && 0 <= component.attemptsPerUnit
    ensures CoversComponent(slots, component, id) <==>
      && |retries| == component.unitCount
      && forall unitId :: unitId in retries ==> retries[unitId] == Range(component.attemptsPerUnit)
  {
    assert |retries| == |retries.Keys|;
    hide UnitsOf, RetriesOf, Range;
  }

  method CheckComponent(
    authority: Authority, slots: seq<Slot>,
    units: map<Id, map<Id, set<int>>>, bindings: map<(Id, Id), Binding>, id: Id) returns (ok: bool)
    requires AuthorityValid(authority) && Indexed(authority, slots, units, bindings)
    requires id in authority.components
    ensures ok <==> ComponentCovered(authority, slots, id)
  {
    var component := authority.components[id];
    RetriesTellCoverage(slots, component, units[id], id);
    ReplicateCountTellsUnits(authority, slots, units, bindings, id);
    hide Indexed, CoversComponent, OneUnitPerReplicate, ReplicatesOf, Range;
    var expected := Range(component.attemptsPerUnit);
    ok :=
      && |units[id]| == component.unitCount
      && (forall unitId :: unitId in units[id] ==> units[id][unitId] == expected)
      && |ReplicatesOf(bindings, id)| == |units[id]|;
  }

  method CheckCoverage(
    authority: Authority, slots: seq<Slot>,
    units: map<Id, map<Id, set<int>>>, bindings: map<(Id, Id), Binding>) returns (ok: bool)
    requires AuthorityValid(authority) && Indexed(authority, slots, units, bindings)
    ensures ok <==> forall id :: id in authority.components ==> ComponentCovered(authority, slots, id)
  {
    hide ComponentCovered, Indexed, AuthorityValid;
    var rest := authority.components.Keys;
    while rest != {}
      invariant rest <= authority.components.Keys
      invariant forall id :: id in authority.components.Keys - rest ==> ComponentCovered(authority, slots, id)
      decreases rest
    {
      var id :| id in rest;
      ok := CheckComponent(authority, slots, units, bindings, id);
      if !ok {
        return false;
      }
      rest := rest - {id};
    }
    return true;
  }

  // Counting the slots of a component.

  function SlotsOfComponent(table: map<Id, Slot>, ids: set<Id>, componentId: Id): set<Id> {
    set id | id in ids && id in table && table[id].componentId == componentId
  }

  function RetryKey(table: map<Id, Slot>, id: Id): (Id, int) {
    if id in table then (table[id].unitId, table[id].retryIndex) else ("", 0)
  }

  lemma RetryKeysInjective(slots: seq<Slot>, componentId: Id)
    requires NoDuplicates(SlotIds(slots)) && NoDuplicates(SlotKeys(slots))
    ensures InjectiveOn(
      SlotsOfComponent(SlotTable(slots), SlotTable(slots).Keys, componentId),
      (id: Id) => RetryKey(SlotTable(slots), id))
  {
    var table := SlotTable(slots);
    SlotTableHoldsPlan(slots);
    forall a, b | a in table && b in table && table[a].componentId == table[b].componentId
      && RetryKey(table, a) == RetryKey(table, b)
      ensures a == b
    {
      var i :| 0 <= i < |slots| && slots[i] == table[a];
      var j :| 0 <= j < |slots| && slots[j] == table[b];
      assert SlotKeys(slots)[i] == SlotKeys(slots)[j];
    }
  }

  function RetryKeysOf(table: map<Id, Slot>, ids: set<Id>): set<(Id, int)> {
    set id | id in ids :: RetryKey(table, id)
  }

  lemma RetryKeyInMatrix(authority: Authority, slots: seq<Slot>, slot: Slot)
    requires ExactCallMatrix(authority, slots) && slot in slots && IndexValid(slot.retryIndex)
    ensures slot.unitId in UnitsOf(slots, slot.componentId)
    ensures slot.componentId in authority.components
    ensures 0 <= slot.retryIndex < authority.components[slot.componentId].attemptsPerUnit
  {
    assert SlotAuthorized(authority, slot);
  }

  lemma MatrixHasSlot(
    authority: Authority, slots: seq<Slot>, componentId: Id, unitId: Id, retry: int) returns (slot: Slot)
    requires ExactCallMatrix(authority, slots) && componentId in authority.components
    requires unitId in UnitsOf(slots, componentId)
    requires 0 <= retry < authority.components[componentId].attemptsPerUnit
    ensures slot in slots && slot.componentId == componentId
    ensures slot.unitId == unitId && slot.retryIndex == retry
  {
    assert ComponentCovered(authority, slots, componentId);
    assert retry in RetriesOf(slots, componentId, unitId);
    slot :| slot in slots && slot.componentId == componentId && slot.unitId == unitId && slot.retryIndex == retry;
  }

  lemma RetryKeysFillMatrix(authority: Authority, slots: seq<Slot>, componentId: Id)
    requires AuthorityValid(authority) && PlanValid(slots) && ExactCallMatrix(authority, slots)
    requires componentId in authority.components
    ensures
      RetryKeysOf(SlotTable(slots), SlotsOfComponent(SlotTable(slots), SlotTable(slots).Keys, componentId))
      == Product(UnitsOf(slots, componentId), Range(authority.components[componentId].attemptsPerUnit))
  {
    var table, component := SlotTable(slots), authority.components[componentId];
    var ids := SlotsOfComponent(table, table.Keys, componentId);
    SlotTableHoldsPlan(slots);
    hide ExactCallMatrix, AuthorityValid, SlotTable, UnitsOf;
    forall id | id in ids
      ensures RetryKey(table, id) in Product(UnitsOf(slots, componentId), Range(component.attemptsPerUnit))
    {
      RetryKeyInMatrix(authority, slots, table[id]);
    }
    forall u, r | u in UnitsOf(slots, componentId) && r in Range(component.attemptsPerUnit)
      ensures (u, r) in RetryKeysOf(table, ids)
    {
      var slot := MatrixHasSlot(authority, slots, componentId, u, r);
      assert slot.slotId in ids && RetryKey(table, slot.slotId) == (u, r);
    }
  }

  /** An exact matrix has, for each component, exactly as many slots as the component's capacity. */
  lemma SlotCountIsCapacity(authority: Authority, slots: seq<Slot>, componentId: Id)
    requires AuthorityValid(authority) && PlanValid(slots) && ExactCallMatrix(authority, slots)
    requires componentId in authority.components
    ensures |SlotsOfComponent(SlotTable(slots), SlotTable(slots).Keys, componentId)|
      == authority.components[componentId].Capacity()
  {
    var table, component := SlotTable(slots), authority.components[componentId];
    var ids := SlotsOfComponent(table, table.Keys, componentId);
    assert ComponentCovered(authority, slots, componentId);
    RetryKeysInjective(slots, componentId);
    RetryKeysFillMatrix(authority, slots, componentId);
    ProductSize(UnitsOf(slots, componentId), Range(component.attemptsPerUnit));
    hide PlanValid, ExactCallMatrix, SlotTable, SlotsOfComponent, UnitsOf, RetryKey, Product;
    ImageSizeTellsInjective(ids, RetryKeysOf(table, ids), (id: Id) => RetryKey(table, id));
  }

  // What an accepted plan says.

  /** What the campaign authorizes for one slot. */
  predicate Permitted(authority: Authority, slot: Slot) {
    && slot.componentId in authority.components && slot.modelId in authority.models && slot.caseId in authority.caseRoutes
    && var component, route := authority.components[slot.componentId], authority.caseRoutes[slot.caseId];
    && (exists i :: 0 <= i < |component.modelIds| && component.modelIds[i] == slot.modelId)
    && (exists i :: 0 <= i < |component.purposes| && component.purposes[i] == slot.purpose)
    && 0 <= slot.retryIndex < component.attemptsPerUnit
    && slot.route == route.route && slot.routeAuthorityId == route.authorityId
    && exists i :: 0 <= i < |authority.models[slot.modelId].allowedSeeds|
         && authority.models[slot.modelId].allowedSeeds[i] == slot.seed
  }

  /** The slots of one unit are one call, repeated once for each retry that the component allows. */
  ghost predicate RepeatedCall(authority: Authority, slots: seq<Slot>, slot: Slot)
    requires slot.componentId in authority.components
  {
    && (forall other :: other in slots && SameUnit(slot, other) ==>
          other == slot.(slotId := other.slotId, retryIndex := other.retryIndex))
    && forall retry: int :: HasRetry(slots, slot, retry)
         <==> 0 <= retry < authority.components[slot.componentId].attemptsPerUnit
  }

  ghost predicate HasRetry(slots: seq<Slot>, slot: Slot, retry: int) {
    exists other :: other in slots && SameUnit(slot, other) && other.retryIndex == retry
  }

  predicate SameReplicate(a: Slot, b: Slot) {
    a.componentId == b.componentId && a.caseId == b.caseId && a.replicateIndex == b.replicateIndex
  }

  lemma AuthorizedIsPermitted(authority: Authority, slot: Slot)
    requires SlotAuthorized(authority, slot) && 0 <= slot.retryIndex
    ensures Permitted(authority, slot)
  {
  }

  /** Every slot of an accepted plan is authorized in each of its fields, the slots of a unit are the same call but for
      id and retry index, no retry is missing or repeated, and different units answer different cases or replicates. */
  lemma MatrixTells(authority: Authority, slots: seq<Slot>)
    requires PlanValid(slots) && ExactCallMatrix(authority, slots)
    ensures forall slot :: slot in slots ==> Permitted(authority, slot) && RepeatedCall(authority, slots, slot)
    ensures forall a, b :: a in slots && b in slots && SameUnit(a, b) && a.retryIndex == b.retryIndex ==> a == b
    ensures forall a, b :: a in slots && b in slots && SameReplicate(a, b) ==> a.unitId == b.unitId
    ensures forall id :: id in authority.components ==>
      |set slot | slot in slots && slot.componentId == id :: slot.unitId| == authority.components[id].unitCount
  {
    forall slot | slot in slots ensures Permitted(authority, slot) && RepeatedCall(authority, slots, slot) {
      AuthorizedIsPermitted(authority, slot);
      CallRepeated(authority, slots, slot);
    }
    forall a, b | a in slots && b in slots && SameUnit(a, b) && a.retryIndex == b.retryIndex ensures a == b {
      var i :| 0 <= i < |slots| && slots[i] == a;
      var j :| 0 <= j < |slots| && slots[j] == b;
      assert SlotKeys(slots)[i] == SlotKeys(slots)[j];
    }
    hide Permitted, RepeatedCall;
    forall id | id in authority.components ensures ComponentCovered(authority, slots, id) {
    }
  }

  lemma CallRepeated(authority: Authority, slots: seq<Slot>, slot: Slot)
    requires PlanValid(slots) && ExactCallMatrix(authority, slots) && slot in slots
    ensures slot.componentId in authority.components && RepeatedCall(authority, slots, slot)
  {
    assert SlotAuthorized(authority, slot);
    var id, unit, component := slot.componentId, slot.unitId, authority.components[slot.componentId];
    assert ComponentCovered(authority, slots, id) && unit in UnitsOf(slots, id);
    forall other | other in slots && SameUnit(slot, other)
      ensures other == slot.(slotId := other.slotId, retryIndex := other.retryIndex)
    {
      assert BindingOf(slot) == BindingOf(other);
    }
    hide ExactCallMatrix, PlanValid;
    forall retry: int ensures HasRetry(slots, slot, retry) <==> 0 <= retry < component.attemptsPerUnit {
      assert retry in RetriesOf(slots, id, unit) <==> HasRetry(slots, slot, retry);
    }
  }
}
