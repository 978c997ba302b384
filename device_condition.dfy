/**
 * Device conditions of the binary_sensor domain: the table of condition types
 * per device class, the listing of the conditions a device offers, their
 * capabilities, and the evaluation of one condition against a snapshot of the
 * state store at a given instant.
 *
 * The two tables DEVICE_CLASSES and ENTITY_CONDITIONS are parameters of the
 * model (a `Registry` value); the only entry fixed here is the battery class,
 * whose `is_bat_low` needs the raw state "on" and `is_not_bat_low` needs "off".
 * Times are whole seconds.
 */
module DeviceCondition {
  import opened Wrappers

  const DOMAIN := "binary_sensor"
  const CONDITION_DEVICE := "device"
  const STATE_ON := "on"
  const STATE_OFF := "off"
  const CONF_FOR := "for"
  const POSITIVE_TIME_PERIOD_DICT := "positive_time_period_dict"

  /** One entry of ENTITY_CONDITIONS[device_class]: the type's name and the raw state it asks for. */
  datatype ConditionType = ConditionType(name: string, requiredState: string)

  /** DEVICE_CLASSES (display order) and ENTITY_CONDITIONS (per class, display order). */
  datatype Registry = Registry(deviceClasses: seq<string>, entityConditions: map<string, seq<ConditionType>>)

  /** An entity registered on a device, with its device class. */
  datatype Entity = Entity(entityId: string, deviceClass: string)

  /** A device condition as written in an automation (or as listed for a device). */
  datatype ConditionConfig = ConditionConfig(
    condition: string,
    domain: string,
    deviceId: string,
    entityId: string,
    condType: string,
    forSeconds: Option<nat>)

  /** The single extra field a condition can be configured with. */
  datatype FieldDescriptor = FieldDescriptor(name: string, optional: bool, fieldType: string)

  /** Why an automation's condition is refused when the automation is set up. */
  datatype ConditionError = UnresolvedEntity | UnknownType

  /** A condition accepted at set-up: the entity it reads, the raw state it needs, the optional duration. */
  datatype Condition = Condition(entityId: string, requiredState: string, forSeconds: Option<nat>)

  /** What the state store holds for one entity. */
  datatype EntityState = EntityState(state: string, lastChanged: int)

  type StateStore = map<string, EntityState>

  // ---------------------------------------------------------------------------
  // Condition type registry

  predicate UniqueNames(types: seq<ConditionType>) {
    forall i, j :: 0 <= i < j < |types| ==> types[i].name != types[j].name
  }

  /** Condition type names are unique within each device class. */
  predicate ValidRegistry(reg: Registry) {
    forall c :: c in reg.entityConditions ==> UniqueNames(reg.entityConditions[c])
  }

  /** The condition types of a device class; an unknown class has none. */
  function ConditionsFor(reg: Registry, deviceClass: string): seq<ConditionType> {
    if deviceClass in reg.entityConditions then reg.entityConditions[deviceClass] else []
  }

  /** The raw state a condition type needs, found by name in a class's list. */
  function FindType(types: seq<ConditionType>, name: string): (r: Option<string>)
    ensures r.Some? <==> exists t :: t in types && t.name == name
    ensures r.Some? ==> ConditionType(name, r.value) in types
  {
    if types == [] then None
    else if types[0].name == name then Some(types[0].requiredState)
    else FindType(types[1..], name)
  }

  function RequiredState(reg: Registry, deviceClass: string, condType: string): Option<string> {
    FindType(ConditionsFor(reg, deviceClass), condType)
  }

  /** With unique names, the state found for a listed type is that type's own. */
  lemma {:induction false} FindTypeUnique(types: seq<ConditionType>, k: nat)
    requires UniqueNames(types) && k < |types|
    ensures FindType(types, types[k].name) == Some(types[k].requiredState)
  {
    if k > 0 {
      assert types[0].name != types[k].name;
      assert UniqueNames(types[1..]) by {
        forall i, j | 0 <= i < j < |types[1..]|
          ensures types[1..][i].name != types[1..][j].name
        {
          assert types[1..][i] == types[i + 1] && types[1..][j] == types[j + 1];
        }
      }
      FindTypeUnique(types[1..], k - 1);
    }
  }

  /** The only concrete entries: battery's `is_bat_low` needs "on", `is_not_bat_low` needs "off". */
  predicate HasBatteryConditions(reg: Registry) {
    && RequiredState(reg, "battery", "is_bat_low") == Some(STATE_ON)
    && RequiredState(reg, "battery", "is_not_bat_low") == Some(STATE_OFF)
  }

  // ---------------------------------------------------------------------------
  // Listing the conditions of a device

  /** The entry listed for one (entity, condition type) pair of a device. */
  function Listed(deviceId: string, e: Entity, t: ConditionType): ConditionConfig {
    ConditionConfig(CONDITION_DEVICE, DOMAIN, deviceId, e.entityId, t.name, None)
  }

  function EntityConditions(reg: Registry, deviceId: string, e: Entity): (r: seq<ConditionConfig>)
    ensures |r| == |ConditionsFor(reg, e.deviceClass)|
    ensures forall j :: 0 <= j < |r| ==> r[j] == Listed(deviceId, e, ConditionsFor(reg, e.deviceClass)[j])
  {
    var types := ConditionsFor(reg, e.deviceClass);
    seq(|types|, j requires 0 <= j < |types| => Listed(deviceId, e, types[j]))
  }

  /** The conditions of a device whose entities are `entities`, in registration order. */
  function ListConditions(reg: Registry, deviceId: string, entities: seq<Entity>): seq<ConditionConfig> {
    if entities == [] then []
    else EntityConditions(reg, deviceId, entities[0]) + ListConditions(reg, deviceId, entities[1..])
  }

  /** How many condition types the classes of `entities` offer in all. */
  function ConditionCount(reg: Registry, entities: seq<Entity>): nat {
    if entities == [] then 0
    else |ConditionsFor(reg, entities[0].deviceClass)| + ConditionCount(reg, entities[1..])
  }

  lemma {:induction false} ListConditionsLength(reg: Registry, deviceId: string, entities: seq<Entity>)
    ensures |ListConditions(reg, deviceId, entities)| == ConditionCount(reg, entities)
  {
    if entities != [] {
      ListConditionsLength(reg, deviceId, entities[1..]);
    }
  }

  /**
   * The listing is ordered by entity, then by the class's condition types:
   * the j-th type of the i-th entity sits right after the types of the
   * entities before it.
   */
  lemma {:induction false} ListConditionsAt(reg: Registry, deviceId: string, entities: seq<Entity>, i: nat, j: nat)
    requires i < |entities| && j < |ConditionsFor(reg, entities[i].deviceClass)|
    ensures ConditionCount(reg, entities[..i]) + j < |ListConditions(reg, deviceId, entities)|
    ensures ListConditions(reg, deviceId, entities)[ConditionCount(reg, entities[..i]) + j]
         == Listed(deviceId, entities[i], ConditionsFor(reg, entities[i].deviceClass)[j])
  {
    ListConditionsLength(reg, deviceId, entities);
    if i == 0 {
      assert entities[..0] == [];
    } else {
      var rest := entities[1..];
      assert entities[..i][1..] == rest[..i - 1];
      assert entities[..i][0] == entities[0];
      assert rest[i - 1] == entities[i];
      ListConditionsAt(reg, deviceId, rest, i - 1, j);
    }
  }

  /** An entry is listed iff it is the entry of some entity of the device and some type of its class. */
  lemma {:induction false} ListConditionsMembership(reg: Registry, deviceId: string, entities: seq<Entity>, c: ConditionConfig)
    ensures c in ListConditions(reg, deviceId, entities) <==>
      exists e, t :: e in entities && t in ConditionsFor(reg, e.deviceClass) && c == Listed(deviceId, e, t)
  {
    if entities != [] {
      ListConditionsMembership(reg, deviceId, entities[1..], c);
      var head := EntityConditions(reg, deviceId, entities[0]);
      var types := ConditionsFor(reg, entities[0].deviceClass);
      if c in head {
        var j :| 0 <= j < |head| && head[j] == c;
        assert types[j] in types;
      }
      if exists t :: t in types && c == Listed(deviceId, entities[0], t) {
        var t :| t in types && c == Listed(deviceId, entities[0], t);
        var j :| 0 <= j < |types| && types[j] == t;
        assert head[j] == c;
      }
      forall e | e in entities
        ensures e == entities[0] || e in entities[1..]
      {
        var k :| 0 <= k < |entities| && entities[k] == e;
        if k > 0 { assert entities[1..][k - 1] == e; }
      }
    }
  }

  /**
   * The listing a test expects when each device class contributes one entity:
   * class by class, and within a class its condition types in order.
   */
  function ConditionsByClass(reg: Registry, deviceId: string, entityOf: map<string, string>, classes: seq<string>): seq<ConditionConfig>
    requires forall c :: c in classes ==> c in entityOf
  {
    if classes == [] then []
    else
      var types := ConditionsFor(reg, classes[0]);
      seq(|types|, j requires 0 <= j < |types| => ConditionConfig(CONDITION_DEVICE, DOMAIN, deviceId, entityOf[classes[0]], types[j].name, None))
        + ConditionsByClass(reg, deviceId, entityOf, classes[1..])
  }

  lemma {:induction false} ListingFollowsClasses(reg: Registry, deviceId: string, entityOf: map<string, string>,
                                                  classes: seq<string>, entities: seq<Entity>)
    requires forall c :: c in classes ==> c in entityOf
    requires |entities| == |classes|
    requires forall i :: 0 <= i < |entities| ==> entities[i] == Entity(entityOf[classes[i]], classes[i])
    ensures ListConditions(reg, deviceId, entities) == ConditionsByClass(reg, deviceId, entityOf, classes)
  {
    if classes != [] {
      var rest := entities[1..];
      assert forall c :: c in classes[1..] ==> c in classes;
      forall i | 0 <= i < |rest| ensures rest[i] == Entity(entityOf[classes[1..][i]], classes[1..][i]) {
        assert rest[i] == entities[i + 1] && classes[1..][i] == classes[i + 1];
      }
      ListingFollowsClasses(reg, deviceId, entityOf, classes[1..], rest);
      var types := ConditionsFor(reg, classes[0]);
      assert EntityConditions(reg, deviceId, entities[0]) ==
        seq(|types|, j requires 0 <= j < |types| => ConditionConfig(CONDITION_DEVICE, DOMAIN, deviceId, entityOf[classes[0]], types[j].name, None));
    }
  }

  /**
   * With one entity per device class, registered in the order of
   * DEVICE_CLASSES, the listing goes class by class and, within a class, type
   * by type, each entry naming that class's entity.
   */
  lemma ListingFollowsDeviceClasses(reg: Registry, deviceId: string, entityOf: map<string, string>, entities: seq<Entity>)
    requires forall c :: c in reg.deviceClasses ==> c in entityOf
    requires |entities| == |reg.deviceClasses|
    requires forall i :: 0 <= i < |entities| ==> entities[i] == Entity(entityOf[reg.deviceClasses[i]], reg.deviceClasses[i])
    ensures ListConditions(reg, deviceId, entities) == ConditionsByClass(reg, deviceId, entityOf, reg.deviceClasses)
  {
    ListingFollowsClasses(reg, deviceId, entityOf, reg.deviceClasses, entities);
  }

  /** Every listed entry is a device condition of this domain, for the queried device, without a duration. */
  lemma ListedShape(reg: Registry, deviceId: string, entities: seq<Entity>, c: ConditionConfig)
    requires c in ListConditions(reg, deviceId, entities)
    ensures c.condition == CONDITION_DEVICE && c.domain == DOMAIN && c.deviceId == deviceId && c.forSeconds == None
    ensures exists e :: e in entities && c.entityId == e.entityId && c.condType in TypeNames(ConditionsFor(reg, e.deviceClass))
  {
    ListConditionsMembership(reg, deviceId, entities, c);
    var e, t :| e in entities && t in ConditionsFor(reg, e.deviceClass) && c == Listed(deviceId, e, t);
    TypeNamesContain(ConditionsFor(reg, e.deviceClass), t);
  }

  function TypeNames(types: seq<ConditionType>): set<string> {
    set t | t in types :: t.name
  }

  lemma TypeNamesContain(types: seq<ConditionType>, t: ConditionType)
    requires t in types
    ensures t.name in TypeNames(types)
  {
  }

  predicate Distinct<T(==)>(s: seq<T>) {
    forall p, q :: 0 <= p < q < |s| ==> s[p] != s[q]
  }

  /** With unique type names per class and distinct entities, no entry is listed twice. */
  lemma {:induction false} ListConditionsDistinct(reg: Registry, deviceId: string, entities: seq<Entity>)
    requires ValidRegistry(reg)
    requires forall p, q :: 0 <= p < q < |entities| ==> entities[p].entityId != entities[q].entityId
    ensures Distinct(ListConditions(reg, deviceId, entities))
  {
    if entities != [] {
      var rest := entities[1..];
      assert forall p, q :: 0 <= p < q < |rest| ==> rest[p].entityId != rest[q].entityId by {
        forall p, q | 0 <= p < q < |rest| ensures rest[p].entityId != rest[q].entityId {
          assert rest[p] == entities[p + 1] && rest[q] == entities[q + 1];
        }
      }
      ListConditionsDistinct(reg, deviceId, rest);
      var head := EntityConditions(reg, deviceId, entities[0]);
      var tail := ListConditions(reg, deviceId, rest);
      var types := ConditionsFor(reg, entities[0].deviceClass);
      assert UniqueNames(types) by {
        if entities[0].deviceClass in reg.entityConditions { }
      }
      forall k | 0 <= k < |tail|
        ensures tail[k].entityId != entities[0].entityId
      {
        assert tail[k] in tail;
        ListConditionsMembership(reg, deviceId, rest, tail[k]);
        var e, t :| e in rest && t in ConditionsFor(reg, e.deviceClass) && tail[k] == Listed(deviceId, e, t);
        var m :| 0 <= m < |rest| && rest[m] == e;
        assert entities[m + 1] == e;
      }
      var all := head + tail;
      forall p, q | 0 <= p < q < |all|
        ensures all[p] != all[q]
      {
        if q < |head| {
          assert types[p].name != types[q].name;
        } else if p < |head| {
          assert all[q] == tail[q - |head|];
        } else {
          assert all[p] == tail[p - |head|] && all[q] == tail[q - |head|];
        }
      }
    }
  }

  // ---------------------------------------------------------------------------
  // Capabilities

  /** The extra fields a condition can be given: the optional `for` duration, whatever the type. */
  function ConditionCapabilities(config: ConditionConfig): seq<FieldDescriptor> {
    [FieldDescriptor(CONF_FOR, true, POSITIVE_TIME_PERIOD_DICT)]
  }

  /** Every listed condition reports exactly one optional `for` field of the time-period kind. */
  lemma ListedCapabilities(reg: Registry, deviceId: string, entities: seq<Entity>, c: ConditionConfig)
    requires c in ListConditions(reg, deviceId, entities)
    ensures ConditionCapabilities(c) == [FieldDescriptor("for", true, "positive_time_period_dict")]
  {
  }

  /** The capabilities do not depend on the condition they are asked for. */
  lemma CapabilitiesUniform(c1: ConditionConfig, c2: ConditionConfig)
    ensures ConditionCapabilities(c1) == ConditionCapabilities(c2)
    ensures |ConditionCapabilities(c1)| == 1 && ConditionCapabilities(c1)[0].optional
  {
  }

  // ---------------------------------------------------------------------------
  // Evaluation

  /**
   * Accepting a condition when its automation is set up: the entity must be
   * known (its device class is looked up in `entityClasses`) and the type must
   * exist for that class.
   */
  function FromConfig(reg: Registry, entityClasses: map<string, string>, config: ConditionConfig): (r: Result<Condition, ConditionError>)
    ensures r == Failure(UnresolvedEntity) <==> config.entityId !in entityClasses
    ensures r == Failure(UnknownType) <==>
      config.entityId in entityClasses && RequiredState(reg, entityClasses[config.entityId], config.condType) == None
    ensures r.Success? ==>
      && r.value.entityId == config.entityId
      && r.value.forSeconds == config.forSeconds
      && ConditionType(config.condType, r.value.requiredState) in ConditionsFor(reg, entityClasses[config.entityId])
  {
    if config.entityId !in entityClasses then Failure(UnresolvedEntity)
    else
      match RequiredState(reg, entityClasses[config.entityId], config.condType)
      case None => Failure(UnknownType)
      case Some(required) => Success(Condition(config.entityId, required, config.forSeconds))
  }

  /** The duration tracker: the state has lasted `required` seconds by `now`. */
  predicate HoldsFor(lastChanged: int, now: int, required: nat) {
    now - lastChanged >= required
  }

  /**
   * A condition holds when its entity has a state, that state is the one the
   * condition needs, and, with a duration, it has not changed for that long.
   * A missing state makes the condition false rather than an error.
   */
  predicate Holds(cond: Condition, store: StateStore, now: int) {
    && cond.entityId in store
    && store[cond.entityId].state == cond.requiredState
    && (cond.forSeconds.Some? ==> HoldsFor(store[cond.entityId].lastChanged, now, cond.forSeconds.value))
  }

  /** A condition whose entity is in another state is false at every instant, whatever its duration. */
  lemma MismatchNeverHolds(cond: Condition, store: StateStore, now: int)
    requires cond.entityId in store && store[cond.entityId].state != cond.requiredState
    ensures !Holds(cond, store, now)
  {
  }

  /** Without a duration the condition is exactly "the entity is in the required state". */
  lemma NoDurationIsStateCheck(cond: Condition, store: StateStore, now: int)
    requires cond.forSeconds == None
    ensures Holds(cond, store, now) <==> cond.entityId in store && store[cond.entityId].state == cond.requiredState
  {
  }

  /** With a duration, the condition holds iff the state fits and `now - lastChanged >= for`. */
  lemma DurationGate(cond: Condition, store: StateStore, now: int)
    requires cond.forSeconds.Some? && cond.entityId in store
    ensures Holds(cond, store, now) <==>
      store[cond.entityId].state == cond.requiredState &&
      now - store[cond.entityId].lastChanged >= cond.forSeconds.value
  {
  }

  /** Once true, a condition stays true as the clock advances over the same snapshot. */
  lemma HoldsLater(cond: Condition, store: StateStore, now: int, later: int)
    requires Holds(cond, store, now) && now <= later
    ensures Holds(cond, store, later)
  {
  }

  /** Adding a duration only ever makes a condition harder to meet. */
  lemma DurationOnlyRestricts(cond: Condition, store: StateStore, now: int)
    requires Holds(cond, store, now)
    ensures Holds(cond.(forSeconds := None), store, now)
  {
  }

  /**
   * For a battery entity, `is_bat_low` and `is_not_bat_low` are accepted and
   * are never true together; with the state "on" only the first holds, with
   * "off" only the second.
   */
  lemma {:induction false} BatteryPairComplementary(reg: Registry, entityClasses: map<string, string>,
                                                       entityId: string, store: StateStore, now: int)
    requires HasBatteryConditions(reg)
    requires entityId in entityClasses && entityClasses[entityId] == "battery"
    ensures
      var low := FromConfig(reg, entityClasses, ConditionConfig(CONDITION_DEVICE, DOMAIN, "", entityId, "is_bat_low", None));
      var notLow := FromConfig(reg, entityClasses, ConditionConfig(CONDITION_DEVICE, DOMAIN, "", entityId, "is_not_bat_low", None));
      && low == Success(Condition(entityId, STATE_ON, None))
      && notLow == Success(Condition(entityId, STATE_OFF, None))
      && !(Holds(low.value, store, now) && Holds(notLow.value, store, now))
      && (entityId in store && store[entityId].state == STATE_ON ==> Holds(low.value, store, now) && !Holds(notLow.value, store, now))
      && (entityId in store && store[entityId].state == STATE_OFF ==> !Holds(low.value, store, now) && Holds(notLow.value, store, now))
  {
  }
}
