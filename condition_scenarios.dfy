/**
 * The two end-to-end scenarios of the binary_sensor device-condition tests,
 * replayed on the model. Each returns the recorded calls at every point where
 * the scenario inspects them, so that its postcondition is the whole list of
 * expected observations.
 */
module ConditionScenarios {
  import opened Wrappers
  import opened DeviceCondition
  import opened AutomationHost

  /**
   * A battery sensor starts "on". On `test_event1`, an `is_bat_low` automation
   * records "is_on"; after the sensor turns "off", firing `test_event1` and then
   * `test_event2` records only the `is_not_bat_low` automation's "is_off".
   */
  method IfState(reg: Registry, sensor1: string, start: int) returns (trace: seq<seq<Call>>)
    requires HasBatteryConditions(reg)
    ensures trace == [
      [],
      [Call("is_on", "test_event1")],
      [Call("is_on", "test_event1"), Call("is_off", "test_event2")]]
  {
    var hass := new Hass(start);
    hass.SetState(sensor1, STATE_ON);
    var entityClasses := map[sensor1 := "battery"];
    var low := FromConfig(reg, entityClasses, ConditionConfig(CONDITION_DEVICE, DOMAIN, "", sensor1, "is_bat_low", None));
    var notLow := FromConfig(reg, entityClasses, ConditionConfig(CONDITION_DEVICE, DOMAIN, "", sensor1, "is_not_bat_low", None));
    assert low == Success(Condition(sensor1, STATE_ON, None));
    assert notLow == Success(Condition(sensor1, STATE_OFF, None));
    var a1 := Automation("test_event1", low.value, "is_on");
    var a2 := Automation("test_event2", notLow.value, "is_off");
    hass.AddAutomation(a1);
    hass.AddAutomation(a2);
    assert hass.automations == [a1, a2];
    assert hass.store[sensor1].state == STATE_ON;
    var atSetUp := hass.calls;

    FiredTwo(a1, a2, "test_event1", hass.store, hass.now);
    hass.FireEvent("test_event1");
    var afterEvent1 := hass.calls;
    assert afterEvent1 == [Call("is_on", "test_event1")];

    hass.SetState(sensor1, STATE_OFF);
    assert hass.store[sensor1].state == STATE_OFF;
    FiredTwo(a1, a2, "test_event1", hass.store, hass.now);
    hass.FireEvent("test_event1");
    assert hass.calls == [Call("is_on", "test_event1")];
    FiredTwo(a1, a2, "test_event2", hass.store, hass.now);
    hass.FireEvent("test_event2");
    assert hass.calls == [Call("is_on", "test_event1"), Call("is_off", "test_event2")];
    trace := [atSetUp, afterEvent1, hass.calls];
  }

  /**
   * An `is_not_bat_low` automation with `for: 5s` on a sensor that starts
   * "on" at `point1`: nothing is recorded at `point1`, nor 10 s later, nor at
   * the instant the sensor turns "off" (0 s elapsed); 10 s after that
   * (10 >= 5) exactly one "is_off" call is recorded.
   */
  method IfFiresOnForCondition(reg: Registry, sensor1: string, point1: int) returns (trace: seq<seq<Call>>)
    requires HasBatteryConditions(reg)
    ensures trace == [[], [], [], [], [Call("is_off", "test_event1")]]
  {
    var point2 := point1 + 10;
    var point3 := point2 + 10;
    var hass := new Hass(point1);
    hass.SetState(sensor1, STATE_ON);
    var entityClasses := map[sensor1 := "battery"];
    var notLow := FromConfig(reg, entityClasses, ConditionConfig(CONDITION_DEVICE, DOMAIN, "", sensor1, "is_not_bat_low", Some(5)));
    assert notLow == Success(Condition(sensor1, STATE_OFF, Some(5)));
    var a := Automation("test_event1", notLow.value, "is_off");
    hass.AddAutomation(a);
    assert hass.automations == [a];
    assert hass.store[sensor1] == EntityState(STATE_ON, point1);
    var atSetUp := hass.calls;

    FiredOne(a, "test_event1", hass.store, hass.now);
    hass.FireEvent("test_event1");
    var whileOn := hass.calls;
    assert whileOn == [];

    hass.SetClock(point2);
    FiredOne(a, "test_event1", hass.store, hass.now);
    hass.FireEvent("test_event1");
    var tenSecondsLater := hass.calls;
    assert tenSecondsLater == [];

    hass.SetState(sensor1, STATE_OFF);
    assert hass.store[sensor1] == EntityState(STATE_OFF, point2);
    FiredOne(a, "test_event1", hass.store, hass.now);
    hass.FireEvent("test_event1");
    var justTurnedOff := hass.calls;
    assert justTurnedOff == [];

    hass.SetClock(point3);
    FiredOne(a, "test_event1", hass.store, hass.now);
    hass.FireEvent("test_event1");
    assert hass.calls == [Call("is_off", "test_event1")];
    trace := [atSetUp, whileOn, tenSecondsLater, justTurnedOff, hass.calls];
  }
}
