/**
 * The host side of a device condition: a state store, a clock that can be
 * moved, automations of the form "on event E, if condition C, record a call",
 * and the list of recorded calls. A call is recorded as the action's prefix
 * and the type of the event that fired it ("is_on" and "test_event1" stand
 * for the rendered "is_on event - test_event1").
 */
module AutomationHost {
  import opened DeviceCondition

  datatype Call = Call(prefix: string, eventType: string)

  datatype Automation = Automation(eventType: string, condition: Condition, prefix: string)

  /** The state an entity has after `hass.states.async_set(entityId, state)` at `now`. */
  function NextState(store: StateStore, entityId: string, state: string, now: int): (s: EntityState)
    ensures s.state == state
    ensures entityId in store && store[entityId].state == state ==> s == store[entityId]
    ensures !(entityId in store && store[entityId].state == state) ==> s.lastChanged == now
  {
    if entityId in store && store[entityId].state == state then store[entityId]
    else EntityState(state, now)
  }

  /** Right after a state changes, no condition on it with a positive duration holds yet. */
  lemma ChangedStateNotYetHeld(store: StateStore, entityId: string, state: string, now: int, cond: Condition)
    requires !(entityId in store && store[entityId].state == state)
    requires cond.entityId == entityId && cond.forSeconds.Some? && cond.forSeconds.value > 0
    ensures !Holds(cond, store[entityId := NextState(store, entityId, state, now)], now)
  {
  }

  /** Whether one automation records a call for an event of type `eventType`. */
  predicate Fires(a: Automation, eventType: string, store: StateStore, now: int) {
    a.eventType == eventType && Holds(a.condition, store, now)
  }

  /** The calls that firing `eventType` records, automation by automation. */
  function Fired(automations: seq<Automation>, eventType: string, store: StateStore, now: int): (r: seq<Call>)
    ensures |r| <= |automations|
    ensures forall c :: c in r ==> c.eventType == eventType
  {
    if automations == [] then []
    else
      var last := automations[|automations| - 1];
      Fired(automations[..|automations| - 1], eventType, store, now)
        + (if Fires(last, eventType, store, now) then [Call(last.prefix, eventType)] else [])
  }

  /** A call is recorded iff some automation listening to the event has a true condition. */
  lemma {:induction false} FiredMembership(automations: seq<Automation>, eventType: string, store: StateStore, now: int, c: Call)
    ensures c in Fired(automations, eventType, store, now) <==>
      exists a :: a in automations && Fires(a, eventType, store, now) && c == Call(a.prefix, eventType)
  {
    if automations != [] {
      var init := automations[..|automations| - 1];
      var last := automations[|automations| - 1];
      FiredMembership(init, eventType, store, now, c);
      assert automations == init + [last];
    }
  }

  /** A false condition suppresses its action: with no automation firing, nothing is recorded. */
  lemma {:induction false} FiredNothing(automations: seq<Automation>, eventType: string, store: StateStore, now: int)
    requires forall a :: a in automations ==> !Fires(a, eventType, store, now)
    ensures Fired(automations, eventType, store, now) == []
  {
    if automations != [] {
      var init := automations[..|automations| - 1];
      assert forall a :: a in init ==> a in automations;
      FiredNothing(init, eventType, store, now);
    }
  }

  /** Firing an event over one automation, then over two, unfolded. */
  lemma FiredOne(a: Automation, eventType: string, store: StateStore, now: int)
    ensures Fired([a], eventType, store, now) == if Fires(a, eventType, store, now) then [Call(a.prefix, eventType)] else []
  {
    assert [a][..0] == [];
  }

  lemma FiredTwo(a1: Automation, a2: Automation, eventType: string, store: StateStore, now: int)
    ensures Fired([a1, a2], eventType, store, now) ==
      (if Fires(a1, eventType, store, now) then [Call(a1.prefix, eventType)] else []) +
      (if Fires(a2, eventType, store, now) then [Call(a2.prefix, eventType)] else [])
  {
    assert [a1, a2][..1] == [a1];
    FiredOne(a1, eventType, store, now);
  }

  class Hass {
    var store: StateStore
    var now: int
    var automations: seq<Automation>
    var calls: seq<Call>

    constructor (start: int)
      ensures store == map[] && now == start && automations == [] && calls == []
    {
      store := map[];
      now := start;
      automations := [];
      calls := [];
    }

    /** Writes a state; `lastChanged` moves to the current time only when the value changes. */
    method SetState(entityId: string, state: string)
      modifies this
      ensures store == old(store)[entityId := NextState(old(store), entityId, state, old(now))]
      ensures now == old(now) && automations == old(automations) && calls == old(calls)
    {
      store := store[entityId := NextState(store, entityId, state, now)];
    }

    /** Moves the (mocked) clock. */
    method SetClock(t: int)
      modifies this
      ensures now == t
      ensures store == old(store) && automations == old(automations) && calls == old(calls)
    {
      now := t;
    }

    /** Sets up one automation whose condition was accepted. */
    method AddAutomation(a: Automation)
      modifies this
      ensures automations == old(automations) + [a]
      ensures store == old(store) && now == old(now) && calls == old(calls)
    {
      automations := automations + [a];
    }

    /**
     * Fires an event: every automation listening to it evaluates its
     * condition on the current store at the current time and, when it
     * holds, records one call.
     */
    method FireEvent(eventType: string)
      modifies this
      ensures calls == old(calls) + Fired(automations, eventType, store, now)
      ensures store == old(store) && now == old(now) && automations == old(automations)
    {
      var i := 0;
      while i < |automations|
        invariant 0 <= i <= |automations|
        invariant calls == old(calls) + Fired(automations[..i], eventType, store, now)
        invariant store == old(store) && now == old(now) && automations == old(automations)
      {
        var a := automations[i];
        if a.eventType == eventType && Holds(a.condition, store, now) {
          calls := calls + [Call(a.prefix, eventType)];
        }
        assert automations[..i + 1][..i] == automations[..i];
        i := i + 1;
      }
      assert automations[..i] == automations;
    }
  }
}
