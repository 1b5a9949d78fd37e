/**
 * The event bus of the application's own `core` module: the same typed
 * buses, but handlers return nothing, so publishing only reports whether
 * every handler succeeded, or the first error.
 */
module CoreBus {
  import opened Wrappers
  import opened EventDispatch

  class TypedEventBus {
    var systems: seq<Caller>
    /**
     * The handler each system holds for this bus's event type. The source
     * keeps it in the system's own registry, keyed by the handler type,
     * which names the event type.
     */
    var handlers: map<nat, nat>

    /** Every subscribed system holds a handler for this event type. */
    ghost predicate Registered()
      reads this
    {
      forall i :: 0 <= i < |systems| ==> systems[i].system in handlers
    }

    /** `new`: no subscribers. */
    constructor ()
      ensures systems == [] && handlers == map[] && Registered()
    {
      systems := [];
      handlers := map[];
    }

    /**
     * `register_system`: the system now holds `handler` for this event
     * type, replacing any handler it held, and is called last.
     */
    method RegisterSystem(system: nat, handler: nat)
      modifies this
      ensures systems == old(systems) + [Caller(system)]
      ensures handlers == old(handlers)[system := handler]
      ensures old(Registered()) ==> Registered()
    {
      handlers := handlers[system := handler];
      systems := systems + [Caller(system)];
    }

    /**
     * `publish`: call every system in order; the first error is returned
     * at once and later systems are not called.
     */
    method Publish<E>(event: E, run: (Caller, nat, E) -> Result<Unit>) returns (r: Result<Unit>)
      ensures r.Ok? <==> PublishAll(systems, event, Dispatch(handlers, run)).Ok?
      ensures r.Err? ==> r.message == PublishAll(systems, event, Dispatch(handlers, run)).message
    {
      var call := Dispatch(handlers, run);
      PublishAllMeaning(systems, event, call);
      var i := 0;
      while i < |systems|
        invariant 0 <= i <= |systems|
        invariant forall j :: 0 <= j < i ==> call(systems[j], event).Ok?
      {
        var outcome := call(systems[i], event);
        if outcome.Err? {
          assert FirstFailure(systems, event, call) == i;
          return Err(outcome.message);
        }
        i := i + 1;
      }
      r := Ok(Unit);
    }
  }

  class EventBus {
    var buses: map<EventType, TypedEventBus>

    /** Each event type has a bus of its own. */
    ghost predicate Valid()
      reads this
    {
      forall t, u :: t in buses && u in buses && t != u ==> buses[t] != buses[u]
    }

    /** The callers subscribed to `t`; an event type without a bus has none. */
    ghost function Subscribers(t: EventType): seq<Caller>
      reads this, buses.Values
    {
      if t in buses then buses[t].systems else []
    }

    /** The handler each system holds for `t`; an event type without a bus has none. */
    ghost function Handlers(t: EventType): map<nat, nat>
      reads this, buses.Values
    {
      if t in buses then buses[t].handlers else map[]
    }

    /** `new`: an empty registry. */
    constructor ()
      ensures Valid() && buses == map[]
    {
      buses := map[];
    }

    /**
     * `get_or_create_bus`: the bus of `t`, put into the registry empty
     * when there is none; once it exists, every call returns that bus.
     */
    method GetOrCreateBus(t: EventType) returns (bus: TypedEventBus)
      requires Valid()
      modifies this
      ensures Valid()
      ensures t in buses && bus == buses[t]
      ensures t in old(buses) ==> buses == old(buses)
      ensures t !in old(buses) ==> fresh(bus) && bus.systems == [] && bus.handlers == map[] && buses == old(buses)[t := bus]
    {
      if t in buses {
        bus := buses[t];
      } else {
        bus := new TypedEventBus();
        buses := buses[t := bus];
      }
    }

    /** `subscribe`: one more caller for `t`; every other event type keeps its subscribers. */
    method Subscribe(t: EventType, system: nat, handler: nat)
      requires Valid()
      modifies this, buses.Values
      ensures Valid()
      ensures t in buses
      ensures Subscribers(t) == old(Subscribers(t)) + [Caller(system)]
      ensures Handlers(t) == old(Handlers(t))[system := handler]
      ensures forall u :: u != t ==> Subscribers(u) == old(Subscribers(u)) && Handlers(u) == old(Handlers(u))
    {
      var bus := GetOrCreateBus(t);
      bus.RegisterSystem(system, handler);
    }

    /**
     * `publish`: `Ok` when every subscriber of `t` succeeds, else the
     * first error; with no subscribers it is `Ok`.
     */
    method Publish<E>(t: EventType, event: E, run: (Caller, nat, E) -> Result<Unit>) returns (r: Result<Unit>)
      requires Valid()
      modifies this
      ensures Valid()
      ensures t in buses
      ensures r.Ok? <==> PublishAll(old(Subscribers(t)), event, Dispatch(old(Handlers(t)), run)).Ok?
      ensures r.Err? ==> r.message == PublishAll(old(Subscribers(t)), event, Dispatch(old(Handlers(t)), run)).message
      ensures t !in old(buses) ==> r == Ok(Unit)
      ensures forall u :: Subscribers(u) == old(Subscribers(u)) && Handlers(u) == old(Handlers(u))
    {
      var bus := GetOrCreateBus(t);
      r := bus.Publish(event, run);
      if t !in old(buses) {
        assert bus.systems == [] && PublishAll(bus.systems, event, Dispatch(bus.handlers, run)).Ok?;
        assert r.Ok?;
        assert r.value == Unit;
      }
    }
  }
}
