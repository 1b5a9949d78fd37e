/**
 * The event bus of the scheduler crate: one typed bus per event type, each
 * holding the callers subscribed to that type in subscription order.
 * Publishing returns the handlers' results in that order, or the first
 * error. The registry of typed buses is a map from event type to bus; the
 * locks around it are not modelled.
 */
module SchedulerBus {
  import opened Wrappers
  import opened EventDispatch

  class TypedEventBus {
    var systems: seq<Caller>
    /**
     * The handler each system holds for this bus's event type. The source
     * keeps it in the system's own registry, keyed by the handler type,
     * which names the event type.
     */
    var handlers: map<nat, nat>

    /** Every subscribed system holds a handler for this event type. */
    ghost predicate Registered()
      reads this
    {
      forall i :: 0 <= i < |systems| ==> systems[i].system in handlers
    }

    /** `new`: no subscribers. */
    constructor ()
      ensures systems == [] && handlers == map[] && Registered()
    {
      systems := [];
      handlers := map[];
    }

    /**
     * `register_system`: the system now holds `handler` for this event
     * type, replacing any handler it held, and is called last.
     */
    method RegisterSystem(system: nat, handler: nat)
      modifies this
      ensures systems == old(systems) + [Caller(system)]
      ensures handlers == old(handlers)[system := handler]
      ensures old(Registered()) ==> Registered()
    {
      handlers := handlers[system := handler];
      systems := systems + [Caller(system)];
    }

    /**
     * `publish`: call every system in order, collecting the results; the
     * first error is returned at once and later systems are not called.
     */
    method Publish<E, R>(event: E, run: (Caller, nat, E) -> Result<R>) returns (r: Result<seq<R>>)
      ensures r == PublishAll(systems, event, Dispatch(handlers, run))
    {
      var call := Dispatch(handlers, run);
      var results: seq<R> := [];
      var i := 0;
      while i < |systems|
        invariant 0 <= i <= |systems| && |results| == i
        invariant forall j :: 0 <= j < i ==> call(systems[j], event).Ok? && results[j] == call(systems[j], event).value
      {
        var outcome := call(systems[i], event);
        if outcome.Err? {
          PublishAllMeaning(systems, event, call);
          assert FirstFailure(systems, event, call) == i;
          return Err(outcome.message);
        }
        results := results + [outcome.value];
        i := i + 1;
      }
      PublishAllMeaning(systems, event, call);
      assert results == PublishAll(systems, event, call).value;
      r := Ok(results);
    }
  }

  class EventBus {
    var buses: map<EventType, TypedEventBus>

    /** Each event type has a bus of its own. */
    ghost predicate Valid()
      reads this
    {
      forall t, u :: t in buses && u in buses && t != u ==> buses[t] != buses[u]
    }

    /** The callers subscribed to `t`; an event type without a bus has none. */
    ghost function Subscribers(t: EventType): seq<Caller>
      reads this, buses.Values
    {
      if t in buses then buses[t].systems else []
    }

    /** The handler each system holds for `t`; an event type without a bus has none. */
    ghost function Handlers(t: EventType): map<nat, nat>
      reads this, buses.Values
    {
      if t in buses then buses[t].handlers else map[]
    }

    /** `new`: no buses. */
    constructor ()
      ensures Valid() && buses == map[]
    {
      buses := map[];
    }

    /**
     * `with_event_bus`: the bus of `t`, created empty (by
     * `with_new_event_bus`) when there is none yet.
     */
    method WithEventBus(t: EventType) returns (bus: TypedEventBus)
      requires Valid()
      modifies this
      ensures Valid()
      ensures t in buses && bus == buses[t]
      ensures t in old(buses) ==> buses == old(buses)
      ensures t !in old(buses) ==> fresh(bus) && bus.systems == [] && bus.handlers == map[] && buses == old(buses)[t := bus]
    {
      if t in buses {
        bus := buses[t];
      } else {
        bus := new TypedEventBus();
        buses := buses[t := bus];
      }
    }

    /** `subscribe`: one more caller for `t`; every other event type keeps its subscribers. */
    method Subscribe(t: EventType, system: nat, handler: nat)
      requires Valid()
      modifies this, buses.Values
      ensures Valid()
      ensures t in buses
      ensures Subscribers(t) == old(Subscribers(t)) + [Caller(system)]
      ensures Handlers(t) == old(Handlers(t))[system := handler]
      ensures forall u :: u != t ==> Subscribers(u) == old(Subscribers(u)) && Handlers(u) == old(Handlers(u))
    {
      var bus := WithEventBus(t);
      bus.RegisterSystem(system, handler);
    }

    /**
     * `publish`: the results of `t`'s subscribers, in order, or the first
     * error. A type nobody subscribed to gets an empty bus and no results.
     */
    method Publish<E, R>(t: EventType, event: E, run: (Caller, nat, E) -> Result<R>) returns (r: Result<seq<R>>)
      requires Valid()
      modifies this
      ensures Valid()
      ensures t in buses
      ensures r == PublishAll(old(Subscribers(t)), event, Dispatch(old(Handlers(t)), run))
      ensures t !in old(buses) ==> r == Ok([])
      ensures forall u :: Subscribers(u) == old(Subscribers(u)) && Handlers(u) == old(Handlers(u))
    {
      var bus := WithEventBus(t);
      r := bus.Publish(event, run);
    }
  }
}
