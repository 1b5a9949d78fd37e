/**
 * What publishing an event means in both event buses: every subscribed
 * caller is called in subscription order, and the first error ends the
 * walk. A caller is a stored system, which runs the handler it holds for
 * the event's type when it is called; what a handler does is foreign to
 * the buses, so its outcome is given by a function of the caller, the
 * handler and the event.
 */
module EventDispatch {
  import opened Wrappers

  /**
   * A subscribed `Caller`: a stored system. The system keeps one handler
   * per event type, so a caller carries no handler of its own.
   */
  datatype Caller = Caller(system: nat)

  /** The error of a system that holds no handler for the event's type. */
  const NO_HANDLER: string := "No handler for this event"

  /**
   * `StoredSystem::call`: the system runs the handler it holds for the
   * event's type (`handlers`, by system), or fails with `NO_HANDLER`;
   * `run` is what a handler does.
   */
  function Dispatch<E, R>(handlers: map<nat, nat>, run: (Caller, nat, E) -> Result<R>): (Caller, E) -> Result<R>
  {
    (c: Caller, e: E) => if c.system in handlers then run(c, handlers[c.system], e) else Err(NO_HANDLER)
  }

  /**
   * Subscribing a system again replaces its handler for the event type,
   * so each of its entries, the earlier ones included, runs the newest
   * handler.
   */
  lemma NewestHandlerRuns<E, R>(callers: seq<Caller>, handlers: map<nat, nat>, system: nat, handler: nat,
                                event: E, run: (Caller, nat, E) -> Result<R>)
    ensures forall i :: 0 <= i < |callers| && callers[i].system == system ==>
              Dispatch(handlers[system := handler], run)(callers[i], event) == run(callers[i], handler, event)
  {
  }

  /** The static type of an event, which selects its typed bus. */
  datatype EventType = EventType(name: string)

  /** The calls of `callers` on `event`, stopping at the first error. */
  function PublishAll<E, R>(callers: seq<Caller>, event: E, call: (Caller, E) -> Result<R>): (r: Result<seq<R>>)
    ensures r.Ok? ==> |r.value| == |callers|
  {
    if |callers| == 0 then Ok([])
    else match call(callers[0], event)
      case Err(m) => Err(m)
      case Ok(first) =>
        match PublishAll(callers[1..], event, call)
        case Err(m) => Err(m)
        case Ok(rest) => Ok([first] + rest)
  }

  /** The position of the first caller whose call fails, or `|callers|` when none does. */
  function FirstFailure<E, R>(callers: seq<Caller>, event: E, call: (Caller, E) -> Result<R>): (k: nat)
    ensures k <= |callers|
    ensures forall i :: 0 <= i < k ==> call(callers[i], event).Ok?
    ensures k < |callers| ==> call(callers[k], event).Err?
  {
    if |callers| == 0 then 0
    else if call(callers[0], event).Err? then 0
    else 1 + FirstFailure(callers[1..], event, call)
  }

  /**
   * Publishing succeeds exactly when no call fails, and then yields each
   * caller's result at its position; otherwise it yields the error of the
   * first failing caller.
   */
  lemma {:induction false} PublishAllMeaning<E, R>(callers: seq<Caller>, event: E, call: (Caller, E) -> Result<R>)
    ensures var r := PublishAll(callers, event, call);
            var k := FirstFailure(callers, event, call);
            && (r.Ok? <==> k == |callers|)
            && (r.Ok? ==> forall i :: 0 <= i < |callers| ==> r.value[i] == call(callers[i], event).value)
            && (r.Err? ==> r.message == call(callers[k], event).message)
  {
    if |callers| > 0 && call(callers[0], event).Ok? {
      PublishAllMeaning(callers[1..], event, call);
    }
  }

  /** One more subscriber adds its result at the end, or its error when all earlier calls succeed. */
  lemma {:induction false} PublishAllSnoc<E, R>(callers: seq<Caller>, c: Caller, event: E, call: (Caller, E) -> Result<R>)
    ensures var before := PublishAll(callers, event, call);
            PublishAll(callers + [c], event, call) ==
              if before.Err? then before
              else match call(c, event)
                case Err(m) => Err(m)
                case Ok(v) => Ok(before.value + [v])
    decreases |callers|
  {
    if |callers| > 0 {
      assert (callers + [c])[0] == callers[0];
      assert (callers + [c])[1..] == callers[1..] + [c];
      PublishAllSnoc(callers[1..], c, event, call);
      var rest := PublishAll(callers[1..], event, call);
      if call(callers[0], event).Ok? && rest.Ok? && call(c, event).Ok? {
        var first, v := call(callers[0], event).value, call(c, event).value;
        assert [first] + (rest.value + [v]) == ([first] + rest.value) + [v];
      }
    } else {
      assert callers + [c] == [c];
      assert [c][1..] == [];
      assert PublishAll([c][1..], event, call) == Ok([]);
      match call(c, event)
      case Err(m) =>
      case Ok(v) => assert [v] + [] == [] + [v];
    }
  }
}
