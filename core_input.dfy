/**
 * `Input` of the application's `core` module: the same state updates as
 * the input crate, but each event goes to the registered listeners
 * instead of a bus. A failing listener only has its error logged, and the
 * remaining listeners still run.
 */
module CoreInput {
  import opened Wrappers
  import opened InputTypes

  /** One call of a listener's `handle`. */
  datatype Notification = Notification(listener: nat, event: InputEvent)

  /** The calls that notifying `listeners` of `e` makes, in registration order. */
  function Notifications(listeners: seq<nat>, e: InputEvent): (r: seq<Notification>)
    ensures |r| == |listeners|
  {
    if |listeners| == 0 then [] else [Notification(listeners[0], e)] + Notifications(listeners[1..], e)
  }

  /** Each listener is called once with the event, at its own position. */
  lemma {:induction false} NotificationsMeaning(listeners: seq<nat>, e: InputEvent)
    ensures forall i :: 0 <= i < |listeners| ==> Notifications(listeners, e)[i] == Notification(listeners[i], e)
  {
    if |listeners| > 0 {
      NotificationsMeaning(listeners[1..], e);
    }
  }

  /** The errors `safe_unwrap` logs while notifying `listeners` of `e`, in order. */
  function Failures(listeners: seq<nat>, e: InputEvent, handle: (nat, InputEvent) -> Result<Unit>): (r: seq<string>)
    ensures |r| <= |listeners|
  {
    if |listeners| == 0 then []
    else
      var rest := Failures(listeners[1..], e, handle);
      if handle(listeners[0], e).Err? then [handle(listeners[0], e).message] + rest else rest
  }

  /**
   * A message is logged exactly when some listener fails with it, and
   * nothing is logged when every listener succeeds.
   */
  lemma {:induction false} FailuresMeaning(listeners: seq<nat>, e: InputEvent, handle: (nat, InputEvent) -> Result<Unit>, m: string)
    ensures m in Failures(listeners, e, handle) <==>
              exists i :: 0 <= i < |listeners| && handle(listeners[i], e) == Err(m)
    ensures Failures(listeners, e, handle) == [] <==>
              forall i :: 0 <= i < |listeners| ==> handle(listeners[i], e).Ok?
  {
    if |listeners| > 0 {
      FailuresMeaning(listeners[1..], e, handle, m);
      var rest := listeners[1..];
      assert forall i :: 0 < i < |listeners| ==> listeners[i] == rest[i - 1];
      if exists i :: 0 <= i < |rest| && handle(rest[i], e) == Err(m) {
        var i :| 0 <= i < |rest| && handle(rest[i], e) == Err(m);
        assert handle(listeners[i + 1], e) == Err(m);
      }
    }
  }

  /** One listener more adds its own call at the end. */
  lemma {:induction false} NotificationsSnoc(listeners: seq<nat>, l: nat, e: InputEvent)
    ensures Notifications(listeners + [l], e) == Notifications(listeners, e) + [Notification(l, e)]
    decreases |listeners|
  {
    if |listeners| == 0 {
      assert listeners + [l] == [l];
      assert [l][1..] == [];
    } else {
      assert (listeners + [l])[0] == listeners[0];
      assert (listeners + [l])[1..] == listeners[1..] + [l];
      NotificationsSnoc(listeners[1..], l, e);
    }
  }

  /** One listener more adds its own failure, if any, at the end. */
  lemma {:induction false} FailuresSnoc(listeners: seq<nat>, l: nat, e: InputEvent, handle: (nat, InputEvent) -> Result<Unit>)
    ensures Failures(listeners + [l], e, handle) ==
              Failures(listeners, e, handle) + (if handle(l, e).Err? then [handle(l, e).message] else [])
    decreases |listeners|
  {
    if |listeners| == 0 {
      assert listeners + [l] == [l];
      assert [l][1..] == [];
    } else {
      assert (listeners + [l])[0] == listeners[0];
      assert (listeners + [l])[1..] == listeners[1..] + [l];
      FailuresSnoc(listeners[1..], l, e, handle);
    }
  }

  class Input {
    var mouse: Position
    var mouseButtons: map<MouseButtonId, ButtonState>
    var kbButtons: map<Key, ButtonState>
    var listeners: seq<nat>
    /** The error log that `safe_unwrap` writes to. */
    var logged: seq<string>
    /** The listener calls made so far, in order. */
    ghost var notified: seq<Notification>

    /** `Default`: the mouse at the origin, no button seen, no listener. */
    constructor ()
      ensures mouse == Position(0.0, 0.0) && mouseButtons == map[] && kbButtons == map[]
      ensures listeners == [] && logged == [] && notified == []
    {
      mouse := Position(0.0, 0.0);
      mouseButtons := map[];
      kbButtons := map[];
      listeners := [];
      logged := [];
      notified := [];
    }

    /**
     * `fire_event_listeners`: every listener handles the event, in
     * registration order; an error is logged and the loop goes on.
     */
    method FireEventListeners(event: InputEvent, handle: (nat, InputEvent) -> Result<Unit>)
      modifies this`logged, this`notified
      ensures notified == old(notified) + Notifications(listeners, event)
      ensures logged == old(logged) + Failures(listeners, event, handle)
    {
      var ls := listeners;
      ghost var calls: seq<Notification> := [];
      var errors: seq<string> := [];
      var i := 0;
      while i < |ls|
        invariant 0 <= i <= |ls|
        invariant calls == Notifications(ls[..i], event)
        invariant errors == Failures(ls[..i], event, handle)
        invariant notified == old(notified) && logged == old(logged)
      {
        var outcome := handle(ls[i], event);
        calls := calls + [Notification(ls[i], event)];
        if outcome.Err? {
          errors := errors + [outcome.message];
        }
        FailuresSnoc(ls[..i], ls[i], event, handle);
        NotificationsSnoc(ls[..i], ls[i], event);
        assert ls[..i + 1] == ls[..i] + [ls[i]];
        i := i + 1;
      }
      assert ls[..i] == ls;
      notified := notified + calls;
      logged := logged + errors;
    }

    /**
     * `process_event`: update the state the event carries, then notify the
     * listeners. A new mouse position is first processed in full as the
     * `MouseMove` it implies, and only then stored.
     */
    method ProcessEvent(event: InputEvent, handle: (nat, InputEvent) -> Result<Unit>)
      modifies this`mouse, this`mouseButtons, this`kbButtons, this`logged, this`notified
      decreases if event.MousePosition? then 1 else 0
      ensures event.MousePosition? ==>
                var move := MoveTo(old(mouse), event.pos);
                && mouse == event.pos && mouseButtons == old(mouseButtons) && kbButtons == old(kbButtons)
                && notified == old(notified) + Notifications(listeners, move) + Notifications(listeners, event)
                && logged == old(logged) + Failures(listeners, move, handle) + Failures(listeners, event, handle)
      ensures !event.MousePosition? ==>
                && mouse == old(mouse)
                && notified == old(notified) + Notifications(listeners, event)
                && logged == old(logged) + Failures(listeners, event, handle)
      ensures event.MouseButton? ==>
                mouseButtons == old(mouseButtons)[event.mouse.button := event.mouse.state] && kbButtons == old(kbButtons)
      ensures event.Button? ==>
                kbButtons == old(kbButtons)[event.key.button := event.key.state] && mouseButtons == old(mouseButtons)
      ensures event.MouseMove? || event.Scroll? ==> mouseButtons == old(mouseButtons) && kbButtons == old(kbButtons)
    {
      match event {
        case MousePosition(pos) =>
          ProcessEvent(MoveTo(mouse, pos), handle);
          mouse := pos;
        case MouseButton(state) =>
          mouseButtons := mouseButtons[state.button := state.state];
        case Button(state) =>
          kbButtons := kbButtons[state.button := state.state];
        case Scroll(_) =>
        case MouseMove(_) =>
      }
      FireEventListeners(event, handle);
    }

    /** `add_listener`: one more listener, called after all earlier ones. */
    method AddListener(listener: nat)
      modifies this`listeners
      ensures listeners == old(listeners) + [listener]
    {
      listeners := listeners + [listener];
    }

    /** `get_key`: the latest state of `key`, released if never seen. */
    function GetKey(key: Key): (s: ButtonState)
      reads this
      ensures key !in kbButtons ==> s == Released
      ensures key in kbButtons ==> s == kbButtons[key]
    {
      StateOf(kbButtons, key)
    }

    /** `get_mouse_key`: the latest state of `button`, released if never seen. */
    function GetMouseKey(button: MouseButtonId): (s: ButtonState)
      reads this
      ensures button !in mouseButtons ==> s == Released
      ensures button in mouseButtons ==> s == mouseButtons[button]
    {
      StateOf(mouseButtons, button)
    }
  }
}
