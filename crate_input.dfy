/**
 * `Input` of the input crate: the mouse position and the button states,
 * updated by each window event, which is then published on the
 * scheduler's event bus. A publish error is returned to the caller.
 */
module CrateInput {
  import opened Wrappers
  import opened InputTypes
  import opened EventDispatch
  import SchedulerBus

  /** The bus key of `InputEvent`. */
  const INPUT_EVENT: EventType := EventType("InputEvent")

  /** `winit::event::MouseButton`. */
  datatype WinitMouseButton = Left | Right | Middle | Other(code: u16)

  /** `winit::event::ElementState`. */
  datatype ElementState = Pressed | Released

  /** `From<winit::event::MouseButton> for MouseButton`. */
  function FromWinitButton(b: WinitMouseButton): (r: MouseButtonId)
  {
    match b
    case Left => MouseButtonId.Left
    case Right => MouseButtonId.Right
    case Middle => MouseButtonId.Middle
    case Other(x) => MouseButtonId.Other(x)
  }

  /** `From<winit::event::ElementState> for ButtonState`. */
  function FromElementState(s: ElementState): (r: ButtonState)
  {
    match s
    case Pressed => ButtonState.Pressed
    case Released => ButtonState.Released
  }

  /** Every button has exactly one winit counterpart: the conversion is one-to-one and onto. */
  lemma ButtonConversionBijective(a: WinitMouseButton, b: WinitMouseButton, m: MouseButtonId)
    ensures FromWinitButton(a) == FromWinitButton(b) ==> a == b
    ensures exists w :: FromWinitButton(w) == m
  {
    match m
    case Left => assert FromWinitButton(WinitMouseButton.Left) == m;
    case Right => assert FromWinitButton(WinitMouseButton.Right) == m;
    case Middle => assert FromWinitButton(WinitMouseButton.Middle) == m;
    case Other(x) => assert FromWinitButton(WinitMouseButton.Other(x)) == m;
  }

  /** Both element states convert, to different button states. */
  lemma StateConversionBijective(s: ElementState, t: ElementState, b: ButtonState)
    ensures FromElementState(s) == FromElementState(t) ==> s == t
    ensures exists w :: FromElementState(w) == b
  {
    if b.Pressed? {
      assert FromElementState(ElementState.Pressed) == b;
    } else {
      assert FromElementState(ElementState.Released) == b;
    }
  }

  class Input {
    var mouse: Position
    var mouseButtons: map<MouseButtonId, ButtonState>
    var kbButtons: map<Key, ButtonState>
    const bus: SchedulerBus.EventBus
    /** The events handed to `bus.publish`, in order. */
    ghost var published: seq<InputEvent>

    ghost predicate Valid()
      reads this, bus
    {
      bus.Valid()
    }

    /** What publishing `e` returns, with the handlers' results dropped. */
    ghost function Outcome(e: InputEvent, run: (Caller, nat, InputEvent) -> Result<Unit>): (r: Result<Unit>)
      reads bus, bus.buses.Values
    {
      match PublishAll(bus.Subscribers(INPUT_EVENT), e, Dispatch(bus.Handlers(INPUT_EVENT), run))
      case Ok(_) => Ok(Unit)
      case Err(m) => Err(m)
    }

    /** `new`: the mouse at the origin and no button seen. */
    constructor (bus: SchedulerBus.EventBus)
      requires bus.Valid()
      ensures Valid() && this.bus == bus
      ensures mouse == Position(0.0, 0.0) && mouseButtons == map[] && kbButtons == map[]
      ensures published == []
    {
      this.bus := bus;
      mouse := Position(0.0, 0.0);
      mouseButtons := map[];
      kbButtons := map[];
      published := [];
    }

    /**
     * `process_event`: update the state the event carries, then publish
     * it. A new mouse position is first processed as the `MouseMove` it
     * implies; if publishing that fails, the error is returned before
     * the position is stored or published.
     */
    method ProcessEvent(event: InputEvent, run: (Caller, nat, InputEvent) -> Result<Unit>) returns (r: Result<Unit>)
      requires Valid()
      modifies this, bus
      decreases if event.MousePosition? then 1 else 0
      ensures Valid()
      ensures forall t :: bus.Subscribers(t) == old(bus.Subscribers(t)) && bus.Handlers(t) == old(bus.Handlers(t))
      ensures event.MousePosition? ==>
                var move := MoveTo(old(mouse), event.pos);
                && mouseButtons == old(mouseButtons) && kbButtons == old(kbButtons)
                && (Outcome(move, run).Err? ==>
                      r == Outcome(move, run) && mouse == old(mouse) && published == old(published) + [move])
                && (Outcome(move, run).Ok? ==>
                      r == Outcome(event, run) && mouse == event.pos && published == old(published) + [move, event])
      ensures !event.MousePosition? ==> mouse == old(mouse) && r == Outcome(event, run) && published == old(published) + [event]
      ensures event.MouseButton? ==>
                mouseButtons == old(mouseButtons)[event.mouse.button := event.mouse.state] && kbButtons == old(kbButtons)
      ensures event.Button? ==>
                kbButtons == old(kbButtons)[event.key.button := event.key.state] && mouseButtons == old(mouseButtons)
      ensures event.MouseMove? || event.Scroll? ==> mouseButtons == old(mouseButtons) && kbButtons == old(kbButtons)
    {
      match event {
        case MousePosition(pos) =>
          var moved := ProcessEvent(MoveTo(mouse, pos), run);
          if moved.Err? {
            return moved;
          }
          mouse := pos;
        case MouseButton(state) =>
          mouseButtons := mouseButtons[state.button := state.state];
        case Button(state) =>
          kbButtons := kbButtons[state.button := state.state];
        case Scroll(_) =>
        case MouseMove(_) =>
      }
      r := PublishEvent(event, run);
    }

    /** The `publish` that ends `process_event`: the outcome of `event`'s handlers, results dropped. */
    method PublishEvent(event: InputEvent, run: (Caller, nat, InputEvent) -> Result<Unit>) returns (r: Result<Unit>)
      requires Valid()
      modifies this`published, bus
      ensures Valid()
      ensures forall t :: bus.Subscribers(t) == old(bus.Subscribers(t)) && bus.Handlers(t) == old(bus.Handlers(t))
      ensures r == old(Outcome(event, run))
      ensures published == old(published) + [event]
    {
      var sent := bus.Publish(INPUT_EVENT, event, run);
      published := published + [event];
      r := if sent.Ok? then Ok(Unit) else Err(sent.message);
    }

    /** `get_key`: the latest state of `key`, released if never seen. */
    function GetKey(key: Key): (s: ButtonState)
      reads this
      ensures key !in kbButtons ==> s == ButtonState.Released
      ensures key in kbButtons ==> s == kbButtons[key]
    {
      StateOf(kbButtons, key)
    }

    /** `get_mouse_key`: the latest state of `button`, released if never seen. */
    function GetMouseKey(button: MouseButtonId): (s: ButtonState)
      reads this
      ensures button !in mouseButtons ==> s == ButtonState.Released
      ensures button in mouseButtons ==> s == mouseButtons[button]
    {
      StateOf(mouseButtons, button)
    }
  }
}
