/**
 Keyboard and window events: `input` and `handle_event` (src/renderer.rs).
 The windowing library's event types are replaced by a small abstract
 datatype carrying only what the two functions inspect.
 */
module InputRouter {
  import opened Keys
  import opened RendererState
  import opened ColorMode
  import opened Surface

  datatype ElementState = Pressed | Released

  /** The window events the renderer distinguishes; everything else is `OtherWindowEvent`. */
  datatype WindowEvent =
    | KeyboardInput(state: ElementState, keycode: Option<KeyCode>)
    | CloseRequested
    | Resized(newSize: Size)
    | ScaleFactorChanged(newInnerSize: Size)
    | OtherWindowEvent

  /** An event from the loop: addressed to some window, or not a window event at all. */
  datatype Event =
    | ForWindow(windowId: nat, event: WindowEvent)
    | OtherEvent

  /** What `input` reports: whether it consumed the event, and the state afterwards. */
  datatype InputResult = InputResult(consumed: bool, state: State)

  /** What `handle_event` reports: whether the application should exit, and the state afterwards. */
  datatype HandleResult = HandleResult(exit: bool, state: State)

  /**
   `input`: a bound key code records its pressed state in its slot; Return
   toggles the colour mode on a press and is consumed either way; any other
   event, or a key event without a key code, is not consumed and changes nothing.
   */
  function Input(s: State, e: WindowEvent): (out: InputResult)
    ensures out.consumed <==>
      e.KeyboardInput? && e.keycode.Some? && (e.keycode.value == Return || KeySlot(e.keycode.value).Some?)
    ensures !out.consumed ==> out.state == s
    ensures out.state.size == s.size && out.state.config == s.config && out.state.wind == s.wind
  {
    match e
    case KeyboardInput(st, Some(k)) =>
      var pressed := st == Pressed;
      if k == Return then
        InputResult(true, if pressed then Toggle(s) else s)
      else
        (match KeySlot(k)
         case Some(i) => InputResult(true, s.(keys := s.keys[i := pressed]))
         case None => InputResult(false, s))
    case _ => InputResult(false, s)
  }

  /** A bound key sets exactly its own slot to "pressed" or "released" and changes nothing else. */
  lemma InputSetsSlot(s: State, st: ElementState, i: nat)
    requires i < SlotCount
    ensures var out := Input(s, KeyboardInput(st, Some(SlotKey(i))));
      && out.consumed
      && out.state == s.(keys := s.keys[i := st == Pressed])
      && out.state.keys[i] == (st == Pressed)
      && (forall j :: 0 <= j < SlotCount && j != i ==> out.state.keys[j] == s.keys[j])
  {
  }

  /** Delivering the same bound key event twice is the same as delivering it once. */
  lemma InputIdempotent(s: State, st: ElementState, k: KeyCode)
    requires KeySlot(k).Some?
    ensures var once := Input(s, KeyboardInput(st, Some(k))).state;
      Input(once, KeyboardInput(st, Some(k))) == InputResult(true, once)
  {
  }

  /** Return: a press toggles the colour mode; a release changes nothing; both are consumed. */
  lemma InputReturn(s: State)
    ensures Input(s, KeyboardInput(Pressed, Some(Return))) == InputResult(true, Toggle(s))
    ensures Input(s, KeyboardInput(Released, Some(Return))) == InputResult(true, s)
    ensures var t := Input(s, KeyboardInput(Pressed, Some(Return))).state;
      Input(t, KeyboardInput(Pressed, Some(Return))).state == s
  {
  }

  /**
   `handle_event`: events for another window, and non-window events, are
   ignored. An event `input` consumes is handled there. Otherwise a close
   request or an Escape press asks to exit, and a resize or scale change
   resizes; nothing else has an effect.
   */
  function HandleEvent(s: State, e: Event, ownId: nat): (out: HandleResult)
    ensures out.exit <==>
      e.ForWindow? && e.windowId == ownId &&
      (e.event.CloseRequested? || e.event == KeyboardInput(Pressed, Some(Escape)))
    ensures out.exit ==> out.state == s
    ensures !(e.ForWindow? && e.windowId == ownId) ==> out.state == s
  {
    match e
    case OtherEvent => HandleResult(false, s)
    case ForWindow(id, we) =>
      if id != ownId then HandleResult(false, s)
      else
        var inp := Input(s, we);
        if inp.consumed then HandleResult(false, inp.state)
        else
          match we
          case CloseRequested => HandleResult(true, s)
          case KeyboardInput(st, code) =>
            HandleResult(st == Pressed && code == Some(Escape), s)
          case Resized(size) => HandleResult(false, Resize(s, size))
          case ScaleFactorChanged(size) => HandleResult(false, Resize(s, size))
          case OtherWindowEvent => HandleResult(false, s)
  }

  /** Which of `input`, `resize` or nothing decides the state after an event for the renderer's window. */
  lemma HandleEventRouting(s: State, we: WindowEvent, ownId: nat)
    ensures var out := HandleEvent(s, ForWindow(ownId, we), ownId);
      && (Input(s, we).consumed ==> out.state == Input(s, we).state)
      && (we.Resized? ==> out.state == Resize(s, we.newSize))
      && (we.ScaleFactorChanged? ==> out.state == Resize(s, we.newInnerSize))
      && (!Input(s, we).consumed && !we.Resized? && !we.ScaleFactorChanged? ==> out.state == s)
  {
  }
}
