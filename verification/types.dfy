/**
 The vocabulary shared by the application controller and its views: the
 top-level application states, key and terminal events, the outbound action
 type, the configuration fields the core reads or writes, and terminal areas.
 */
module Types {

  /** The conventional optional value. */
  datatype Option<+T> = None | Some(value: T)

  /** An unsigned 16-bit integer, the width of terminal coordinates. */
  type u16 = x: int | 0 <= x < 0x1_0000

  /** The mutually exclusive full-screen views; exactly one is current. */
  datatype State = Dashboard | Normal | Help

  /** A key press as delivered by the terminal. Only `Ctrl('d')` has a
      meaning of its own in this core; every other key is forwarded. */
  datatype Key =
    | Char(c: char)
    | Ctrl(c: char)
    | Alt(c: char)
    | Backspace
    | Delete
    | Esc
    | Enter
    | Tab
    | Up
    | Down
    | Left
    | Right
    | Home
    | End
    | ScrollUp
    | ScrollDown
    | Null

  /** An event pushed by the outer event loop: a key press or a timer tick. */
  datatype Event = Input(key: Key) | Tick

  /** The key combination the controller reserves for toggling the debug panel. */
  const DebugToggleKey: Key := Ctrl('d')

  /** A request to the chat connection. */
  datatype TwitchAction = Join(channel: string)

  /** What a view asks its caller to do. The payload of `Enter` is
      view-specific, the other variants form a fixed control vocabulary. */
  datatype TerminalAction<T> =
    | Enter(payload: T)
    | Quit
    | BackOneLayer
    | SwitchState(state: State)
    | ClearMessages
  {
    /** Rewrites the payload of `Enter`; every other variant is kept as is. */
    function MapPayload<U>(f: T -> U): (r: TerminalAction<U>)
      ensures Enter? <==> r.Enter?
      ensures Enter? ==> r.payload == f(payload)
      ensures !Enter? ==> SameControl(this, r)
    {
      match this
      case Enter(p) => TerminalAction.Enter(f(p))
      case Quit => Quit
      case BackOneLayer => BackOneLayer
      case SwitchState(s) => SwitchState(s)
      case ClearMessages => ClearMessages
    }
  }

  /** Two actions carry the same control variant, with the same state for
      `SwitchState`; the payload types may differ. */
  predicate SameControl<T, U>(a: TerminalAction<T>, b: TerminalAction<U>) {
    && (a.Quit? <==> b.Quit?)
    && (a.BackOneLayer? <==> b.BackOneLayer?)
    && (a.ClearMessages? <==> b.ClearMessages?)
    && (a.SwitchState? <==> b.SwitchState?)
    && (a.SwitchState? && b.SwitchState? ==> a.state == b.state)
  }

  /** The configuration fields this core reads or writes: whether the state
      tab strip is shown, the state the application starts in, and the
      channel currently joined. */
  datatype Config = Config(stateTabs: bool, startState: State, channel: string)

  /** A rectangle of terminal cells. */
  datatype Rect = Rect(x: u16, y: u16, width: u16, height: u16)

  /** The whole terminal of the given size, anchored at the origin. */
  function FrameArea(width: u16, height: u16): Rect {
    Rect(0, 0, width, height)
  }
}
