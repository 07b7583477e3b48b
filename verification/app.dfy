/**
 The application controller: it owns the current state and the one state
 remembered before it, the message log it shares with the chat view, the
 chat view's scroll offset and the debug panel's focus, and it decides which
 view receives each key press and which components are drawn where.

 The views are collaborators whose behaviour is not modelled: each view's
 event handler is a function value that may change the shared resources and
 returns the view's answer.
 */
module AppController {
  import opened Types

  /** One entry of the message log. Its contents are opaque to the controller. */
  datatype MessageData = MessageData(time: string, author: string, payload: string)

  /** The controller's state. `config`, `messages` and `scrollOffset` are the
      resources it shares with the views (the scroll offset belongs to the
      chat view); `debugFocused` is the debug panel's focus flag. */
  datatype App = App(
    state: State,
    previousState: Option<State>,
    config: Config,
    messages: seq<MessageData>,
    scrollOffset: nat,
    debugFocused: bool)

  /** The resources a view's event handler can see and change. */
  datatype Shared = Shared(config: Config, messages: seq<MessageData>, scrollOffset: nat)

  /** What a view's event handler leaves behind and answers. */
  datatype ViewReply = ViewReply(shared: Shared, action: Option<TerminalAction<TwitchAction>>)

  /** A view's event handler. */
  type ViewHandler = (Event, Shared) -> ViewReply

  /** The three full-screen views' event handlers. */
  datatype Views = Views(dashboard: ViewHandler, chat: ViewHandler, help: ViewHandler)

  /** The result of one call of the controller's event entry point. */
  datatype Step = Step(app: App, action: Option<TerminalAction<TwitchAction>>)

  /** The view that is shown while `s` is the current state. */
  function HandlerFor(views: Views, s: State): ViewHandler {
    match s
    case Dashboard => views.dashboard
    case Normal => views.chat
    case Help => views.help
  }

  function SharedOf(app: App): Shared {
    Shared(app.config, app.messages, app.scrollOffset)
  }

  /** Nothing but the state and the remembered previous state differ. */
  predicate SameResources(a: App, b: App) {
    && a.config == b.config
    && a.messages == b.messages
    && a.scrollOffset == b.scrollOffset
    && a.debugFocused == b.debugFocused
  }

  /** A freshly built controller. The initial debug focus and scroll offset
      are whatever the components' constructors choose. */
  function NewApp(config: Config, debugFocused: bool, scrollOffset: nat): (app: App)
    ensures app.state == config.startState
    ensures app.previousState == None
    ensures app.messages == []
    ensures app.config == config
  {
    App(config.startState, None, config, [], scrollOffset, debugFocused)
  }

  /** The current state. */
  function GetState(app: App): (s: State)
    ensures s == app.state
  {
    app.state
  }

  /** The state before the last transition, or `None` before the first one. */
  function GetPreviousState(app: App): (s: Option<State>)
    ensures s == app.previousState
  {
    app.previousState
  }

  /** Switches to `other`, remembering the state it leaves. The memory holds
      one state only: it is overwritten, not pushed. */
  function SetState(app: App, other: State): (r: App)
    ensures GetState(r) == other
    ensures GetPreviousState(r) == Some(GetState(app))
    ensures SameResources(app, r)
  {
    app.(previousState := Some(app.state), state := other)
  }

  /** Empties the message log and scrolls the chat view back to the top. */
  function ClearMessages(app: App): (r: App)
    ensures r.messages == [] && r.scrollOffset == 0
    ensures r.state == app.state && r.previousState == app.previousState
    ensures r.config == app.config && r.debugFocused == app.debugFocused
  {
    app.(messages := [], scrollOffset := 0)
  }

  /** Routes one event. A tick is ignored; the debug key is consumed by the
      controller; any other key goes to the view of the current state, whose
      answer is returned unchanged. */
  function HandleEvent(app: App, ev: Event, views: Views): (r: Step)
    ensures !ev.Input? ==> r.app == app && r.action == None
    ensures ev == Input(DebugToggleKey) ==>
      && r.action == None
      && r.app == app.(debugFocused := !app.debugFocused)
    ensures ev.Input? && ev.key != DebugToggleKey ==>
      var reply := HandlerFor(views, app.state)(ev, SharedOf(app));
      && r.action == reply.action
      && SharedOf(r.app) == reply.shared
      && r.app.state == app.state
      && r.app.previousState == app.previousState
      && r.app.debugFocused == app.debugFocused
  {
    match ev
    case Tick => Step(app, None)
    case Input(key) =>
      if key == DebugToggleKey then
        Step(app.(debugFocused := !app.debugFocused), None)
      else
        var reply := HandlerFor(views, app.state)(ev, SharedOf(app));
        var app' := app.(config := reply.shared.config,
                         messages := reply.shared.messages,
                         scrollOffset := reply.shared.scrollOffset);
        Step(app', reply.action)
  }

  /* ---------------------------------------------------------------------- */
  /* Drawing                                                                */
  /* ---------------------------------------------------------------------- */

  /** Below this many rows or columns the content area is too small for any view. */
  const MinHeight: nat := 10
  const MinWidth: nat := 60

  /** One call of a component's draw routine, in the order they are made.
      `DrawView` names the full-screen view by the state it belongs to; only
      the chat view receives the emote context. The debug panel is drawn
      without an area and covers the whole frame. */
  datatype DrawCommand =
    | DrawTabs(area: Rect, current: State)
    | DrawError(area: Rect)
    | DrawView(view: State, area: Rect, withEmotes: bool)
    | DrawDebug

  predicate TooSmall(area: Rect) {
    area.height < MinHeight || area.width < MinWidth
  }

  /** The area left for content once the tab strip, if shown, has taken the
      bottom row. */
  function ContentArea(tabs: bool, width: u16, height: u16): (r: Rect)
    requires tabs ==> height >= 1
    ensures r.x == 0 && r.y == 0 && r.width == width
    ensures r.height == if tabs then height - 1 else height
  {
    if tabs then Rect(0, 0, width, height - 1) else FrameArea(width, height)
  }

  /** The bottom row of the frame, where the tab strip goes. */
  function TabsArea(width: u16, height: u16): Rect
    requires height >= 1
  {
    Rect(0, height - 1, width, 1)
  }

  /** The draw calls made for one frame of `width` by `height` cells.
      Position `base` (0, or 1 after the tab strip) holds either the error
      view, on the whole frame, or the current state's view, on the content
      area; the debug panel, when focused, comes last. */
  function Draw(app: App, width: u16, height: u16): (cmds: seq<DrawCommand>)
    requires app.config.stateTabs ==> height >= 1
    ensures var base := if app.config.stateTabs then 1 else 0;
      |cmds| == base + 1 + (if app.debugFocused then 1 else 0)
    ensures app.config.stateTabs ==> cmds[0] == DrawTabs(TabsArea(width, height), app.state)
    ensures forall i | 0 <= i < |cmds| ::
      cmds[i].DrawTabs? <==> app.config.stateTabs && i == 0
    ensures forall i | 0 <= i < |cmds| ::
      cmds[i].DrawDebug? <==> app.debugFocused && i == |cmds| - 1
    ensures var base := if app.config.stateTabs then 1 else 0;
      var content := ContentArea(app.config.stateTabs, width, height);
      forall i | 0 <= i < |cmds| ::
        && (cmds[i].DrawError? <==> i == base && TooSmall(content))
        && (cmds[i].DrawView? <==> i == base && !TooSmall(content))
    ensures forall i | 0 <= i < |cmds| && cmds[i].DrawError? ::
      cmds[i].area == FrameArea(width, height)
    ensures forall i | 0 <= i < |cmds| && cmds[i].DrawView? ::
      && cmds[i].view == app.state
      && cmds[i].area == ContentArea(app.config.stateTabs, width, height)
      && (cmds[i].withEmotes <==> app.state == Normal)
  {
    var tabs := if app.config.stateTabs then [DrawTabs(TabsArea(width, height), app.state)] else [];
    var content := ContentArea(app.config.stateTabs, width, height);
    var main :=
      if TooSmall(content) then DrawError(FrameArea(width, height))
      else DrawView(app.state, content, app.state == Normal);
    var debug := if app.debugFocused then [DrawDebug] else [];
    tabs + [main] + debug
  }
}
