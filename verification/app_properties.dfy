/**
 Properties of the application controller that relate several calls: the
 depth of the state history, the clearing of the message log, the routing
 of events and the size floor of drawing.
 */
module AppProperties {
  import opened Types
  import opened AppController

  /* ---------------------------------------------------------------------- */
  /* State history                                                          */
  /* ---------------------------------------------------------------------- */

  /** The controller after `SetState` has been called with each of `ss`, in
      order. Whatever the number of calls, only the last state set and the one
      set before it survive. */
  function SetStates(app: App, ss: seq<State>): (r: App)
    decreases |ss|
    ensures SameResources(app, r)
    ensures |ss| == 0 ==> r == app
    ensures |ss| >= 1 ==> GetState(r) == ss[|ss| - 1]
    ensures |ss| == 1 ==> GetPreviousState(r) == Some(GetState(app))
    ensures |ss| >= 2 ==> GetPreviousState(r) == Some(ss[|ss| - 2])
  {
    if |ss| == 0 then app else SetStates(SetState(app, ss[0]), ss[1..])
  }

  /** Setting states in two batches is setting them all at once. */
  lemma {:induction false} SetStatesAppend(app: App, s1: seq<State>, s2: seq<State>)
    ensures SetStates(app, s1 + s2) == SetStates(SetStates(app, s1), s2)
    decreases |s1|
  {
    if |s1| == 0 {
      assert s1 + s2 == s2;
    } else {
      assert (s1 + s2)[1..] == s1[1..] + s2;
      SetStatesAppend(SetState(app, s1[0]), s1[1..], s2);
    }
  }

  /** Right after construction there is no previous state; the first
      transition remembers the configured start state. */
  lemma FirstTransitionRemembersStart(config: Config, debug: bool, scroll: nat, s: State)
    ensures GetPreviousState(NewApp(config, debug, scroll)) == None
    ensures GetPreviousState(SetState(NewApp(config, debug, scroll), s)) == Some(config.startState)
  {
  }

  /** Two controllers whose last two transitions agree are indistinguishable
      as far as the state and its history go: earlier history is lost. */
  lemma OnlyOneLevelOfHistory(a: App, b: App, p: seq<State>, q: seq<State>, x: State, y: State)
    ensures GetState(SetStates(a, p + [x, y])) == GetState(SetStates(b, q + [x, y])) == y
    ensures GetPreviousState(SetStates(a, p + [x, y])) == GetPreviousState(SetStates(b, q + [x, y])) == Some(x)
  {
  }

  /** Starting in the dashboard, going to chat and then to help leaves chat
      as the previous state. */
  lemma DashboardChatHelpScenario(config: Config, debug: bool, scroll: nat)
    requires config.startState == Dashboard
    ensures GetPreviousState(SetState(SetState(NewApp(config, debug, scroll), Normal), Help)) == Some(Normal)
  {
  }

  /* ---------------------------------------------------------------------- */
  /* Clearing the message log                                               */
  /* ---------------------------------------------------------------------- */

  /** Clearing twice is clearing once, and clearing is independent of state
      transitions. */
  lemma ClearMessagesIdempotentAndCommutes(app: App, s: State)
    ensures AppController.ClearMessages(AppController.ClearMessages(app)) == AppController.ClearMessages(app)
    ensures AppController.ClearMessages(SetState(app, s)) == SetState(AppController.ClearMessages(app), s)
  {
  }

  /* ---------------------------------------------------------------------- */
  /* Event routing                                                          */
  /* ---------------------------------------------------------------------- */

  /** `views` with the handler of the view for `s` replaced by `h`. */
  function ReplaceHandler(views: Views, s: State, h: ViewHandler): Views {
    match s
    case Dashboard => views.(dashboard := h)
    case Normal => views.(chat := h)
    case Help => views.(help := h)
  }

  /** The debug key is never seen by any view: the outcome is the same
      whatever the views would have done with it. */
  lemma DebugKeyNeverReachesViews(app: App, v1: Views, v2: Views)
    ensures HandleEvent(app, Input(DebugToggleKey), v1) == HandleEvent(app, Input(DebugToggleKey), v2)
  {
  }

  /** Pressing the debug key twice restores the controller. */
  lemma DebugToggleTwiceRestores(app: App, views: Views)
    ensures HandleEvent(HandleEvent(app, Input(DebugToggleKey), views).app, Input(DebugToggleKey), views).app == app
  {
  }

  /** Only the view of the current state is consulted: replacing any other
      view's handler changes nothing. */
  lemma OnlyCurrentViewConsulted(app: App, ev: Event, views: Views, s: State, h: ViewHandler)
    requires s != app.state
    ensures HandleEvent(app, ev, ReplaceHandler(views, s, h)) == HandleEvent(app, ev, views)
  {
    assert HandlerFor(ReplaceHandler(views, s, h), app.state) == HandlerFor(views, app.state);
  }

  /** No event changes the state or its history: only `SetState` does. */
  lemma EventKeepsState(app: App, ev: Event, views: Views)
    ensures GetState(HandleEvent(app, ev, views).app) == GetState(app)
    ensures GetPreviousState(HandleEvent(app, ev, views).app) == GetPreviousState(app)
  {
  }

  /* ---------------------------------------------------------------------- */
  /* Drawing                                                                */
  /* ---------------------------------------------------------------------- */

  /** The command at the position after the tab strip. */
  function MainCommand(app: App, width: u16, height: u16): DrawCommand
    requires app.config.stateTabs ==> height >= 1
  {
    Draw(app, width, height)[if app.config.stateTabs then 1 else 0]
  }

  /** The size floor: 59 columns or 9 content rows get the error view, 60 by
      10 content rows get the current view. With the tab strip shown a frame
      needs 11 rows, because the strip's row is taken before the check. */
  lemma DrawSizeFloor(app: App)
    ensures MainCommand(app, 59, 200).DrawError?
    ensures !app.config.stateTabs ==> MainCommand(app, 200, 9).DrawError?
    ensures !app.config.stateTabs ==> MainCommand(app, 60, 10) == DrawView(app.state, Rect(0, 0, 60, 10), app.state == Normal)
    ensures app.config.stateTabs ==> MainCommand(app, 60, 10) == DrawError(Rect(0, 0, 60, 10))
    ensures app.config.stateTabs ==> MainCommand(app, 60, 11) == DrawView(app.state, Rect(0, 0, 60, 10), app.state == Normal)
  {
  }

  /** The size floor for every frame: the error view is drawn exactly when
      the frame is narrower than 60 columns or shorter than 10 rows plus the
      tab strip's row, when shown. */
  lemma DrawSizeFloorAllSizes(app: App, width: u16, height: u16)
    requires app.config.stateTabs ==> height >= 1
    ensures MainCommand(app, width, height).DrawError? <==>
      width < 60 || height < 10 + (if app.config.stateTabs then 1 else 0)
    ensures MainCommand(app, width, height).DrawView? <==>
      !(width < 60 || height < 10 + (if app.config.stateTabs then 1 else 0))
  {
  }

  /** What is drawn depends only on the tab flag, the current state and the
      debug focus, never on the log, the history or the rest of the config. */
  lemma DrawDependsOnlyOnViewInputs(a: App, b: App, width: u16, height: u16)
    requires a.config.stateTabs == b.config.stateTabs
    requires a.state == b.state && a.debugFocused == b.debugFocused
    requires a.config.stateTabs ==> height >= 1
    ensures Draw(a, width, height) == Draw(b, width, height)
  {
  }
}
