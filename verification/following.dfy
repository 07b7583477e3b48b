/**
 The "following" feature: a search widget over the followed channels that
 are live, wrapped so that picking a channel turns into a request to join
 it and records the channel in the shared configuration.

 The generic search widget itself is a collaborator whose behaviour is not
 modelled: its state is the type parameter `S` and its operations are
 function values, bundled in `SearchOps`.
 */
module Following {
  import opened Types

  /** A followed channel that is live. Only the login name is used here. */
  datatype StreamingUser = StreamingUser(userLogin: string)

  /** What the search widget's event handler leaves behind and answers. The
      widget holds the shared configuration too, so it may change it. */
  datatype SearchOutcome<S> = SearchOutcome(
    search: S,
    config: Config,
    action: Option<TerminalAction<StreamingUser>>)

  /** The search widget's operations: its focus flag, its focus toggle
      (which starts or abandons fetching the candidates) and its event
      handler. The toggle and the handler both see the shared configuration
      and may change it. */
  datatype SearchOps<!S> = SearchOps(
    isFocused: S -> bool,
    toggleFocus: (S, Config) -> (S, Config),
    event: (S, Config, Event) -> SearchOutcome<S>)

  /** The widget: the shared configuration and the wrapped search widget. */
  datatype FollowingWidget<S> = FollowingWidget(config: Config, search: S)

  /** The result of one call of the widget's event handler. */
  datatype FollowingStep<S> = FollowingStep(
    widget: FollowingWidget<S>,
    action: Option<TerminalAction<TwitchAction>>)

  /** The text the search widget shows when the followed channels cannot be
      fetched: the cause, where to find the right token scopes, a blank line
      and how to dismiss it. */
  function IncorrectScopesErrorMessage(): (lines: seq<string>)
    ensures |lines| == 6
    ensures lines[4] == ""
    ensures lines[5] == "Hit ESC to dismiss this error."
    ensures forall i | 0 <= i < |lines| && i != 4 :: |lines[i]| > 0
  {
    [
      "Failed to get the list of streamers you currently follow.",
      "Either you have incorrect scopes in your token, or the API is down.",
      "To get the correct scopes, see the default config at the link below:",
      "https://github.com/Xithrius/twitch-tui/blob/main/default-config.toml#L8-L13",
      "",
      "Hit ESC to dismiss this error."
    ]
  }

  /** The join request for a picked channel. */
  function JoinOf(su: StreamingUser): TwitchAction {
    Join(su.userLogin)
  }

  /** Turns the search widget's answer into the widget's answer: a pick
      becomes a join request for the picked login, every control action
      passes through with its state, and no answer stays no answer. */
  function TranslateAction(a: Option<TerminalAction<StreamingUser>>): (r: Option<TerminalAction<TwitchAction>>)
    ensures a.None? <==> r.None?
    ensures a.Some? ==> (a.value.Enter? <==> r.value.Enter?)
    ensures a.Some? && a.value.Enter? ==> r.value.payload == Join(a.value.payload.userLogin)
    ensures a.Some? && !a.value.Enter? ==> SameControl(a.value, r.value)
  {
    match a
    case None => None
    case Some(ta) =>
      Some(match ta
           case Enter(su) => TerminalAction.Enter(Join(su.userLogin))
           case Quit => Quit
           case BackOneLayer => BackOneLayer
           case SwitchState(s) => SwitchState(s)
           case ClearMessages => ClearMessages)
  }

  /** Whether the answer is a request to join a channel. */
  predicate IsJoin(a: Option<TerminalAction<TwitchAction>>) {
    a.Some? && a.value.Enter? && a.value.payload.Join?
  }

  /** Handles one event: the search widget handles it, its answer is
      translated, and a join request writes the channel into the shared
      configuration; nothing else of the configuration is touched. */
  function HandleEvent<S>(w: FollowingWidget<S>, ev: Event, ops: SearchOps<S>): (r: FollowingStep<S>)
    ensures var out := ops.event(w.search, w.config, ev);
      && r.action == TranslateAction(out.action)
      && r.widget.search == out.search
      && (IsJoin(r.action) ==> r.widget.config == out.config.(channel := r.action.value.payload.channel))
      && (!IsJoin(r.action) ==> r.widget.config == out.config)
  {
    var out := ops.event(w.search, w.config, ev);
    var action := TranslateAction(out.action);
    var config :=
      match action
      case Some(Enter(Join(channel))) => out.config.(channel := channel)
      case _ => out.config;
    FollowingStep(FollowingWidget(config, out.search), action)
  }

  /** The widget has focus exactly when its search widget has. */
  function IsFocused<S>(w: FollowingWidget<S>, ops: SearchOps<S>): (r: bool)
    ensures r <==> ops.isFocused(w.search)
  {
    ops.isFocused(w.search)
  }

  /** Toggling focus is the search widget's toggle and nothing more: the
      widget ends up with the search state and the configuration the toggle
      leaves, and writes nothing of its own. */
  function ToggleFocus<S>(w: FollowingWidget<S>, ops: SearchOps<S>): (r: FollowingWidget<S>)
    ensures r.search == ops.toggleFocus(w.search, w.config).0
    ensures r.config == ops.toggleFocus(w.search, w.config).1
  {
    var (search, config) := ops.toggleFocus(w.search, w.config);
    FollowingWidget(config, search)
  }
}
