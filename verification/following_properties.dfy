/**
 Properties of the "following" widget: its translation of the search
 widget's answers and the one change it makes to the shared configuration.
 */
module FollowingProperties {
  import opened Types
  import opened Following

  /** The translation is the payload rewrite of `TerminalAction`, applied
      under `Option`, with the join request for the picked login. */
  lemma TranslateIsPayloadMap(a: Option<TerminalAction<StreamingUser>>)
    ensures TranslateAction(a) == if a.None? then None else Some(a.value.MapPayload(JoinOf))
  {
  }

  /** Every control action comes out as it went in. */
  lemma ControlActionsPassThrough(s: State)
    ensures TranslateAction(Some(Quit)) == Some(Quit)
    ensures TranslateAction(Some(BackOneLayer)) == Some(BackOneLayer)
    ensures TranslateAction(Some(SwitchState(s))) == Some(SwitchState(s))
    ensures TranslateAction(Some(ClearMessages)) == Some(ClearMessages)
    ensures TranslateAction(None) == None
  {
  }

  /** Picking a channel answers with a request to join it and makes it the
      configured channel. */
  lemma PickJoinsChannel<S>(w: FollowingWidget<S>, ev: Event, ops: SearchOps<S>, su: StreamingUser)
    requires ops.event(w.search, w.config, ev).action == Some(TerminalAction.Enter(su))
    ensures HandleEvent(w, ev, ops).action == Some(TerminalAction.Enter(Join(su.userLogin)))
    ensures HandleEvent(w, ev, ops).widget.config.channel == su.userLogin
  {
  }

  /** When the search widget does not pick anything and leaves the
      configuration alone, so does the widget. */
  lemma NoPickKeepsConfig<S>(w: FollowingWidget<S>, ev: Event, ops: SearchOps<S>)
    requires ops.event(w.search, w.config, ev).config == w.config
    requires ops.event(w.search, w.config, ev).action.Some? ==> !ops.event(w.search, w.config, ev).action.value.Enter?
    ensures HandleEvent(w, ev, ops).widget.config == w.config
  {
  }

  /** The widget answers with a join request exactly when the search widget
      picked a channel. */
  lemma JoinIffPick<S>(w: FollowingWidget<S>, ev: Event, ops: SearchOps<S>)
    ensures IsJoin(HandleEvent(w, ev, ops).action) <==>
      (ops.event(w.search, w.config, ev).action.Some? && ops.event(w.search, w.config, ev).action.value.Enter?)
  {
  }

  /** The widget's focus toggle writes nothing to the configuration itself:
      when the search widget's toggle leaves it alone, so does the widget,
      and the focus flag read afterwards is the search widget's. */
  lemma ToggleFocusWritesNoConfig<S>(w: FollowingWidget<S>, ops: SearchOps<S>)
    requires ops.toggleFocus(w.search, w.config).1 == w.config
    ensures ToggleFocus(w, ops).config == w.config
    ensures IsFocused(ToggleFocus(w, ops), ops) == ops.isFocused(ops.toggleFocus(w.search, w.config).0)
  {
  }
}
