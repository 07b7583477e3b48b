# twitch-tui: application controller and "following" widget

A Dafny model of two pieces of control logic from the twitch-tui terminal
chat client.

- **The application controller** (`App` in `src/handlers/app.rs`). It tracks
  the current top-level state (dashboard, chat or help). It also remembers
  the one state before the current one. It owns the message log and shares
  it with the chat view, and it can clear the log and reset the chat view's
  scroll offset. Each key press goes either to the controller itself (the
  debug-panel toggle `Ctrl('d')`) or to the view of the current state. For
  each frame it decides which components are drawn, in which area and in
  which order.
- **The "following" widget** (`FollowingWidget` in
  `src/ui/components/following.rs`). It wraps a generic search widget over
  the live channels the user follows. It turns the search widget's answers
  into answers of its own: picking a channel becomes a request to join it.
  On a pick, it also writes the channel into the shared configuration.

The shared `Rc<RefCell<…>>` resources become plain record fields, since all
access is single-threaded. Both operations are pure functions that return
the new record together with the answer.

Files:

- `types.dfy` (module `Types`): `State`, `Key`, `Event`, the generic
  `TerminalAction<T>`, `TwitchAction`, the configuration fields used here,
  and `Rect`. The controller's views answer with
  `TerminalAction<TwitchAction>` and the search widget with
  `TerminalAction<StreamingUser>`, so one generic `TerminalAction<T>` serves
  both.
- `app.dfy` (module `AppController`): the controller record and its
  operations.
- `app_properties.dfy` (module `AppProperties`): properties that relate
  several controller calls.
- `following.dfy` (module `Following`): the widget, its action translation
  and its fixed error text.
- `following_properties.dfy` (module `FollowingProperties`): properties of
  the widget.

Collaborators are not modelled. They appear as function-valued parameters:

- the three views' event handlers (`AppController.Views`);
- the search widget's focus flag, focus toggle and event handler
  (`Following.SearchOps`).

Two consequences of the code are worth spelling out:

- With the tab strip shown, the size check runs on the area left after the
  strip's row, so a frame needs 11 rows, not 10, before a view is drawn.
  See `AppProperties.DrawSizeFloorAllSizes`.
- A tick reaches no view and yields no action.

## Model

| member | source | states |
|---|---|---|
| AppController.NewApp | src/handlers/app.rs:85-96 | a new controller is in the configured start state, has no previous state, has an empty message log and holds the given config |
| AppController.GetState | src/handlers/app.rs:165-167 | returns the current state; after transitions it is the last state set (see `AppProperties.SetStates`) |
| AppController.GetPreviousState | src/handlers/app.rs:160-162 | returns the remembered previous state: `None` on a new controller, otherwise the state left by the last transition (see `AppProperties.FirstTransitionRemembersStart`, `AppProperties.SetStates`) |
| AppController.SetState | src/handlers/app.rs:169-172 | after a transition the current state is the requested one and the previous state is the one just left; config, log, scroll offset and debug focus are unchanged |
| AppController.ClearMessages | src/handlers/app.rs:154-158 | afterwards the log is empty and the chat scroll offset is 0, whatever they were; state, history, config and debug focus are unchanged |
| AppController.HandleEvent | src/handlers/app.rs:129-148 | a tick yields no action and changes nothing; `Ctrl('d')` flips debug focus, yields no action and changes nothing else; any other key yields exactly the answer of the view for the current state, applies that view's changes to the shared resources, and keeps state, history and debug focus |
| AppController.ContentArea | src/handlers/app.rs:100-108 | the content area spans the full width from the origin and is one row shorter than the frame exactly when the tab strip is shown |
| AppController.Draw | src/handlers/app.rs:99-127 | when shown, the tab strip is drawn first on the bottom row with the current state. The next command is the error view on the full frame iff the content area is under 10 rows or 60 columns; otherwise it is the current state's view on the content area, with emotes only for chat. The debug panel is drawn last iff it is focused. Nothing else is drawn. |
| AppProperties.SetStates | src/handlers/app.rs:169-172 | after any non-empty sequence of transitions the state is the last one set, and the previous state is the one set before it, or the state before the first transition when there was only one; nothing else changes |
| AppProperties.SetStatesAppend | src/handlers/app.rs:169-172 | applying transitions in two batches equals applying them all in order |
| AppProperties.FirstTransitionRemembersStart | src/handlers/app.rs:91-92 | a new controller has no previous state, and its first transition remembers the configured start state |
| AppProperties.OnlyOneLevelOfHistory | src/handlers/app.rs:169-172 | two controllers with any histories whose last two transitions were to x and then y both report state y and previous state x; older history is not recoverable |
| AppProperties.DashboardChatHelpScenario | src/handlers/app.rs:160-172 | starting in the dashboard, going to chat and then to help leaves chat as the previous state |
| AppProperties.ClearMessagesIdempotentAndCommutes | src/handlers/app.rs:154-158 | clearing twice equals clearing once, and clearing commutes with a state transition |
| AppProperties.DebugKeyNeverReachesViews | src/handlers/app.rs:133-135 | the outcome of `Ctrl('d')` is the same whatever the views' handlers are, so no view observes it |
| AppProperties.DebugToggleTwiceRestores | src/handlers/app.rs:133-135 | pressing `Ctrl('d')` twice restores the controller exactly |
| AppProperties.OnlyCurrentViewConsulted | src/handlers/app.rs:136-142 | replacing the handler of any view other than the current state's changes no event outcome |
| AppProperties.EventKeepsState | src/handlers/app.rs:129-148 | no event changes the current state or the previous state |
| AppProperties.DrawSizeFloor | src/handlers/app.rs:102-122 | 59 columns, or 9 rows without the tab strip, gives the error view; 60×10 without the strip gives the current view; with the strip, 60×10 gives the error view and 60×11 gives the view on a 60×10 area |
| AppProperties.DrawSizeFloorAllSizes | src/handlers/app.rs:102-122 | for every frame size, the error view is drawn iff the width is under 60 or the height is under 10 plus the tab strip's row when shown; otherwise the current view is drawn |
| AppProperties.DrawDependsOnlyOnViewInputs | src/handlers/app.rs:99-127 | the draw commands depend only on the frame size, the tab flag, the current state and the debug focus |
| Following.IncorrectScopesErrorMessage | src/ui/components/following.rs:17-26 | the fetch-failure text has exactly 6 lines; line 5 is empty, every other line is non-empty, and the last is "Hit ESC to dismiss this error." |
| Types.TerminalAction.MapPayload | src/ui/components/following.rs:67-73 | rewriting the payload keeps the variant: `Enter` stays `Enter` and carries the rewritten payload; every control variant keeps its tag, and `SwitchState` keeps its state |
| Following.TranslateAction | src/ui/components/following.rs:67-73 | no answer stays no answer; a pick becomes a pick, with a join request for the picked login; every control action keeps its variant and its state |
| Following.HandleEvent | src/ui/components/following.rs:66-80 | the answer is the translated answer of the search widget. On a join request the config becomes the search widget's config with the channel set to the joined one; otherwise it is exactly the config the search widget left. |
| Following.IsFocused | src/ui/components/following.rs:52-54 | the widget has focus exactly when its search widget has |
| Following.ToggleFocus | src/ui/components/following.rs:56-58 | toggling focus is the search widget's own toggle: the widget takes the search state and the config that toggle leaves and writes nothing itself |
| FollowingProperties.ToggleFocusWritesNoConfig | src/ui/components/following.rs:52-58 | when the search widget's toggle leaves the config alone, so does the widget's toggle, and the focus read afterwards is the search widget's |
| FollowingProperties.TranslateIsPayloadMap | src/ui/components/following.rs:67-73 | the translation equals the generic payload rewrite of `TerminalAction`, applied under `Option`, with the login-to-join function |
| FollowingProperties.ControlActionsPassThrough | src/ui/components/following.rs:69-72 | `Quit`, `BackOneLayer`, `SwitchState(s)`, `ClearMessages` and no answer come out unchanged |
| FollowingProperties.PickJoinsChannel | src/ui/components/following.rs:67-77 | picking a channel answers with a request to join its login, and that login becomes the configured channel |
| FollowingProperties.NoPickKeepsConfig | src/ui/components/following.rs:75-79 | if the search widget picks nothing and leaves the config alone, the widget leaves the config unchanged |
| FollowingProperties.JoinIffPick | src/ui/components/following.rs:67-77 | the widget answers with a join request exactly when the search widget picked a channel |

## Left out

- AppController.Draw: requires a frame at least one row high when the tab strip is shown. At height 0, `size.height - 1` goes below zero on a 16-bit unsigned value. That panics in a debug build and wraps in a release build, and what the layout solver does with the wrapped length is not modelled.
- AppController.ContentArea: requires a frame at least one row high when the tab strip is shown, for the same 16-bit subtraction as `AppController.Draw`.
- AppController.Draw: models only which component is drawn, where and in what order. The component draw bodies and the rendering toolkit's frame and backend are rendering. The vertical split is assumed to yield exactly the two requested rows. The emote context is reduced to a flag on the chat view's command.
- AppController.HandleEvent: the views' event handlers are function parameters whose behaviour is not modelled. Any of them may change the config, the log and the chat scroll offset. In the program only the chat view owns the scroll offset, so the model is more permissive there.
- AppController.NewApp: the initial debug focus and chat scroll offset are parameters, because the component constructors that set them are not part of this model. The construction of the components, storage, filters, input buffer, suggestion and theme is left out.
- `cleanup` (app.rs:150-152): it only flushes storage to a file, which is file I/O.
- `rotate_theme` (app.rs:174-177): its body is `todo!()`.
- The capacity given to the message log at construction is only a sizing hint, not an eviction bound. The log is an unbounded sequence.
- The input buffer, the buffer suggestion, emotes and themes are not modelled.
- The search widget's internals are not modelled. This covers the asynchronous fetch of the followed live channels, the filtering and selection, and drawing. No cancellation of a stale fetch appears in this code, so none is asserted.
- Following.ToggleFocus: the toggle is asynchronous in the program. It is modelled as one atomic step of the search widget.
- `FollowingWidget::new` and `FollowingWidget::draw` (following.rs:36-50, 62-64): construction hands the fixed error text to the search widget, and draw only delegates to it.
- The broadcast sender for outbound requests is left out. Actions are returned to the caller, and nobody in this core waits for them.
- `StreamingUser` keeps only the login name, the one field this code reads. `Key` lists a representative set of keys, since only `Ctrl('d')` is distinguished.
