# docui focus and overlay state machine

A Dafny model of the core of `panel/gui.go` in docui, a terminal dashboard for
Docker built on the gocui library. The model covers three parts.

- **Focus state machine.** This is the registry of panels and the focus
  cycle (`PanelNames`) with its index `active`. It also holds the return
  target `NextPanel`, the current view, the name in the navigation bar, the
  live views and the key bindings. The model covers the startup sequence
  (`New` and `init`), cycling with `nextPanel`/`prePanel`, and `SwitchPanel`.
  It also covers the three overlays (error, confirmation, status) and their
  close functions.
- **Viewport primitives.** These are `ReadLine`, `CursorDown`, `CursorUp`,
  `PageDown` and `PageUp`. They work on a view made of backing lines, a
  cursor `(cx, cy)` and a scroll origin `(ox, oy)`.
- **Supporting pieces.** These are the overlay rectangles, Go's truncating
  `/` and `%`, `strings.Trim(s, " ")` and `sort.Strings`.

The model is split into these modules:

- `Wrappers`: `Option`.
- `Names`: the nineteen view names, as an enumeration with their Go strings.
- `Keys`: keys, actions and the binding list of the terminal surface.
- `GoInt`: Go's truncating integer division and remainder, and facts about them.
- `Geometry`: the rectangles of the panels and overlays.
- `Text`: trimming, string order and sorting.
- `Viewport`: the cursor primitives.
- `Gui`: the state record and its transitions.
- `GuiProperties`: properties that relate several transitions.

Modelling choices:

- **Panics.** A call that panics in the program is a precondition in the
  model. Examples are switching to a view that does not exist and deleting a
  missing view. `Gui.CanNext`, `Gui.CanPre`, `Gui.CanCloseMessage` and
  `Gui.CanCloseConfirm` name these conditions.
- **Window.** gocui decides whether `SetCursor` or `SetOrigin` succeeds from
  the view's size, and that rule is not visible here. It is the abstract
  `Viewport.Window`: one acceptance predicate for cursors and one for
  origins. The model states every cursor primitive relative to them.
- **Line.** gocui's `View.Line(y)` is taken to read the line at view row
  `y`, which is backing line `oy + y`.
- **Panel views.** Each panel's `SetView` lives in its own file, which is
  not part of this model. It is taken to create the view named after the
  panel.
- **Key dispatch.** gocui's keybinding list and its dispatch are not part of
  this model. The bindings are a list: `SetKeybinding` appends one
  (`Gui.Bind`) and `DeleteKeybindings` removes those of one view and keeps
  the rest in order (`Keys.DeleteKeybindings`). A binding made with view
  name `""` is `Keys.Global`. A key pressed on a view is taken to run every
  binding whose key matches and whose scope is that view or `Global`, one
  after another in the order they were made (`Keys.Dispatch`, read through
  `Gui.Handlers`). A gocui that stops at the first match would run only the
  first of two equal bindings. The behaviour of a duplicated Enter binding
  listed below, and the confirmation overlay's, depend on this assumption.

Behaviours the model keeps as the program has them:

- Registering a cyclable panel a second time gives it a second slot in the
  cycle.
- Closing an overlay onto another panel leaves `active` unchanged, so it
  can index a panel other than the focused one. After two overlays in a row
  it can name neither the focused panel nor the one focused before.
- Opening the error overlay while it is open binds Enter on it a second
  time. Enter then runs `CloseMessage` twice, and the second run finds no
  view to delete, which panics in the program.
- Opening the confirmation overlay while it is open binds 'y', Enter and
  'n' on it a second time. 'y' then runs both callers' actions, and 'n'
  runs `CloseConfirmMessage` twice; the second run finds no view to delete
  and panics.
- Closing the status overlay does not move focus off the deleted view.

## Model

| member | source | states |
|---|---|---|
| GoInt.GoDiv | panel/gui.go:179-180 | Go's quotient truncates toward zero: the remainder left over has the sign of the dividend and is smaller than the divisor |
| GoInt.GoRem | panel/gui.go:112 | Go's `%` with a positive divisor: for a non-negative dividend it lies in [0, n) and agrees with the mathematical remainder; for a negative one it lies in (-n, 0] and is the negated remainder of the negated dividend |
| Geometry.ImageListRect | panel/gui.go:144 | the image list starts at the origin; its right edge is maxX / 2 - 1 and its bottom edge maxY / 3 - 1, both truncated toward zero (stated by bounds for either sign) |
| Geometry.ContainerListRect | panel/gui.go:145 | the container list starts in column 0 at row maxY / 3 and ends at column maxX / 2 - 1, truncated toward zero; its bottom edge is one row above twice its top edge |
| Geometry.VolumeListRect | panel/gui.go:146 | the volume list starts in column 0 at row 2 * (maxY / 3), truncated toward zero, ends at column maxX / 2 - 1 and reaches down to row maxY - 3 |
| Geometry.DetailRect | panel/gui.go:147 | the detail panel starts at row 0 and column maxX / 2 + 1, truncated toward zero, and reaches column maxX - 1 and row maxY - 3 |
| Geometry.NavigateRect | panel/gui.go:148 | the navigation bar spans columns 0 to maxX - 1 and the rows from maxY - 3 to maxY |
| Geometry.ErrorRect | panel/gui.go:179-181 | the left edge is maxX / 5 and the top edge maxY / 3, both truncated toward zero (stated by bounds for either sign); the overlay is centred horizontally (left and right edges sum to maxX), four rows tall, inside the screen width and of positive width on a non-empty screen |
| Geometry.ConfirmRect | panel/gui.go:211-213 | the left edge is maxX / 5 and the top edge maxY / 3, truncated toward zero; the overlay is centred, two rows tall, inside the screen width and of positive width on a non-empty screen |
| Geometry.StateRect | panel/gui.go:247-249 | the left edge is maxX / 3 and the top edge maxY / 3, truncated toward zero; the overlay is centred, two rows tall, inside the screen width and of positive width on a non-empty screen |
| Geometry.OverlaysNest | panel/gui.go:245-249 | the three overlays share their top row, the error overlay is two rows taller than the confirmation overlay, and the status overlay lies horizontally inside the confirmation overlay |
| Names.Label | panel/gui.go:16-36 | each name has the string the program declares for it, and none is "" |
| Names.LabelInjective | panel/gui.go:16-36 | no two names share a string, so a name stands for its view |
| Text.TrimIsTrimOf | panel/gui.go:427 | trimming returns `s` with exactly its leading and trailing spaces removed: the result has no space at either end and `s` is that result padded with spaces only |
| Text.TrimEmptyIffBlank | panel/gui.go:427 | the trimmed line is empty exactly when the line consists of spaces only |
| Text.TrimIdempotent | panel/gui.go:427 | trimming twice gives the same result as trimming once |
| Text.SortKeys | panel/gui.go:441-444 | the keys come back in ascending string order and as a permutation of the input (same multiset) |
| Text.SortKeysIsTheSortedPermutation | panel/gui.go:441-444 | the result is the unique sorted permutation of the input, so an already sorted input comes back unchanged |
| Viewport.ReadLine | panel/gui.go:415-428 | the result is empty exactly when the requested row (the cursor row when none is given) has no line or only spaces, and otherwise it is that line with its surrounding spaces removed |
| Viewport.CursorDown | panel/gui.go:345-364 | a blank next row makes it a no-op. Otherwise exactly one of the cursor row or origin row moves down by one and the columns stay put. The cursor moves iff the surface accepts it; the origin moves iff the cursor is refused and the origin accepted; an error is returned iff both are refused. The row under the cursor afterwards is the line that was below it |
| Viewport.CursorUp | panel/gui.go:366-383 | on a list panel with cursor row 1 and origin row below 2 nothing changes. Otherwise the cursor moves up iff the surface accepts it. The origin moves up only when the cursor is refused and the origin row is positive. An error is returned iff the origin move is tried and refused |
| Viewport.PageDown | panel/gui.go:385-398 | moves the cursor down by half the terminal height if the surface accepts it, else the origin, else reports an error, never both |
| Viewport.PageUp | panel/gui.go:400-413 | moves the cursor up by half the terminal height if the surface accepts it, else the origin when it is below the top, with the same error rule as CursorUp |
| Viewport.CursorDownKeepsPlaced | panel/gui.go:345-364 | a cursor on a backing line stays on a backing line after CursorDown |
| Viewport.CursorUpKeepsPlaced | panel/gui.go:366-383 | a cursor on a backing line stays on one after CursorUp, on a surface that refuses negative positions |
| Viewport.CursorUpUndoesCursorDown | panel/gui.go:345-383 | a CursorUp after a CursorDown that moved the cursor restores the view, unless the view is a list panel that arrived on its header-guarded row |
| Viewport.ListHeaderIsOneWay | panel/gui.go:371-373 | from the top of a list panel, a step down onto row 1 cannot be undone by CursorUp |
| Viewport.PageUpUndoesPageDown | panel/gui.go:385-413 | a PageUp after a PageDown that moved the cursor restores the view |
| Viewport.PageDownCanLeaveContent | panel/gui.go:385-398 | PageDown does not consult the content: on a one-line view it can put the cursor past the last line |
| Viewport.DownTwiceStopsAtBlankLine | panel/gui.go:345-364 | on lines "a", "b", "" the first CursorDown moves to row 1 and the second stops there because row 2 is blank |
| Gui.AddPanelNames | panel/gui.go:85-88 | the cycle grows by exactly the panel's name at its end, and nothing else changes |
| Gui.StorePanels | panel/gui.go:158-172 | the registry entry for the name is overwritten. The name is appended to the cycle iff it is one of the four cyclable panels, with no duplicate check. Nothing else changes |
| Gui.InitPanels | panel/gui.go:144-148 | five panels in registration order. The image list and the detail panel start in row 0, the three lists and the navigation bar in column 0. The lists end in column maxX / 2 - 1 and the container list starts in row maxY / 3, truncated toward zero, stated by bounds for either sign. The three lists stack without a gap, the detail panel starts two columns to their right, the detail panel and the navigation bar end in column maxX - 1, and the navigation bar covers rows maxY - 3 to maxY |
| Gui.StoreFiveEntries | panel/gui.go:144-148 | after the five StorePanels calls of init, the registry holds exactly the old names plus the five init names, each of those maps to the panel stored for it, and every other entry is unchanged |
| Gui.StoreInitPanels | panel/gui.go:144-148 | the five StorePanels calls append the four cyclable panels to the cycle in registration order, leave the navigation bar out of it, store all five panels and change nothing else |
| Gui.SwitchPanel | panel/gui.go:278-286 | the current view and the navigation bar both name the target, the focus index is unchanged, and nothing else changes |
| Gui.BindHandlers | panel/gui.go:192 | after a SetKeybinding, every key the new binding answers runs its action after what it ran before, and every other key on every view runs what it ran before |
| Gui.SetKeyBindingToPanel | panel/gui.go:90-103 | appends four bindings, all scoped to the panel's view, after the existing ones. On that view 'q' additionally runs quit, 'h' prePanel, and 'l' and Tab nextPanel; every other key, and every key on every other view, runs what it ran before |
| Gui.SetGlobalKeyBinding | panel/gui.go:105-109 | appends one binding: Ctrl-Q additionally runs quit on every view, and no other key changes |
| Gui.RegisterPanels | panel/gui.go:141-154 | the cycle gains image list, container list, volume list and detail in that order. Each of the five names is registered with the panel InitPanels lays out for it, every other registered panel is kept as it was, and all five have views. The image list has focus and the index is untouched |
| Gui.Init | panel/gui.go:141-156 | as RegisterPanels, including the laid-out panel stored under each of the five names and every other registry entry kept. Its only change to the bindings is the one Ctrl-Q binding appended, which quits from every view |
| Gui.InitFromFresh | panel/gui.go:58-83 | from the record New builds, init leaves the cycle [image list, container list, volume list, detail], views for exactly those and the navigation bar, index 0, focus and return target on the image list, and the Ctrl-Q binding as the only binding |
| Gui.StartFromEmpty | panel/gui.go:141-156 | from a record with no panels, views or bindings, the first steps of init leave exactly the startup cycle, the four content views plus the navigation bar, and the Ctrl-Q binding as the only binding |
| Gui.StartupShape | panel/gui.go:141-172 | a state of that shape is well formed, and neither the navigation bar nor any overlay is in its cycle or has a view |
| Gui.New | panel/gui.go:58-83 | the dashboard starts well formed with the cycle above and index 0, the current view, the navigation bar, the return target and the indexed panel all agree, and the only binding is the global Ctrl-Q |
| Gui.NextPanel | panel/gui.go:111-118 | from an index in range, the index becomes (active + 1) mod N, focus moves to the panel at that index, only focus and index change, and well-formedness is kept |
| Gui.PrevIndex | panel/gui.go:120-127 | the index prePanel computes always lies in [0, N) |
| Gui.PrePanel | panel/gui.go:120-135 | index 0 or below goes to N - 1 and any other index in range to active - 1. Focus moves to the panel at the new index, only focus and index change, and well-formedness is kept |
| Gui.RefreshAllPanel | panel/gui.go:270-276 | refreshing leaves everything but focus alone and focuses the return target |
| Keys.DeleteKeybindings | panel/gui.go:204 | a binding survives iff it is not scoped to the deleted view, and a list with no binding on that view comes back unchanged |
| Keys.DeleteSnoc | panel/gui.go:204 | deleting a view's bindings from a list with one more binding at the end keeps that binding exactly when it is not on the view |
| Keys.DeleteCounts | panel/gui.go:204 | deleting a view's bindings keeps every other binding as many times as it occurs |
| Keys.DispatchMembers | panel/gui.go:192 | a key on a view runs an action iff some binding whose key matches and whose scope is that view or every view runs it |
| Keys.DispatchSnoc | panel/gui.go:192 | a binding made last runs last, and only when it answers the key |
| Keys.DispatchEmpty | panel/gui.go:192 | a key no binding answers runs nothing |
| Keys.DeleteKeepsOtherViews | panel/gui.go:204 | after deleting a view's bindings, a key on every other view runs exactly what it ran before, in the same order |
| Keys.DeleteLeavesGlobal | panel/gui.go:204 | after deleting a view's bindings, a key on that view runs exactly the actions of the bindings of every view, in their order |
| Keys.DispatchAfterDelete | panel/gui.go:204 | after deleting a view's bindings, a key on every other view runs what it ran before in the same order, and on the deleted view runs only the actions of the bindings of every view |
| Keys.GlobalDispatchOnBareView | panel/gui.go:204 | on a view with no bindings of its own, what the bindings of every view run is exactly what the key runs there |
| GuiProperties.CloseMessageHandlers | panel/gui.go:200-207 | after CloseMessage a key on every other view runs what it ran before, in the same order; on the closed view only the bindings of every view answer it |
| GuiProperties.CloseConfirmHandlers | panel/gui.go:235-243 | after CloseConfirmMessage a key on every other view runs what it ran before, in the same order; on the confirmation view only the bindings of every view answer it |
| Gui.ErrMessage | panel/gui.go:174-198 | records the return target and appends one Enter binding on the error view, whether or not the overlay already had one, so Enter there additionally runs CloseMessage and no other key changes. It creates and focuses the view only if it did not exist; an existing overlay keeps the current focus |
| Gui.CloseMessage | panel/gui.go:200-207 | removes the view it runs from, and its bindings are exactly DeleteKeybindings of the old ones: every binding not on that view, in its original order and as many times as it was made. It then focuses the return target; the index is untouched |
| Gui.ConfirmMessage | panel/gui.go:209-233 | appends three bindings, all scoped to the confirmation view, after the existing ones: 'y' and Enter there additionally run the caller's action and 'n' the cancel, and nothing else changes. The view is focused only when newly created, and the return target is unchanged |
| Gui.CloseConfirmMessage | panel/gui.go:235-243 | removes the confirmation view, and its bindings are exactly DeleteKeybindings of the old ones: every binding not on that view, in its original order and as many times as it was made. It then focuses the return target |
| Gui.StateMessage | panel/gui.go:245-262 | creates and focuses the status view if it does not exist and is the identity otherwise; it adds no bindings and leaves the return target alone |
| Gui.CloseStateMessage | panel/gui.go:264-268 | removes the status view and changes nothing else, focus included |
| GuiProperties.ValidCanCycle | panel/gui.go:111-135 | in a well-formed state neither nextPanel nor prePanel panics |
| GuiProperties.AdvanceAppend | panel/gui.go:111-118 | taking j steps round the cycle and then m more is taking j + m steps |
| GuiProperties.AdvanceClimb | panel/gui.go:111-118 | below the last slot, each step moves to the next slot |
| GuiProperties.AdvanceRound | panel/gui.go:111-118 | N steps round a cycle of N slots return to the starting slot |
| GuiProperties.AdvanceIsRemainder | panel/gui.go:112 | k steps from slot a land on (a + k) mod N, the index repeated nextPanel computes |
| GuiProperties.Cycle | panel/gui.go:111-118 | k applications of nextPanel set the index to the slot k steps further round the cycle and focus the panel there. The state stays well formed and everything else is unchanged |
| GuiProperties.CycleClosure | panel/gui.go:111-118 | N applications of nextPanel return to the starting index and focus its panel |
| GuiProperties.PreUndoesNext | panel/gui.go:111-135 | prePanel after nextPanel restores the index and the focused panel |
| GuiProperties.NextUndoesPre | panel/gui.go:111-135 | nextPanel after prePanel restores the index and the focused panel |
| GuiProperties.StartupCycle | panel/gui.go:141-156 | from startup, three steps forward reach the detail panel and the fourth returns to the image list |
| GuiProperties.StartupSteps | panel/gui.go:111-118 | in any well-formed state with the startup cycle at index 0, three steps forward reach the detail panel and the fourth returns to the image list |
| GuiProperties.StorePanelsAddsSlot | panel/gui.go:158-172 | every call adds one occurrence of a cyclable name to the cycle and none of any other name |
| GuiProperties.KeyTableOnFreshView | panel/gui.go:90-103 | on a view with no bindings and no global binding on the four keys, 'q', 'h', 'l' and Tab each run exactly quit, prePanel, nextPanel and nextPanel, and deleting the view's bindings gives back the bindings there were before |
| GuiProperties.PanelKeyOnFreshView | panel/gui.go:90-103 | on such a view, each of the four keys runs exactly the one action the table binds it to |
| GuiProperties.DeleteUpTo | panel/gui.go:204 | bindings on the deleted view at the end of the list do not change what deleting leaves |
| GuiProperties.ReregistrationDuplicatesSlot | panel/gui.go:158-172 | registering the image list again after startup gives it a second slot: the cycle has five entries and four steps forward land on the image list again |
| GuiProperties.ReregisterAfterStartup | panel/gui.go:158-172 | for any well-formed state with the startup cycle at index 0, registering the image list again appends a fifth slot naming it, and the state stays well formed |
| GuiProperties.CycleToLast | panel/gui.go:111-118 | in a five-slot cycle, four steps forward from index 0 reach index 4 and its panel |
| GuiProperties.ErrorOverlayRoundTrip | panel/gui.go:174-207 | opening the error overlay focuses it and binds Enter to CloseMessage. Closing it gives back the original state, except that the return target is recorded and focused |
| GuiProperties.ErrorOverlayReopen | panel/gui.go:174-198 | opening the error overlay while it is open replaces the return target and appends a second Enter binding, so Enter on the overlay runs CloseMessage twice |
| GuiProperties.SecondCloseFindsNoView | panel/gui.go:192-203 | on a reopened error overlay the first CloseMessage can run and the second, which the duplicate Enter binding also triggers, finds no view to delete |
| GuiProperties.ConfirmReopen | panel/gui.go:209-233 | opening the confirmation overlay while it is open adds no view and keeps focus and the return target, but appends its three bindings again: 'y' runs both callers' actions and 'n' runs CloseConfirmMessage twice |
| GuiProperties.SecondCancelFindsNoView | panel/gui.go:224-238 | on a reopened confirmation overlay the first CloseConfirmMessage can run and the second, which the duplicate 'n' binding also triggers, finds no view to delete |
| GuiProperties.ConfirmCancelRoundTrip | panel/gui.go:209-243 | on a new confirmation overlay, 'y' and Enter run only the caller's action and 'n' only the cancel. Cancelling gives back the original state with focus on the unchanged return target |
| GuiProperties.StateOverlayLeavesStaleFocus | panel/gui.go:245-268 | opening and closing the status overlay leaves focus on the status view, which no longer exists |
| GuiProperties.ActiveDrift | panel/gui.go:200-207 | after an error for the container list is closed at startup, the container list has focus while the index still names the image list, so nextPanel focuses the container list again |
| GuiProperties.DriftTwice | panel/gui.go:174-207 | after two errors in a row, for the container list and then the volume list, the volume list has focus and the index still names the image list, neither the focused panel nor the one focused before |

## Left out

- Rendering is not modelled. That covers view creation and its attributes
  (wrapping, titles, highlight colours), the message text written into
  overlays, and `SetViewOnTop`. Views are names in a set, and messages are
  not carried.
- `SetView` is taken always to succeed or to report an unknown view. Its
  invalid-dimensions error on a tiny terminal would panic in the overlay
  functions; that error lives in gocui and is not modelled.
- The rule by which gocui accepts or refuses `SetCursor` and `SetOrigin`
  lives in gocui. It is the abstract `Viewport.Window`.
- `Gui.ErrMessage`: the deferral through `gui.Update` to the event loop is
  event scheduling, so the transition is modelled as synchronous.
- Each panel's `Refresh` and the Docker client are backend I/O. They are not
  part of this model, and refreshing has no effect on the focus state.
- `StructToJson` wraps `encoding/json` and is not modelled.
- `GetItemsToMap` and `GetKeyFromMap` are not modelled. They depend on the
  `Items` and `Position` types, which are not part of this model, and they
  pick a key by map iteration order.
- `quit` and `IsSetView` are one-line gocui wrappers. `quit` appears only as
  the `QuitAction` a binding runs.
- `Gui.SetKeyBindingToPanel` is not called by the code modelled here. The
  panel files that call it are not part of this model, and neither are the
  bindings those panels add for themselves.
- View names are the nineteen named constants. Views with other names,
  which only panel files outside this model would create, are not
  represented.
- `GoInt.GoDiv` and `GoInt.GoRem` are defined only for positive
  divisors. Those are the only divisors the program uses: 2, 3 and 5, and
  the cycle length, which is positive whenever the program does not panic.
- `Text.SortKeys`: `sort.Strings` sorts the caller's slice in place and
  `SortKeys` returns that same slice. The model returns a new sorted
  sequence, so the caller's copy being reordered is not modelled.
- Modifier keys are not modelled: every binding here uses `gocui.ModNone`.
