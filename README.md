# Piano-roll editor: input and viewport logic, in Dafny

This project models the core of a piano-roll MIDI editor's input and
viewport handling, and proves properties of that model:

- **The note mouse handler** (`mouse_handler.dfy`, module `MouseHandler`):
  a class with the fields the source reassigns: the active gesture
  (`action`, `None` when idle) and the installed move and up callbacks.
  Mouse-down classifies the event through the mouse-down hook, resets both
  callbacks to no-ops and runs the gesture. Mouse-move goes to the active
  gesture's move callback, or, while idle, dispatches one cursor change.
  Mouse-up runs the up callback, if a gesture is active, and always returns
  to idle. The drag-scroll gesture registers two document listeners, modelled
  as a `Document` object holding a set of registrations. A global mouse-move
  makes them dispatch `scrollBy`, and a global mouse-up removes them. The
  change-tool gesture dispatches `toggleTool` and then a crosshair cursor.
  The subclass hooks are a `Hooks` value. Dispatched actions go to a
  `Dispatcher` log, and each run of a gesture callback leaves a record.
- **The note stage** (`piano_notes.dfy`, module `PianoNotes`): one item
  per note event, in order, with the transform's rectangle, the event's
  velocity, and a selected flag that is set when the id is in the selected
  list. It also covers the stage height, the in-place extension of every
  stage mouse event (tick, note number rounded up, first hit item) before it
  goes to the handler, and the re-render test over six props.
- **The piano roll's viewport** (`piano_roll.dfy`, module `PianoRoll`): the
  tick-window filter of visible events and the content extent. A
  `PianoRoll` class holds the two panes' scroll positions and the component
  state, and a `Player` object holds the playback state. Its methods cover
  forced scrolling (clamped, then rounded down), the pane scroll listeners,
  the playback-cursor follow rule and the ruler click.
- **The instrument browser** (`instrument_browser.dfy`, module
  `InstrumentBrowser`): the settings derived by the category, instrument
  and rhythm controls, and the instrument list for the selected category.
  It also covers the 128 presets and their grouping by category, the
  wrapper's change handler, and the OK rule. That rule moves a track to
  channel 9 for a rhythm setting. A track leaving rhythm moves to the
  lowest of channels 0–15 that no other track uses, or to infinity when
  all sixteen are taken.

The shared values are in `piano_model.dfy` (module `PianoModel`): track
events, rectangles, note items, the stage mouse event object, and the
coordinate transform. Pixel and tick quantities are `real`.

The coordinate transform's own mappings, the stage's hit test and the
General MIDI tables are not part of this model. The transform is an
object whose mapping functions are given when it is built, so the
re-render test can compare it by identity. The category index and the
instrument and category names are function parameters.

## Model

| member | source | states |
|---|---|---|
| `MouseHandler.BaseActionForMouseDown` | src/main/containers/PianoRollEditor/PianoRoll/MouseHandler/NoteMouseHandler.ts:27-42 | a gesture results exactly when the button is 1 (middle), and that gesture is drag-scroll; every other button yields none |
| `MouseHandler.BaseCursorForMouseMove` | src/main/containers/PianoRollEditor/PianoRoll/MouseHandler/NoteMouseHandler.ts:44-47 | the base cursor hint is always `"auto"` |
| `MouseHandler.MoveCallback` | src/main/containers/PianoRollEditor/PianoRoll/MouseHandler/NoteMouseHandler.ts:54-60 | after a gesture starts, the move callback is the gesture's own if it registered one, and otherwise the no-op installed just before it ran, never an earlier gesture's |
| `MouseHandler.UpCallback` | src/main/containers/PianoRollEditor/PianoRoll/MouseHandler/NoteMouseHandler.ts:54-60 | the same for the up callback |
| `MouseHandler.DownActions` | src/main/containers/PianoRollEditor/PianoRoll/MouseHandler/NoteMouseHandler.ts:80-105 | drag-scroll's mouse-down dispatches nothing; change-tool's dispatches `toggleTool` and then `changeCursor("crosshair")`, in that order |
| `MouseHandler.Run` | src/main/containers/PianoRollEditor/PianoRoll/MouseHandler/NoteMouseHandler.ts:63-77 | running the no-op callback has no effect; running a registered callback runs it exactly once, on the given event |
| `MouseHandler.WithDragScroll` | src/main/containers/PianoRollEditor/PianoRoll/MouseHandler/NoteMouseHandler.ts:93-94 | starting a drag-scroll adds its `mousemove` and `mouseup` listeners and nothing else, and keeps every earlier registration |
| `MouseHandler.AfterGlobalMouseUp` | src/main/containers/PianoRollEditor/PianoRoll/MouseHandler/NoteMouseHandler.ts:88-91 | a global mouse-up removes every drag-scroll `mouseup` listener and the `mousemove` listener of the same gesture; it keeps every other listener and adds none |
| `MouseHandler.GlobalMouseUpLeavesOthers` | src/main/containers/PianoRollEditor/PianoRoll/MouseHandler/NoteMouseHandler.ts:88-91 | with drag-scroll listeners registered in pairs, a global mouse-up leaves exactly the listeners of others |
| `MouseHandler.DragScrollRestoresListeners` | src/main/containers/PianoRollEditor/PianoRoll/MouseHandler/NoteMouseHandler.ts:83-95 | when no other drag-scroll listeners are registered, a drag-scroll started and then ended by the global mouse-up leaves the document's listener set as it was before the gesture. If an earlier drag-scroll pair is still registered, the same mouse-up removes it too; `GlobalMouseUpLeavesOthers` covers that general case |
| `MouseHandler.Document.AddDragScrollListeners` | src/main/containers/PianoRollEditor/PianoRoll/MouseHandler/NoteMouseHandler.ts:93-94 | registers exactly two listeners that were not yet registered (the set grows by two), and keeps the pairing invariant |
| `MouseHandler.Document.GlobalMouseMove` | src/main/containers/PianoRollEditor/PianoRoll/MouseHandler/NoteMouseHandler.ts:84-86 | each registered drag-scroll `mousemove` listener dispatches `scrollBy(movementX, movementY)` once |
| `MouseHandler.Document.GlobalMouseUp` | src/main/containers/PianoRollEditor/PianoRoll/MouseHandler/NoteMouseHandler.ts:88-91 | the registrations become `AfterGlobalMouseUp` of the old ones, and the pairing invariant holds |
| `MouseHandler.DragScrollOnMouseDown` | src/main/containers/PianoRollEditor/PianoRoll/MouseHandler/NoteMouseHandler.ts:80-96 | drag-scroll's mouse-down registers its two document listeners under a fresh token |
| `MouseHandler.ChangeToolOnMouseDown` | src/main/containers/PianoRollEditor/PianoRoll/MouseHandler/NoteMouseHandler.ts:98-105 | dispatches `toggleTool()` and then `changeCursor("crosshair")` |
| `MouseHandler.NoteMouseHandler.constructor` | src/main/containers/PianoRollEditor/PianoRoll/MouseHandler/NoteMouseHandler.ts:19-24 | a new handler is idle and keeps its dispatcher |
| `MouseHandler.NoteMouseHandler.OnMouseDown` | src/main/containers/PianoRollEditor/PianoRoll/MouseHandler/NoteMouseHandler.ts:49-61 | the active gesture becomes the hook's classification, overwriting any gesture already active. With no gesture nothing else changes. Otherwise both callbacks become the gesture's own or no-ops, its mouse-down actions are dispatched, and a drag-scroll adds its listeners. The callbacks-belong-to-the-active-gesture invariant is kept |
| `MouseHandler.NoteMouseHandler.OnMouseMove` | src/main/containers/PianoRollEditor/PianoRoll/MouseHandler/NoteMouseHandler.ts:63-70 | while active, only the active gesture's move callback runs and nothing is dispatched; while idle, exactly one `changeCursor` with the hook's cursor is dispatched and no callback runs |
| `MouseHandler.NoteMouseHandler.OnMouseUp` | src/main/containers/PianoRollEditor/PianoRoll/MouseHandler/NoteMouseHandler.ts:72-77 | afterwards the handler is idle; the active gesture's up callback ran once if a gesture was active, and nothing ran otherwise |
| `MouseHandler.BaseMouseDown` | src/main/containers/PianoRollEditor/PianoRoll/MouseHandler/NoteMouseHandler.ts:30-53 | with the base hooks, a button other than 1 leaves the handler idle with nothing dispatched and no listener added; button 1 starts drag-scroll with no-op callbacks and two new listeners |
| `PianoNotes.NoteEvents` | src/containers/PianoRollEditor/PianoRoll/PianoNotes/PianoNotes.js:24-25 | exactly the events with subtype `"note"` are kept |
| `PianoNotes.MakeItem` | src/containers/PianoRollEditor/PianoRoll/PianoNotes/PianoNotes.js:26-29 | the item carries the event's id and velocity, the transform's rectangle for the event, the drum-mode flag, and is selected iff the id is in `selectedEventIds` |
| `PianoNotes.Items` | src/containers/PianoRollEditor/PianoRoll/PianoNotes/PianoNotes.js:24-30 | one item per note event. Item i has the i-th note event's id and velocity and the transform's rectangle for it, and it is selected iff its id is in `selectedEventIds` |
| `PianoNotes.NoteEventsConcat` | src/containers/PianoRollEditor/PianoRoll/PianoNotes/PianoNotes.js:24-25 | filtering note events distributes over concatenation, so input order is kept |
| `PianoNotes.ItemsConcat` | src/containers/PianoRollEditor/PianoRoll/PianoNotes/PianoNotes.js:24-30 | the items of two runs of events are the items of the first followed by those of the second |
| `PianoNotes.ItemsOfOne` | src/containers/PianoRollEditor/PianoRoll/PianoNotes/PianoNotes.js:25-30 | a single note event yields exactly its one item, with the selected flag set iff its id is listed; any other event yields none |
| `PianoNotes.Ceil` | src/containers/PianoRollEditor/PianoRoll/PianoNotes/PianoNotes.js:38 | the result is the least integer not below its argument |
| `PianoNotes.Render` | src/containers/PianoRollEditor/PianoRoll/PianoNotes/PianoNotes.js:24-53 | the stage gets the note items, the props' width, scroll position and cursor, and height `pixelsPerKey * numberOfKeys` |
| `PianoNotes.ShouldUpdate` | src/containers/PianoRollEditor/PianoRoll/PianoNotes/PianoNotes.js:63-74 | the re-render test; identical props never re-render |
| `PianoNotes.ShouldUpdateIff` | src/containers/PianoRollEditor/PianoRoll/PianoNotes/PianoNotes.js:63-74 | the stage re-renders iff the new props differ in something other than the mouse handler and the drum mode: events (every modelled field, the note number included) or selected ids by value, the transform by identity, or scroll position, width or cursor |
| `PianoNotes.IgnoredPropsNeverUpdate` | src/containers/PianoRollEditor/PianoRoll/PianoNotes/PianoNotes.js:63-74 | changing only `mouseHandler` and `isDrumMode` never re-renders |
| `PianoNotes.MovedNoteUpdates` | src/containers/PianoRollEditor/PianoRoll/PianoNotes/PianoNotes.js:68 | moving one note to another pitch, with nothing else changed, re-renders the stage |
| `PianoNotes.ExtendEvent` | src/containers/PianoRollEditor/PianoRoll/PianoNotes/PianoNotes.js:34-40 | the event object itself gets `tick = getTicks(local.x)`, the least integer note number not below `getNoteNumber(local.y)`, and its first hit item (none if nothing was hit) |
| `PianoNotes.OnStageMouseDown` | src/containers/PianoRollEditor/PianoRoll/PianoNotes/PianoNotes.js:49 | the event is extended (tick, note number, first hit item) and then handled as the handler's mouse-down promises: the gesture is the hook's classification of the extended event; with none, callbacks, dispatcher and document are untouched; otherwise the callbacks are the gesture's own or no-ops, its mouse-down actions are dispatched, and a drag-scroll adds its two listeners; no callback runs |
| `PianoNotes.OnStageMouseMove` | src/containers/PianoRollEditor/PianoRoll/PianoNotes/PianoNotes.js:50 | the event is extended and goes to the handler's mouse-move. The gesture and both callbacks stay as they are. When idle, exactly one cursor change with the hook's cursor is dispatched and no callback runs; when active, the move callback runs once on the extended event and nothing is dispatched |
| `PianoNotes.OnStageMouseUp` | src/containers/PianoRollEditor/PianoRoll/PianoNotes/PianoNotes.js:51 | the event is extended and goes to the handler's mouse-up: the up callback runs once on it if a gesture was active and nothing runs otherwise; the handler ends idle |
| `PianoRoll.Visible` | src/components/PianoRoll.js:18-23 | an event counts as visible only in a window that is not empty |
| `PianoRoll.FilterEventsWithScroll` | src/components/PianoRoll.js:17-24 | an event is kept iff its tick, or its tick plus duration, lies in `[getTicks(scrollLeft), getTicks(scrollLeft + width)]`, bounds included |
| `PianoRoll.FilterIsSubsequence` | src/components/PianoRoll.js:23 | the kept events are a subsequence of the input, in input order |
| `PianoRoll.FilterKeepsEveryCopy` | src/components/PianoRoll.js:23 | every copy of a visible event is kept and no copy of an invisible one, so with the subsequence property the result is exactly the input filtered |
| `PianoRoll.SpanningEventNotVisible` | src/components/PianoRoll.js:20-23 | an event that starts before the window and ends after it is not kept |
| `PianoRoll.ForcedScrollLeft` | src/components/PianoRoll.js:47-49 | the forced position is the largest integer not above both the maximum scroll and the requested position |
| `PianoRoll.CursorOutOfView` | src/components/PianoRoll.js:82-83 | the cursor is out of view iff its content position lies outside `[scrollLeft, scrollLeft + 0.7 * clientWidth]` |
| `PianoRoll.ContentLayout` | src/components/PianoRoll.js:107-111 | the end tick is the larger of the song's end tick and the ticks the visible width spans; the content width is that end tick in pixels, so it is at least the song's extent |
| `PianoRoll.PianoRoll.constructor` | src/components/PianoRoll.js:27-40 | scroll positions, cursor and width start at 0 |
| `PianoRoll.PianoRoll.VisibleEvents` | src/components/PianoRoll.js:114 | the events drawn are those visible at the state's scroll position and the notes pane's width |
| `PianoRoll.PianoRoll.OnResize` | src/components/PianoRoll.js:57-61 | the recorded notes-pane width becomes the measured one |
| `PianoRoll.PianoRoll.ForceScrollLeft` | src/components/PianoRoll.js:47-53 | both panes and the state get the same forced position, which never exceeds `scrollWidth - clientWidth` |
| `PianoRoll.PianoRoll.OnAlphaScroll` | src/components/PianoRoll.js:63-66 | scrolling the notes pane records only its vertical position |
| `PianoRoll.PianoRoll.OnBetaScroll` | src/components/PianoRoll.js:67-71 | scrolling the velocity pane copies its horizontal position to the notes pane and to the state |
| `PianoRoll.PianoRoll.OnChangePosition` | src/components/PianoRoll.js:74-87 | the cursor always moves to `getX(tick)`. The view is forced to it only when auto-scroll is on, the player plays, and the cursor is beyond 70% of the width or left of the view; otherwise the scroll is untouched |
| `PianoRoll.PianoRoll.OnMouseDownRuler` | src/components/PianoRoll.js:123-129 | a ruler click moves the player to `getTicks(offsetX)` only when it is not playing, and leaves it where it was otherwise |
| `InstrumentBrowser.OnChangeCategory` | src/main/components/InstrumentBrowser/InstrumentBrowser.tsx:114-119 | choosing category index i sets program `i * 8` and keeps the rhythm flag |
| `InstrumentBrowser.OnChangeInstrument` | src/main/components/InstrumentBrowser/InstrumentBrowser.tsx:121-126 | choosing an instrument sets that program and keeps the rhythm flag |
| `InstrumentBrowser.OnChangeRhythmTrack` | src/main/components/InstrumentBrowser/InstrumentBrowser.tsx:128-130 | the rhythm flag is set iff the checkbox state is "checked" ("indeterminate" clears it); the program is kept |
| `InstrumentBrowser.Instruments` | src/main/components/InstrumentBrowser/InstrumentBrowser.tsx:132-135 | the selected category's presets when the list is longer than the index, and an empty list when it is not; a negative index fails |
| `InstrumentBrowser.Presets` | src/main/components/InstrumentBrowser/InstrumentBrowser.tsx:218-221 | exactly the program numbers 0 to 127, in order, each with its instrument name |
| `InstrumentBrowser.WithCategory` | src/main/components/InstrumentBrowser/InstrumentBrowser.tsx:223-224 | the presets of a category are exactly those whose category index it is |
| `InstrumentBrowser.GroupBy` | src/main/components/InstrumentBrowser/InstrumentBrowser.tsx:224 | there is a group for exactly the categories that occur among the presets, and no group is empty |
| `InstrumentBrowser.GroupByGroups` | src/main/components/InstrumentBrowser/InstrumentBrowser.tsx:223-224 | each preset lands in the group keyed by its category index. A group exists exactly for the categories that occur, and it holds that category's presets in program order |
| `InstrumentBrowser.CategoryBound` | src/main/components/InstrumentBrowser/InstrumentBrowser.tsx:223-229 | the bound up to which categories are listed is one more than the largest category index of a preset (0 with none): every index lies below it and the last index below it is attained |
| `InstrumentBrowser.CategoriesBelow` | src/main/components/InstrumentBrowser/InstrumentBrowser.tsx:223-229 | the listed categories number at most `n`, and exactly `n` only when every index below `n` has a group |
| `InstrumentBrowser.CategoriesBelowMembers` | src/main/components/InstrumentBrowser/InstrumentBrowser.tsx:223-229 | the list holds, with its name, the group of every index below `n` that has one, and nothing else |
| `InstrumentBrowser.GroupOfSomePreset` | src/main/components/InstrumentBrowser/InstrumentBrowser.tsx:224 | a key of the grouped presets is some preset's category, and its group is that category's presets in order |
| `InstrumentBrowser.ListedCategories` | src/main/components/InstrumentBrowser/InstrumentBrowser.tsx:223-229 | the group of every preset with a non-negative category is listed |
| `InstrumentBrowser.ListedCategoriesOnly` | src/main/components/InstrumentBrowser/InstrumentBrowser.tsx:223-229 | every listed entry is some preset's category, with exactly that category's presets |
| `InstrumentBrowser.PresetCategories` | src/main/components/InstrumentBrowser/InstrumentBrowser.tsx:223-229 | the dialog's category list holds every category that some program has, with its name and its presets in program order, and nothing else |
| `InstrumentBrowser.CategoriesBelowContiguous` | src/main/components/InstrumentBrowser/InstrumentBrowser.tsx:223-229 | when the categories are 0 to n-1, the list holds n entries, and entry k is category k with its name and its group |
| `InstrumentBrowser.InstrumentsOfSelectedCategory` | src/main/components/InstrumentBrowser/InstrumentBrowser.tsx:132-135 | when the categories used are contiguous from 0, the instruments listed for the current program's category are exactly that category's presets, in program order |
| `InstrumentBrowser.EightPerCategoryContiguous` | src/main/components/InstrumentBrowser/InstrumentBrowser.tsx:114-119 | with eight programs per category, every category index from 0 up to the bound is in use |
| `InstrumentBrowser.EightPerCategoryInstruments` | src/main/components/InstrumentBrowser/InstrumentBrowser.tsx:132-135 | with eight programs per category, the dialog lists for a program the presets of its eight-program block, in program order |
| `InstrumentBrowser.LowestFreeChannelFrom` | src/main/components/InstrumentBrowser/InstrumentBrowser.tsx:268-275 | the result is the smallest channel from c to 15 that no other track uses. It is infinity exactly when every one of them is in use |
| `InstrumentBrowser.ChannelAfterOK` | src/main/components/InstrumentBrowser/InstrumentBrowser.tsx:261-281 | a rhythm setting gives channel 9. A rhythm track leaving rhythm gets the lowest channel 0–15 unused by the other tracks, or infinity when none is free. Any other track keeps its channel |
| `InstrumentBrowser.UsedChannels` | src/main/components/InstrumentBrowser/InstrumentBrowser.tsx:269-271 | the used channels are exactly the channels of the tracks other than this one |
| `InstrumentBrowser.PianoRollStore.OnChange` | src/main/components/InstrumentBrowser/InstrumentBrowser.tsx:231-251 | with no channel on the track, nothing happens. Otherwise the program change and the preview note's start and stop are sent on the track's channel, and the setting is stored |
| `InstrumentBrowser.PianoRollStore.OnClickCancel` | src/main/components/InstrumentBrowser/InstrumentBrowser.tsx:258-260 | cancel closes the dialog |
| `InstrumentBrowser.PianoRollStore.OnClickOK` | src/main/components/InstrumentBrowser/InstrumentBrowser.tsx:261-282 | the track's channel becomes `ChannelAfterOK`. Instrument 0 is set for rhythm and the setting's program otherwise, and the dialog is closed |

## Left out

- Rendering (JSX, styled components, the dialog, checkbox and select widgets), `window` resize listening, `document.roll`, and DOM measurements. Measurements are method parameters. The browser clamps a negative or too-large pane scroll position; that is not modelled.
- The coordinate transform's mappings, the stage's hit test and the General MIDI functions are parameters. Only two members assume anything about them: `PresetCategories` needs non-negative categories, and `InstrumentsOfSelectedCategory` needs categories without gaps. The selection model, the quantizer and the transform's maximum y (the content height) do not appear in this model.
- IEEE floating point: `0.1 * scaleX` and the `0.7` factor use exact `real` arithmetic. JavaScript's NaN and `_.isEqual`'s treatment of it are not modelled.
- React's `setState` is taken as immediate.
- `PianoNotes.ShouldUpdateIff`: track events carry only the fields the core reads (id, subtype, tick, duration, note number, velocity). Other fields that `_.isEqual` compares, such as `type` and `channel`, are not represented, so a change in only those is not seen.
- The General MIDI category function is not part of this model. `EightPerCategory` (category = program / 8) is the layout that choosing category `i` as program `i * 8` relies on; the category lemmas hold for any category function.
- Player audio (`sendEvent`, `startNote`, `stopNote` with its 0.5 s delay) and the track-instrument action are recorded as effect-log entries only.
- `MouseHandler.Document.GlobalMouseMove`: all drag-scroll listeners dispatch to the one dispatcher the method is given. The source's closures each capture the dispatcher of the handler that created them.
- What a subclass gesture's callbacks do when they run is not modelled: each run only leaves an `Invocation` record. A subclass gesture is described by the actions its mouse-down dispatches and the callbacks it registers.
- `InstrumentBrowser.OnClickOK`: whether the track is a rhythm track comes from a track getter not shown here, so it is a parameter read before the channel changes.
- `InstrumentBrowser.PresetCategories`: requires non-negative category indices, so the object-key order of the grouped presets is ascending. JavaScript would list a negative key after the others; that case is left out.
- `electron/src/preload.ts` (the desktop shell's IPC bridge), `TransportPanel.tsx` and `NavigationBar.tsx` are not part of this model: they hold foreign calls, float formatting and layout only.
