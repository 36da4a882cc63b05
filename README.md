# browser-laptop window core in Dafny

This project models three parts of the browser-laptop front end.

- **The application dispatcher** (`js/dispatcher/appDispatcher.js`, module
  `Dispatch`, with the `async.cargo` queues in module `BatchCargo`). It keeps
  an ordered registry of store callbacks and runs one dispatch cycle at a time.
  Payloads dispatched while a cycle runs wait in a cargo and run later, in
  batches of at most 200. A renderer decides whether to run a payload locally
  and forwards every payload to the browser process (the hub) in batches of at
  most 200. The hub enriches what it receives with the sender's window and tab,
  dispatches it, and hands payloads on to each registered renderer in batches
  of at most 20.
- **The window store reducer** (`js/stores/windowStore.js`, module
  `WindowStore`). The state of one window is its frames (tabs), the active
  frame's key, the closed frames, the tab-strip UI and the search detail.
  `doAction` rewrites that state one action at a time, and a counter numbers
  new frames. Immutable's `List.splice`, with which a tab move takes a frame
  out and puts it back, is in module `Splices`.
- **The webview preload script** (`app/content/webviewPreload.js`, module
  `WebviewPreload`). It picks the size of an ad replacement and decides whether
  an element takes typed text. Its key handlers track shift and cmd and send
  navigation messages. It also splits the ad candidates of a
  `SET_AD_DIV_CANDIDATES` message between direct replacement and a fallback
  table kept for the common ad containers.

Stateful parts are classes whose methods change their fields:

- `Dispatch.AppDispatcher`, the dispatcher;
- `Dispatch.Registrant`, the hub's closure for one renderer;
- `WindowStore.Store`, the module-level `windowState` and `currentKey`;
- `WebviewPreload.KeyHandler`, the `shiftDown`/`cmdDown` flags.

The decisions they make are pure functions, and lemmas prove the properties
of those functions.

Each dispatcher method is specified by the class's invariants, proved to hold
after every step:

- `Valid`: `dispatching` holds exactly while something is pending, and
  accepted payloads run in acceptance order.
- `Forwarding`: the IPC messages sent, followed by the outbound queue, are the
  forwarding of the payloads that ran, in order, at most 200 per message.

Callbacks are identities, assumed to return normally (see "## Left out"). What a dispatch cycle does is recorded in a trace of
`Call` and `Resolve` events.

`Store.DoAction` follows the source's `switch` statement and is proved equal
to the function `ReduceState`. The lemmas state each case's effect on
`ReduceState`. There is one departure. On blur the source stores
`action.false`, which is `undefined`, as the URL bar's selection. The model
stores the evidently intended `false` instead (see "## Findings").

## Model

| member | source | states |
|---|---|---|
| Wrappers.IncludesIff | app/content/webviewPreload.js:189-192 | `String.prototype.includes` holds exactly when the substring occurs at some position of the string |
| BatchCargo.Cargo.Take | js/dispatcher/appDispatcher.js:147-158 | one worker run takes the oldest min(limit, queued) items as the batch, in push order; the batch followed by what remains is the old queue; the limit is unchanged |
| BatchCargo.ConveyedPush | js/dispatcher/appDispatcher.js:147-158 | pushing keeps the cargo's guarantee: the batches handed over, then the waiting items, are all items pushed, in order, each batch within the limit |
| BatchCargo.ConveyedTake | js/dispatcher/appDispatcher.js:147-158 | a worker run keeps the same guarantee; the batch is empty exactly when the cargo was idle |
| Dispatch.IndexOf | js/dispatcher/appDispatcher.js:56-61 | `indexOf` is -1 exactly when the callback is absent; otherwise it is the callback's first position |
| Dispatch.RemoveFirstAbsent | js/dispatcher/appDispatcher.js:56-61 | unregistering a callback that is not registered leaves the registry unchanged |
| Dispatch.RemoveFirstIsSplice | js/dispatcher/appDispatcher.js:56-61 | unregistering a registered callback removes exactly the entry at its first index (`splice(index, 1)`) |
| Dispatch.RemoveFirstMultiset | js/dispatcher/appDispatcher.js:56-61 | unregistering removes one copy of the callback and keeps every other entry |
| Dispatch.WaitForDuringCycle | js/dispatcher/appDispatcher.js:85-132 | while callback i runs, `waitFor` settles exactly when every awaited existing callback has an index below i |
| Dispatch.CallSeesEarlierResolves | js/dispatcher/appDispatcher.js:84-100 | in the events a cycle records, callback i is called at position 2i, and by then exactly the promises of callbacks 0 .. i-1 have been resolved |
| Dispatch.WaitForInsideCallback | js/dispatcher/appDispatcher.js:129-132 | a `waitFor` made by callback i settles, over the promise table the recorded events leave, exactly when every awaited existing callback was called and returned before i |
| Dispatch.Route | js/dispatcher/appDispatcher.js:103-127 | the hub and extension pages run every payload locally and relay nothing. A renderer forwards every payload. An extension page inside a renderer never runs callbacks. Otherwise callbacks run exactly when the payload names no other window. The forwarded copy differs only in `alreadyHandledByRenderer`, which is set after a local run to whether the payload named this window |
| Dispatch.RelaysSnoc | js/dispatcher/appDispatcher.js:103-127 | the forwarding of one more payload appends that payload's relay |
| Dispatch.RelaysAppend | js/dispatcher/appDispatcher.js:103-127 | forwarding is compositional: the relays of a + b are those of a followed by those of b |
| Dispatch.RelaysPreserveOrder | js/dispatcher/appDispatcher.js:103-127 | the hub relays nothing; a renderer relays each payload exactly once, in order, with its action type unchanged |
| Dispatch.BatchTraceSnoc | js/dispatcher/appDispatcher.js:147-153 | running one more payload of a batch appends that payload's whole cycle to the trace; cycles never interleave |
| Dispatch.RunOneMore | js/dispatcher/appDispatcher.js:147-153 | the trace and the outbound queue after payload i of a batch extend those after the first i payloads by payload i's own events and relay |
| Dispatch.SentBatchesSnoc | js/dispatcher/appDispatcher.js:155-158 | the forwarded batches among sent messages grow only through `DISPATCH_ACTION` messages |
| Dispatch.ForwardRun | js/dispatcher/appDispatcher.js:103-158 | running payloads keeps forwarding in step: their relays join the outbound queue |
| Dispatch.ForwardRegister | js/dispatcher/appDispatcher.js:48-54 | a registration request leaves the forwarding of payloads as it was |
| Dispatch.ForwardFlush | js/dispatcher/appDispatcher.js:155-158 | sending the next outbound batch keeps forwarding in step; the message is sent only when something waits |
| Dispatch.EnrichPayload | js/dispatcher/appDispatcher.js:190-216 | a live sender's tab id is recorded, along with its window when one is known. A destroyed sender adds only the empty `queryInfo`. The target window is filled in exactly for a message from a hosted page (an extension) that names no window. The action type, `frameProps` and the already-handled flag are kept |
| Dispatch.EnrichAll | js/dispatcher/appDispatcher.js:218-224 | enriching a batch enriches each payload in place, keeping the length and the order |
| Dispatch.EnrichOneMore | js/dispatcher/appDispatcher.js:218-224 | the enrichment of one more payload of a batch appends that payload's enrichment |
| Dispatch.FirstUndefined | js/dispatcher/appDispatcher.js:218-224 | the position of the first payload without an action type, or the batch length when there is none |
| Dispatch.AppDispatcher.constructor | js/dispatcher/appDispatcher.js:33-38 | a fresh dispatcher: no callbacks, not dispatching, not shut down, nothing run or sent; the invariants hold |
| Dispatch.AppDispatcher.Register | js/dispatcher/appDispatcher.js:48-54 | the callback is appended and its index returned; a renderer also sends the hub one registration request; in an extension page, where there is no `process` global, the call throws and nothing is appended or sent |
| Dispatch.AppDispatcher.Unregister | js/dispatcher/appDispatcher.js:56-61 | the first occurrence of the callback is removed, and nothing else changes |
| Dispatch.AppDispatcher.Dispatch | js/dispatcher/appDispatcher.js:72-83 | after shutdown, nothing happens. A payload without an action type fails. Otherwise the payload is accepted and pending; the first one outside a cycle is handed to `setImmediate`, and later ones queue behind it |
| Dispatch.AppDispatcher.DispatchToOwnRegisteredCallbacks | js/dispatcher/appDispatcher.js:85-101 | every registered callback is called with the payload in registration order, each promise is resolved right after its callback returns, and the promise table ends empty |
| Dispatch.AppDispatcher.DoneDispatching | js/dispatcher/appDispatcher.js:141-145 | `dispatching` drops exactly when the pending queue is idle |
| Dispatch.AppDispatcher.DispatchInternal | js/dispatcher/appDispatcher.js:103-127 | the trace grows by the cycle exactly when the routing rule runs the payload locally, and the outbound queue grows by its relay |
| Dispatch.AppDispatcher.Step | js/dispatcher/appDispatcher.js:77-153 | the scheduled payload runs first, otherwise the next batch of at most 200 queued payloads. The trace and the outbound queue grow by exactly those runs, the pending count drops, and both invariants are kept |
| Dispatch.AppDispatcher.RunScheduled | js/dispatcher/appDispatcher.js:77-82 | the payload handed to `setImmediate` runs with its completion signal |
| Dispatch.AppDispatcher.RunQueuedBatch | js/dispatcher/appDispatcher.js:147-153 | the oldest (at most 200) queued payloads run in queue order and leave the queue |
| Dispatch.AppDispatcher.RunInOrder | js/dispatcher/appDispatcher.js:147-153 | a batch's payloads run one after the other; their cycles and relays are appended in batch order |
| Dispatch.AppDispatcher.Drain | js/dispatcher/appDispatcher.js:72-153 | with callbacks that return normally, stepping until nothing is pending terminates; then every accepted payload has started, in acceptance order |
| Dispatch.AppDispatcher.WaitFor | js/dispatcher/appDispatcher.js:129-132 | a wait made between cycles, when the promise table is empty, settles at once, whatever indexes it names; the wait made during a cycle is `WaitForInsideCallback` |
| Dispatch.AppDispatcher.Shutdown | js/dispatcher/appDispatcher.js:134-136 | the dispatcher is shut down, after which `Dispatch` accepts nothing |
| Dispatch.AppDispatcher.FlushIpc | js/dispatcher/appDispatcher.js:155-158 | the oldest (at most 200) outbound payloads go to the hub as one `DISPATCH_ACTION` message; nothing is sent when nothing waits |
| Dispatch.AppDispatcher.DispatchEventPayload | js/dispatcher/appDispatcher.js:190-216 | the hub dispatches the enriched payload; it fails exactly when the action type is missing |
| Dispatch.AppDispatcher.ReceiveBatch | js/dispatcher/appDispatcher.js:218-224 | a received batch is enriched and dispatched in order up to the first payload without an action type, which throws and stops the rest |
| Dispatch.AppDispatcher.RegisterRenderer | js/dispatcher/appDispatcher.js:160-188 | a fresh callback with an empty 20-payload cargo is registered for the renderer |
| Dispatch.Registrant.constructor | js/dispatcher/appDispatcher.js:163-169 | a new registrant's cargo is empty and nothing has been delivered |
| Dispatch.Registrant.Handle | js/dispatcher/appDispatcher.js:170-180 | a destroyed renderer or a throwing push unregisters the callback; otherwise the payload joins the renderer's cargo |
| Dispatch.Registrant.OnCrashed | js/dispatcher/appDispatcher.js:181-183 | a crashed renderer's callback is unregistered |
| Dispatch.Registrant.OnDestroyed | js/dispatcher/appDispatcher.js:184-186 | a destroyed renderer's callback is unregistered |
| Dispatch.Registrant.Flush | js/dispatcher/appDispatcher.js:163-169 | the oldest (at most 20) queued payloads go to a live renderer as one message, in order; the cargo's guarantee is kept |
| WindowStore.KeyIndex | js/stores/windowStore.js:90-118 | the position of the first frame with the key, or -1 exactly when no frame has it |
| WindowStore.Unpinned | js/stores/windowStore.js:41-53 | the unpinned frames are exactly the frames that are not pinned |
| WindowStore.MaxKey | js/stores/windowStore.js:85-89 | the largest frame key (at least 0), which is 0 or the key of some frame |
| WindowStore.Apply | js/stores/windowStore.js:123-161 | merging into a frame never changes its key |
| WindowStore.UpdateFrameKeepsKeys | js/stores/windowStore.js:123-161 | a merge into one frame keeps every frame key and everything outside the frame list |
| WindowStore.FrameIndexKey | js/stores/windowStore.js:271-281 | the frame found for a key has that key |
| Splices.MovedPlacement | js/stores/windowStore.js:274-278 | the two splices of a move put the element, at another position, just before or just after the element there; the other elements keep their order and the length is unchanged |
| Splices.MovedPermutation | js/stores/windowStore.js:274-278 | the two splices of a move, putting back the element they took out, give a permutation of the list |
| Splices.MovedOntoItself | js/stores/windowStore.js:274-278 | a move that puts the element back before or after its own position gives the list back |
| WindowStore.MoveFramePlacement | js/stores/windowStore.js:271-281 | moving a tab onto another tab places it just before (when prepending) or just after the destination; the other tabs keep their order |
| WindowStore.MoveFrameOntoItself | js/stores/windowStore.js:271-281 | moving a tab onto itself leaves the tab list unchanged |
| WindowStore.MoveFrameKeys | js/stores/windowStore.js:271-281 | moving a present tab keeps the multiset of frame keys. When the moved frame is the stored one, the tab list is a permutation of the old one |
| WindowStore.UrlbarStepKeepsKeys | js/stores/windowStore.js:90-316 | the URL-bar actions keep every frame key and the active key |
| WindowStore.KeysPreserved | js/stores/windowStore.js:83-359 | every action that does not replace, add, close or activate frames keeps the multiset of frame keys. This excludes a pin that duplicates a pinned location and a tab move whose source is missing |
| WindowStore.NewFrameKeyIsFresh | js/stores/windowStore.js:55-179 | `SET_STATE` installs the given state and restarts the counter at its largest key, so the next new frame's key is larger than every key of that state (and is 1 for an empty one) |
| WindowStore.SetUrlRule | js/stores/windowStore.js:90-106 | setting the active frame's own `src` only marks a reload and stops audio. Any other URL sets `src` and `location`, clears the title and stops audio. Without an active frame nothing changes |
| WindowStore.NavBarInputEffect | js/stores/windowStore.js:32-35 | `updateNavBarInput` shows the location in the active frame's URL bar, clears its preview and changes nothing else |
| WindowStore.SetNavbarInputRule | js/stores/windowStore.js:119-122 | `SET_NAVBAR_INPUT` is `updateNavBarInput` on the active frame and nothing else |
| WindowStore.SetLocationEffect | js/stores/windowStore.js:107-118 | the location step on the targeted present frame, with the URL bar updated exactly when that frame is the active one |
| WindowStore.SetLocationRule | js/stores/windowStore.js:107-118 | `SET_LOCATION` targets the keyed frame, or the active one when the key is falsy. That frame gets the location and stops audio, and its URL bar shows the location exactly when it is the active frame; nothing else changes |
| WindowStore.NavbarFocusEffect | js/stores/windowStore.js:162-170 | the focus step changes only the active frame's navbar focus, URL-bar focus and, on blur, its selection |
| WindowStore.NavbarFocusRule | js/stores/windowStore.js:162-170 | `SET_NAVBAR_FOCUSED` gives the active frame's navbar and URL bar the focus value, and a blur clears the selection to `false` |
| WindowStore.BlurLeavesSelectionUndefinedAsWritten | js/stores/windowStore.js:167 | as written, a blur sets the active URL bar's selection to `undefined`, which differs from the cleared state |
| WindowStore.HoverFlagRules | js/stores/windowStore.js:233-270 | over-left, over-right and dragging-on each set their one hover flag of the named tab and clear the other two. Drag-exit clears all three, drag-exit-right only the right-half flag, and nothing else changes |
| WindowStore.DragStartStopRules | js/stores/windowStore.js:219-232 | drag start marks the named tab dragging and records it as the dragged tab; drag stop clears both; nothing else changes |
| WindowStore.MissingFrameHitsLastFrame | js/stores/windowStore.js:123-352 | a frame action naming a frame that is not in the list rewrites the last frame, because index -1 counts back from the end |
| WindowStore.TabPageIndexOnlyTouchesUi | js/stores/windowStore.js:41-53 | `updateTabPageIndex` changes nothing outside the UI state |
| WindowStore.TabPageIndexRules | js/stores/windowStore.js:41-53 | no frame or a pinned frame changes nothing, and neither does page -1; otherwise the tab page index becomes the frame's page among the unpinned frames |
| WindowStore.SetActiveFrameActivates | js/stores/windowStore.js:197-203 | `SET_ACTIVE_FRAME` makes the named frame's key the active key |
| WindowStore.SetTabPageIndexRule | js/stores/windowStore.js:204-211 | an explicit index is stored as it is |
| WindowStore.SetPinnedDuplicate | js/stores/windowStore.js:327-340 | pinning a location that is already pinned replays the action as `WINDOW_CLOSE_FRAME` and then `WINDOW_SET_ACTIVE_FRAME` on the same `frameProps`; the active key then names the frame just closed, not the already-pinned frame the comment at lines 328-329 speaks of, so it names a listed frame only if `removeFrame` keeps it; the key counter is untouched |
| WindowStore.SetPinnedRule | js/stores/windowStore.js:327-340 | any other pin or unpin changes only the named frame's pinned flag |
| WindowStore.UnknownActionIgnored | js/stores/windowStore.js:357-359 | an action the reducer does not know changes neither the state nor the counter |
| WindowStore.Store.constructor | js/stores/windowStore.js:13-56 | the store starts with no frames, nothing active or dragged, and the counter at 0 |
| WindowStore.Store.IncrementNextKey | js/stores/windowStore.js:56 | the counter goes up by one and its new value is returned |
| WindowStore.Store.UpdateNavBarInput | js/stores/windowStore.js:32-35 | the new state is `updateNavBarInput` applied to the old one |
| WindowStore.Store.UpdateTabPageIndex | js/stores/windowStore.js:41-53 | the new state is `updateTabPageIndex` applied to the old one |
| WindowStore.Store.MoveTab | js/stores/windowStore.js:271-281 | only the frame list changes, to the moved list |
| WindowStore.Store.DoAction | js/stores/windowStore.js:83-359 | the step-by-step reducer ends in the state and counter that `ReduceState` and `NextKey` give, whose properties the rule lemmas state |
| WindowStore.Store.DoUrlbarAction | js/stores/windowStore.js:90-316 | the URL-bar cases end in `UrlbarStep`'s state |
| WindowStore.Store.DoFrameListAction | js/stores/windowStore.js:85-211 | the frame-list cases end in `FrameListStep`'s state and counter |
| WindowStore.Store.DoTabStripAction | js/stores/windowStore.js:219-357 | the tab-strip cases end in `TabStripStep`'s state |
| WebviewPreload.FallbackSize | app/content/webviewPreload.js:48-52 | the fallback size exists exactly when iframe data is given; its width is `width` when that is a non-zero number and `w` otherwise, and its height likewise `height`, else `h` (JavaScript's `||`) |
| WebviewPreload.GetAdSize | app/content/webviewPreload.js:29-53 | when some acceptable size fits, the result is the first fitting size in table order; when none fits, it is the fallback from the iframe data |
| WebviewPreload.EditableByDomValue | app/content/webviewPreload.js:178-183 | for the values the DOM gives `contentEditable`, an element is editable exactly when the value is `true` or `plaintext-only`, or the element is an `INPUT` or `TEXTAREA` |
| WebviewPreload.HeldIff | app/content/webviewPreload.js:206-249 | a modifier is held exactly when some key-down of it came and no key-up of it followed |
| WebviewPreload.KeyHandler.constructor | app/content/webviewPreload.js:206-207 | both flags start up and nothing has been sent |
| WebviewPreload.KeyHandler.OnKeyDown | app/content/webviewPreload.js:208-238 | ESC sends stop-load. Outside editable elements, BACKSPACE goes forward when shift is held and back otherwise. LEFT and RIGHT go back and forward only with cmd held on OS X outside editable elements. SHIFT and CMD are then held, no other key sends anything, and the flags keep matching the key history |
| WebviewPreload.KeyHandler.OnKeyUp | app/content/webviewPreload.js:239-249 | releasing SHIFT or CMD clears its flag; nothing is sent; the flags keep matching the key history |
| WebviewPreload.FirstThrow | app/content/webviewPreload.js:119-131 | the first candidate whose element is found but whose replace id is undefined (where `startsWith` throws), or the number of candidates |
| WebviewPreload.DirectReplacements | app/content/webviewPreload.js:113-134 | a candidate is replaced directly exactly when its element is on the page and its id is not a common container |
| WebviewPreload.DirectReplacementsOne | app/content/webviewPreload.js:119-134 | a single candidate is handed to `processAdNode` exactly when its element is on the page and its id is not a common container |
| WebviewPreload.DirectReplacementsAppend | app/content/webviewPreload.js:119-134 | the `forEach` handles the candidates one after another: the replacements of a concatenation are those of each part, in message order |
| WebviewPreload.DirectReplacementsCount | app/content/webviewPreload.js:119-134 | a candidate replaced directly is handled as many times as the message names it, any other candidate never |
| WebviewPreload.FallbackTableEntries | app/content/webviewPreload.js:113-131 | the fallback table has an entry for an id exactly when a common-container candidate named it, and the entry is the last such candidate |
| WebviewPreload.ClassifyCandidates | app/content/webviewPreload.js:113-134 | the handler's first pass yields the direct replacements and the fallback table of the candidates before the first throwing one, and fails exactly when one throws |
| WebviewPreload.CommonElementsDeferred | app/content/webviewPreload.js:126-131 | no common-container candidate is replaced directly, and every direct replacement was on the page |

## Left out

- IPC transport, `electron.remote`, `Serializer` and `setImmediate` timing are not modelled. Messages sent become entries of `ipcSent` and `delivered`, and each timer or worker run is an explicit `Step`, `FlushIpc` or `Flush` call.
- The promises of a dispatch cycle are flags. A callback's own asynchronous work and the order in which `waitFor` continuations run are not modelled.
- A callback that unregisters or registers a callback during a cycle is not modelled. The hub callback's reaction is `Registrant.Handle`, called separately.
- The no-echo suppression on the hub (not dispatching back to the sender) is not modelled.
- The `async.cargo` queues are values owned by one closure each, not shared objects. Aliasing between cargos does not arise in the source and is not modelled.
- The helpers of js/state/frameStateUtil.js (`addFrame`, `removeFrame`, `undoCloseFrame`, `getFrameTabPageIndex`) are not part of this model. They are function parameters, so `NEW_FRAME`, `CLOSE_FRAME` and `UNDO_CLOSED_FRAME` are stated only in terms of what those helpers return.
- `getActiveFrame` is assumed to be the frame whose key is the active key; js/state/frameStateUtil.js is not part of this model.
- Immutable's handling of index -1 on an empty frame list is left out: the model changes nothing there, while Immutable would create a partial frame.
- Where the source throws a `TypeError` (no active frame, no `frameProps`), the model leaves the state unchanged. The exception itself is not modelled.
- Frames are compared by value, not by Immutable reference identity (`frameProps === getActiveFrame`).
- The load timestamps `startLoadTime` and `endLoadTime` (js/stores/windowStore.js:138-139, 146), `computeThemeColor` and its later `computedThemeColor` merge (lines 148-160), the change event (`emitChange`) and the shortcut IPC handlers of windowStore.js (lines 363-394) are not modelled.
- `processAdNode`, `ensureNodeVisible`, `hasSelection`, the context-menu handler and the DOM edits of the preload script are not modelled. So is the second, common-selector pass of the candidate handler (lines 138-151), which reads the page's DOM. The page is reduced to the set of element ids on it.
- Replace ids containing quote characters are not modelled: such a `[id="…"]` selector would not parse, and the model treats the id as a plain string.
- `preventDefault` in the key handlers is not modelled.
- The numeric key codes are not modelled: the keys are a datatype and are assumed distinct.
- WindowStore.SetLocationRule states only the case where the targeted frame is present. A missing frame hits the last frame, as in `MissingFrameHitsLastFrame`.
- WindowStore.SetNavbarInputRule states only the case where an active frame is present.
- WindowStore.NavbarFocusRule states only the case where an active frame is present.
- WindowStore.HoverFlagRules states only the case where the named frame is present; the missing-frame case is `MissingFrameHitsLastFrame`.
- WindowStore.DragStartStopRules states only the case where the named frame is present.
- WindowStore.SetPinnedRule states only the case where the named frame is present.
- WindowStore.KeysPreserved does not cover a tab move whose source frame is missing. There, Immutable's `splice(-1, 1)` drops the last frame and the source is inserted in its place.
- Dispatch.AppDispatcher.DispatchToOwnRegisteredCallbacks / RunInOrder / RunQueuedBatch / Drain assume that every callback returns normally; a callback is an identity with no behaviour. In the source, a callback that throws leaves the `forEach` of js/dispatcher/appDispatcher.js:96-99. The later callbacks of that cycle are not called, promise i is never resolved or rejected (so a `waitFor` on it never settles), and `this.promises = []` is skipped. So is the completion signal `cb()`. Inside the `dispatchCargo` worker (lines 147-152) the rest of the batch does not run and the worker is never released, so `dispatching` stays true and every later `dispatch` queues for good. The termination and "every accepted payload has started" promises of `Drain` hold only under this assumption.
- WindowStore.Store.DoAction takes the action by value. On a duplicate pin the source rewrites `action.actionType` in place, first to `WINDOW_CLOSE_FRAME` and then to `WINDOW_SET_ACTIVE_FRAME` (js/stores/windowStore.js:332, 334), so after `doAction` returns, the caller's action object reads `WINDOW_SET_ACTIVE_FRAME`. The model replays the two actions but does not capture that mutation of the caller's object.
- WindowStore.Store.DoAction / Store.DoUrlbarAction / ReduceState use the corrected blur value: on `WINDOW_SET_NAVBAR_FOCUSED` with `focused: false` they store `false` as the URL bar's selection, where js/stores/windowStore.js:167 stores `undefined`. The as-written value is modelled only by `BlurLeavesSelectionUndefinedAsWritten`.
- WebviewPreload.DirectReplacements and WebviewPreload.ClassifyCandidates take the page's element ids as fixed for the whole pass. In the source, `processAdNode` empties a replaced element that is not an IFRAME (app/content/webviewPreload.js:90-92). A later candidate nested inside it is then no longer found (lines 121-124), so the source neither replaces nor defers it, while the model still does.

## Findings

| source | as written | input that shows it | evidently intended | confidence | as-written member | corrected member |
|---|---|---|---|---|---|---|
| js/stores/windowStore.js:167 | on blur the URL bar's `selected` is set to `action.false`, a property no action has, so it becomes `undefined` | `WINDOW_SET_NAVBAR_FOCUSED` with `focused: false` while an active frame exists | `selected` becomes `false`, as the comment "selection should be cleared on blur" says | medium; not executed | WindowStore.BlurLeavesSelectionUndefinedAsWritten | WindowStore.NavbarFocusRule |
