# doodlegpt drawing core in Dafny

A model of the drawing-state logic of the doodlegpt content script
(`content_script.js`). The content script puts a canvas over the scrolling
chat region of a page. It turns pointer input into freehand strokes and keeps
those strokes per conversation in extension storage. It redraws them whenever
the canvas is resized. The model has six modules:

- `Options` (`options.dfy`): the `Option` datatype the other modules share.

- `ConversationKey` (`conversation_key.dfy`): `getConversationKey` as a pure
  function over strings. It models the regular expression `\/c\/([^\/]+)`
  exactly: the leftmost `/c/` that is followed by at least one character
  other than `/`. The captured identifier is the longest run of non-`/`
  characters after it. Lemmas cover both branches and show that the key
  identifies the host and the conversation. This holds for every host name,
  including a bracketed IPv6 literal such as `[::1]`: `ParseKey` reads any
  key back into its host and identifier.
- `ChatContainer` (`chat_container.dfy`): `findChatContainer` as a filter
  followed by a maximum. Each descendant of `main` is a record holding
  `overflow-y`, `scrollHeight` and `clientHeight`, and whether the element
  or an ancestor is a `figure` or has `role="group"`.
  `Array.prototype.sort` is stable, so on ties the earliest element in
  document order wins. The contract says so.
- `Strokes` (`strokes.dfy`): points, strokes and the 2D-context commands.
  `Render` is the command list that `redrawAll` issues. `Paint` reads a
  command list back as the polylines that its `stroke()` calls paint.
  `PaintRender` proves that redrawing paints exactly the non-empty strokes,
  in order.
- `ContentScript` (`content_script.dfy`): the class `Doodle` holds the
  script's module-level state and has one method per handler. Its fields are:
  - `drawing`, `drawEnabled`, `currentStroke` and `strokes`;
  - `overlayRoot`, `toolbarRoot`, `canvas` and `ctx`, each a flag meaning
    "non-null";
  - `observing`, meaning that the resize and mutation observers are both
    connected (`destroyOverlay` disconnects them but does not null them);
  - `storage`, standing for `chrome.storage.local`;
  - `painted`, the commands issued on the canvas since it was last cleared.

  The invariant `Valid` says that while drawing there is a stroke in progress
  with at least one point.
- `Gestures` (`gestures.dfy`): whole gestures built from the handlers'
  contracts:
  - a press, N moves and a release add exactly one stroke with N+1 points
    and persist it;
  - the same gesture in type mode changes nothing;
  - a clear followed by a load gives the empty collection.

The following are parameters of the handlers: the pointer position, the
toolbar's colour and size, the page's elements and the container's measured
size. When a JavaScript exception would escape a handler, the method returns
`threw`. Two such cases exist in the source:
- a `pointerup` after `destroyOverlay` while a stroke is in progress: `ctx`
  is null, `drawing` is already reset, and the stroke is lost;
- a debounced `resize` that fires after the canvas is gone.

Behaviour of the code worth knowing:
- `destroyOverlay` keeps the in-memory strokes. Only the handles and the
  observers go.
- `pointerup` commits the stroke without checking that it has a point. A
  stroke in progress always has one, by `Valid`.
- The persisted on/off flag is read by JavaScript truthiness, so any truthy
  stored value switches the overlay on at start-up.
- A path such as `/c//c/x` has the id `x`. The first `/c/` is not followed by
  a character other than `/`.

## Model

| member | source | states |
|---|---|---|
| ConversationKey.FirstMatch | content_script.js:25 | the leftmost index where the pattern matches, with no match before it; none when the pattern matches nowhere |
| ConversationKey.NextIndexOf | content_script.js:25 | the first occurrence of a character at or after a start, or the end; with `/` this is where the greedy `[^\/]+` stops, covering only non-`/` characters |
| ConversationKey.ConversationId | content_script.js:25-26 | with a conversation the id is non-empty and contains no `/`; without one it is the whole pathname |
| ConversationKey.Key | content_script.js:27 | every key starts with `cgpt_doodle:` |
| ConversationKey.KeyOfConversation | content_script.js:24-28 | for the leftmost match at `i`, the key is prefix + host + `:` + the maximal non-`/` run after `/c/` |
| ConversationKey.KeyOfPlainPath | content_script.js:24-28 | without a match, the key is prefix + host + `:` + the full pathname |
| ConversationKey.ParseKey | content_script.js:27 | whatever a key reads back as rebuilds exactly that key |
| ConversationKey.ParseKeyOfKey | content_script.js:27 | a key built from any host name (a name, an IPv4 address or a bracketed IPv6 literal such as `[::1]`) and any id reads back as exactly that host and id |
| ConversationKey.KeyIdentifiesConversation | content_script.js:24-28 | for any two host names, IPv6 literals included, equal keys mean the same host and the same conversation id; a conversation key never equals a full-path key |
| ChatContainer.TallestFrom | content_script.js:35-47 | none exactly when nothing qualifies; otherwise a qualifying index at least as tall as every qualifying one and strictly taller than earlier ones |
| ChatContainer.FindChatContainer | content_script.js:31-48 | body exactly when there is no `main`; `main` exactly when nothing qualifies; otherwise the first tallest element that meets all five conditions |
| Strokes.Drawn | content_script.js:77 | keeps exactly the strokes with points, and only strokes of the input |
| Strokes.RenderAppend | content_script.js:76-88 | redrawing one more stroke appends that stroke's commands, or nothing for an empty stroke |
| Strokes.PaintLineTos | content_script.js:84-86 | a run of `lineTo` calls extends the current path by exactly those points |
| Strokes.PaintStroke | content_script.js:78-87 | one stroke's commands paint exactly that stroke, with its colour, width and points |
| Strokes.PaintRender | content_script.js:73-89 | the redraw paints the non-empty strokes in stored order, each as itself, and skips empty ones |
| ContentScript.SaveThenLoad | content_script.js:51-63 | a collection saved under a key is what a load of that key returns |
| ContentScript.LoadMissingOrMalformed | content_script.js:59 | a missing or non-array stored value loads as the empty collection |
| ContentScript.EnabledFlagIsNotAConversationKey | content_script.js:299 | the on/off flag's key never equals a stroke key |
| ContentScript.ConversationsAreIsolated | content_script.js:51-53 | saving for one conversation leaves what loads for another conversation of the site unchanged |
| ContentScript.Doodle.constructor | content_script.js:7-18 | the initial state: disabled, no overlay, not drawing, draw mode on, no strokes, key of the page |
| ContentScript.Doodle.SaveStrokes | content_script.js:51-54 | the whole collection replaces the value under the page's key; other keys are untouched |
| ContentScript.Doodle.LoadStrokes | content_script.js:56-63 | strokes become the stored array, or empty when the value is missing or not an array |
| ContentScript.TraceStroke | content_script.js:78-87 | the commands for one non-empty stroke are exactly its stroke commands and paint exactly that stroke |
| ContentScript.Doodle.RedrawAll | content_script.js:73-89 | without a context nothing changes; otherwise the canvas holds `Render(strokes)` and paints exactly the non-empty strokes |
| ContentScript.Doodle.Resize | content_script.js:203-214 | the canvas takes the given width and height, then everything is redrawn; without a canvas it throws and changes nothing, and without a context it throws after resizing and does not redraw |
| ContentScript.Doodle.LoadThenRedraw | content_script.js:286 | strokes become the stored collection and are drawn |
| ContentScript.Doodle.Attach | content_script.js:99-220 | container located, all handles set, observers connected, canvas sized and redrawn |
| ContentScript.Doodle.CreateOverlay | content_script.js:92-287 | no-op when both roots exist; otherwise the overlay is built, draw mode is on, and the stored strokes are loaded and painted |
| ContentScript.Doodle.DestroyOverlay | content_script.js:289-294 | observers disconnected and every handle nulled; strokes and drawing state unchanged |
| ContentScript.Doodle.SetEnabled | content_script.js:296-301 | flag recorded and persisted, stored stroke data untouched; on: an existing overlay keeps its whole state, otherwise the container is located, the canvas takes the given size, draw mode is on and the stored strokes are loaded and painted; off: handles nulled and observers off, with strokes, container and surface size kept |
| ContentScript.Doodle.Startup | content_script.js:303 | a falsy or missing flag changes nothing; a truthy one has the full effect of enabling: flag stored as `true`, and either the existing overlay kept as it was or a new one built, sized, in draw mode, with the stored strokes loaded and painted |
| ContentScript.Doodle.ToggleDrawMode | content_script.js:240 | the mode button flips draw mode |
| ContentScript.Doodle.PointerDown | content_script.js:242-250 | in type mode nothing changes; otherwise drawing starts with a one-point stroke of the current colour and size |
| ContentScript.Doodle.PointerMove | content_script.js:252-260 | when drawing in draw mode, exactly one point is appended, colour, size and earlier points are kept, and the segment is painted; otherwise nothing changes |
| ContentScript.Doodle.PointerUp | content_script.js:262-269 | not drawing: nothing changes; drawing: the stroke is appended at the end, earlier strokes are kept, drawing and the current stroke are reset, and the whole collection is saved; with no context it throws and loses the stroke |
| ContentScript.Doodle.Clear | content_script.js:271-275 | strokes and canvas empty, and the empty collection persisted under the key |
| Gestures.DrawGesture | content_script.js:242-269 | press, N moves and a release add exactly one stroke with N+1 points and persist the collection |
| Gestures.TypeModeGesture | content_script.js:242-269 | in type mode a whole gesture changes neither strokes, storage nor the canvas |
| Gestures.ClearThenReload | content_script.js:271-275 | after a clear, a load returns the empty collection |

## Left out

- popup.js is not part of this model. It holds tab querying, script injection and message sending.
- service_worker.js is not part of this model. It holds install and activate handlers only.
- The `chrome.runtime.onMessage` listener and the `window.__CGPT_DOODLE` marker are messaging glue. `enabled` stands for both `STATE.enabled` and the marker's flag.
- Canvas pixels, `getBoundingClientRect`-based `getPos`, `setPointerCapture` and the PNG export are foreign rendering APIs. Pointer positions are parameters, and the canvas is the list of commands issued on it.
- `devicePixelRatio`, the rounded backing-store size and the `setTransform`/`scale` calls in `resize` involve floating point. Only the CSS size is kept, as `surfaceWidth` × `surfaceHeight`.
- Round line caps and joins and the toolbar's construction and styling are presentation only. So are the mode button's label and the canvas's `pointer-events` style; the handlers check `drawEnabled` anyway.
- The overlay root's height style and the change of the container's `position` to `relative` are also presentation.
- `ResizeObserver`, `MutationObserver` and the 50 ms `setTimeout` are event and timer plumbing. `Resize` is the operation they trigger, and the environment calls it.
- Storage reads and writes complete at once. Interleavings between a pending load and other events are not modelled.
- A `Doodle` keeps the page's host and path for its whole life. Client-side navigation that changes `location` without reloading the script is not modelled.
- A stored array is taken to hold well-formed strokes. The source checks only `Array.isArray`.
- Each `createOverlay` registers one more window `pointerup` listener. Every listener after the first finds `drawing` false and returns, so one `PointerUp` stands for all of them.
- Coordinates are `real` numbers, not IEEE doubles.
- Strokes.Paint tracks only the subpath being built. Every `moveTo` the script issues directly follows a `beginPath`.
