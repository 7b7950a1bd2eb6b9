# Virtual-scroll record viewer, modelled in Dafny

The viewer (`script.js`) loads a JSON array of person records and hands it to a
Web Worker in chunks of 1000. The worker derives an age and initials for each
record. The viewer then shows the records in a virtual-scroll list: only the
records in the viewport, plus a buffer of 100 rows on each side, are rendered.
Each card is absolutely positioned at its own 110 px row. When loading finishes,
an auto-scroll animation moves the list down by 0.4 px per animation frame until
the end of the content. The pointer and touch handlers pause and resume it.

The model has five modules:

- `JsBuiltins` gives `Math.min`, `Math.max` and `Array.prototype.slice`, including
  slice's handling of negative indices and its clamping.
- `Formatter` covers the worker's per-record derivations: `calculateAge`,
  `split(" ")`, `charAt(0)`, `getInitials`, and the projection of a raw record
  onto the displayed one.
- `Chunking` describes the partition the loading loop cuts with
  `data.slice(i, i + chunkSize)`.
- `Viewport` holds the visible-range arithmetic of `updateVisibleItems` and the
  card placement of `renderItems`, as functions and lemmas.
- `Viewer` models the `state` object and the few numeric page values the code
  writes or reads. It is a class `App` with imperative methods:
  - the loading loop
  - `initVirtualScroll` and the scroll listener
  - `updateVisibleItems` and `renderItems`
  - `autoScroll`, `startAutoScroll` and `stopAutoScroll`
  - the host running a queued animation frame

Units:

- The scroll code works in tenths of a pixel. The 0.4 px step is the integer 4,
  the 25 px "near the end" margin is 250, and a row is 1100 in the range
  arithmetic. `Math.floor(t / 110)` for `t` px equals `u / 1100` in Dafny's
  integer division when `u = 10·t` is an integral number of tenths.
- Card tops and the surface height are in pixels, as the markup writes them.

`requestAnimationFrame` is modelled as a set of pending frame ids plus the next
id to hand out. Ids count up from 1; `animationFrameId == 0` stands for the
field still being `undefined`. `cancelAnimationFrame` removes an id from the set.

The model follows the code as written. The one place where the code does not do
what it evidently means to do is `startAutoScroll`. The comment "Resume on mouse
up or touch end" (`script.js:367`) shows that the mouseup, touchend and
mouseleave handlers are meant to resume a paused animation. But
`startAutoScroll` checks only `totalRecords > 0`, so a resume while the
animation runs starts a second frame chain. `loadData` (`script.js:193`) and the
handlers use the handler as written (`StartAutoScrollAsWritten`). The guarded
`StartAutoScroll` exists only as the corrected definition in the finding below.

## Model

| member | source | states |
|---|---|---|
| JsBuiltins.Min | script.js:284-288 | the result is one of the two arguments and at most both |
| JsBuiltins.Max | script.js:280-283 | the result is one of the two arguments and at least both |
| JsBuiltins.Slice | script.js:291 | a start inside the array and an end past it give exactly the elements from start up to min(end, length); an end at or before a non-negative start gives the empty array; the result is never longer than the input |
| Formatter.CalculateAge | script.js:328-337 | the age is the completed years: the birthday of year birth+age is on or before today, and that of year birth+age+1 is not |
| Formatter.AgeIsUnique | script.js:331-335 | any year count with the two birthday properties equals calculateAge's result |
| Formatter.AgeExamples | script.js:331-335 | one day before the 24th birthday gives 23; on the anniversary itself gives 24 |
| Formatter.Split | script.js:349 | split(" ") always yields at least one token |
| Formatter.JoinSplit | script.js:349 | no token holds a space, and the tokens joined with single spaces give back the string |
| Formatter.SplitJoin | script.js:349 | splitting a non-empty sequence of space-free tokens joined with spaces gives back exactly those tokens |
| Formatter.NoSpaceSplit | script.js:349 | a string without a space is a single token |
| Formatter.SplitLast | script.js:349-352 | a string with a space splits into more than one token, and the last token is the text after the last space |
| Formatter.FirstChar | script.js:351-352 | charAt(0) is empty exactly for the empty string, otherwise its first character |
| Formatter.GetInitials | script.js:348-354 | the initials are at most two characters |
| Formatter.FirstTokenLead | script.js:351 | the first initial is the name's first character, or nothing when the name is empty or starts with a space |
| Formatter.InitialsOfOneToken | script.js:349-353 | a name without a space contributes only its first character |
| Formatter.InitialsOfSeveralTokens | script.js:349-353 | with a space, the initials are the leading initial followed by the first character after the last space |
| Formatter.InitialsExamples | script.js:348-354 | "Jane Doe" gives "JD" and "Cher" gives "C" |
| Formatter.ProcessRecord | script.js:92-100 | the displayed record keeps id, both names, dob and source; its age is the number of birthdays of dob reached by today; its initials are at most two characters, and a one-word English name gives just its first character |
| Formatter.ProcessedInitials | script.js:98 | for an English name with a space, the displayed initials are its leading initial and the first character after its last space |
| Formatter.ProcessChunk | script.js:92-100 | the worker answers a chunk with exactly one record per input record |
| Formatter.ProcessChunkAt | script.js:92-100 | record k of the answer is the projection of record k of the chunk |
| Formatter.ProcessChunkAppend | script.js:171 | processing two consecutive pieces and concatenating the answers is processing the concatenation |
| Chunking.ChunksFront | script.js:181-182 | the first chunk of a non-empty array is slice(0, chunkSize), followed by the chunks of the rest |
| Chunking.ChunkStep | script.js:181-182 | at each offset i of the loop, the chunk it slices is the first chunk of what remains, and the remainder starts at min(i + chunkSize, length) |
| Chunking.PrefixStep | script.js:182 | the slice taken at offset i extends the consumed prefix to min(i + chunkSize, length) |
| Chunking.FlattenChunks | script.js:181-184 | the chunks concatenate back to the input array |
| Chunking.ChunkSizes | script.js:181-184 | there are ceil(n / chunkSize) chunks; every chunk but the last holds exactly chunkSize records and the last holds between 1 and chunkSize |
| Chunking.ChunksOf2500 | script.js:181-184 | 2500 records are sent as three chunks of 1000, 1000 and 500 |
| Viewport.VisibleRange | script.js:280-288 | the range is absent exactly for an empty store, and otherwise 0 <= startIndex and endIndex <= length - 1 |
| Viewport.RangeNonEmpty | script.js:280-288 | with the offset inside the content and a buffer of at least one row, startIndex <= endIndex |
| Viewport.RangeMonotone | script.js:280-288 | scrolling further down never decreases startIndex or endIndex |
| Viewport.RangeCoversViewport | script.js:276-288 | every record whose row overlaps the viewport lies between startIndex and endIndex |
| Viewport.RangeExample | script.js:280-288 | 2500 records scrolled to 5500 px with an 800 px viewport render records 0 to 157 |
| Viewport.Visible | script.js:291 | the slice is empty for an empty store and never longer than it |
| Viewport.VisibleIsWindow | script.js:291 | with the offset inside the content, the slice has endIndex - startIndex + 1 records and its record k is allData[startIndex + k] |
| Viewport.CardsStacked | script.js:302-303 | consecutive cards are exactly one record height apart, and the tops strictly increase |
| Viewport.CardsInsideSurface | script.js:302-303 | each card of a window inside the store lies wholly within the surface of length × recordHeight px |
| Viewer.Cancel | script.js:49-51 | cancelling withdraws the id, and only it, from the pending set; id 0 (undefined) cancels nothing |
| Viewer.App.constructor | script.js:63-70 | the initial state: empty store, nothing visible, not loading, not auto-scrolling, no frame pending |
| Viewer.App.RenderItems | script.js:299-325 | one card per visible record; card i sits at (startIndex + i) × recordHeight px |
| Viewer.App.UpdateVisibleItems | script.js:273-296 | an empty store leaves the view unchanged; otherwise the view is the slice of the visible range with its cards placed on their rows; with the offset inside the content, the view holds exactly the window's records in order and its cards are inside the surface and strictly increasing |
| Viewer.App.OnScroll | script.js:266-269 | the scroll listener records the offset and then refreshes the view as updateVisibleItems does |
| Viewer.App.InitVirtualScroll | script.js:257-264 | needs the content element; the surface height becomes length × recordHeight px, then the view is refreshed |
| Viewer.App.IngestChunks | script.js:163-184 | the worker is sent exactly the chunk partition, in order; the store grows by the processed records in input order; processedCount ends at data.length |
| Viewer.App.LoadRecords | script.js:161-192 | the total is taken, every chunk is ingested and loading ends. With the content element the surface is sized and the view set up; without it the surface and the view are left as they were |
| Viewer.App.LoadData | script.js:161-196 | after loading, the store and posted chunks are as IngestChunks leaves them. Without the content element initVirtualScroll throws before it writes anything and the catch skips startAutoScroll, so the surface, the view, the scroll position and auto-scroll are all unchanged. With the element the surface is sized to the store, and with records loaded auto-scroll is (re)started by the handler as written. Away from the end it advances one step and adds one frame to the queue, beside any frame a resumed animation already has queued. At the end it stops at once and the remembered frame is withdrawn. With no records, auto-scroll and the view are untouched. The invariant "while auto-scrolling the last requested frame is queued" is kept. autoScroll records the content's offset as the scroll position. Near the end it renders the window for that offset afresh; otherwise the page keeps the window initVirtualScroll rendered for the earlier position |
| Viewer.App.RequestFrame | script.js:33 | a fresh id joins the pending set and is remembered |
| Viewer.App.StopAutoScroll | script.js:47-52 | auto-scrolling is always off afterwards, and the remembered frame is withdrawn when there is one |
| Viewer.App.AutoScroll | script.js:1-37 | without its element it stops; it records the offset and refreshes the view near the end; with auto-scrolling off it schedules nothing; at the end it stops and schedules nothing; otherwise it adds exactly one step to the offset and schedules exactly one frame |
| Viewer.App.Frame | script.js:33 | running a queued frame takes it off the queue and performs one autoScroll; afterwards, while auto-scrolling, the last requested frame is queued; a single chain stays single |
| Viewer.App.StartAutoScrollAsWritten | script.js:39-45 | with records loaded it turns auto-scrolling on and performs one autoScroll at once, whatever is already queued; without records nothing changes; "while auto-scrolling the last requested frame is queued" is kept |
| Viewer.App.StartAutoScroll | script.js:39-45 | the guarded start: it runs only when records are loaded and the animation is idle, otherwise nothing changes; it preserves the single-chain invariant |
| Viewer.App.AnimateUntilStopped | script.js:1-37 | from any state where, while auto-scrolling, the last requested frame is queued (which every operation keeps, the unguarded start included, so also with several chains), running queued frames in any order always comes to rest with nothing queued and auto-scrolling off; when it was auto-scrolling and the element is present, it rests at the end of the content |
| Viewer.StoreStep | script.js:171 | one pass of the loading loop keeps "store = old store + processed prefix" |
| Viewer.PostStep | script.js:166 | one pass of the loading loop keeps "posted + chunks of the rest = old posted + all chunks" |
| Viewer.LoadedPage | script.js:192-193 | loading one record into a fresh page far from the end leaves auto-scroll running, frame 1 queued and the offset one step down |
| Viewer.ResumeWhileScrollingAsWritten | script.js:368-370 | a resume gesture during the animation, with the handler as written, leaves two frames queued, and the next refresh scrolls twice the step |
| Viewer.ResumeWhileScrolling | script.js:368-370 | the same gesture with the guarded handler leaves one frame queued and a refresh scrolls one step |

## Left out

- Fetching the file, the `response.ok` check, JSON parsing and the error messages are not modelled. The model starts from the parsed array of records.
- The Worker plumbing is not modelled: the blob URL, `postMessage` and the one-shot `onmessage` handler. Each chunk's response is modelled as arriving before the next chunk is sent, as the `await` in the loop ensures. `state.worker` being `null` when `window.Worker` is missing is not modelled.
- The two copies of calculateAge and getInitials (inside and outside the worker's source string) are modelled once, because they are the same code.
- `today` (`new Date()`) is a parameter. The source reads the clock once per record (`script.js:106`). The model uses one `today` for the whole load, so a load that runs across midnight, or across a birthday, is not modelled.
- `charAt(0)` returns one UTF-16 code unit, but a Dafny `char` is a whole Unicode scalar value. For an `en_name` that starts with a character above U+FFFF, the source gives half of a surrogate pair while `FirstChar` gives the whole character.
- A record whose `en_name` is not a string is not modelled. `RawRecord.enName` is a `string`. In the source, `name.split` throws inside the worker (`script.js:126`), the worker never answers, the `await` at `script.js:183` never completes and loading never ends.
- `formatDate` is not modelled: it relies on locale formatting through `toLocaleDateString`. The displayed record keeps the date of birth as a `Date` value.
- Dates are given as year, month and day. An unparseable date string (`NaN` age) is not modelled.
- `updateProgress`, `updateMemoryUsage` and the progress bar are not modelled: they are presentation only. Both `updateProgress` declarations, one shadowing the other, are left out for the same reason.
- `processDataChunk` and `processNextChunk` are not modelled. `processNextChunk` is called only from the answer handler that `initWorker` installs (`script.js:139`), and that handler never runs. `loadData`'s `processChunk` replaces it (`script.js:169`) right after posting each chunk (`script.js:166`), before the worker's answer can be delivered. `processNextChunk` is the only caller of `processDataChunk` (`script.js:232`), and it reads `state.rawData`, which is never set.
- The HTML markup of the cards and the status elements is not modelled. Only the cards' `top` values and the surface height are kept.
- Browsers clamp `scrollTop` to `[0, scrollHeight - clientHeight]` and round it to device pixels. The model does not do either: each step adds exactly 0.4 px.
- `scrollHeight` and `clientHeight` are layout values the browser reports. They are fields the model does not change, and they are not tied to the height initVirtualScroll writes to the content element (`script.js:260`): the layout that turns that height into `scrollHeight` is not modelled, so a state such as the one `Viewer.LoadedPage` builds (one record, `scrollHeight` 1000000) is a given layout, not one derived from the store.
- Animation-frame timing is not modelled. A queued frame runs only when `Frame` is called.
- The `DOMContentLoaded` wiring, `addEventListener` and the pointer/touch bindings are not modelled. The model has the handlers the events call: `StopAutoScroll`, `StartAutoScrollAsWritten` and `OnScroll`.
- Viewer.App.LoadData: the catch's status text "Error parsing data" (`script.js:194-197`), shown when initVirtualScroll throws for want of the content element, is not modelled, nor are the other throws the catch handles (a failed fetch or parse, a missing status or progress element at `script.js:188-189`).
- Viewer.App.LoadData: runs as one step. Handlers that fire during the chunk `await`s (`script.js:183`) are not interleaved with the ingestion: a mousedown/touchstart stop, a mouseup/touchend/mouseleave resume once `totalRecords` is set (`script.js:161`), or the frames of an animation that resume started. What such handlers can leave behind when loading ends is covered by the contract, because it holds from any prior auto-scroll state: an animation that is already running gets a second frame chain.
- Each call of `initVirtualScroll` adds another scroll listener. This is not modelled, because the model has no listener list.
- Number formatting and floating-point rounding are not modelled. Lengths are integers in tenths of a pixel, which is exact for the constants used.

## Findings

| source | as written | input that shows it | evidently intended | confidence | as-written member | corrected member |
|---|---|---|---|---|---|---|
| script.js:39-45 | `startAutoScroll`, bound to mouseup, touchend and mouseleave, sets `autoScrolling` and calls `autoScroll` directly without checking whether the animation is already running. That call requests a second frame beside the one already queued, so two frame chains run and the list scrolls at twice the speed. Each further resume adds another chain. The same happens when loading ends (`script.js:193`) after a resume during the chunk awaits has already started the animation. | loaded records, auto-scroll running, and the pointer leaving the list without a mousedown first: two frames are queued, and one refresh advances 0.8 px instead of 0.4 px | start only from the idle or stopped state, so that at most one frame chain exists | not executed | Viewer.ResumeWhileScrollingAsWritten | Viewer.App.StartAutoScroll |
