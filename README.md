# Diagnostic log and metadata caches of the Cloud Foundry "top" plugin, in Dafny

This project models two stateful parts of the plugin.

The first is the diagnostic log of package `toplog`:
- the capped buffer of log lines (at most 1000; the oldest line goes on overflow);
- the single marker line that bookmarks what was last seen;
- the per-level delta counters that count only while the log window is closed;
- the log window's viewport: vertical scroll offset, horizontal pan, the freeze/tail state machine driven by the arrow and page keys;
- the text export of the whole buffer and the most severe buffered level.

The second is the application and route metadata caches of package `metadata`:
- the page handlers that build a new list from the decoded pages of a paged listing, taking each entity's guid from its metadata envelope;
- the loaders and the rules for when a load publishes its list;
- the first-match lookups with their miss sentinels;
- the memoised totals of memory and disk reserved by started apps.

Modules:
- `Wrappers`: `Option`.
- `LogBuffer`: log lines, newline normalisation, the capped append, the marker line, line formatting and the export, as functions with lemmas.
- `Viewport`: offset arithmetic — the tail offset, the range the offset should stay in, the page-down step and the rows `writeLogLines` shows.
- `TopLog`: the package's global state as class `Log` and the `DebugWidget` class, with the entry points as methods that update them in place.
- `Paging`: a fetch as the sequence of pages handed to a handler plus the fetcher's error, and the generic specification of accumulation and first-match search.
- `AppMetadata`: the `App` entity, the handler, the totals and class `AppCache`.
- `RouteMetadata`: the `Route` entity, the handler, the loader and class `RouteCache`.

Most methods that loop are proved against a specification function: the marker search against `LogBuffer.FirstMarker`, the export against `LogBuffer.Export`, the lookups against `Paging.IndexOf`, the totals against `AppMetadata.StartedTotal`, the handlers against `Paging.Reconciled` and the page loops against `Paging.Accumulated`. Properties of those functions are proved as lemmas. The maximum-level scan has no such function: its postcondition states the maximum directly, as a level at least as severe as every buffered line and equal to debug or to one of their levels.

A reload is meant to replace a cache only when the whole fetch succeeded, keeping the previous list when it failed. The app loader in `metadata/apps.go` does not look at the fetch's result and always returns no error, so the app cache is always replaced. The model follows the code (`AppMetadata.AppCache.GetAppMetadata`, `AppMetadata.AppCache.LoadAppCache`). The route loader does propagate the fetch error, and its load keeps the old cache on error.

## Model

| member | source | states |
|---|---|---|
| LogBuffer.Normalize | toplog/toplog.go:209 | the stored message holds no newline, and grows by two characters per newline (each becomes a three-character separator) |
| LogBuffer.NormalizeSingleLine | toplog/toplog.go:209 | a message without newlines is stored unchanged |
| LogBuffer.NormalizeConcat | toplog/toplog.go:209 | the replacement works character by character: it distributes over concatenation |
| LogBuffer.Appended | toplog/toplog.go:211-214 | the new line is the last; everything before it is the old buffer, minus its oldest line exactly when the buffer was full; a buffer within the cap stays within it |
| LogBuffer.AppendAllKeepsNewest | toplog/toplog.go:205-214 | logging lines one after another leaves exactly the newest 1000 of old and new lines (a FIFO of capacity 1000) |
| LogBuffer.OverflowDropsOldest | toplog/toplog.go:211-214 | logging 1000 + K lines into an empty buffer keeps the last 1000, in order |
| LogBuffer.WithoutFirstMarker | toplog/toplog.go:173-175 | deleting the first marker: one line shorter exactly when a marker exists; the lines before it are kept in place and the lines after it move up by one |
| LogBuffer.Marked | toplog/toplog.go:165-178 | after a mark the buffer is never empty and its newest line is the marker with the given stamp |
| LogBuffer.FirstMarker | toplog/toplog.go:166-172 | the index where the marker search stops: no marker before it, a marker at it, or the length when there is none |
| LogBuffer.WithoutFirstMarkerCount | toplog/toplog.go:173-175 | the deletion removes exactly one line, a marker, when a marker exists, and changes nothing otherwise |
| LogBuffer.WithoutFirstMarkerMessages | toplog/toplog.go:173-175 | the deletion keeps the other lines, so every message stays one line and the buffer does not grow |
| LogBuffer.AppendedPlainKeepsMarkers | toplog/toplog.go:205-214 | logging a debug/info/warn/error line never adds a marker |
| LogBuffer.MarkerMessageNormal | toplog/toplog.go:177 | the marker text "------" is stored unchanged |
| LogBuffer.MarkedMarkerCount | toplog/toplog.go:165-178 | after a mark the newest line is the marker; the marker count becomes 1 from 0 and is otherwise unchanged; the buffer does not shrink and stays within the cap |
| LogBuffer.MarkedSingleMarker | toplog/toplog.go:165-178 | with at most one marker before, exactly one marker exists after a mark, and it is the newest line |
| LogBuffer.MarkSteps | toplog/toplog.go:165-178 | the buffer left by the deletion may be logged to, and logging the marker to it gives a buffer whose only marker is its newest line |
| LogBuffer.Shown | toplog/toplog.go:397-402 | the part of a message shown is its suffix from the horizontal offset, or nothing when the offset reaches the end |
| LogBuffer.FormattedLine | toplog/toplog.go:395-426 | a formatted entry begins with its level's colour code and ends with a newline |
| LogBuffer.MarkerRendersBanner | toplog/toplog.go:419-420 | a marker line renders as the fixed banner, whatever its message, stamp or the offset |
| LogBuffer.FormattedLineNewlines | toplog/toplog.go:418-424 | a formatted one-line entry holds exactly one newline, its last character |
| LogBuffer.Export | toplog/toplog.go:516-525 | the export is empty exactly when the buffer is; otherwise it is longer than the number of lines and ends with a newline |
| LogBuffer.ExportSnoc | toplog/toplog.go:520-523 | exporting one more line appends that line's formatted text |
| LogBuffer.ExportStep | toplog/toplog.go:520-523 | the export of a prefix one line longer is the shorter export plus that line's text |
| LogBuffer.ExportConcat | toplog/toplog.go:516-525 | the export of two runs of lines is the concatenation of their exports, in order |
| LogBuffer.ExportLineCount | toplog/toplog.go:516-525 | the export of one-line entries holds exactly one text line per buffered line |
| Viewport.TailOffset | toplog/toplog.go:195-203 | the tail offset is never negative, is at least count - h, and is 0 or count - h |
| Viewport.PageDownAsWritten | toplog/toplog.go:574-584 | past the tail the step as written sets the offset to count - h; it agrees with the corrected step exactly when it stays below the tail or count >= h |
| Viewport.PageDownAsWrittenUnderflows | toplog/toplog.go:574-584 | with fewer lines than rows, the page-down step as written sets the offset to count - h < 0, out of range |
| Viewport.PageDownOffset | toplog/toplog.go:574-584 | for a window of at least 2 rows (h >= 0), the corrected page-down step keeps the offset in range; past the tail it lands on the tail offset with no lines below; otherwise it moves exactly one page |
| Viewport.Window | toplog/toplog.go:389-392 | the rows drawn are the lines from the offset on, at most h of them and never past the newest |
| Viewport.TailWindowShowsNewest | toplog/toplog.go:389-392 | at the tail offset the drawn rows end with the newest line and hold min(h, count) lines |
| TopLog.DebugWidget.constructor | toplog/toplog.go:247-250 | a new widget starts at offset 0 with no horizontal pan |
| TopLog.Log.constructor | toplog/toplog.go:100-103 | an empty buffer, the window closed and not frozen, auto-show and debug off, all deltas 0 |
| TopLog.Log.SetDebugEnabled | toplog/toplog.go:105-107 | sets the debug flag and nothing else |
| TopLog.Log.SetAutoShowErrorEnabled | toplog/toplog.go:113-115 | sets the auto-show flag and nothing else |
| TopLog.Log.ScrollToLastLogLine | toplog/toplog.go:195-203 | the offset becomes the tail offset, which is in range |
| TopLog.Log.LogMsg | toplog/toplog.go:205-218 | the buffer becomes the capped append of the normalised line; the offset follows the tail exactly when the window is open and not frozen, and is otherwise unchanged; the cap, one-line messages and the offset range are preserved |
| TopLog.Log.Debug | toplog/toplog.go:132-139 | with debug off nothing changes; with debug on the line is logged, and the debug delta grows by one only while the window is closed |
| TopLog.Log.Info | toplog/toplog.go:141-146 | the line is logged; the info delta grows by one only while the window is closed; the single-marker invariant is kept |
| TopLog.Log.Warn | toplog/toplog.go:148-153 | the line is logged; the warn delta grows by one only while the window is closed |
| TopLog.Log.Error | toplog/toplog.go:155-163 | the line is logged and counted while closed; with auto-show on the window ends open and every delta is 0 |
| TopLog.Log.AutoShow | toplog/toplog.go:160-162 | with auto-show on, the window opens and every delta becomes 0; with it off the window flag and the deltas are unchanged; the buffer invariant, tailing and the offset range are kept |
| TopLog.Log.MarkLastLocation | toplog/toplog.go:165-178 | the buffer becomes the mark of the old buffer: the first marker deleted, a new marker appended last, no other marker left; the invariants and tailing are kept |
| TopLog.Log.Open | toplog/toplog.go:180-193 | unless frozen the offset goes to the tail; the window is open and every delta is 0 |
| TopLog.Log.OpenView | toplog/toplog.go:234-245 | the window is open and all four deltas are 0 |
| TopLog.Log.CloseDebugWidget | toplog/toplog.go:463-473 | when the UI refuses to close, its error is returned and nothing changes; otherwise the window is closed and unfrozen and the buffer is marked |
| TopLog.Log.ArrowRight | toplog/toplog.go:527-530 | the pan grows by exactly 5 |
| TopLog.Log.ArrowLeft | toplog/toplog.go:532-538 | the pan shrinks by 5, stopping at 0 |
| TopLog.Log.ArrowUp | toplog/toplog.go:540-546 | above the top line: one line up and frozen; at offset 0 nothing changes; the offset range is preserved |
| TopLog.Log.ArrowDown | toplog/toplog.go:548-561 | one line down only while lines remain below; unfrozen exactly when none remain below; the offset range is preserved |
| TopLog.Log.PageUp | toplog/toplog.go:563-572 | above the top line: a page up, stopping at 0, and frozen; at offset 0 nothing changes; the offset range is preserved |
| TopLog.Log.PageDown | toplog/toplog.go:574-584 | the offset takes the corrected page-down step; frozen afterwards only when still frozen and lines remain below; for a window of at least 2 rows (h >= 0) the offset range is preserved |
| TopLog.Log.GetAllLogLines | toplog/toplog.go:516-525 | the result is the export of the whole buffer, oldest line first, independent of the scroll offset |
| TopLog.Log.GetMaxLogLevel | toplog/toplog.go:442-461 | the result is a real level at least as severe as every buffered line, and is debug or the level of some buffered line |
| Paging.Reconciled | metadata/apps.go:130-133 | one entity per resource, in order, each with its envelope's guid |
| Paging.PageEntities | metadata/apps.go:125-133 | a page that does not decode adds nothing; a decoded page adds one entity per resource, in order, each with its envelope's guid |
| Paging.Accumulated | metadata/route.go:81-95 | the accumulator after every page holds exactly one entity per resource of every decoded page |
| Paging.AccumulatedConcat | metadata/apps.go:123-135 | pages are accumulated in order: a later page's entities come after everything accumulated before |
| Paging.UndecodableAddsNothing | metadata/apps.go:125-129 | a page that fails to decode contributes nothing, wherever it comes |
| Paging.IndexOf | metadata/apps.go:79-83 | the position a first-match scan stops at: no match before it, a match at it, or the length on a miss |
| Paging.IndexOfDistinct | metadata/apps.go:77-85 | with distinct guids, searching for an element's guid finds that element |
| AppMetadata.WithGuid | metadata/apps.go:131 | the entity takes the envelope's guid and no other field changes |
| AppMetadata.Lookup | metadata/apps.go:77-85 | the first app with the guid, or the zero app when there is none |
| AppMetadata.OnlyStarted | metadata/apps.go:89-93 | the reference list of started apps: only STARTED apps, and every STARTED app |
| AppMetadata.StartedTotalIsTotalOfStarted | metadata/apps.go:87-96 | the started total equals the plain total of the started apps; apps in other states contribute nothing |
| AppMetadata.StartedTotal | metadata/apps.go:87-107 | a nonzero total needs a STARTED app: with no app started the total is 0, so the memo is recomputed on every call |
| AppMetadata.StartedTotalStep | metadata/apps.go:88-94 | one step of the summing loop adds the app's bytes exactly when it is STARTED |
| AppMetadata.HandleRequest | metadata/apps.go:123-135 | a decoded page appends its reconciled entities after the accumulator; an undecodable page returns its error and adds nothing |
| AppMetadata.LoadedPageLookup | metadata/apps.go:77-85 | after loading a page whose resources have distinct guids, looking up a resource's guid returns its entity with that guid |
| AppMetadata.AppCache.constructor | metadata/apps.go:63-67 | an empty cache with both memos at 0, so each memo is 0 or the true total |
| AppMetadata.AppCache.AppMetadataSize | metadata/apps.go:69-71 | the size is the length of the list AllApps returns |
| AppMetadata.AppCache.FindAppMetadata | metadata/apps.go:77-85 | the scan returns the lookup: the first app with the guid, or the zero app |
| AppMetadata.AppCache.GetTotalMemoryAllStartedApps | metadata/apps.go:87-96 | with the memo at 0 it becomes the started memory total; otherwise it is returned unchanged; either way the result is the started memory total of the current list, and each memo stays 0 or the true total |
| AppMetadata.AppCache.GetTotalDiskAllStartedApps | metadata/apps.go:98-107 | with the memo at 0 it becomes the started disk total; otherwise it is returned unchanged; either way the result is the started disk total of the current list, and each memo stays 0 or the true total |
| AppMetadata.AppCache.GetAppMetadata | metadata/apps.go:118-143 | the result is the accumulation of every page with no error, whatever the fetch reported; both memos are reset to 0 |
| AppMetadata.AppCache.LoadAppCache | metadata/apps.go:109-116 | the early return on a loading error is never taken: the cache is always replaced by the accumulated list and both memos are 0, so no memo holds a total of the old list |
| RouteMetadata.WithGuid | metadata/route.go:89 | the entity takes the envelope's guid and no other field changes |
| RouteMetadata.Lookup | metadata/route.go:56-63 | the first route with the guid, or a new route carrying the guid with every other field empty |
| RouteMetadata.LookupCarriesId | metadata/route.go:56-63 | whether found or made up, the route returned carries the guid asked for |
| RouteMetadata.HandleRequest | metadata/route.go:81-95 | a decoded page grows the accumulator by exactly its resources, reconciled and in order; an undecodable page returns its error and adds nothing |
| RouteMetadata.GetRouteMetadata | metadata/route.go:74-103 | the result is the accumulation of every page, one route per decoded resource, returned together with the fetch's own error |
| RouteMetadata.RouteCache.constructor | metadata/route.go:48-50 | an empty cache |
| RouteMetadata.RouteCache.FindRouteMetadata | metadata/route.go:56-63 | the scan returns the lookup, which carries the requested guid; the cache is not changed |
| RouteMetadata.RouteCache.LoadRouteCache | metadata/route.go:65-72 | on a fetch error the cache is kept exactly; otherwise it is replaced by the accumulated list |

## Left out

- Terminal UI: gocui views, layout, key bindings, colours of the header, window titles, `windowTitle`, `Layout` and the drawing side of `writeLogLines`. The visible rows are modelled by `Viewport.Window`.
- `calulateViewDimensions`: the widget height is a field given when the widget is made, not derived from the terminal size.
- TopLog.Log.Open: takes effect at once. The source defers it through `gui.Execute` and does nothing when no UI is attached; neither is modelled.
- TopLog.Log.PageDown: implements the corrected step (see Findings). The step as written is `Viewport.PageDownAsWritten`. Offset-range preservation is stated only for a window of at least 2 rows (h >= 0).
- Viewport.PageDownOffset: keeps the offset in range only for a window of at least 2 rows (h >= 0). With h < 0, offset 0 and no lines, the step gives -1. Such a window draws no log row.
- TopLog.Log.PageUp: offset-range preservation is stated only for a window height of at least 2 rows (h >= 0).
- TopLog.Log.ArrowRight: the pan is unbounded; the overflow of Go's `int` is not modelled.
- Concurrency: the mutex `mu` is not modelled. `markLastLocation` and the delta-counter updates run outside the lock in the source, a race the sequential model cannot show. The metadata caches have no lock at all. `getAppMetadata` clears both memos (metadata/apps.go:139-140) before `LoadAppCache` publishes the new list (metadata/apps.go:115). A total read by another goroutine in between would therefore sum the old list and keep that total as the memo for the new one. The model runs each method to completion, so `AppMetadata.AppCache.MemosSound` holds between calls and this interleaving is not captured.
- Formatting and time: the `fmt.Sprintf` expansion of a message with its arguments, `time.Now()` and the timestamp layout are not modelled. A line's stamp is its already formatted text, supplied by the caller, and messages arrive already formatted.
- Text is modelled as characters; Go slices the message at the horizontal offset by bytes, which differs for non-ASCII text.
- `IsDebugEnabled`, `GetMsgDeltas`, `AllApps`, `AllRoutes` and `NewLogLine` are plain reads or constructors: the `debugEnabled` field, `TopLog.Log.GetMsgDeltas`, `AppMetadata.AppCache.AllApps`, `RouteMetadata.RouteCache.AllRoutes` and the `LogLine` datatype.
- `copyClipboardAction` (a foreign clipboard call around `getAllLogLines`), the test-message actions, the two toggle actions and `getBackgroundColor` (a constant colour) are not modelled.
- JSON decoding and fetching: `json.Unmarshal`, `plugin.CliConnection`, `callRetriableAPI` and `callPagableAPI` are not part of this model. A fetch is given as the pages the fetcher hands the handler, each decoded or undecodable, plus the error it reports. What the fetcher does with a handler's error (retry, stop) is not modelled.
- The response envelopes' count, page count and next-URL fields are not modelled; only the resources are.
- Floating point: `MemoryMB`, `DiskQuotaMB`, `Instances` and `HealthcheckTimeout` are naturals, so the totals are exact sums without rounding.
- `App.Environment` holds arbitrary JSON values in the source; here its values are text.
- Route pointers: `FindRouteMetadata` returns a pointer into the cache, so a caller could change a cached route through it. The model returns values, and this aliasing is not captured.
- The loaders' own log calls (`debug.Warn` in the app loader; `toplog.Warn` and `toplog.Debug` in the route loader) are not modelled.
- `metadata/common/metadata.go` (empty interfaces and a cache-time accessor) and `ui/views/appViews/appDetailView/appDetailView.go` (view wiring over packages that are not part of this model) are not part of this model.

## Findings

| source | as written | input that shows it | evidently intended | confidence | as-written member | corrected member |
|---|---|---|---|---|---|---|
| toplog/toplog.go:580 | once a page down passes the tail, `viewOffset` is set to `len(debugLines) - h` with no floor at 0, although `scrollToLastLogLine` (toplog/toplog.go:198-201) floors the same expression; `writeLogLines` (toplog/toplog.go:389-390) then reads `debugLines[viewOffset]` at a negative index | 3 buffered lines, window height 12 (h = 10), offset 0: pageDown sets the offset to -7 | the tail offset max(0, len - h), as `scrollToLastLogLine` computes it | not executed | Viewport.PageDownAsWritten (shown by Viewport.PageDownAsWrittenUnderflows) | Viewport.PageDownOffset (used by TopLog.Log.PageDown) |
