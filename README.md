# Market stream replay engine — a Dafny model

This project models the core of a market-data replay engine: a recorded log of
market events (trades and order-book deltas) in newline-delimited JSON is read line
by line and applied in order to a local order-book/trade store, under a
play/pause/reset controller. The model covers four parts:

- **The projection applier** (`processStreamEvent`), in `orderbook_ops.dfy`:
  - The store is two maps: the `order_book` table keyed by (market, side, price) and
    the `trades` table keyed by id.
  - `Apply` states the effect of one event as a function on the store. A trade is
    *insert or ignore*, keyed by `tradeId` or, when that is missing or empty, by
    `stream_<seq>`. A delta of size 0 deletes its level. Any other delta upserts the
    level, replacing its size.
  - Events missing `price`, `size` or `side`, and events of any other type, change
    nothing.
  - An upsert whose side is not `bid` or `ask` fails the table's CHECK constraint.
  - `Database.ProcessStreamEvent` is the imperative version over the two table
    fields. It is proved equal to `Apply`.
  - `book_levels.dfy` adds the `ORDER BY price DESC` listing of one market and side,
    and proves that the listing does not depend on the order in which the levels
    were inserted.
- **The NDJSON line reader** (`readNdjsonLines`), in `ndjson.dfy`:
  - The chunk-buffer loop is proved equal to "split the whole text on `\n`, trim
    each piece, drop blank pieces", whatever the chunking.
  - `Trim` removes the characters JavaScript's `String.prototype.trim` removes.
- **The `MarketStream` engine**, in `stream.dfy`:
  - It has its generator, status and pointer as fields, with `load`, `play`,
    `pause` and `reset`.
  - The play loop is proved against `Drain`, a function that processes lines in
    order until one fails.
  - The resume law (`DrainAppend`) and the agreement with batch application
    (`DrainAgreesWithApplyAll`) are proved about `Drain`.
- **The `useMarketStream` hook's global loop manager**, in `market_stream_hook.dfy`,
  over the batch cursor in `cursor.dfy`:
  - It holds the flags `globalIsPlaying`, `globalIsReady` and `isLoopRunning`, the
    pending timer, and `startLoop`/`tick`/`stopLoop`.
  - The loop's suspension points (`await getDb()`, `await processEvents(...)` and
    the 50 ms timer) are steps of a transition system, `Step`, so user commands can
    interleave with running loops.
  - `processEvents` applies a batch in one transaction. It is proved equal to the
    left fold `ApplyAll`, or to no change when a statement throws.

The database, the file system, `JSON.parse`, the clock and the asset bundler are
external:
- The database is the `Database` object (two maps), and a transaction is a snapshot
  and a restore.
- `JSON.parse` is a parameter `decode: string -> Option<StreamEvent>`, which returns
  `None` where the parse throws.
- The stream file is an `NdjsonFile` (whether it exists and the chunks its reader
  delivers).
- The asset lookup is an `AssetLookup`.
- The reseed after clearing the tables is a `baseline` store passed to `Reset`.

The model keeps these behaviours of the code:
- `reset` leaves the status `paused`; the code has no `idle` or `loading` state.
- `pause` sets `paused` even from `finished`.
- A `play` whose load fails leaves the status `playing`.
- `progress` is always 0.
- A malformed line is not skipped: its parse error pauses playback.

## Model

| member | source | states |
|---|---|---|
| OrderBookOps.NatToDecimal | src/engine/orderBookOps.ts:9 | the decimal rendering of `seq` inside `` `stream_${e.seq}` `` is a non-empty string of digits whose last digit is `seq % 10` |
| OrderBookOps.IntToDecimal | src/engine/orderBookOps.ts:9 | the rendering of a possibly negative `seq` is non-empty and starts with `-` exactly when `seq` is negative |
| OrderBookOps.NatToDecimalInjective | src/engine/orderBookOps.ts:9 | two naturals with the same decimal rendering are equal |
| OrderBookOps.IntToDecimalInjective | src/engine/orderBookOps.ts:9 | two sequence numbers with the same rendering are equal, so distinct `seq` give distinct synthetic ids |
| OrderBookOps.TradeKey | src/engine/orderBookOps.ts:9 | `e.tradeId || `stream_${e.seq}``: the key is never empty; `TradeKeyOwnId` and `SyntheticKeysCollideIffSameSeq` state which key a trade gets |
| OrderBookOps.TradeKeyOwnId | src/engine/orderBookOps.ts:9 | a present, non-empty `tradeId` is the trade's key |
| OrderBookOps.SyntheticKeysCollideIffSameSeq | src/engine/orderBookOps.ts:9 | two trades without a usable `tradeId` share a key if and only if they have the same `seq` |
| OrderBookOps.Apply | src/engine/orderBookOps.ts:4-28 | one event fails exactly when it is a complete non-zero delta whose side is not `bid` or `ask` (the CHECK of src/db/schema.ts:32), and a successful event never removes a trade; the lemmas below state each branch |
| OrderBookOps.DeltaCreatesLevel | src/engine/orderBookOps.ts:20-25 | a non-zero delta for a new key adds exactly that level with the given size; the book grows by one row and trades are untouched |
| OrderBookOps.DeltaReplacesLevel | src/engine/orderBookOps.ts:22 | a non-zero delta for an existing key replaces its size (not added to it), keeps the same set of keys and leaves trades alone |
| OrderBookOps.ZeroDeltaRemovesLevel | src/engine/orderBookOps.ts:15-19 | a size-0 delta succeeds, removes its key and keeps every other level; for an absent key the store is unchanged |
| OrderBookOps.DeltaWithBadSideFails | src/db/schema.ts:32 | an upsert with a side other than `bid`/`ask` fails the CHECK constraint with that side as the error |
| OrderBookOps.TradeInsertOrIgnore | src/engine/orderBookOps.ts:7-10 | a complete trade succeeds and its key is present afterwards; an existing row wins (store unchanged), otherwise exactly the new row is added |
| OrderBookOps.IgnoredEventsChangeNothing | src/engine/orderBookOps.ts:5-6 | an event missing `price`, `size` or `side`, or of another type, leaves the store unchanged |
| OrderBookOps.ApplyFrame | src/engine/orderBookOps.ts:4-28 | a delta changes only its own order-book key and never `trades`; a trade never touches `orderBook`; only a delta can fail |
| OrderBookOps.ApplyIdempotent | src/engine/orderBookOps.ts:4-28 | applying a successful event a second time changes nothing |
| OrderBookOps.ApplyPreservesWellFormed | src/db/schema.ts:30-36 | every order-book row keeps a side in `{bid, ask}` after a successful event |
| OrderBookOps.DeltasOnDistinctKeysCommute | src/engine/orderBookOps.ts:13-27 | two deltas on different keys give the same store in either order |
| OrderBookOps.ApplyAll | src/hooks/useMarketStream.ts:153-177 | the batch loop as a left fold of `Apply` that stops at the first failing statement; `ApplyAllAppend`, `ProcessEvents` and `DrainAgreesWithApplyAll` state its properties |
| OrderBookOps.ApplyAllAppend | src/hooks/useMarketStream.ts:153-177 | folding `a + b` is folding `a` then `b`; a failure in `a` is the result of the whole fold |
| OrderBookOps.ApplyAllPreservesWellFormed | src/db/schema.ts:30-36 | a successful run of events keeps every row within the CHECK constraint |
| OrderBookOps.SecondDeltaLeavesOneRow | src/tests/orderBookOps.test.ts:35-61 | two non-zero deltas on one key leave the market with exactly one row, holding the second size |
| OrderBookOps.Database.ProcessStreamEvent | src/engine/orderBookOps.ts:4-28 | the tables afterwards are `Apply` of the tables before; on a failing statement the error is returned and the tables are unchanged |
| OrderBookOps.Database.Restore | src/engine/stream.ts:117-119 | clearing and reseeding leaves exactly the given baseline tables |
| BookLevels.MaxOf | src/tests/orderBookOps.test.ts:84 | the highest price of a non-empty set belongs to the set and bounds it |
| BookLevels.SortDescending | src/tests/orderBookOps.test.ts:84 | a set of prices listed strictly descending, with exactly its elements |
| BookLevels.PricesDescending | src/tests/orderBookOps.test.ts:84 | `ORDER BY price DESC` for one market and side is strictly descending and lists exactly the prices present, each once |
| BookLevels.DescendingListingUnique | src/db/schema.ts:35 | two strictly descending listings of the same prices are equal, so the listing is determined by the set of keys |
| BookLevels.ThreeBidsListedDescending | src/tests/orderBookOps.test.ts:80-88 | bids at exactly 100, 101 and 102 are listed as `[102, 101, 100]` |
| BookLevels.InsertionOrderIrrelevant | src/tests/orderBookOps.test.ts:80-88 | applying the three bid deltas in the order 100, 102, 101 succeeds and gives the same store as applying them in the order 102, 101, 100; the book lists `[102, 101, 100]` |
| Ndjson.TrimStart | src/engine/stream.ts:27 | the result is a suffix of the string that is empty or starts with a non-whitespace character |
| Ndjson.TrimStartDropsWhiteSpace | src/engine/stream.ts:27 | every character dropped at the front is whitespace |
| Ndjson.TrimEnd | src/engine/stream.ts:27 | the result is a prefix of the string that is empty or ends with a non-whitespace character |
| Ndjson.TrimEndDropsWhiteSpace | src/engine/stream.ts:27 | every character dropped at the end is whitespace |
| Ndjson.Trim | src/engine/stream.ts:27 | the result is no longer and has no whitespace at either end |
| Ndjson.TrimIsSlice | src/engine/stream.ts:27 | the trimmed string is the part of the string that starts where the leading white space ends |
| Ndjson.TrimBackIsWhiteSpace | src/engine/stream.ts:27 | everything after the trimmed part is white space |
| Ndjson.TrimDropsOnlyEdges | src/engine/stream.ts:27 | `trim()` is the string with exactly its leading and trailing white space removed: it is a slice `s[a..b]` with only white space before `a` and after `b`, and with `Trim`'s own contract the slice neither starts nor ends with white space |
| Ndjson.TrimBlank | src/engine/stream.ts:27-29 | a string trims to empty exactly when every character is whitespace |
| Ndjson.TrimIdempotent | src/engine/stream.ts:37-38 | trimming a trimmed line changes nothing |
| Ndjson.IndexOf | src/engine/stream.ts:26 | `indexOf("\n")`: -1 exactly when absent, otherwise the first position holding the character |
| Ndjson.SplitLines | src/engine/stream.ts:26-28 | the pieces between newlines hold no newline and join back to the text |
| Ndjson.SplitAtFirstNewline | src/engine/stream.ts:26-28 | cutting at the first newline gives the first piece and then the pieces of the rest |
| Ndjson.SplitJoin | src/engine/stream.ts:26-28 | splitting newline-free pieces joined by newlines gives back those pieces |
| Ndjson.TrimmedNonBlank | src/engine/stream.ts:27-29 | keeping trimmed non-blank pieces never yields more lines than pieces |
| Ndjson.KeepIsTrimmed | src/engine/stream.ts:29 | a piece that is kept yields a non-empty line that trimming leaves unchanged |
| Ndjson.TrimmedNonBlankAreTrimmed | src/engine/stream.ts:29 | every line kept is non-empty and already trimmed |
| Ndjson.TrimmedNonBlankAppend | src/engine/stream.ts:27-29 | keeping lines distributes over concatenation of pieces |
| Ndjson.LinesAreTrimmed | src/engine/stream.ts:29 | every line of a text is non-empty and trimmed |
| Ndjson.LinesAfterNewline | src/engine/stream.ts:26-29 | text up to the first newline yields its trimmed line (if non-blank) followed by the lines of the rest |
| Ndjson.LinesWithoutNewline | src/engine/stream.ts:36-39 | a text without a newline yields its trimmed self when non-blank and nothing otherwise |
| Ndjson.LinesOfJoin | src/engine/stream.ts:26-30 | the lines of `a + "\n" + b` are the lines of `a` then those of `b` |
| Ndjson.ConcatFrom | src/engine/stream.ts:20-23 | the remaining chunks are the next chunk followed by the rest |
| Ndjson.CutAtNewline | src/engine/stream.ts:26-29 | one cut of the buffer at its first newline moves one kept line out of the pending text without changing the total |
| Ndjson.ReadNdjsonLines | src/engine/stream.ts:8-40 | the yielded lines are exactly the trimmed, non-blank, newline-separated pieces of the concatenated chunks, in order, including a final line with no trailing newline; the inner loop leaves no newline in the buffer, so chunking does not matter |
| Stream.LoadOutcome | src/engine/stream.ts:127-141 | a failed asset lookup installs no generator; otherwise a valid generator at its start, which throws first exactly when the file is missing, and whose lines are otherwise `Lines` of the file's concatenated chunks |
| Stream.OpenGenerator | src/engine/stream.ts:8-40 | `readNdjsonLines(uri)` runs the line reader over the file's chunks and yields the generator `LoadOutcome` describes |
| Stream.LoadedLinesNonEmpty | src/engine/stream.ts:81 | every line a loaded generator yields is non-empty, so the `if (value)` guard always holds |
| Stream.ProcessLine | src/engine/stream.ts:81-84 | `processEvent(db, JSON.parse(line))`: a line that does not parse fails with a parse error, otherwise the line's event is applied as `Apply` states; used by `Drain` and `StepEngine` |
| Stream.Drain | src/engine/stream.ts:66-102 | the play loop over a list of lines: blank lines are skipped, processed lines counted, and the first failing line stops it; `DrainCounts`, `DrainStopsAtFailure`, `DrainAppend` and `DrainAgreesWithApplyAll` state its properties |
| Stream.DrainCounts | src/engine/stream.ts:72-86 | processed lines never exceed pulled lines, which never exceed the lines left; a run without failure pulls every line; a failing run pulls one line it does not count |
| Stream.DrainStopsAtFailure | src/engine/stream.ts:82-92 | a failing run stops at the failing line: the lines before it ran cleanly into the final store, and that line, non-empty, fails on it |
| Stream.DrainAppend | src/engine/stream.ts:66-102 | pausing after a clean run over `a` and resuming over `b` gives the same store and counts as one run over `a + b` |
| Stream.DecodeAll | src/engine/stream.ts:82 | the events parsed from lines that all parse, one per line, in order |
| Stream.DrainAgreesWithApplyAll | src/engine/stream.ts:81-84 | when all lines parse and apply, playing them line by line gives the store of the fold `ApplyAll` and counts every line |
| Stream.PacingWait | src/engine/stream.ts:95-97 | `max(0, 50/speed - elapsed)` is never negative, never above `50/speed`, and tops the elapsed time up to exactly `50/speed` when the work took less |
| Stream.StepEngine | src/engine/stream.ts:66-93 | one iteration of the play loop: the pointer rises by at most one and only when the loop goes on; going on lowers the lines left; a pause or finish counts nothing and leaves the store; finishing means the generator is exhausted; with no generator the loop breaks with status still `playing` |
| Stream.PlayOutcome | src/engine/stream.ts:52-103 | where `play` ends: never counting backwards, and with a generator always `paused` or `finished` |
| Stream.StepKeepsAccount | src/engine/stream.ts:66-102 | each iteration keeps the account of the lines consumed against one run of `Drain`, and the iteration that breaks leaves engine and store at `PlayOutcome` |
| Stream.PullKeepsAccount | src/engine/stream.ts:72-92 | the same, for an iteration that pulls a line: a blank line, a failing line and an applied line each match one step of `Drain` |
| Stream.MarketStream.Load | src/engine/stream.ts:127-141 | returns at once when a generator exists; otherwise installs the asset's generator, and on a failed lookup the engine stays not ready |
| Stream.MarketStream.Step | src/engine/stream.ts:66-93 | the fields, the database and `more` afterwards are `StepEngine` of those before |
| Stream.MarketStream.Play | src/engine/stream.ts:52-103 | a no-op while playing; otherwise, from the existing or newly loaded generator, the fields and the database end at `PlayOutcome`: store, pointer, generator position and final status (`paused` after an error, `finished` when exhausted) of `Drain` over the remaining lines |
| Stream.MarketStream.constructor | src/engine/stream.ts:45-47 | a new engine has no generator, status `paused` (there is no idle state) and pointer 0 |
| Stream.MarketStream.IsReady | src/engine/stream.ts:143-145 | ready exactly when a generator is installed; `Load` and `Reset` state when that is |
| Stream.MarketStream.IsPlaying | src/engine/stream.ts:147-149 | playing exactly when the status is `playing` |
| Stream.MarketStream.State | src/engine/stream.ts:151-153 | the status |
| Stream.MarketStream.EventCount | src/engine/stream.ts:155-157 | the pointer, which `Play` advances by the lines applied (`PlayOutcome`) |
| Stream.MarketStream.Progress | src/engine/stream.ts:159-161 | always 0 |
| Stream.MarketStream.Pause | src/engine/stream.ts:105-109 | the status becomes `paused` from any status, nothing else changes |
| Stream.MarketStream.Reset | src/engine/stream.ts:111-125 | paused, pointer 0, the database equal to the baseline, and the generator freshly loaded |
| Cursor.Slice | src/engine/stream.test.ts:26-32 | the batch is the events of the log that follow the position, in order, no more than `n` of them, and stops short of `n` only at the end of the log; it is empty exactly when `n` is 0 or the log is exhausted |
| Cursor.BatchesConcatenate | src/engine/stream.test.ts:26-32 | a pull of `n` followed by a pull of `m` hands out the same events as one pull of `n + m` |
| Cursor.PullsArePrefix | src/hooks/useMarketStream.ts:118 | any sequence of pulls hands out a prefix of the remaining log, no event skipped or repeated |
| Cursor.TwoEventLogInSlices | src/engine/stream.test.ts:26-32 | over the two-event log, `nextBatch(1)` then `nextBatch(10)` return one event each, in log order, and a further pull is empty |
| Cursor.EventCursor.NextBatch | src/hooks/useMarketStream.ts:118 | returns `Slice` from the position and advances the position by the number returned |
| Cursor.EventCursor.Rewind | src/engine/stream.ts:113-115 | the position returns to 0 with the log unchanged |
| MarketStreamHook.ProcessEvents | src/hooks/useMarketStream.ts:151-179 | in one transaction: the store afterwards is the left fold of the batch; if a statement throws, its error is returned and the store rolls back |
| MarketStreamHook.AfterStartLoop | src/hooks/useMarketStream.ts:90-95 | `startLoop` up to `await getDb()`: nothing while a loop runs, otherwise sets the flag and adds one loop; `StartWhileRunningIsNoop` and `StartLoopInv` state it |
| MarketStreamHook.AfterStopLoop | src/hooks/useMarketStream.ts:145-149 | `stopLoop`: clears the pending timer and the flag; `StopLoopKeepsPlaying`, `StopLoopClearsTimer` and `StopLoopInv` state it |
| MarketStreamHook.AfterTick | src/hooks/useMarketStream.ts:111-129 | `tick` up to `await processEvents(...)`; `NotPlayingAppliesNothing`, `EmptyBatchFinishes` and `BatchStartsTransaction` state its branches |
| MarketStreamHook.Step | src/hooks/useMarketStream.ts:65-149 | every command and every resumption of a suspended loop as one transition; `StepKeepsInv` and `StepKeepsQuiet` state what it keeps with the guard, `StaleTickStartsSecondLoop` what it breaks without |
| MarketStreamHook.ClearTimer | src/hooks/useMarketStream.ts:146 | `clearTimeout(h)` ends exactly the loop waiting for timer `h` and touches no other |
| MarketStreamHook.ToggleFlipsPlaying | src/hooks/useMarketStream.ts:65-68 | `togglePlay` flips `globalIsPlaying` and touches no loop |
| MarketStreamHook.StopLoopKeepsPlaying | src/hooks/useMarketStream.ts:145-149 | `stopLoop` clears `isLoopRunning` and leaves `globalIsPlaying` unchanged |
| MarketStreamHook.StopLoopClearsTimer | src/hooks/useMarketStream.ts:146 | after `stopLoop` no loop waits for the cleared timer |
| MarketStreamHook.ResetStops | src/hooks/useMarketStream.ts:70-75 | `reset` leaves the loop stopped and `globalIsPlaying` false |
| MarketStreamHook.StartWhileRunningIsNoop | src/hooks/useMarketStream.ts:91-93 | `startLoop` while a loop runs changes nothing |
| MarketStreamHook.NotPlayingAppliesNothing | src/hooks/useMarketStream.ts:100-116 | a loop that resumes while not playing, or whose database failed to open, pulls no batch, clears `isLoopRunning` and ends |
| MarketStreamHook.EmptyBatchFinishes | src/hooks/useMarketStream.ts:120-125 | an empty batch clears both `globalIsPlaying` and `isLoopRunning`, notifies once and ends the loop |
| MarketStreamHook.BatchStartsTransaction | src/hooks/useMarketStream.ts:127-129 | a non-empty batch leaves the loop inside its transaction, still playing |
| MarketStreamHook.SettledBatch | src/hooks/useMarketStream.ts:129-139 | a batch that threw clears both flags and ends the loop with no new timer; one that succeeded schedules the next tick |
| MarketStreamHook.InitialInv | src/hooks/useMarketStream.ts:8-10 | at module load no loop exists and the invariant holds |
| MarketStreamHook.StepKeepsInv | src/hooks/useMarketStream.ts:65-149 | with the generation guard, every command and resumption keeps at most one live loop, live exactly while `isLoopRunning` is set |
| MarketStreamHook.RunKeepsInv | src/hooks/useMarketStream.ts:65-149 | the invariant holds after any sequence of steps |
| MarketStreamHook.GuardedLoopIsUnique | src/hooks/useMarketStream.ts:90-149 | with the generation guard, after any interleaving at most one loop is live, one is live exactly while `isLoopRunning` is set, and every other unfinished loop was stopped while waiting for `getDb()` or its transaction |
| MarketStreamHook.StaleLoopOnlyEnds | src/hooks/useMarketStream.ts:111-139 | with the guard, a stopped loop that resumes after `getDb()`, its timer or its transaction only ends: no batch pulled, no flag changed, no notification, no timer |
| MarketStreamHook.StepKeepsQuiet | src/hooks/useMarketStream.ts:65-149 | with the guard, every step keeps every stopped, unfinished loop waiting for `getDb()` or its transaction, and a live loop's timer is the pending one |
| MarketStreamHook.RunKeepsQuiet | src/hooks/useMarketStream.ts:65-149 | both invariants hold after any sequence of steps |
| MarketStreamHook.NotLiveStaysPut | src/hooks/useMarketStream.ts:111-149 | with the guard, a loop that is not live stays not live after any step, and its phase can only change to ended |
| MarketStreamHook.NotLiveStaysPutRun | src/hooks/useMarketStream.ts:111-149 | the same after any sequence of steps |
| MarketStreamHook.StoppedLoopDoesNothingMore | src/hooks/useMarketStream.ts:111-149 | with the guard, after any interleaving every stopped loop is waiting for `getDb()` or its transaction, and whatever follows, a loop that is not live never becomes live and keeps its phase until it ends, so it never pulls, applies or schedules again |
| MarketStreamHook.RunAppend | src/hooks/useMarketStream.ts:65-149 | running two traces in turn is running their concatenation |
| MarketStreamHook.StaleTickStartsSecondLoop | src/hooks/useMarketStream.ts:90-149 | as written, pausing and playing while a batch transaction is in flight ends with two loops, each inside its own transaction |
| MarketStreamHook.GuardedRaceTraceEndsStaleLoop | src/hooks/useMarketStream.ts:90-149 | with the guard, the same interleaving ends the stale loop and leaves only the new one |
| MarketStreamHook.PlaybackService.TogglePlay | src/hooks/useMarketStream.ts:65-68 | the new state is `Step` of the old under `togglePlay` |
| MarketStreamHook.PlaybackService.Init | src/hooks/useMarketStream.ts:37-46 | a no-op when already ready; otherwise marks the service ready and notifies, as one step (the awaits inside are not modelled, see "## Left out") |
| MarketStreamHook.PlaybackService.StartLoop | src/hooks/useMarketStream.ts:90-95 | a no-op while running; otherwise sets `isLoopRunning` and starts one loop waiting for the database |
| MarketStreamHook.PlaybackService.StopLoop | src/hooks/useMarketStream.ts:145-149 | clears the pending timer and `isLoopRunning` |
| MarketStreamHook.PlaybackService.SyncLoop | src/hooks/useMarketStream.ts:57-63 | starts the loop when ready and playing, stops it otherwise |
| MarketStreamHook.PlaybackService.Reset | src/hooks/useMarketStream.ts:70-75 | stops the loop, clears `globalIsPlaying`, rewinds the cursor to 0, leaves the database at the baseline and notifies, as one step (the engine reset is not awaited in the source, see "## Left out") |
| MarketStreamHook.PlaybackService.Tick | src/hooks/useMarketStream.ts:111-129 | when playing, pulls `Slice(log, position, 20)` and applies it as `ProcessEvents` does; otherwise pulls nothing; the flags follow `Step` |
| MarketStreamHook.PlaybackService.OnDbOpened | src/hooks/useMarketStream.ts:97-109 | after `getDb()`: a failed open or a paused service ends the loop; otherwise runs the first tick |
| MarketStreamHook.PlaybackService.OnTimer | src/hooks/useMarketStream.ts:139 | the timer runs the next tick |
| MarketStreamHook.PlaybackService.OnBatchSettled | src/hooks/useMarketStream.ts:129-139 | after the transaction: notify and schedule the next tick in 50 ms, or clear both flags on failure |

## Findings

| source | as written | input that shows it | evidently intended | confidence | as-written member | corrected member |
|---|---|---|---|---|---|---|
| src/hooks/useMarketStream.ts:111-149 | `stopLoop` only clears the latest timer handle and `isLoopRunning`. A tick suspended in `await processEvents(...)` is not cancelled: it reschedules itself when the transaction settles. Meanwhile `startLoop` sees `isLoopRunning` false and starts a second loop. | ready; `togglePlay` (play); the loop opens the database and starts a batch; `togglePlay` (pause, `stopLoop`); `togglePlay` (play, `startLoop`); the first batch settles; the second loop opens the database; the first loop's timer fires. Two loops are now inside a batch transaction at once | at most one loop that can still pull or schedule batches at any time; a loop stopped by `stopLoop` pulls, applies and schedules nothing more when it resumes | medium (not executed) | MarketStreamHook.StaleTickStartsSecondLoop | MarketStreamHook.StoppedLoopDoesNothingMore |

The correction is a generation counter:
- `startLoop` and `stopLoop` advance it.
- Each loop remembers the generation it started in.
- A loop that resumes in a later generation exits without pulling, notifying or
  scheduling anything (`StaleLoopOnlyEnds`).

With the guard, `StoppedLoopDoesNothingMore` shows for every interleaving that at
most one loop is live, that every other unfinished loop was stopped while waiting
for `getDb()` or its transaction, and that such a loop never acts again. The guard
cannot cancel a transaction that was already running when `stopLoop` ran: that
transaction still completes, and a new loop may start its own before the old one
settles. The old loop then ends without scheduling another tick.

`PlaybackService` has the guard when its `guarded` field is set, and follows the
code as written otherwise.

## Left out

- UTF-8 decoding (`TextDecoder`) is left out. Chunks are already strings, and a
  multi-byte character split across chunks is not modelled.
- Reader errors are left out. The release of the reader lock in the `finally`
  block is not modelled either.
- The generator is lazy in the source. The model computes its lines when it is
  loaded, and keeps only the pending "file not found" throw of its first `next()`.
  The yielded lines and the error are the same because the file does not change.
- Timers, `Date.now` and promises are left out:
  - One iteration of the play loop is `MarketStream.Step`, stated by `StepEngine`.
  - The pacing wait is only the arithmetic `PacingWait`.
  - Nothing is actually awaited.
- Stream.MarketStream.Play: runs its loop to completion without interleaving. A
  `pause` that lands while an iteration awaits `processEvent` or the pacing timer is
  expressed by calling `Step` and then `Pause`. Three interleavings are not captured:
  - A `pause` during `await this.generator.next()` whose call then reports `done`:
    the code overwrites the pause and ends `finished`, while `Step` then `Pause`
    ends `paused` and `Step` cannot run once the status is `paused`.
  - A `pause` during `await getDb()` or `await this.load()`, before the loop: the
    code loads the generator and never enters the loop, so no `Step` happens.
  - A second `play` issued after such a pause while the first is still suspended:
    the code then runs two loops over the same generator.
- In `play`, a failure of `await getDb()` escapes the method. It is not modelled:
  `Play` receives the database.
- Listener sets and `notify()` of the engine are left out. The hook's
  `notifyListeners` calls are counted in `notifications`. React state, effects and
  rendering are left out.
- `progress` is the constant 0 in the source, and so it is in the model.
- `nextBatch`, which the hook calls on the engine, is not implemented in any of the
  engine's source files. `EventCursor` models it as a log plus a position, with the
  slicing of the engine's unit test.
- Wrap-around to the start of the log after exhaustion is not modelled. The unit
  test's third assertion expects it, but the hook treats an empty batch as the end.
- The hook's `reset` calls the engine's `reset`. In the model this rewinds the
  cursor to 0 and reseeds the database. The reload of the engine's generator is
  modelled separately in `MarketStream.Reset`.
- The hook's `init` awaits `streamEngine.load()`. That load is modelled in
  `MarketStream.Load`; the hook's `Init` only sets the ready flag, as the code does
  whatever the load's outcome.
- JSON `null` field values, type coercion and the `as StreamEvent` cast are left
  out. `JSON.parse` is the `decode` parameter, and a field is either present or
  absent.
- Price and size are `real`. The code only compares them for equality, to 0 and in
  `ORDER BY`, so floating-point rounding plays no part.
- Database failures other than the side CHECK constraint are not modelled. These
  include I/O errors and a locked database.
- The internal awaits of a transaction are not modelled. Its effect on the store is
  atomic, and the step that settles it is separate.
- Stream.PacingWait: requires `speed > 0`. No caller passes a speed, so the default
  1 applies, and a zero or negative speed is never used.
- MarketStreamHook.PlaybackService.Init: the awaits of `streamEngine.load()` and
  `getDb()` between the `globalIsReady` guard and setting the flag are collapsed into
  one step. Two overlapping inits (two hook instances, or an effect that runs again)
  both pass the guard, load twice and notify twice in the code; the model lets only
  the first through. A rejected `getDb()` leaves `globalIsReady` false for good in the
  code, while the model always sets it.
- MarketStreamHook.PlaybackService.Reset: the code calls `streamEngine.reset()` without
  awaiting it and notifies at once, so the clear and reseed happen later and may
  interleave with a loop started after the reset or with a transaction still in
  flight (whose rows may be lost to the clear or land after the reseed). The model
  rewinds and restores the baseline before it notifies, as one step.
- OrderBookOps.TradeKey: `seq` is taken to be an integer below 1e21. A fractional `seq`
  (rendered as `stream_1.5`) or one of 1e21 or more (rendered in exponent form) is not
  modelled; synthetic keys still collide only for equal `seq`.
- OrderBookOps.Database.Restore: the clear and reseed of the tables are a given
  `baseline` store. `clearDatabase` is not part of this model, and `seedDatabase` at
  src/db/seed.ts:36 takes one parameter, so the `force` argument passed at
  src/engine/stream.ts:119 has no effect; what the baseline holds is not modelled.
- Events: `market` and `seq` are always present in the model. In the code a missing
  `seq` gives the synthetic trade id `stream_undefined`, and a missing `market`
  inserts rows whose `market_id` is NULL; neither is modelled.
- `dbRef`, the `status` and `replay` fields that the hook does not return, and the
  UI components are left out.
