# Delivery core: a verified model

WatchUp's client libraries turn captured errors, traces and events into
requests that are bounded in bytes, carry an idempotency key and are retried.
This project models that path in Dafny and proves what it promises: every item
is accounted for, as delivered, waiting, given up, dropped by a bound or handed
out; none is ingested twice unless an unsafe snapshot is restored, and which are
unsafe is stated exactly; every body is the JSON text it should be and as long as
it was counted to be; and drains end, as does the shutdown of a queue that is not
paused.

`dafny verify dfyconfig.toml` verifies everything.

## How it is built

| file | what it models |
|---|---|
| `Utf8.dfy` | UTF-16 text, UTF-8 encoding, the byte-bounded cut in TypeScript, Go and C# |
| `Json.dfy` | compact JSON text: printer, reader, sizes |
| `Chunker.dfy`, `Packing.dfy` | request bodies pasted from item texts; the greedy split, its optimality, the loops of TypeScript and Go |
| `Truncation.dfy`, `LeastCut.dfy`, `Markers.dfy` | the three-step fitting policy; why it cuts no more than it must; what its markers say and cost |
| `Normalize.dfy` | the bounded walk over a possibly cyclic heap |
| `History.dfy`, `KeyHistory.dfy` | the law that sends and replies obey for each key |
| `Delivery.dfy` | the delivery machine: its steps are the uninterrupted stretches of every version |
| `Conservation.dfy`, `Overflow.dfy`, `Replies.dfy` | laws over all runs of the machine; what a pass sends and what a reply leads to |
| `QueueSteps.dfy`, `QueueRefines.dfy` | the event-loop queue as functions on its state, and its refinement of the machine |
| `Triggers.dfy`, `FlushJoining.dfy`, `WakeUp.dfy`, `Counters.dfy`, `ShutdownLaws.dfy`, `Snapshots.dfy` | laws over all runs of that queue |
| `EventQueue.dfy` | class `DeliveryQueue`: the fields, loops and methods of the queue, each proved equal to the function that `QueueSteps` gives |
| `BatchIds.dfy` | why batch ids that are used once make keys that are used once |
| `EndToEnd.dfy` | from capture to body: byte bound and read-back for every reachable queue |
| `Threads.dfy` | threads with a data lock and a drain lock (Python, Go, C#), and their refinement of the machine |
| `Unsent.dfy`, `Ingestion.dfy` | the browser's unsent store; network, server, unloads, snapshots and restarts |
| `ReadBodies.dfy`, `StaleSnapshots.dfy` | what the server reads from bodies; which snapshots may be restored |
| `Flags.dfy` | rollout buckets in JavaScript, Go and Python |
| `Numbers.dfy` | shared arithmetic |

An item carries the number it was captured under, and a chunk the items whose
texts were pasted into its body. These labels change nothing that is sent; they
make it possible to say where an item is. The state functions also keep history
fields (what was accepted, sent, delivered, dropped) that no step reads.

## Assumptions

- `send`, `base`, `onDiagnostic` and `onChange` do not throw where nothing
  catches them and do not call the queue synchronously.
- Batch ids are never used twice; `BatchIds.NewIdsMakeNewKeys` derives from this
  that keys are not, which the queue's runs require. Where sizes are stated ids
  have at most 36 plain ASCII characters, and a cut makes fewer than 10^6 chunks.
- The clock does not go backwards and is read once in an uninterrupted stretch.
  For threads, a clock reading and the locked stretch that uses it are one step.
- The random number for a wait is in [0, 1).
- In `Ingestion`, an item is captured once, and the server remembers every key it
  accepted.

## Where code and documentation differ

- `spec/README.md` calls "any other 4xx" permanent; the code drops a chunk for
  every status that is not 408, 425, 429 or at least 500 (core/src/http.ts:9).
  The model follows the code.
- `restore` does not enforce the bound of 50 waiting chunks
  (core/src/queue.ts:445-448): `Snapshots.RestoreMayExceedTheCap`.
- A truncation marker can make a string, and with it an item, longer
  (core/src/utf8.ts:64-68): `Truncation.CapShrinks`, `Markers.CapGrowsSomewhere`,
  `Markers.CutGrowsItem`.
- The marker of the third truncation step counts bytes of the string that the
  first step left, not of the original (core/src/truncate.ts:101-106):
  `Markers.SecondMarkerIff`, `Markers.WrongMarker`.
- Errors show all their own keys, not at most 200, and their name, message and
  stack even if those names are to be redacted (core/src/normalize.ts:131-139):
  `Normalize.OwnKeysShow`, `Normalize.NormalizedIsTame`.
- A snapshot leaves out what is left of a pass, in flight or not
  (core/src/queue.ts:416-432): `Snapshots.SnapshotIsWholeIff`,
  `Snapshots.SnapshotMissesFlight`.
- A snapshot must not be restored if an item that it makes pending is in a chunk
  that got out of the process: `StaleSnapshots.RestoreIsSafeIff`.
- `saveUnsent` says that a chunk is stored even if the storage refused it
  (browser/src/unsent.ts:27-45): `Unsent.AnswerIsRightIff`.
- `shutdown` of a paused queue may never end (core/src/queue.ts:391-402):
  `ShutdownLaws.PausedIdleShutdown`, `ShutdownLaws.PausedShutdown`.
- Go's buckets differ from the others for strings with lone surrogates, which
  become U+FFFD when the string is converted
  (go/flags.go:16-22): `Flags.GoDiffers`.

## Model

| member | source | states |
|---|---|---|
| Utf8.ByteLength | core/src/utf8.ts:17-32 | the index loop computes the length of the UTF-8 encoding as RFC 3629 defines it, lone surrogates as U+FFFD |
| Utf8.SizeAdditive | core/src/utf8.ts:17-32 | sizes add up at a seam exactly when no surrogate pair is cut; a cut pair costs two bytes more |
| Utf8.Truncate | core/src/utf8.ts:38-61 | the kept part is the longest prefix within the limit that cuts no code point; kept and removed bytes add up to the total |
| Utf8.CutBytes | go/contract.go:68-77 | backing up to a rune start finds the last code-point start at or before the limit |
| Utf8.CutsAgree | dotnet/Watchup/Contract.cs:61-68 | the byte-level cut and the UTF-16 cut keep exactly the same bytes, and only they do |
| Json.RoundTrip | core/src/truncate.ts:58-61 | reading printed JSON gives the value back, for every value |
| Json.EscapeSize | core/src/truncate.ts:58-61 | escaping never shrinks a text and at most multiplies its bytes by six |
| Chunker.BodyIsEnvelope | core/src/chunker.ts:36-48 | the pasted body is the serialization of the whole envelope |
| Chunker.BodySize | core/src/chunker.ts:26-30 | the size of a body is overhead plus item weights, less the slack that the real key leaves in the reserved one |
| Packing.KeyInjective | core/src/chunker.ts:32-34 | keys of different batches or indexes differ, whatever the batch ids are |
| Packing.PackIsSplit | core/src/chunker.ts:87-98 | the greedy split keeps every item in order and obeys the byte and item limits, oversized items alone |
| Packing.PackIsOptimal | core/src/chunker.ts:87-98 | no split that obeys the limits has fewer chunks |
| Packing.BuildChunks | core/src/chunker.ts:55-100 | the loops over kinds and items with running byte and item counters compute the greedy split, with keys, bodies and counts |
| Packing.GoBuildChunks | go/contract.go:462-504 | Go's bookkeeping computes the same split, with the keys, bodies and counts of the chunks |
| Packing.CutSays | core/src/chunker.ts:20-48 | reading the body of each chunk of a cut gives the chunk's own key, the time, and the base under every other name; the key is made of batch id and index; the counts are the numbers of items in the body |
| Packing.GoCutSays | go/contract.go:446-504 | and so for every chunk of the Go client |
| Packing.CutKeepsItems | core/src/chunker.ts:87-98 | a cut puts every pending item into exactly one chunk, in send order |
| Packing.CutReadsBack | core/src/chunker.ts:36-48 | reading the chunks of a cut in order gives, for each kind, exactly the pending items in order |
| Packing.CutWithinLimit | core/src/chunker.ts:87-98 | the byte count of a chunk is the size of its body; it exceeds the limit only for a single item that is too large for an empty envelope |
| Truncation.TruncateWithMarker | core/src/utf8.ts:64-68 | the string is unchanged and unmarked if it fits, otherwise its longest prefix and a marker with the bytes removed |
| Truncation.CapShrinksIff | core/src/utf8.ts:64-68 | the result is shorter, or longer, exactly if more, or fewer, than 23 bytes were removed |
| Truncation.CapShrinks | core/src/utf8.ts:64-68 | what can be told before the cut: more than 23 bytes above the limit it shrinks, up to 20 it does not, and 23 is exact for ASCII |
| Markers.CapGrowsSomewhere | core/src/utf8.ts:64-68 | a message one byte above its limit becomes 21 bytes longer |
| Markers.CutGrowsItem | core/src/truncate.ts:50-56 | and with it its item |
| Markers.SecondCutKeeps | core/src/truncate.ts:101-106 | the third step keeps what it would keep of the original string |
| Markers.SecondMarkerIff | core/src/truncate.ts:101-106 | its marker says how many bytes of the original were removed exactly if the first cut left the string alone or removed 23 bytes |
| Markers.SecondMarkerAscii | core/src/truncate.ts:101-106 | for ASCII text, exactly if it is no longer than the first limit, or 23 bytes longer |
| Markers.CutTwice | core/src/truncate.ts:67-115 | an item that reaches the third step has its message and its stack cut twice |
| Markers.WrongMarker | core/src/truncate.ts:101-106 | a message of 9,000 bytes that loses 7,976 and says 7,192 |
| Truncation.CapStringsIn | core/src/truncate.ts:23-48 | the recursive rebuild caps every string of a tree and says whether one was too long |
| Truncation.ShortIsKept | core/src/truncate.ts:23-48 | a tree without long strings comes back unchanged |
| Truncation.StringsAreCapped | core/src/truncate.ts:23-48 | afterwards no string is longer than the limit and its marker |
| Truncation.CapFieldOf | core/src/truncate.ts:50-56 | a string field that is too long is replaced in place by its capped form; anything else is left alone |
| Truncation.FitItem | core/src/truncate.ts:67-115 | the three steps are taken one after the other, each only while the item does not fit |
| LeastCut.FitIsLeast | core/src/truncate.ts:67-115 | the result is the first of four forms of the item, given field by field, that fits the budget, or the last; it is marked exactly if that form cuts something |
| LeastCut.NoStepTooEarly | core/src/truncate.ts:79-107 | containers stay if capping strings is enough; message and stack are cut once if markers are enough; other fields never change |
| LeastCut.StringsInPlace | core/src/truncate.ts:23-48 | along every path of a tree the string at its end is capped and anything else is as it was |
| Truncation.UnmarkedIsIdentical | core/src/truncate.ts:109-114 | a result that is not marked truncated is the input, byte for byte, unless the input carried the flag |
| Truncation.MarkedCarriesFlag | core/src/truncate.ts:84-114 | a result that is marked truncated carries the top-level flag |
| Truncation.FitGuarantee | core/src/truncate.ts:67-115 | an item whose other fields leave 31,283 bytes of the budget is never oversized |
| Normalize.Walker.Walk | core/src/normalize.ts:97-195 | the walk returns what the specification says, for lists, dictionaries, dates, buffers, errors and `toJSON`, and leaves the ancestor stack as it found it |
| Normalize.Walker.WalkDict | core/src/normalize.ts:160-184 | at most 200 keys and a marker; sensitive keys redacted; values that are left out do not count |
| Normalize.Walker.WalkFailure | core/src/normalize.ts:131-139 | name, message and stack come first; other keys neither replace them nor those that every object inherits |
| Normalize.NormalizedIsTame | core/src/normalize.ts:97-195 | for every heap, cyclic or not, the result is at most 10 containers deep and 201 entries wide, errors aside; a sensitive key is redacted unless it is the count of dropped keys or the name, message or stack of an error |
| Normalize.OwnKeysShow | core/src/normalize.ts:131-139 | an error shows all its own keys, however many |
| Normalize.MarkerIsSensitiveIff | core/src/normalize.ts:40-51 | the name of the count is sensitive exactly if the caller listed it |
| Normalize.CyclesAreCut | core/src/normalize.ts:97-195 | for every heap: a reference comes out as circular exactly if its object is being walked; every element and field comes from the element at its place or an entry with its key; every entry that gives a field has one, except after 200 of them, when a marker counts the rest; all own keys of an error arrive, unless every object inherits their name; nothing comes out exactly for what becomes undefined |
| Normalize.EntryShows | core/src/normalize.ts:160-184 | with different keys, each of the first 200 entries that give a field is under its key, redacted or unrolled |
| Normalize.BuiltInsAreSensitive | core/src/normalize.ts:10-51 | the twenty built-in names are redacted in any case and with separators anywhere |
| Normalize.PartsAreSensitive | core/src/normalize.ts:33-51 | and so are names that hold `password`, `secret` or `credential`, or end in `token` |
| Normalize.TreesAreKept | core/src/normalize.ts:97-195 | a tree within the limits without sensitive keys comes out with only its strings scrubbed |
| Normalize.SpacedIsSame | core/src/normalize.ts:40-42 | separators anywhere in a name do not change its canonical form |
| Normalize.ExtraNamesCount | core/src/normalize.ts:40-51 | an extra name is redacted in any case and with separators anywhere |
| History.BackoffLawful | core/src/queue.ts:350-354 | after failure n the wait is the Retry-After up to a minute, or between half of min(maxBackoff, base * 2^(n-1)) and all of it, spread evenly by the random number |
| History.DefaultWaits | core/src/queue.ts:350-354 | with the default policy the first four waits are from 0.5, 1, 2 and 4 seconds to twice that |
| History.SendsAreBounded | core/src/queue.ts:297-348 | in a lawful log a key is sent at most `maxAttempts` times, numbered from 1 |
| History.NothingAfterFinal | core/src/queue.ts:306-333 | nothing happens under a key after it was accepted, refused or given up |
| History.OneBodyPerKey | core/src/queue.ts:297-348 | all sends of a key carry one body |
| History.RetryWaits | core/src/queue.ts:265-271 | an unforced attempt starts no earlier than the failure before it plus its wait |
| KeyHistory.DelayIsLawful | core/src/queue.ts:335-337 | the wait that the queue computes after a failure is lawful |
| KeyHistory.RunKeeps | core/src/queue.ts:256-348 | every run without restore leaves a lawful log, at most 50 waiting chunks, and each key in one place |
| KeyHistory.KeysAreHonoured | core/src/queue.ts:256-348 | in every such run a key keeps one body, is sent at most `maxAttempts` times and never after a final reply |
| KeyHistory.RetriesBackOff | core/src/queue.ts:265-354 | in every such run an unforced retry after failure n waits for the Retry-After up to a minute, or at least half of min(maxBackoff, base * 2^(n-1)); no wait that is set is longer than that |
| Replies.PassTakes | core/src/queue.ts:265-271 | a pass sends the due chunks in the order in which they wait, and then what is cut; the others stay in order |
| Replies.ReplyDecides | core/src/queue.ts:300-347 | delivered, rejected for a status below 500 other than 408, 425 and 429, given up after the last attempt, or waiting behind the others, of which the newest 50 stay |
| Replies.RetryIsSet | core/src/queue.ts:335-337 | a chunk that is kept is due again after a lawful wait, with its key, body and attempts |
| Conservation.RunConserves | core/src/queue.ts:182-477 | in every reachable state each item is in the machine's places as often as it was taken in |
| Conservation.EachItemInOnePlace | core/src/queue.ts:182-477 | an item taken in once is in exactly one of pending, waiting, in the pass, delivered, rejected, exhausted, evicted, taken, overflowed |
| Overflow.OverflowPolicy | core/src/queue.ts:455-466 | the bound keeps the newest items of each kind, as many as it allows; a trace goes only if no event is left, an error only if neither is; the bytes add up |
| Overflow.FirstSendsInCaptureOrder | core/src/queue.ts:256-295 | over every run without restore the first sends of a kind follow the capture order |
| QueueRefines.RunControl | core/src/queue.ts:239-279 | at most one drain is live, and the stored promise is its promise |
| QueueRefines.NoStalePromise | core/src/queue.ts:239-254 | `flush` never hands out the promise of a finished drain, and starts a drain only if none is live |
| QueueRefines.RunRefines | core/src/queue.ts:182-450 | every run of the event-loop queue is a run of the delivery machine |
| Triggers.EnqueueFlushesIff | core/src/queue.ts:203-214 | an idle queue starts a flush exactly if items, bytes or errors then pending reach a threshold and it may flush on its own |
| Triggers.IdleIsBelowThresholds | core/src/queue.ts:203-214 | over every run without stop, pause and restore, an idle queue holds less than any threshold |
| Triggers.FlushSends | core/src/queue.ts:239-271 | a flush of an idle queue sends all waiting chunks if forced, the due ones otherwise, and then what its byte limit cuts |
| Triggers.FurtherPassSends | core/src/queue.ts:260-276 | a further pass cuts with the limit of its drain |
| Triggers.LimitStays | core/src/queue.ts:239-269 | the limit of a drain is that of the flush that started it, or the default |
| Triggers.SentWithin | core/src/queue.ts:268-269 | every new chunk that is being sent keeps the limit it was cut with, unless it holds a single item |
| Triggers.PassIsForcedIff | core/src/queue.ts:239-261 | over every run a pass ignores retry times exactly if a flush that asks for it was called since the pass before it began |
| Triggers.ResumeSendsAll | core/src/queue.ts:166-170 | resuming an idle queue sends everything, whatever the retry times |
| Triggers.TakeAllKeepsLimit | core/src/queue.ts:377-385 | what is handed out is the waiting chunks as they are and new ones within the limit |
| Triggers.TakeAllTakesAll | core/src/queue.ts:377-385 | all waiting and pending items are handed out, nothing stays, and the timer is off |
| Triggers.TimerHasACause | core/src/queue.ts:356-367 | over every run an armed timer is armed for the retry time of a chunk that waited, and a stopped queue has none |
| FlushJoining.FlushesAreServed | core/src/queue.ts:239-279 | when the promise of a flush has settled, everything pending at the call was sent, dropped by the bound or taken, and every due chunk was sent again, evicted or taken |
| WakeUp.NoLostWakeUp | core/src/queue.ts:356-367 | in every idle state of a queue that was never stopped or paused, waiting chunks have a timer armed for no later than the first of them |
| Counters.CountersAreExact | core/src/queue.ts:182-348 | byte, delivered and overflow counters and the result of the latest drain are exact in every reachable state |
| Counters.RunCounted | core/src/chunker.ts:76-83 | the counts of every chunk add up to its items in every reachable state |
| Snapshots.RoundTrip | core/src/queue.ts:416-450 | restoring into an empty queue gives the same pending items and bytes, and the same keys, bodies and attempts, all due now |
| Snapshots.ReachableRoundTrip | core/src/queue.ts:416-450 | and so for every reachable queue whose items were measured |
| Snapshots.RestoreGoesAhead | core/src/queue.ts:435-450 | restored items go ahead kind by kind, and the byte counter stays the sum of the sizes |
| Snapshots.OnlyVersionOneIsRead | core/src/queue.ts:435-450 | a snapshot of another version changes nothing; of one of version 1 everything is taken in |
| Snapshots.RestoreMayExceedTheCap | core/src/queue.ts:445-448 | the bound on waiting chunks is exceeded exactly if those that wait and those restored are more than 50 |
| Snapshots.CapExceeded | core/src/queue.ts:445-448 | a snapshot with 51 chunks exceeds it |
| Snapshots.SnapshotIsWholeIff | core/src/queue.ts:416-432 | a snapshot holds as many items as the queue exactly if nothing is left of a pass |
| Snapshots.SnapshotMissesFlight | core/src/queue.ts:416-432 | a reachable queue whose snapshot holds fewer |
| Snapshots.MalformedIsSkipped | core/src/queue.ts:435-450 | a malformed entry of a snapshot is skipped, and nothing else with it |
| Snapshots.AllGood | core/src/queue.ts:435-450 | without malformed entries everything is taken |
| Snapshots.QueueOrderly | core/src/queue.ts:182-217 | in every reachable state pending items are measured, in the list of their kind, and within the bound |
| ShutdownLaws.ReachableIsSound | core/src/queue.ts:239-279 | every reachable queue meets what shutdown relies on |
| ShutdownLaws.LaunchRemaining | core/src/queue.ts:297-298 | every send uses up one of the remaining attempts |
| ShutdownLaws.AnswerLedger | core/src/queue.ts:306-348 | a reply moves items, and loses none |
| ShutdownLaws.IdleIsPatient | core/src/queue.ts:239-261 | a reachable idle queue has nothing left to force |
| ShutdownLaws.SleepsInTime | core/src/queue.ts:396-401 | no sleep of a shutdown reaches past the deadline |
| ShutdownLaws.PausedShutdown | core/src/queue.ts:391-402 | for a paused queue, whatever a live drain does: the loop never ends exactly if no test passes before the drain is over and then something waits that is due by the deadline |
| ShutdownLaws.PausedIdleShutdown | core/src/queue.ts:391-402 | with no live drain it never ends exactly if at the call something waits that is due by the deadline |
| ShutdownLaws.LiveDrainMayEndIt | core/src/queue.ts:391-402 | a live drain that was asked for another round can take all that waits, and then the loop ends |
| ShutdownLaws.PausedForever | core/src/queue.ts:391-402 | a reachable paused queue whose shutdown never ends |
| EventQueue.DeliveryQueue.EnforceBound | core/src/queue.ts:455-466 | the shift loops keep what the bound keeps, and adjust the byte and overflow counters |
| EventQueue.DeliveryQueue.Enqueue | core/src/queue.ts:182-217 | the item is normalized, refused if that gives no object, fitted to what an empty envelope leaves, stored, bounded, and a flush is started at the thresholds |
| EventQueue.DeliveryQueue.Flush | core/src/queue.ts:239-254 | does nothing while paused, joins a live drain, or starts one; returns the promise |
| EventQueue.DeliveryQueue.Pass | core/src/queue.ts:262-269 | the head of the drain loop: due chunks, then what is cut from pending |
| EventQueue.DeliveryQueue.TakeDue | core/src/queue.ts:265-267 | splits the retry list into due and other chunks, both in order |
| EventQueue.DeliveryQueue.SendNextChunk | core/src/queue.ts:270-279 | hands the next chunk to the sender or leaves the loop and schedules the retry timer |
| EventQueue.DeliveryQueue.ScheduleRetryTimer | core/src/queue.ts:356-367 | arms the timer for the earliest waiting chunk unless one is armed before |
| EventQueue.FirstDue | core/src/queue.ts:358 | the minimum of the retry times |
| EventQueue.DeliveryQueue.OnReply | core/src/queue.ts:300-348 | delivered, rejected, exhausted or kept for a retry with its wait, and the oldest evicted beyond 50 |
| EventQueue.DeliveryQueue.KeepForRetry | core/src/queue.ts:335-347 | the chunk goes to the end, the oldest go while there are more than 50 |
| EventQueue.DeliveryQueue.Continue | core/src/queue.ts:270-276 | the next chunk, another round if one was asked for, or the end |
| EventQueue.DeliveryQueue.TakeAll | core/src/queue.ts:377-385 | hands out waiting chunks and a cut of what is pending |
| EventQueue.DeliveryQueue.RetryingCount | core/src/queue.ts:223-225 | the number of items in waiting chunks |
| EventQueue.DeliveryQueue.Restore | core/src/queue.ts:435-450 | merges the well-formed entries of a readable snapshot and enforces the bound on items |
| EventQueue.DeliveryQueue.AwaitDrain | core/src/queue.ts:261-276 | waiting for a drain ends, keeps the books and empties what is pending if another round was asked for |
| EventQueue.DeliveryQueue.Shutdown | core/src/queue.ts:391-412 | ends for every sender, also for a paused queue that is idle with nothing due by the deadline; between two flushes it sleeps exactly until the first waiting chunk is due, which is by the deadline; a queue with nothing to force sends nothing before its time; delivered, given up and undelivered items add up to what was queued |
| EndToEnd.EveryBodyFits | core/src/queue.ts:282-295 | every chunk that a reachable queue cuts carries the size of its body and exceeds the limit only for a single item that is too large |
| EndToEnd.OversizedWasReported | core/src/queue.ts:186-201 | and the capture of that item reported it as oversized |
| EndToEnd.EveryCutReadsBack | core/src/chunker.ts:36-48 | reading what a reachable queue cuts gives exactly its pending items, kind by kind and in order |
| EndToEnd.FittedCutReadsBack | core/src/queue.ts:182-217 | and those are what `fitItem` made of what was captured |
| BatchIds.NewIdsMakeNewKeys | core/src/queue.ts:282-295 | a batch id that was never used makes keys that the queue never used |
| EndToEnd.EveryBodySays | core/src/chunker.ts:20-48 | every chunk that a reachable queue cuts says its own key, the time and the base in its body |
| EndToEnd.PendingFrom | core/src/queue.ts:182-217 | every pending item was taken in by some event of the run |
| Threads.OneInFlight | python/watchup/_queue.py:194-207 | under every interleaving at most one chunk is in flight |
| Threads.ThreadsRefine | go/queue.go:208-296 | every interleaving is a run of the delivery machine |
| Threads.FewWait | python/watchup/_queue.py:229-262 | at most 50 chunks wait |
| Threads.FlushIsComplete | dotnet/Watchup/DeliveryQueue.cs:151-181 | when a flush returns, every item taken in before the call has been sent or dropped by the bound |
| Threads.ForceIsAskedFor | python/watchup/_queue.py:194-207 | under every interleaving, if no thread calls a forced flush no retry is sent before its time |
| Threads.SomeoneCanGoOn | go/queue.go:208-234 | while a call is under way some thread can go on |
| Unsent.UnsentStore.SaveUnsent | browser/src/unsent.ts:38-45 | the chunk replaces an older copy and the oldest go until 256 KiB are kept, unless the storage refuses; the result says whether the chunk fits |
| Unsent.AnswerIsRightIff | browser/src/unsent.ts:38-45 | the result says whether the key is stored exactly if the storage took the write, or held the key before exactly if the chunk fits |
| Unsent.WithoutAround | browser/src/unsent.ts:39 | filtering by key drops the chunks of the key and keeps the others in order |
| Unsent.SavedIs | browser/src/unsent.ts:38-45 | each key once, within the bound, the chunk newest exactly if it fits on its own, and of the other keys the newest, as many as fit beside it, in order |
| Unsent.ShortenedIsLongest | browser/src/unsent.ts:42 | the longest run of newest chunks within the bound is kept |
| Unsent.UnsentStore.ForgetUnsent | browser/src/unsent.ts:47-51 | the chunk of the key goes and the others stay, unless the storage refuses |
| Unsent.UnsentStore.TakeUnsent | browser/src/unsent.ts:54-58 | everything is handed out, and nothing is left unless the storage refuses |
| Ingestion.AtMostOnce | docs/OPERATIONS.md:10 | over lost replies, repeated requests, unloads, refused storage, resends, snapshots and restarts the server takes in each captured item at most once, while only safe snapshots are restored |
| Ingestion.OneKeyPerItem | browser/src/watchup.ts:485-530 | all requests that hold an item carry one key and one body |
| ReadBodies.RequestsSayTheirKey | docs/OPERATIONS.md:10 | every request says in its body the key under which the server keeps it |
| ReadBodies.ReadsAtMostOnce | docs/OPERATIONS.md:10 | the server reads a value from the bodies it accepts at most as often as items with that value were captured |
| StaleSnapshots.RestoreIsSafeIff | core/src/queue.ts:416-450 | after restoring a snapshot each item is taken in at most once over every run that may follow, exactly if no item pending in the snapshot is in a chunk that the server has, the network was given or the unsent store holds |
| StaleSnapshots.OldSnapshotMayBeSafe | core/src/queue.ts:416-450 | a reachable snapshot that is older than a cut and safe |
| StaleSnapshots.StaleSnapshotHappens | core/src/queue.ts:416-450 | a reachable snapshot that is not |
| Flags.JsFlagBucket | core/src/flags.ts:38-45 | signed 32-bit arithmetic on doubles computes the bucket |
| Flags.GoFlagBucket | go/flags.go:16-22 | `uint32` arithmetic on the units of the runes of a converted string computes the bucket of that text |
| Flags.PyFlagBucket | python/watchup/flags.py:15-21 | masked integers over little-endian bytes compute the bucket of that text |
| Flags.PyAgrees | python/watchup/flags.py:15-21 | Python's bucket is JavaScript's for every pair of strings |
| Flags.GoAgrees | go/flags.go:16-22 | Go's bucket is JavaScript's for every well-formed pair of strings |
| Flags.RunesIff | go/flags.go:18 | a text survives the conversion to runes exactly if it has no lone surrogate |
| Flags.GoDiffers | go/flags.go:16-22 | with an odd number of lone surrogates that have even numbers the buckets always differ |
| Flags.GoDiffersSomewhere | go/flags.go:16-22 | a pair of strings with different buckets |

## Left out

- HTTP, `fetch`, `sendBeacon`, `localStorage` and AsyncStorage: a reply is arbitrary, a request may arrive at any time and any number of times.
- Regular expressions of `scrubString` and `toLowerCase`: arbitrary functions.
- Getters and proxies that throw inside `normalize`, errors whose name or message is not a string, and Go's walk by reflection.
- Python's `?` for a lone surrogate: the sizes here are those of TypeScript and Go.
- Go strings that hold the bytes of a surrogate unconverted.
- Number formatting in JSON, real time, UUIDs and the quality of random numbers: parameters.
- Chunk objects are values: two lists never share an object that is updated through one of them.
- Key order of objects with `__proto__` or integer-like names, and Go's sorted keys.
- The locked stretches of the Python, Go and C# queues are modelled on values; their loops are those of `EventQueue.DeliveryQueue`.
- Python's, Go's and C#'s own shutdown loops, worker wake-ups, cancellation and fork handling.
- A closed or replaced server memory: keys are remembered for ever, not for 24 hours.
- Several tabs that share one unsent store.
- Framework wrappers, flag targeting and fetching, the web analytics queue, console and error capture, setup tools.
- Truncation.FitGuarantee: does not cover items of 10^10 bytes and more, which no JavaScript string can hold.
- Flags.GoDiffers: does not say what happens with an even number of even lone surrogates, because the buckets may then agree or differ.
