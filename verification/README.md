# Telegram Desktop: protocol and algorithm models

A model in Dafny of the parts of Telegram Desktop that are state machines or algorithms, with proofs
of what they keep over every run or for every input. `dafny verify dfyconfig.toml` verifies the whole
project.

| modules | what they model |
|---|---|
| `FeedOrder`, `UpdatesModel`, `UpdatesRuns`, `UpdatesSafety`, `UpdatesOrder`, `UpdatesDelivery`, `UpdatesGapTimer`, `UpdatesFeeds`, `UpdatesScheduler`, `UpdatesManager` | sequencing of server updates, the single-flight "get difference" protocol, retries and deadlines |
| `Sha1Spec`, `Sha1` | FIPS 180-4 SHA-1 and the streaming implementation of the packer |
| `Trace`, `TraceMeaning`, `TraceReader`, `Tracer` | the allocation trace: writer, chunked reader, accounting, and the heap it stands for |
| `MessageData`, `MessageDataManager` | coalesced message-data requests with joined callbacks |
| `Dialogs` | loading of dialog lists with list and pinned requests side by side |
| `Stickers`, `StickersReorder` | saving sticker sets, and the barrier before the reorder request |
| `InviteLinks`, `InviteLinksSteps` | the cached invite links of a peer |
| `WebPages`, `WebPagesManager` | batched requests for delayed web pages with placeholder ids |
| `ListHash`, `Privacy`, `Views`, `ViewsManager` | the 64-bit list hash, privacy rules on the wire, view counting |
| `Forwarding`, `InviteChunks`, `MegagroupAdmins` | forwarded runs, chunks of invited users, the admin list of a group |

Each protocol is a state value with a step for every event; a class beside it holds the fields of the
source, updates them in place, and each of its methods is proved to take the step of the model. A run is
any sequence of events, an event being possible only when its request is in flight or its timer is armed.
Requests in flight, logs, counters and the record of what was fed and which marks were given, which exist
only for the proofs, are history in that state. Flat maps
are maps walked in any order, so that the results hold for every order of the keys.

## What the proofs found

- A "difference too long" reply, or a failure of the first state request, leaves the requesting flag set
  with nothing out, for ever, and nothing else does (`UpdatesSafety.DeadExactlyWhen`,
  `UpdatesSafety.EndedIsForever`).
- The gap timer firing while a difference is requested leaves buffered containers without a timer
  (`UpdatesGapTimer.GapIsTimed` says exactly when, `UpdatesGapTimer.GapCanBeStranded` shows a run), and so
  does a combined container that does not move the number (`UpdatesGapTimer.MovesExactlyWhen`).
- A failed channel difference, and nothing else, leaves the channel stuck for ever, and its wait never grows
  past two seconds (`UpdatesSafety.StuckExactlyWhen`, `UpdatesSafety.FailedChannelIsStuck`).
- `hashSha1` pads as the standard does exactly below 2^29 bytes (`Sha1.PaddingAgrees`).
- A "not modified" answer stalls a dialog list for ever (`Dialogs.StallsExactlyWhen`,
  `Dialogs.StalledForever`).
- Removing either cloud-recent sticker set drops both and the custom one (`Stickers.ClearingDropsThree`,
  `Stickers.CustomIsDropped`).
- A web page whose request failed keeps it, and a due page without an item is left without a timer when no
  other page has still to become due (`WebPages.DeadRequestExactlyWhen`, `WebPages.FailedStaysAssigned`,
  `WebPages.UnattendedExactlyWhen`).
- A reply with the wrong number of view counts blocks its peer for ever (`Views.DeadExactlyWhen`,
  `Views.StuckForever`).
- The new rank of an admin already known is lost, an empty list makes user 0 an admin, and a creator known
  before can stay (`MegagroupAdmins.AdminsAreListedExactlyWhen`, `MegagroupAdmins.NewRankIsLost`,
  `MegagroupAdmins.PlaceholderIsMade`, `MegagroupAdmins.OldCreatorStays`).
- A refused allocation is read back from a trace as a block at address null, and nothing else makes the trace
  differ from the heap (`Tracer.TraceIsHeapExactlyWhen`).
- Setting the permanent invite link from outside leaves the count of the cached links off by one, unless it is
  the link that was first already (`InviteLinksSteps.CountStaysRightExactlyWhen`).
- The invite callback of a channel hears of the first chunk only (`InviteChunks.ChunksArePartition`).

## Model

| member | source | states |
|---|---|---|
| `UpdatesDelivery.OrderInEveryRun` | Telegram/SourceFiles/api/api_updates.cpp:330-361 | From any reachable state with an empty buffer, containers whose ranges cut cur+1..n arrive in any order and any number of times, and between them come unnumbered updates, channel replies and failures, timers and requests of any kind: if at no moment a difference is being requested, each container was applied exactly once in the order of the server, the number reached is n and the gap buffer is empty. |
| `UpdatesDelivery.RunDelivers` | Telegram/SourceFiles/api/api_updates.cpp:330-361 | At every moment of such a run exactly the first containers have been applied, and each one that came is applied or buffered. |
| `UpdatesDelivery.OtherEventCalm` | Telegram/SourceFiles/api/api_updates.cpp:363-717 | While no difference is requested, no event but an arrival or a new session touches numbers, log or buffer, unless it asks for a difference. |
| `UpdatesOrder.OrderIndependence` | Telegram/SourceFiles/api/api_updates.cpp:1329-1373 | The same of applyUpdates alone, from any state: any order, any duplicates, mixed with unnumbered updates, as long as no difference was requested meanwhile. |
| `UpdatesOrder.ArrivalsOrder` | Telegram/SourceFiles/api/api_updates.cpp:330-361 | At every moment of such a batch exactly the first containers have been applied, and each one that arrived is applied or still buffered: nothing that came is lost. |
| `UpdatesOrder.DrainOrder` | Telegram/SourceFiles/api/api_updates.cpp:347-360 | Draining the buffer, through the mutual recursion with the application of a container, applies exactly the containers that are next and stops at the first gap. |
| `UpdatesOrder.EarlyOrLate` | Telegram/SourceFiles/api/api_updates.cpp:1335-1373 | A container that comes too early waits under its start, the first one to come for that start, with the gap timer running, and nothing else changes; one that comes too late changes nothing. |
| `UpdatesFeeds.FedInEveryRun` | Telegram/SourceFiles/api/api_updates.cpp:1335-1373 | In every run, whatever was fed is the list it came from, each update once, call participants first (in a difference the message ids before them) and each group in its own order, with every effect of every update taking place; the containers fed are those of the log, one after the other; and each of them, and each short update or ready message, is followed by its own marks. |
| `UpdatesFeeds.MarksInEveryRun` | Telegram/SourceFiles/api/api_updates.cpp:330-347 | In every run the date is the greatest one given to setState while the min-channel timer was idle, the qts the greatest non-zero one given, the pts the last non-zero one and the number the last non-zero one since the last new session. |
| `UpdatesFeeds.WritesInEveryRun` | Telegram/SourceFiles/api/api_updates.cpp:363-491 | In every run a handled event feeds and gives exactly what it brings, first: an arrival that is next or unnumbered its updates, one that comes while a difference is requested its call participants, a state reply its marks, a difference its updates and then its marks, the date held back if its updates have the min-channel timer running; other events feed and give nothing. |
| `UpdatesFeeds.AppliedTakes` | Telegram/SourceFiles/api/api_updates.cpp:1335-1474 | In every run, when an applied container, short update or message brings missing data a difference is being requested after it or the min-channel timer runs, contents of an unknown channel start that timer, and a known channel too far behind is asked for. |
| `UpdatesFeeds.UnreadyOnlyFeeds` | Telegram/SourceFiles/api/api_updates.cpp:1382-1463 | A message whose turn by its pts has not come is fed and gives no marks. |
| `FeedOrder.ContainerFed` | Telegram/SourceFiles/api/api_updates.cpp:290-320 | What is fed of a container stands at positions of its list that are each of them once, call participants first, and ascending in each group. |
| `FeedOrder.CallsFed` | Telegram/SourceFiles/api/api_updates.cpp:290-320 | What is fed of an ignored container are its call participants, each once and in order. |
| `FeedOrder.DifferenceFed` | Telegram/SourceFiles/api/api_updates.cpp:579-590 | What is fed of a difference stands at positions that are each of them once: message ids, call participants, the rest, each group ascending. |
| `UpdatesSafety.NextInv` | Telegram/SourceFiles/api/api_updates.cpp:330-717 | Every step of the protocol, whatever its data, keeps the invariant of requests, deadlines and sequence numbers, never moves date, qts or the log back, and never frees a stuck channel. |
| `UpdatesSafety.RunInv` | Telegram/SourceFiles/api/api_updates.cpp:221-246 | The invariant holds in every state of every interleaving of pushes, replies, failures and timers, from construction on. |
| `UpdatesSafety.SingleFlight` | Telegram/SourceFiles/api/api_updates.cpp:443-491 | In every run at most one global request (state or difference) is out, one being out means the flag is set, and a planned retry means that the flag is set and nothing is out. |
| `UpdatesSafety.ChannelSingleFlight` | Telegram/SourceFiles/api/api_updates.cpp:684-717 | In every run a channel has at most one difference request out, only while its flag is set; a planned channel retry means the flag is set with nothing out. |
| `UpdatesSafety.RetryIsSent` | Telegram/SourceFiles/api/api_updates.cpp:627-638 | When the planned retry is due, nothing is out, and the forced reset of the flag leads to exactly one request. |
| `UpdatesSafety.DeadExactlyWhen` | Telegram/SourceFiles/api/api_updates.cpp:443-491 | In every run the flag is set with nothing out and no retry planned exactly when a "difference too long" reply was handled or the first state request failed. |
| `UpdatesSafety.EndsCanHappen` | Telegram/SourceFiles/api/api_updates.cpp:243-246 | Both happen: a run for each cause. |
| `UpdatesSafety.EndedIsForever` | Telegram/SourceFiles/api/api_updates.cpp:455-491 | After either of the two events no continuation of the run ever drops the flag or asks for a difference again. |
| `UpdatesSafety.FailedChannelIsStuck` | Telegram/SourceFiles/api/api_updates.cpp:433-441 | After a failed channel difference no continuation of the run ever sends a request for that channel again. |
| `UpdatesSafety.StuckExactlyWhen` | Telegram/SourceFiles/api/api_updates.cpp:433-441 | In every run a channel counts as requesting with no request out exactly when one of its requests has failed, which is exactly when a wait is kept for it, and that wait is two seconds. |
| `UpdatesSafety.StuckCanHappen` | Telegram/SourceFiles/api/api_updates.cpp:684-717 | A run that gets a channel stuck. |
| `UpdatesSafety.SequenceSafety` | Telegram/SourceFiles/api/api_updates.cpp:1335-1373 | In every run each buffered container is filed under its own start, beyond the next number, and every numbered container was applied exactly when its start was the next number. |
| `UpdatesSafety.NeverBack` | Telegram/SourceFiles/api/api_updates.cpp:330-344 | Between any two moments of a run date and qts do not decrease and the log of applied containers only grows. |
| `UpdatesSafety.RunForward` | Telegram/SourceFiles/api/api_updates.cpp:330-361 | From any state that keeps the invariant, every continuation keeps it, goes only forward and frees no stuck channel. |
| `UpdatesSafety.NoLostWakeup` | Telegram/SourceFiles/api/api_updates.cpp:494-559 | In every run a pending deadline of either kind, global or of a channel, has its timer armed no later than it. |
| `UpdatesSafety.TimerPassSettles` | Telegram/SourceFiles/api/api_updates.cpp:600-654 | When a scheduler timer fires, its pass leaves only deadlines in the future and the timer exactly at the earliest of them. |
| `UpdatesSafety.ByPtsPassSafe` | Telegram/SourceFiles/api/api_updates.cpp:600-625 | A pass over the pts deadlines settles them, keeps the request invariant and does not disturb requests already out. |
| `UpdatesSafety.AfterFailPassSafe` | Telegram/SourceFiles/api/api_updates.cpp:627-654 | The same of a pass over the retries, in which the flag is dropped by force. |
| `UpdatesSafety.BackoffDoubles` | Telegram/SourceFiles/api/api_updates.cpp:545-559 | Doubling below 64 from one second is min(2^k, 64) seconds. |
| `UpdatesSafety.BackoffOfRun` | Telegram/SourceFiles/api/api_updates.cpp:545-559 | In every run the wait kept is min(2^k, 64) seconds after k failures in a row. |
| `UpdatesSafety.RetryDelay` | Telegram/SourceFiles/api/api_updates.cpp:592-598 | A failure plans the retry exactly min(2^k, 64) seconds ahead, k failures having come before it. |
| `UpdatesScheduler.DeadlineMoves` | Telegram/SourceFiles/api/api_updates.cpp:494-537 | A wait that is not positive forgets the deadline, of two waits the shorter one wins whichever came first, nothing else is touched, and "changed" is reported exactly when the deadline is another one; for channels and the global one alike. |
| `UpdatesScheduler.ByPtsPassAsks` | Telegram/SourceFiles/api/api_updates.cpp:600-625 | A pass over the pts deadlines, deadline by deadline: what is due is gone and the rest stays, exactly the due channels that are known and not requesting have one more request out, and a due global deadline asks unless a request is out. |
| `UpdatesScheduler.AfterFailPassAsks` | Telegram/SourceFiles/api/api_updates.cpp:627-654 | The same of a pass over the retries, where a due global retry always asks and a due channel loses its pts deadline too. |
| `UpdatesScheduler.FiredAsks` | Telegram/SourceFiles/api/api_updates.cpp:600-654 | When either scheduler timer fires, exactly what is due then is asked for and forgotten. |
| `UpdatesScheduler.PtsTimerSets` | Telegram/SourceFiles/api/api_updates.cpp:539-543 | A waiter sets its deadline, no later than asked, or takes it back; other deadlines that are not due stay as they are. |
| `UpdatesScheduler.StartedStands` | Telegram/SourceFiles/api/api_updates.cpp:539-543 | A deadline started while an update is fed stands at the end of it, no later than asked, unless a later effect forgets it. |
| `UpdatesScheduler.ChannelAsked` | Telegram/SourceFiles/api/api_updates.cpp:684-717 | Asked for by any of the three origins, only a known channel that is not requesting has a request sent; which deadlines of the channel are dropped depends on the origin, and no other channel changes. |
| `UpdatesScheduler.ChannelAnswered` | Telegram/SourceFiles/api/api_updates.cpp:363-415 | In every run an answer ends the request of its channel: a part that is not the last has the next one asked for exactly if the channel is known, and after the last one the short poll of a known channel is planned or has already been asked for. |
| `UpdatesScheduler.ChannelRetryDelay` | Telegram/SourceFiles/api/api_updates.cpp:433-441 | In every run a failed channel is to be asked again after one second, with the timer armed for it. |
| `UpdatesScheduler.WantedIsComing` | Telegram/SourceFiles/api/api_updates.cpp:656-682 | In every run, after a new session, a request from outside, the gap or min-channel timer, a "too long" update or a message without its data, one difference request is out with the buffer empty, or one was out before, or a retry is planned, or the protocol has ended. |
| `UpdatesScheduler.RepliesRelease` | Telegram/SourceFiles/api/api_updates.cpp:443-491 | In every run a reply ends its request: a slice has exactly one next request out, the others leave none out and the flag dropped, and the wait after a failure is one second again. |
| `UpdatesScheduler.WaitOfRun` | Telegram/SourceFiles/api/api_updates.cpp:455-456 | In every run the wait kept is min(2^k, 64) seconds, k being the failures of the global difference handled since the last answer to one. |
| `UpdatesGapTimer.SeqFireStrands` | Telegram/SourceFiles/api/api_updates.cpp:656-663 | The gap timer, when it fires, leaves buffered containers without a timer exactly when a difference is being requested and the buffer is not empty. |
| `UpdatesGapTimer.NextArmed` | Telegram/SourceFiles/api/api_updates.cpp:330-361 | Every other step keeps the gap timer running while anything is buffered, provided the containers move the number when they are applied from the buffer. |
| `UpdatesGapTimer.GapIsTimed` | Telegram/SourceFiles/api/api_updates.cpp:1344-1364 | With such containers the timer runs at every moment of a run at which something is buffered, exactly when it never fires with something buffered while a difference is requested. |
| `UpdatesGapTimer.MovesExactlyWhen` | Telegram/SourceFiles/api/api_updates.cpp:347-360 | The containers that can never leave others without the timer are exactly those that move the number: a combined container from number two on whose end is neither zero nor its start minus one. |
| `UpdatesGapTimer.GapCanBeStranded` | Telegram/SourceFiles/api/api_updates.cpp:227-227 | Three events after which a container waits with no timer and no request. |
| `UpdatesManager.Manager.constructor` | Telegram/SourceFiles/api/api_updates.cpp:221-246 | The manager starts in the initial state of the model, which keeps the invariant. |
| `UpdatesManager.Manager.SetState` | Telegram/SourceFiles/api/api_updates.cpp:330-361 | The method with its draining loop is the step of the model. |
| `UpdatesManager.Manager.ApplyUpdates` | Telegram/SourceFiles/api/api_updates.cpp:1329-1474 | Applying a container, short update or short message, re-entering the draining loop, is the step of the model. |
| `UpdatesManager.Manager.GetDifference` | Telegram/SourceFiles/api/api_updates.cpp:656-682 | The early return, the clearing of the buffer and deadline and the new request are the step of the model. |
| `UpdatesManager.Manager.GetChannelDifference` | Telegram/SourceFiles/api/api_updates.cpp:684-717 | The same for a channel and the three origins of the call; called from a walk it leaves the walked map alone. |
| `UpdatesManager.Manager.GetDifferenceByPts` | Telegram/SourceFiles/api/api_updates.cpp:600-625 | The walk over the live map, in any order of the channels, that asks for what is due, erases it while iterating and computes the next wait, is the pass of the model. |
| `UpdatesManager.Manager.GetDifferenceAfterFail` | Telegram/SourceFiles/api/api_updates.cpp:627-654 | The same walk over the retries. |
| `UpdatesManager.WalkOn` | Telegram/SourceFiles/api/api_updates.cpp:609-619 | One channel of a walk: throughout it the live map is the map of the start without the channels already asked for, so nothing but the walk changes it. |
| `UpdatesManager.Manager.FirstStateFailed` | Telegram/SourceFiles/api/api_updates.cpp:243-246 | A failure of the first request has no handler: the request is gone and that is all. |
| `UpdatesManager.Manager.PtsWaiterStartTimerFor` | Telegram/SourceFiles/api/api_updates.cpp:539-543 | A changed deadline runs the pass at once, an unchanged one nothing. |
| `UpdatesManager.Manager.FailDifferenceStartTimerFor` | Telegram/SourceFiles/api/api_updates.cpp:545-559 | The retry is planned after the current wait and the wait doubled below 64. |
| `UpdatesManager.Manager.DifferenceDone` | Telegram/SourceFiles/api/api_updates.cpp:455-492 | Each of the four kinds of difference replies is the step of the model. |
| `UpdatesManager.Manager.ChannelDifferenceDone` | Telegram/SourceFiles/api/api_updates.cpp:363-415 | The channel reply is the step of the model, with a next request or a short poll. |
| `UpdatesManager.Manager.Handle` | Telegram/SourceFiles/api/api_updates.cpp:221-269 | Any enabled event handled by the object is the step of the model and keeps the invariant, so the theorems about runs are about the object. |
| `FeedOrder.FeedUpdateVector` | Telegram/SourceFiles/api/api_updates.cpp:290-320 | Call-participant updates are fed first, then what the policy allows, each group in its order. |
| `FeedOrder.FeedMessageIds` | Telegram/SourceFiles/api/api_updates.cpp:322-328 | Exactly the message-id updates, in order. |
| `FeedOrder.FeedDifference` | Telegram/SourceFiles/api/api_updates.cpp:579-590 | Message ids before the new messages; after them call participants, then the rest; each update exactly once. |
| `FeedOrder.DifferenceOrder` | Telegram/SourceFiles/api/api_updates.cpp:579-590 | The two calls of feedDifference together feed each update exactly once, in three groups that keep their order. |
| `FeedOrder.StableSortIs` | Telegram/SourceFiles/api/api_updates.cpp:297-306 | Exactly one list is a stable sort with the call participants first. |
| `Sha1.PartHash` | Telegram/SourceFiles/_other/packer.cpp:66-98 | One call is the block computation of section 6.1.2 of FIPS 180-4 on the first sixteen words of the buffer, which it leaves as they were. |
| `Sha1.AllRounds` | Telegram/SourceFiles/_other/packer.cpp:84-88 | The five loops, with the schedule expanded in place in the 80-word buffer between the rounds, are the 80 rounds of the standard. |
| `Sha1.Extend` | Telegram/SourceFiles/_other/packer.cpp:79-82 | One more word of the message schedule, and the block itself kept. |
| `Sha1.HashFull` | Telegram/SourceFiles/_other/packer.cpp:107-115 | All full 64-byte blocks are hashed, whatever the length. |
| `Sha1.FillTail` | Telegram/SourceFiles/_other/packer.cpp:117-123 | The in-place padding of the last bytes is the big-endian words of the bytes, the bit and zeros. |
| `Sha1.WriteDigest` | Telegram/SourceFiles/_other/packer.cpp:131-135 | The twenty bytes written are the big-endian digest, and the bytes behind them stay. |
| `Sha1.HashSha1` | Telegram/SourceFiles/_other/packer.cpp:102-138 | For every message below 2^29 bytes the result is SHA-1 of the standard; up to the wrap of the block counter it is the hash of the padding the source makes. |
| `Sha1.PaddingAgrees` | Telegram/SourceFiles/_other/packer.cpp:117-129 | The source pads a message as section 5.1.1 of FIPS 180-4 does exactly when the message is shorter than 2^29 bytes. |
| `Sha1.SourceHash` | Telegram/SourceFiles/_other/packer.cpp:117-129 | The two cases of the last bytes, below 56 and from 56 on, are one hash of one padded message. |
| `Sha1.SplitJoin` | Telegram/SourceFiles/_other/packer.cpp:133-135 | The bytes of a word written big-endian give the word back. |
| `TraceReader.Reader.Run` | cmake/linux_allocation_tracer/linux_allocation_trace_reader.cpp:165-202 | For every byte stream and every split into reads the live map, counters, warnings and snapshots are those of parsing the stream whole; at most 28 bytes are carried, so there is always room to read. |
| `TraceReader.Reader.Turn` | cmake/linux_allocation_tracer/linux_allocation_trace_reader.cpp:182-202 | One turn of the loop, whatever was read: the state and the carried bytes are again what the parse of the bytes read so far leaves. |
| `TraceReader.Reader.ParseBuffer` | cmake/linux_allocation_tracer/linux_allocation_trace_reader.cpp:120-163 | One call consumes every whole entry from the start of the buffer and says how many bytes it used, or that it met garbage. |
| `TraceReader.Reader.ParseEntry` | cmake/linux_allocation_tracer/linux_allocation_trace_reader.cpp:140-160 | The entry found at a place of the buffer is replayed on the live map and the counters. |
| `Trace.ParseAppend` | cmake/linux_allocation_tracer/linux_allocation_trace_reader.cpp:120-163 | Parsing can stop anywhere: going on with the unused bytes before the new ones gives the parse of the whole. |
| `Trace.CarriedIsShort` | cmake/linux_allocation_tracer/linux_allocation_trace_reader.cpp:125-139 | What a parse leaves unused is shorter than the longest entry, 29 bytes. |
| `Trace.ReportBalanced` | cmake/linux_allocation_tracer/linux_allocation_trace_reader.cpp:69-118 | For every stream, live allocations + frees + repeated-entry warnings = mallocs + unknown reallocs. |
| `TraceMeaning.LiveExactlyWhen` | cmake/linux_allocation_tracer/linux_allocation_trace_reader.cpp:69-118 | For every list of entries, an address is live with an amount exactly when an entry brought a block of that size to it while none was there, or reallocated it in place to that size, and no later entry freed it, moved it away or reallocated it in place; repeated entries change nothing. |
| `TraceMeaning.CountersAre` | cmake/linux_allocation_tracer/linux_allocation_trace_reader.cpp:84-118 | The counters count the entries of each kind by whether their block was there, and the clock is the latest time. |
| `TraceMeaning.PrintedInOrder` | cmake/linux_allocation_tracer/linux_allocation_trace_reader.cpp:120-163 | What is printed, in order: the live amounts and unknown frees before the clock moves on, times that go back, and exactly the entries that bring a block to where one is. |
| `TraceMeaning.ReportIsReplay` | cmake/linux_allocation_tracer/linux_allocation_trace_reader.cpp:120-202 | Every stream is a list of written entries and an unreadable rest; the answer is the replay of exactly these entries and, if the rest is not empty, one complaint about it: the byte that is no command, or the length of the corrupt end. |
| `Trace.DecodeEncode` | Telegram/lib_base/base/platform/linux/base_linux_allocation_tracer.cpp:60-117 | An entry written by the tracer is decoded to itself, whatever follows it. |
| `Trace.ParseEncoded` | cmake/linux_allocation_tracer/linux_allocation_trace_reader.cpp:120-163 | Parsing a written trace replays exactly its entries and uses every byte. |
| `Trace.WrittenTraceReplays` | cmake/linux_allocation_tracer/linux_allocation_trace_reader.cpp:165-202 | Reading a written trace reports exactly the replay of its entries. |
| `Tracer.AllocationTracer.AppendEntry` | Telegram/lib_base/base/platform/linux/base_linux_allocation_tracer.cpp:48-57 | File and buffer together are the trace so far, one entry longer, however the blocks fall. |
| `Tracer.AllocationTracer.Log` | Telegram/lib_base/base/platform/linux/base_linux_allocation_tracer.cpp:60-117 | Each traced call appends its entry: a realloc of nothing is a malloc, a free of nothing is not traced. |
| `Tracer.AllocationTracer.Finish` | Telegram/lib_base/base/platform/linux/base_linux_allocation_tracer.cpp:163-174 | Then the file alone is the trace, and reading it replays the calls logged. |
| `Tracer.TraceIsHeap` | Telegram/lib_base/base/platform/linux/base_linux_allocation_tracer.cpp:60-117 | End to end, the trace of a program that keeps to the rules of the heap and was refused nothing is read back as exactly the blocks it still holds, with their sizes, and no block is reported repeated or unknown. |
| `Tracer.TraceIsHeapExactlyWhen` | Telegram/lib_base/base/platform/linux/base_linux_allocation_tracer.cpp:60-117 | With refused calls allowed, it is read back as the blocks of the program exactly when no call was refused: null is read as a block. |
| `MessageData.Conservation` | Telegram/SourceFiles/apiwrap.cpp:502-633 | In every run each registered callback is in exactly one place, once: waiting under its own id, collected, or called. |
| `MessageData.CalledByItsRequest` | Telegram/SourceFiles/apiwrap.cpp:603-633 | A callback is called only after a request that carried its id finished. |
| `MessageData.ReplyCollects` | Telegram/SourceFiles/apiwrap.cpp:603-627 | A finishing request collects exactly the callbacks that wait for the ids it carried, also those that joined after it was sent. |
| `MessageData.IdsOutOnce` | Telegram/SourceFiles/apiwrap.cpp:547-601 | No id is in two outstanding requests, and an id not sent yet has a resolve queued. |
| `MessageData.AskedIsKept` | Telegram/SourceFiles/apiwrap.cpp:502-516 | In every run whoever asks is kept under the id, behind those who asked before, an id not out yet waits for a queued resolve, and no other id is touched. |
| `MessageData.ResolveSendsAll` | Telegram/SourceFiles/apiwrap.cpp:547-601 | In every run the queued resolve has every id that was not out sent in a request of its scope, and touches no other id. |
| `MessageData.CalledInOrder` | Telegram/SourceFiles/apiwrap.cpp:603-633 | In every run a finished request calls its callbacks by increasing id, and those of one id in the order they asked. |
| `MessageData.ScopesAreTidy` | Telegram/SourceFiles/apiwrap.cpp:502-633 | In every run a channel is kept exactly as long as it has ids, and the scope without a channel always. |
| `MessageData.RunInv` | Telegram/SourceFiles/apiwrap.cpp:502-633 | The invariant of entries, callbacks and requests holds in every run, callbacks that ask for more included. |
| `MessageDataManager.Manager.RequestMessageData` | Telegram/SourceFiles/apiwrap.cpp:502-516 | The method is the step of the model: the callback joins its entry and an unsent entry queues a resolve. |
| `MessageDataManager.Manager.ResolveMessageDatas` | Telegram/SourceFiles/apiwrap.cpp:547-601 | Every scope is resolved once with a fresh request id, in any order. |
| `MessageDataManager.Manager.FinalizeMessageDataRequest` | Telegram/SourceFiles/apiwrap.cpp:603-633 | Entries are erased while iterating, their callbacks gathered and then called, each of which may re-enter. |
| `Dialogs.FailureIsSafe` | Telegram/SourceFiles/apiwrap.cpp:814-816 | In every run a list request that can fail still has its load state, so the unguarded access of the failure handler is safe. |
| `Dialogs.OneRequestEach` | Telegram/SourceFiles/apiwrap.cpp:752-824 | No list has two list requests or two pinned requests out, and a finished load has none. |
| `Dialogs.MainAnnouncedOnce` | Telegram/SourceFiles/apiwrap.cpp:912-929 | The main list is announced at most once, exactly when its load state is gone. |
| `Dialogs.AnnouncedOncePerLoad` | Telegram/SourceFiles/apiwrap.cpp:912-929 | A folder is announced once per load and only after both of its lists arrived in that load. |
| `Dialogs.BlockedMeansIdle` | Telegram/SourceFiles/apiwrap.cpp:826-836 | "Blocked by date" implies that the main list still loads and no list request of its is out. |
| `Dialogs.PinnedIsAsked` | Telegram/SourceFiles/apiwrap.cpp:818-824 | In every run a load with a list request out, or with its list received, has its pinned list received or exactly one pinned request out; with its list received it has the request out. |
| `Dialogs.LoadFinishes` | Telegram/SourceFiles/apiwrap.cpp:912-975 | So in every run a load whose list was received is announced when that pinned request is answered. |
| `Dialogs.RequestIsSent` | Telegram/SourceFiles/apiwrap.cpp:745-760 | In every run a list asked for is loading, and its request is out unless the list is received or stalled or loading waits for its date. |
| `Dialogs.AnswerTakes` | Telegram/SourceFiles/apiwrap.cpp:774-812 | In every run a whole list, or a slice with nothing to go on from, completes the list, which is announced exactly if the pinned dialogs are there; another slice moves the offset and "not modified" stalls the list. |
| `Dialogs.MainGoesOn` | Telegram/SourceFiles/apiwrap.cpp:838-858 | In every run, after an answer to the main list it is complete, asked for again, stalled or waiting for its date, and once it is complete a needed archive goes on, unless exceptions of the filters are loaded first. |
| `Dialogs.OldSliceWaits` | Telegram/SourceFiles/apiwrap.cpp:826-836 | In every run a slice that reaches back to the date to load till leaves the loading blocked with nothing out, and any other slice has the next one asked for. |
| `Dialogs.MoreBlockedIsSent` | Telegram/SourceFiles/apiwrap.cpp:826-836 | In every run, asked to load more up to a date, the main list goes on or still waits for that date. |
| `Dialogs.AskedIfNeeded` | Telegram/SourceFiles/apiwrap.cpp:838-858 | In every run nothing is asked for while exceptions of the filters come first; otherwise the main list goes on, or a needed archive once it is complete, unless loading waits for its date. |
| `Dialogs.FailedIsIdle` | Telegram/SourceFiles/apiwrap.cpp:814-816 | In every run a failed list request leaves its load as it was, with nothing out and free to be asked for again. |
| `Dialogs.StallsExactlyWhen` | Telegram/SourceFiles/apiwrap.cpp:777-795 | In every run a list not yet received holds a request id with nothing in flight exactly when one of its requests was answered "not modified". |
| `Dialogs.StalledForever` | Telegram/SourceFiles/apiwrap.cpp:752-760 | Then no continuation of the run completes, announces or asks for that list again. |
| `Dialogs.StallCanHappen` | Telegram/SourceFiles/apiwrap.cpp:777-795 | A run that stalls the main list. |
| `Dialogs.Loader.AskedOutside` | Telegram/SourceFiles/apiwrap.cpp:838-855 | Asking for pinned dialogs, or for more if needed, from any other part of the session is a step of the model. |
| `Dialogs.RunInv` | Telegram/SourceFiles/apiwrap.cpp:745-975 | Every interleaving of list and pinned replies, failures and requests keeps the invariant of all lists. |
| `Dialogs.Loader.RequestMoreDialogs` | Telegram/SourceFiles/apiwrap.cpp:752-824 | The guards and the two requests are the step of the model. |
| `Dialogs.Loader.ListReceived` | Telegram/SourceFiles/apiwrap.cpp:777-813 | A list reply of each kind is the step of the model, with the loads that follow it. |
| `Dialogs.Loader.ListRequestFailed` | Telegram/SourceFiles/apiwrap.cpp:814-816 | The failure is the step of the model. |
| `Dialogs.Loader.PinnedFinalize` | Telegram/SourceFiles/apiwrap.cpp:937-961 | The end of a pinned request, answered or failed, is the step of the model. |
| `Dialogs.Loader.Handle` | Telegram/SourceFiles/apiwrap.cpp:745-975 | Any enabled event handled by the object is the step of the model and keeps the invariant, so the theorems about runs are about the object. |
| `Stickers.Reconciled` | Telegram/SourceFiles/apiwrap.cpp:1494-1630 | After saving, the stored order is the given one restricted to the sets that survive; a set of this kind that is not archived is installed exactly if it is in the order; every survivor carries a keeping flag; unmentioned sets of the other kind or archived are as before. |
| `Stickers.SurvivesExactlyWhen` | Telegram/SourceFiles/apiwrap.cpp:1494-1630 | Exactly which sets are left after saving, and with which flags, said of the flags before, the order and the removed ids. |
| `Stickers.ClearingDropsThree` | Telegram/SourceFiles/apiwrap.cpp:1496-1529 | Removing either cloud-recent set takes both away and the custom set, whatever their flags and the new order. |
| `Stickers.CustomIsDropped` | Telegram/SourceFiles/apiwrap.cpp:1504-1506 | A custom set in the new order goes when the attached recent set is removed, with no request to uninstall it, and stays otherwise. |
| `Stickers.Store.SaveStickerSets` | Telegram/SourceFiles/apiwrap.cpp:1494-1630 | The four loops over sets and orders, run in place, have that result; installs asked for are exactly the archived sets brought back, uninstalls exactly the removed ones there and not archived when their turn comes. |
| `Stickers.AskedAre` | Telegram/SourceFiles/apiwrap.cpp:1495-1573 | The sets asked to be uninstalled are exactly the removed ones there and not archived; the custom set only if it is removed before a recent set that takes it away. |
| `Stickers.AskedInOrder` | Telegram/SourceFiles/apiwrap.cpp:1495-1573 | They are asked for at exactly the places of the list of removed ids at which the set is still there and not archived, in that order. |
| `Stickers.ExistingAre` | Telegram/SourceFiles/apiwrap.cpp:1584-1618 | The stored order is the given one at exactly the places that name a set. |
| `StickersReorder.ReorderedOnce` | Telegram/SourceFiles/apiwrap.cpp:1438-1466 | In every run of overlapping calls the reorder request goes out at most once a call, for later and later calls. |
| `StickersReorder.ReorderedAfterReplies` | Telegram/SourceFiles/apiwrap.cpp:1468-1476 | It goes out only when every install and uninstall request of its call was answered. |
| `StickersReorder.LatestIsReordered` | Telegram/SourceFiles/apiwrap.cpp:1660-1664 | The latest call has sent it exactly when nothing of its is outstanding and there are two sets to order. |
| `StickersReorder.OvertakenNeverReorders` | Telegram/SourceFiles/apiwrap.cpp:1431-1436 | A call overtaken by a later one before it reordered does not reorder in any continuation of the run. |
| `StickersReorder.Saver.Save` | Telegram/SourceFiles/apiwrap.cpp:1431-1436 | Cancelling what is out and sending anew is the step of the model. |
| `StickersReorder.Saver.Handle` | Telegram/SourceFiles/apiwrap.cpp:1438-1476 | Any enabled event handled by the object is the step of the model and keeps the invariant. |
| `InviteLinks.PermanentIsFirst` | Telegram/SourceFiles/api/api_invite_links.cpp:141-153 | Over every run against a consistent server an active permanent link is cached only as the first of its links, and is unique. |
| `InviteLinks.RunInv` | Telegram/SourceFiles/api/api_invite_links.cpp:174-217 | Every event kind, in every order, keeps it. |
| `InviteLinks.NextInv` | Telegram/SourceFiles/api/api_invite_links.cpp:281-321 | Each single event keeps it. |
| `InviteLinks.EditedFront` | Telegram/SourceFiles/api/api_invite_links.cpp:281-321 | An edit reply keeps it exactly unless it makes a link behind the first an active permanent one. |
| `InviteLinks.ReplacedFront` | Telegram/SourceFiles/api/api_invite_links.cpp:524-540 | An external update keeps it exactly unless it says so of a link cached behind the first. |
| `InviteLinks.BroughtToFrontIs` | Telegram/SourceFiles/api/api_invite_links.cpp:28-36 | Bringing to the front keeps the links and leaves at most the first active exactly when the server sent at most one active permanent link. |
| `InviteLinks.ReloadedFront` | Telegram/SourceFiles/api/api_invite_links.cpp:428-453 | A reload keeps it, whether or not a permanent link was cached. |
| `InviteLinks.BringPermanentToFront` | Telegram/SourceFiles/api/api_invite_links.cpp:28-36 | The search and rotation are the function the lemmas are about. |
| `InviteLinks.RemovePermanent` | Telegram/SourceFiles/api/api_invite_links.cpp:38-43 | Exactly the links that are not active permanent ones stay, in order. |
| `InviteLinks.Cached.PrependMyToFirstSlice` | Telegram/SourceFiles/api/api_invite_links.cpp:174-217 | Insertion behind or instead of the permanent link is the step of the model. |
| `InviteLinksSteps.CreatedIsCached` | Telegram/SourceFiles/api/api_invite_links.cpp:174-217 | A created link is cached, directly behind a cached active permanent link if it is an ordinary one, else in front, where it takes the place of the permanent link it replaces; the others keep their order; the count grows by one, or stays if a link of a positive count is replaced. |
| `InviteLinksSteps.EditTakes` | Telegram/SourceFiles/api/api_invite_links.cpp:281-321 | The answer to an edit is for the first cached link with that text: newly revoked it leaves the cache and the count shrinks, otherwise its data is the new one; all others stay where they are. |
| `InviteLinksSteps.RevokedIsGone` | Telegram/SourceFiles/api/api_invite_links.cpp:281-321 | After a link is revoked no link with its text is cached, where texts are unique, whatever replaces it. |
| `InviteLinksSteps.ExternalReplaces` | Telegram/SourceFiles/api/api_invite_links.cpp:524-540 | Every cached link with the text of an external update is the updated one and nothing else changes. |
| `InviteLinksSteps.FirstLoadCaches` | Telegram/SourceFiles/api/api_invite_links.cpp:428-453 | A first load caches what came, with the first active permanent link moved to the front and the others in order. |
| `InviteLinksSteps.LaterLoadCaches` | Telegram/SourceFiles/api/api_invite_links.cpp:428-453 | A later load keeps the cached permanent link and puts behind it exactly the links that came which are not active permanent and not that one, in order; the count is the greater of the sent one and the length. |
| `InviteLinksSteps.PermanentIsSet` | Telegram/SourceFiles/api/api_invite_links.cpp:622-678 | A permanent link told from outside is first: put in front, in the place of another one, or only with its usage renewed if it is the same. |
| `InviteLinksSteps.CountStaysRightExactlyWhen` | Telegram/SourceFiles/api/api_invite_links.cpp:622-678 | After a permanent link was told from outside, a count that was the number of cached links still is exactly when it is the link that was first already. |
| `InviteLinks.Cached.EditReply` | Telegram/SourceFiles/api/api_invite_links.cpp:281-321 | The in-place replacement or erasure and the prepended replacement are the step of the model. |
| `InviteLinks.Cached.LinksReply` | Telegram/SourceFiles/api/api_invite_links.cpp:428-453 | The reload is the step of the model. |
| `InviteLinks.Cached.ApplyExternalUpdate` | Telegram/SourceFiles/api/api_invite_links.cpp:524-540 | The replacement in place is the step of the model. |
| `InviteLinks.Cached.SetMyPermanent` | Telegram/SourceFiles/api/api_invite_links.cpp:622-678 | The new permanent link becomes the first one. |
| `InviteLinks.Cached.ClearMyPermanent` | Telegram/SourceFiles/api/api_invite_links.cpp:680-709 | The first link is dropped if it is an active permanent one. |
| `InviteLinks.Cached.Handle` | Telegram/SourceFiles/api/api_invite_links.cpp:174-709 | Any event of a consistent server handled by the object is the step of the model and keeps the permanent link in front. |
| `ListHash.MixIsBijective` | Telegram/SourceFiles/api/api_hash.h:34-37 | The three shift-and-xor assignments together have an inverse on both sides on all 64-bit words. |
| `ListHash.UpdateIsBijective` | Telegram/SourceFiles/api/api_hash.h:34-39 | With a fixed value HashUpdate is a bijection of 64-bit words, the inverse being given. |
| `ListHash.UpdateIsInjective` | Telegram/SourceFiles/api/api_hash.h:34-51 | It gives equal hashes exactly for equal hashes before, and with one hash before exactly for values equal as 64-bit words. |
| `ListHash.HashUpdate` | Telegram/SourceFiles/api/api_hash.h:34-51 | The four assignments, for a value of any of the integer types. |
| `ListHash.UpdateDigits` | Telegram/SourceFiles/api/api_hash.h:34-39 | Digit by digit, the hash is folded 21 places down, 35 up and 4 down, exactly one word being left by this, and the value is added modulo 2^64. |
| `ListHash.CountHash` | Telegram/SourceFiles/api/api_hash.h:57-64 | The loop is the left fold of the update over the list. |
| `ListHash.HashSensitivity` | Telegram/SourceFiles/api/api_hash.h:57-64 | Two lists of equal length that agree as 64-bit words everywhere but at one place have equal hashes exactly when they agree there too. |
| `ListHash.TwoChangesCanCollide` | Telegram/SourceFiles/api/api_hash.h:57-64 | One difference is the most that can be promised: whatever two lists were hashed, exactly one further word at the end of the second makes the hashes equal. |
| `WebPages.RunInv` | Telegram/SourceFiles/apiwrap.cpp:2200-2296 | In every run no negative placeholder is left between steps, each page is pending once, an assigned page holds a request that was really sent, and with the timer idle only pages wait that were due and had no item when the last pass ran. |
| `WebPages.StepInv` | Telegram/SourceFiles/apiwrap.cpp:2200-2296 | Each step, of any kind, keeps this. |
| `WebPages.PassAssignsOwnRequest` | Telegram/SourceFiles/apiwrap.cpp:2230-2291 | A page newly assigned by a pass holds exactly the one new request sent to its own channel, or to none, and its message is in that request. |
| `WebPages.PassKeepsOthers` | Telegram/SourceFiles/apiwrap.cpp:2230-2253 | Pages that are assigned, not due or without an item are not touched by a pass. |
| `WebPages.DuePageIsAsked` | Telegram/SourceFiles/apiwrap.cpp:2229-2291 | A pass gives every page that is due, waits and has an item a new request of the channel of its item with its message in it. |
| `WebPages.SentAre` | Telegram/SourceFiles/apiwrap.cpp:2229-2279 | A new request carries the messages of exactly the pages that are due and ask in its channel, in their order. |
| `WebPages.PassTimer` | Telegram/SourceFiles/apiwrap.cpp:2229-2291 | After a pass the timer is set for exactly the least wait of a page not due, and off exactly when no page waits. |
| `WebPages.RequestedWaits` | Telegram/SourceFiles/apiwrap.cpp:2200-2207 | A page with a time asked for waits with no request, and the timer fires no later than one millisecond after it becomes due, earlier only if it was to fire earlier. |
| `WebPages.RepliedIsOver` | Telegram/SourceFiles/apiwrap.cpp:2482-2497 | An answer ends the wait of exactly the pages that held its request and takes them out. |
| `WebPages.UnattendedExactlyWhen` | Telegram/SourceFiles/apiwrap.cpp:2221-2296 | In every run a page waits with no timer exactly when some pass left it so and since then nothing asked for a page and nobody cleared it. |
| `WebPages.PassLeavesExactlyWhen` | Telegram/SourceFiles/apiwrap.cpp:2229-2257 | A pass leaves a page waiting with no timer exactly when the page is due without an item and no page has still to become due. |
| `WebPages.UnattendedCanHappen` | Telegram/SourceFiles/apiwrap.cpp:2200-2207 | A run that leaves a page so. |
| `WebPages.DeadRequestExactlyWhen` | Telegram/SourceFiles/apiwrap.cpp:2258-2279 | In every run a page holds a request that is no longer out exactly when that request has failed. |
| `WebPages.DeadRequestCanHappen` | Telegram/SourceFiles/apiwrap.cpp:2258-2279 | A run that leaves a page with a failed request. |
| `WebPages.FailedStaysAssigned` | Telegram/SourceFiles/apiwrap.cpp:2258-2279 | There is no failure handler: a page whose request failed keeps it until it is asked for again or cleared. |
| `WebPagesManager.Manager.ResolveWebPages` | Telegram/SourceFiles/apiwrap.cpp:2221-2296 | The three loops with placeholders send one request per channel with exactly its messages, assign each asking page its own, and set the timer to the least remaining wait. |
| `WebPagesManager.Manager.Collect` | Telegram/SourceFiles/apiwrap.cpp:2229-2257 | The first loop collects the messages of each channel in order, gives each channel its index and marks the pages, and finds the least wait. |
| `WebPagesManager.Manager.Send` | Telegram/SourceFiles/apiwrap.cpp:2259-2279 | One request with a fresh id for every channel with messages, at its index, in any order of the channels. |
| `WebPagesManager.Manager.RequestWebPageDelayed` | Telegram/SourceFiles/apiwrap.cpp:2200-2207 | The page waits again whatever it held, and the timer moves only to be earlier or is started. |
| `WebPagesManager.Manager.ClearWebPageRequest` | Telegram/SourceFiles/apiwrap.cpp:2209-2214 | Exactly that page goes, and the timer with the last one. |
| `WebPagesManager.Manager.GotWebPages` | Telegram/SourceFiles/apiwrap.cpp:2482-2497 | A reply removes exactly the pages that hold its request and ends their wait. |
| `WebPagesManager.Manager.Handle` | Telegram/SourceFiles/apiwrap.cpp:2200-2296 | Any enabled event handled by the object, the failure of a request included, is a step of the model and keeps the invariant. |
| `Privacy.RulesToTL` | Telegram/SourceFiles/api/api_user_privacy.cpp:27-91 | The rule as the server receives it, with no empty list. |
| `Privacy.TLToRules` | Telegram/SourceFiles/api/api_user_privacy.cpp:93-171 | The loops with their membership tests give every peer the side of its first mention, and the first option, or Nobody. |
| `Privacy.FromWireIsClean` | Telegram/SourceFiles/api/api_user_privacy.cpp:93-171 | Whatever the server sends, no peer is twice in a list or in both lists. |
| `Privacy.FirstMentionWins` | Telegram/SourceFiles/api/api_user_privacy.cpp:107-165 | A peer is in the list of its first mention and not in the other. |
| `Privacy.SidesAre` | Telegram/SourceFiles/api/api_user_privacy.cpp:107-165 | A peer is on a side exactly when the first rule that names it, a user by id or a loaded chat, else channel, by bare id, is of that side. |
| `Privacy.FirstOptionWins` | Telegram/SourceFiles/api/api_user_privacy.cpp:97-169 | The option is that of the first rule that is one, and Nobody if there is none. |
| `Privacy.RoundTrip` | Telegram/SourceFiles/api/api_user_privacy.cpp:27-171 | There and back gives the normal form, for every rule and whatever is loaded: users before chats as their bare ids resolve, each once, "always" before "never", ignored lists empty. |
| `Privacy.ListedExactlyWhen` | Telegram/SourceFiles/api/api_user_privacy.cpp:27-91 | An id is sent in the list of users, or of chats, of a side exactly when a peer of that kind with it is on that side of the rule and the side is not ignored. |
| `Privacy.NoEmptyList` | Telegram/SourceFiles/api/api_user_privacy.cpp:57-91 | No list is sent empty, and the option comes last and only there. |
| `Privacy.UnchangedExactlyWhen` | Telegram/SourceFiles/api/api_user_privacy.cpp:27-171 | A rule comes back unchanged exactly when it is in normal form and each of its chats is loaded and its bare id means no other. |
| `Privacy.NormalFormsAreFixed` | Telegram/SourceFiles/api/api_user_privacy.cpp:27-171 | What comes back from any rule is in normal form and comes back unchanged. |
| `Views.RunInv` | Telegram/SourceFiles/api/api_views.cpp:32-135 | In every run an idle timer means that every waiting peer has its in-flight entry, entries are distinct, and no message is sent more often than it was queued. |
| `Views.StepInv` | Telegram/SourceFiles/api/api_views.cpp:32-135 | Each step keeps this. |
| `Views.OneRequestPerPeer` | Telegram/SourceFiles/api/api_views.cpp:55-82 | In every run no two requests in flight are for one peer. |
| `Views.QueuedOnceBetweenRemovals` | Telegram/SourceFiles/api/api_views.cpp:32-53 | Between two queueings of one message the marks of its peer were removed. |
| `Views.ViewedIsSentOrWaits` | Telegram/SourceFiles/api/api_views.cpp:32-82 | In every run a message that was scheduled has been sent, or waits with its peer being asked or the timer running. |
| `Views.FiredSends` | Telegram/SourceFiles/api/api_views.cpp:55-82 | When the timer fires, everything that waits for a peer with no request out goes out in one request, and the others keep waiting. |
| `Views.AnswerFrees` | Telegram/SourceFiles/api/api_views.cpp:84-135 | An answer with a count for each message, or a failure, lets exactly its peer be asked again and starts the timer for what waits. |
| `Views.DeadExactlyWhen` | Telegram/SourceFiles/api/api_views.cpp:84-123 | A peer's entry is dead exactly when its request was answered with the wrong number of counts. |
| `Views.StuckForever` | Telegram/SourceFiles/api/api_views.cpp:55-123 | Then it stays so in every continuation: the messages of that peer wait for ever and none is counted again. |
| `Views.StuckCanHappen` | Telegram/SourceFiles/api/api_views.cpp:84-123 | A run that gets a peer stuck. |
| `ViewsManager.Manager.ScheduleIncrement` | Telegram/SourceFiles/api/api_views.cpp:32-49 | Marking, queueing and starting the timer are the step of the model. |
| `ViewsManager.Manager.ViewsIncrement` | Telegram/SourceFiles/api/api_views.cpp:55-82 | The erasing loop sends one request for every waiting peer without an entry, with all its ids, in any order, and keeps the others waiting. |
| `ViewsManager.Manager.Done` | Telegram/SourceFiles/api/api_views.cpp:84-123 | Only a reply of the right length frees the peer, and waiting messages start the timer. |
| `ViewsManager.Manager.Fail` | Telegram/SourceFiles/api/api_views.cpp:125-135 | A failure frees the peer and starts the timer for waiting messages. |
| `ViewsManager.Manager.Handle` | Telegram/SourceFiles/api/api_views.cpp:26-135 | Any enabled event handled by the object is a step of the model and keeps the invariant, so the theorems about runs are about the object. |
| `Forwarding.Forwarder.ForwardMessages` | Telegram/SourceFiles/apiwrap.cpp:3063-3147 | The requests are exactly the maximal runs with one source peer: none empty, ids and random ids aligned, joined back the items in order; the shared counter is their number. |
| `Forwarding.RunsAreUnique` | Telegram/SourceFiles/apiwrap.cpp:3139-3147 | The split into maximal runs is unique. |
| `Forwarding.CalledInEveryRun` | Telegram/SourceFiles/apiwrap.cpp:3018-3088 | Over every sequence of successes and failures, each request answered at most once, the success callback is called at most once, and once exactly if every request has succeeded. |
| `Forwarding.CalledExactlyWhen` | Telegram/SourceFiles/apiwrap.cpp:3018-3088 | The same of the object at any moment after its requests went out. |
| `Forwarding.Forwarder.Done` | Telegram/SourceFiles/apiwrap.cpp:3083-3088 | A success counts down and the last one calls the callback. |
| `InviteChunks.Add` | Telegram/SourceFiles/api/api_chat_participants.cpp:462-515 | A chat gets one request a user, each with the callback; a channel refuses exactly if it is no megagroup and a bot is among the users, and else gets the chunks. |
| `InviteChunks.InviteToChannel` | Telegram/SourceFiles/api/api_chat_participants.cpp:486-511 | The loop cuts the users into chunks of 100 and a remainder. |
| `InviteChunks.ChunksArePartition` | Telegram/SourceFiles/api/api_chat_participants.cpp:486-511 | Every user is invited once and in order, every request but the last is full and none is empty, and the callback hears of the first request only. |
| `InviteChunks.ChunksAreUnique` | Telegram/SourceFiles/api/api_chat_participants.cpp:486-511 | Any list of requests with these properties is this one. |
| `MegagroupAdmins.Info.ApplyMegagroupAdmins` | Telegram/SourceFiles/api/api_chat_participants.cpp:50-89 | The creator is the first one of the list if that is a user, else the one known before; the admins are the listed users and the creator, or user 0 when there was nobody and is nobody; those known before keep their ranks; the changes are exactly who came and who went. |
| `MegagroupAdmins.AdminsAreRightExactlyWhen` | Telegram/SourceFiles/api/api_chat_participants.cpp:61-88 | The admins are the listed users and the creator exactly when no admin that stays got another rank and there was not nobody before and nobody now. |
| `MegagroupAdmins.ListedAre` | Telegram/SourceFiles/api/api_chat_participants.cpp:61-66 | Listed are exactly the users of the list, each with the first rank it is given. |
| `MegagroupAdmins.ChangesAre` | Telegram/SourceFiles/api/api_chat_participants.cpp:80-88 | Reported as changed is exactly who was an admin and is none now, or the other way round. |
| `MegagroupAdmins.CreatorIsFirst` | Telegram/SourceFiles/api/api_chat_participants.cpp:53-59 | The creator is that of the first entry that says so, if the user is loaded, with its rank; an entry that is no user leaves the one known before, and without one there is none. |
| `MegagroupAdmins.AdminsAreListedExactlyWhen` | Telegram/SourceFiles/api/api_chat_participants.cpp:50-89 | They are exactly the users the server listed, with its ranks, exactly when besides that no creator that is no user has left in place one known before whom the list does not have. |
| `MegagroupAdmins.PlaceholderIsMade` | Telegram/SourceFiles/api/api_chat_participants.cpp:72-78 | With no admin known and none sent, user 0 becomes an admin. |
| `MegagroupAdmins.OldCreatorStays` | Telegram/SourceFiles/api/api_chat_participants.cpp:53-71 | A creator known before stays an admin when the list says that the creator is no user. |
| `MegagroupAdmins.NewRankIsLost` | Telegram/SourceFiles/api/api_chat_participants.cpp:81-85 | An admin already known who got another rank keeps the old one. |

## Left out

- Widgets, windows, the tray, real networking and Qt containers: requests are history in the state, replies, failures and timers are events.
- The payload of single updates: an update is its kind and its effects on the protocol (ask for a difference, start a pts timer, too-long channel).
- The pts waiter of `data/data_pts_waiter.cpp` is reduced to those effects and to whether a short message is applied at once.
- One clock value serves the handling of one event, and a request counts as in flight until its reply has been handled.
- Sequence numbers are non-negative, waits in milliseconds are unbounded integers, and counters do not wrap; the 32-bit product of the web-page wait is not wrapped either.
- `checkLastUpdate`, online status, range differences and typing notifications of the updates manager.
- Sha1.HashSha1: lengths from 2^32 - 64 bytes on are not modelled, because there the block counter of the source wraps and the loop does not end.
- Compression, signing and file walking in the packer.
- The printed text of the trace reader: a snapshot holds the live map whose sum is printed.
- The allocator hooks and the lock of the tracer; only the entries they append are modelled.
- Dialogs.Loader.ListReceived: the date of the last dialog of a slice, which `updateDialogsOffset` computes, is given with the reply.
- Recent stickers, faved stickers and what is written to disk when sticker sets are saved.
- Invite links: callbacks, joined users, and the requests that follow a new permanent link.
- WebPagesManager.Manager.Insert: the place of a new key is any place, where the source has the order of addresses.
- ListHash.HashUpdate: the conversion of the four integer types to a word is the residue modulo 2^64.
- Saving and reloading of privacy values and the translation of keys, which would add easy members.
- What a view reply says about forwards and replies of a message.
- Forwarding.Forwarder.Done: each request is answered once, after all of them were sent; local copies of forwarded messages are not modelled.
- File-reference coalescing in `requestFileReference`, a simpler form of message-data coalescing.
- Chat migration, message search, cloud password, settings and platform helpers.
