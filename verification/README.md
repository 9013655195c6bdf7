# Proofs about the model toolkit

This project models the parts of the TypeScript toolkit whose guarantees span loops, mutable state
and whole runs, and proves those guarantees. `dafny verify dfyconfig.toml` checks all of it.

| file | what it models |
|---|---|
| `Sse.dfy`, `SseRoundTrip.dfy` | the incremental Server-Sent Events parser (sections 9.2.5 and 9.2.6 of the WHATWG HTML Living Standard), and events written down and parsed back |
| `Crc32.dfy`, `Zip.dfy`, `Media.dfy` | the STORE-mode ZIP writer, its CRC-32, a reader to read it back (sections 4.3.7, 4.3.12, 4.3.16 and 4.4.7 of PKWARE's APPNOTE), and the media files it holds |
| `RequestQueue.dfy`, `TokenBucket.dfy`, `Semaphore.dfy`, `Retry.dfy` | the classes of the network queue and its retry decisions |
| `QueueSystem.dfy`, `Attempt.dfy` | one queue as a step system (submit, dequeue, acquire, attempt, retry timer, stream), and one attempt with every await that may throw |
| `AgentLoop.dfy`, `Pairing.dfy`, `History.dfy`, `StreamAccum.dfy`, `Approvals.dfy`, `Fallback.dfy` | an agent's runs, its history, streamed tool calls, approvals and backup models |
| `AgentBus.dfy`, `BusTable.dfy` | the event bus, as a machine with suspended handlers and as a recursive interpreter, and its tables of subscribers |
| `Catalog.dfy`, `ServerState.dfy`, `Shape.dfy` | the model catalog's index, continuing a conversation the server keeps, derived response shapes |

Classes and loops of the source are classes and loops here, each proved against a specification
function; the laws are lemmas about those functions. Arrays that the source grows are `seq` fields.
Time, random numbers, answers of servers, models and tools, and the moment a consumer leaves are
parameters, so every statement holds for all of them. A run is given as a script of such answers;
`Complete` and `Stream` ask for a script as long as the bound proved for the run, so that it never ends early.
JavaScript numbers are exact integers or reals, except in the ZIP fields and the CRC, which wrap.

## Where the code differs from what it says

Each of these is a lemma with a concrete input or an exact condition.

- An empty decoded chunk between CR and LF splits an event (`Sse.EmptyChunkSplitsAnEvent`; `LinesIndependentOfChunks` says exactly when).
- Entries that tie are not served first in, first out (`RequestQueue.TiesAreNotFifo`; `FifoIff`).
- `waitTimeMs` does not count a pause (`TokenBucket.WaitIgnoresPause`, `WaitSuffices`), and a refused request has been charged (`RefusalStillPays`, `DailyBucketPays`; `RefusalIsFreeIff`); a shorter pause ends a longer one (`ShorterPauseCutsIn`).
- A stream that throws between acquiring its slot and its `try` never gives the slot back (`QueueSystem.LeakStrandsARequest`; `StrandsIff` says exactly when that strands a request).
- A retry hook that throws makes the attempt release its slot again (`Attempt.ReleasedThreeTimes`; `ReleasedOnceIff`).
- A non-successful answer below 400 is re-sent although its error says not to (`Retry.RedirectIsResent`), and a stateful request is retried while a stream connects (`ReconnectVersusRetry`).
- The failure streak of reflect-and-retry is never reset between runs (`AgentLoop.FullBudgetOnlyWithoutStreak`); a setup that throws leaves the agent running for ever (`SetupThrowIsForever`, `StillRunningIff`); a caller's own answer to an interrupted call makes two (`Pairing.AnsweredTwice`); an open call that reuses an answered id is not repaired (`Pairing.ReusedIdStaysOpen`; `BegunFollowed` says exactly when every call is followed by its result); calls are counted but not reported when a consumer leaves at a `tool_call_end` (`Accounts`).
- Truncation can leave a result without its call (`History.OrphanLeftBehind`, `ReusedIdLeftBehind`; `TruncateCleanIff` says exactly when it cannot).
- A gate that reaches no decision, for a mismatch or because something failed, leaves its record pending (`Approvals.RecordStaysIff`, `DecidedIff`); a decision fed back while the approver is awaited outlives that gate (`FedWhileAsking`).
- A handler that throws null or undefined skips its siblings (`AgentBus.NullishSkipsSiblings`; `SkipsOnlyAfterNullish` says exactly when).
- A streamed turn on a stateful API is stamped with an id the server does not know (`ServerState.AfterStreamedTurn`), and a turn on an API without server state drops the id it was trimmed for (`StatelessApiLosesContext`; `WholeHistoryIff`).
- An archive whose counts, sizes or offsets do not fit their fields is written without complaint (`Zip.RoundTripIff`).
- Nested provider names, such as "a" and "a/b", share keys (`Catalog.KeptApartIff`).
- A document named like a media file takes its place in the archive (`Media.LinksLeadHome`).
- The limit on collected paths does not bound one object (`Shape.FlatMapIsUnbounded`); the first recorded sample enlarges `expected` (`OneMoreSample`); two findings can share a key (`SharedKeys` says exactly when).


## Model

| member | source | states |
|---|---|---|
| `Sse.LineDecoder.Push` | src/network/sse.ts:31-61 | the lines pushed so far are the lines of the whole text fed so far (split once at CRLF, LF or CR), an empty chunk forgets a trailing CR, and all pushes together examine no more characters than were fed |
| `Sse.LineDecoder.Flush` | src/network/sse.ts:63-68 | the tail handed out at the end is exactly the unterminated rest of the text |
| `Sse.LineDecoder.BufferIsOpen` | src/network/sse.ts:56-59 | between pushes the buffer holds no terminator |
| `Sse.Absorb` | src/network/sse.ts:41-58 | splitting a text piece by piece never changes a line already split off: only the unterminated rest is joined with the next non-empty piece |
| `Sse.LinesIndependentOfChunks` | src/network/sse.ts:22-70 | for every division into chunks, the lines and the flushed tail equal those of the text split once, if and only if no empty chunk stands between a CR and its LF |
| `Sse.EventsIndependentOfChunks` | src/network/sse.ts:121-143 | any two divisions of one text in which no empty chunk parts a CR from its LF, so any two into non-empty chunks, yield the same events, those of the text read whole |
| `Sse.EmptyChunkSplitsAnEvent` | src/network/sse.ts:33-36 | a concrete stream in which an empty decoded chunk turns one event into two |
| `Sse.ExtraBlankLine` | src/network/sse.ts:84-118 | a blank line put in between changes the events if and only if the block it falls in is worth something else cut in two there than whole |
| `Sse.OneBreakHarmlessIff` | src/network/sse.ts:33-36 | a stream with one broken CRLF decodes to the text's lines with one blank line more, and exactly when that leaves its events as they were |
| `Sse.EventAccumulator.Push` | src/network/sse.ts:85-101 | a blank line delivers the event of the lines since the last blank one, read as a block, and any other line only joins the block |
| `Sse.EventAccumulator.Dispatch` | src/network/sse.ts:103-118 | the block read so far is delivered, or dropped without data or when its data is [DONE], and the accumulator starts afresh |
| `Sse.EventsLineByLine` | src/network/sse.ts:84-111 | collecting line by line delivers the events of the list cut into blocks at its blank lines, the final unterminated block included |
| `Sse.FeedLines` | src/network/sse.ts:131-134 | feeding more lines yields exactly the events those lines complete |
| `Sse.ParseSSEStream` | src/network/sse.ts:121-143 | what the driver yields for a stream of chunks is the event list of its decoded lines |
| `SseRoundTrip.RoundTrip` | src/network/sse.ts:13-143 | whatever events are sent, with any of the three line ends and however the text is cut, short of an empty chunk inside a CRLF, exactly they arrive, in order, their data unchanged, leading spaces and line breaks included; only [DONE] does not |
| `SseRoundTrip.ValueReadsBack` | src/network/sse.ts:72-76 | a field written with or without a space after its colon reads back as the very value, of which no leading space is lost |
| `SseRoundTrip.OneMoreField` | src/network/sse.ts:91-99 | in a block the last event line and the last id line count, and each data line adds one more line to the data |
| `SseRoundTrip.OtherLinesIgnored` | src/network/sse.ts:86-100 | a comment or a field of any other name adds nothing, wherever in its block it stands |
| `SseRoundTrip.TrimCuts` | src/network/sse.ts:91-94 | trimming an event name or an id cuts white space off both ends, all of it and nothing else |
| `SseRoundTrip.TrimmedCharacters` | src/network/sse.ts:91-94 | exactly which code points count as white space there |
| `Crc32.BuildTable` | src/helpers/conversation-zip.ts:166-174 | entry n of the table is n after eight division steps by the reflected polynomial 0xEDB88320 |
| `Crc32.StepLinear` | src/helpers/conversation-zip.ts:170 | a division step distributes over exclusive or |
| `Crc32.SplitLowByte` | src/helpers/conversation-zip.ts:178 | eight steps of a register are the table entry of its low byte, xored with the rest shifted down |
| `Crc32.TableStep` | src/helpers/conversation-zip.ts:178 | one byte looked up in the table has the effect of shifting its eight bits in, least significant first |
| `Crc32.Crc32` | src/helpers/conversation-zip.ts:176-180 | the table-driven loop computes the bit-serial CRC-32 (section 8 of RFC 1952) of every byte sequence |
| `Crc32.KnownAnswer` | src/helpers/conversation-zip.ts:166-180 | the CRC-32 of the letter "a" is the published one, and that of nothing is zero |
| `Zip.WriteLocal` | src/helpers/conversation-zip.ts:199-212 | the buffer written field by field is the local file header of section 4.3.7 of APPNOTE |
| `Zip.WriteCentral` | src/helpers/conversation-zip.ts:215-234 | the buffer written field by field is the central directory header of section 4.3.12 |
| `Zip.WriteEnd` | src/helpers/conversation-zip.ts:247-257 | the buffer written field by field is the end record of section 4.3.16 |
| `Zip.Assemble` | src/helpers/conversation-zip.ts:259-266 | the chunks are laid out one after the other without gap or overlap |
| `Zip.BuildZip` | src/helpers/conversation-zip.ts:188-267 | the archive is the local parts, the central records with running offsets, then the end record |
| `Zip.PartsInPlace` | src/helpers/conversation-zip.ts:233-237 | the offset in each central record lands on the local header of the same entry, with the same name, size and CRC |
| `Zip.RoundTrip` | src/helpers/conversation-zip.ts:188-267 | a reader starting from the end record recovers exactly the entries, in order, whenever counts, sizes and offsets fit their fields |
| `Zip.RoundTripNeedsFields` | src/helpers/conversation-zip.ts:195-253 | no archive at all is read back as entries whose count, names or sizes exceed their fields |
| `Zip.RoundTripIff` | src/helpers/conversation-zip.ts:188-267 | for any entry list the round trip succeeds if and only if every count, size and offset fits its field |
| `Zip.KnownArchive` | src/helpers/conversation-zip.ts:188-267 | the archive of one file "a" that holds an "a", byte for byte |
| `Media.NamesDiffer` | src/helpers/conversation-zip.ts:44-49 | two media files never share a name, whatever their extensions |
| `Media.NameSpells` | src/helpers/conversation-zip.ts:46-47 | a media file's name spells its number, in three digits or as many more as it takes, between the folder and the extension |
| `Media.LinkReads` | src/helpers/conversation-zip.ts:105-110 | read as Markdown, a media part's text is a link with its kind as caption and exactly its target, a picture exactly for an image with a target, and without a target a mere caption |
| `Media.LinksDiffer` | src/helpers/conversation-zip.ts:105-110 | parts with different targets have different texts |
| `Media.MediaSink.Put` | src/helpers/conversation-zip.ts:44-49 | each blob becomes the next numbered file, and the link returned is its name |
| `Media.RenderParts` | src/helpers/conversation-zip.ts:72-109 | the files are the embedded blobs in order of appearance, one each, and every part's text carries the name of its own file |
| `Media.ConversationToZip` | src/helpers/conversation-zip.ts:33-57 | the archive is the document first, then the files, and the count is that of the embedded blobs |
| `Media.LinksLeadHome` | src/helpers/conversation-zip.ts:44-110 | read as Markdown, the text of an embedded part is a link to the archive entry that holds the part's bytes, and to no other entry if and only if the document does not take that name |
| `Media.OtherTexts` | src/helpers/conversation-zip.ts:84-130 | a part without embedded bytes makes no file and reads as its own words, as a link to its very address, or as a mere caption when it has none |
| `Media.NamesUniqueIff` | src/helpers/conversation-zip.ts:37-54 | all names of the archive differ if and only if the document's is none of the media files' |
| `Media.LinkSurvivesTheArchive` | src/helpers/conversation-zip.ts:33-57 | reading the archive back yields, under the encoded name a link carries, the bytes of the part it stands for, and nothing else under that name exactly when the document's name is another |
| `RequestQueue.RequestQueue.Enqueue` | src/network/request-queue.ts:39-64 | rejected exactly when full; otherwise the entry joins the multiset, the heap order holds and the longest waiter wakes |
| `RequestQueue.RequestQueue.WaitForItem` | src/network/request-queue.ts:77-80 | resolves at once when something is queued, otherwise leaves one waiter at the end of the line |
| `RequestQueue.RequestQueue.Dequeue` | src/network/request-queue.ts:66-70 | of the entries not past their deadline it serves one whose priority number is least and, among those of that priority, whose time stamp is least; it rejects exactly the entries past theirs and keeps the rest |
| `RequestQueue.RequestQueue.Peek` | src/network/request-queue.ts:72-75 | shows an entry no waiting one precedes, after rejecting exactly the expired ones |
| `RequestQueue.RequestQueue.PurgeExpired` | src/network/request-queue.ts:86-104 | removes exactly the entries past their deadline and leaves a heap of the others |
| `RequestQueue.RequestQueue.Pop` | src/network/request-queue.ts:118-126 | takes a least entry off the heap and leaves a heap of the others |
| `RequestQueue.RequestQueue.BubbleUp` | src/network/request-queue.ts:128-136 | restores the heap order from a misplaced last entry by swaps alone |
| `RequestQueue.RequestQueue.SinkDown` | src/network/request-queue.ts:138-150 | extends the heap order one position down by swaps alone |
| `RequestQueue.RequestQueue.RebuildHeap` | src/network/request-queue.ts:152-154 | makes a heap of any array by swaps alone |
| `RequestQueue.RootIsLeast` | src/network/request-queue.ts:157-160 | in a heap no entry precedes the root |
| `RequestQueue.LeInNumbers` | src/network/request-queue.ts:156-160 | one entry goes before another exactly when its priority number is lower or, for equal ones, its time stamp no later |
| `RequestQueue.BubbleStep` | src/network/request-queue.ts:131-133 | one upward swap keeps everything in order but the edge above the moved entry |
| `RequestQueue.SinkStep` | src/network/request-queue.ts:141-148 | one downward swap keeps everything in order but the edges below the moved entry, or ends with a heap |
| `RequestQueue.EnqueueStep` | src/network/request-queue.ts:39-64 | an enqueue, a retry's with its attempt number included, is one of the steps that runs are made of |
| `RequestQueue.DequeueStep` | src/network/request-queue.ts:66-70 | a dequeue is one of the steps that runs are made of |
| `RequestQueue.PeekStep` | src/network/request-queue.ts:72-75 | so is a peek, which only purges |
| `RequestQueue.Conservation` | src/network/request-queue.ts:39-104 | over every run, whatever was accepted is waiting, served or timed out, each once, and no more than maxSize wait |
| `RequestQueue.MostUrgentFirst` | src/network/request-queue.ts:66-160 | over every run, while an entry waits in time, none with a higher priority number and none of its own priority with a later time stamp is served, and what is served is served in time |
| `RequestQueue.FifoWithinPriority` | src/network/request-queue.ts:1-2 | over every run, of two entries of one priority the one with the earlier time stamp is served first |
| `RequestQueue.TiesAreNotFifo` | src/network/request-queue.ts:118-126 | of three entries with equal priority and time stamp the last overtakes the second |
| `RequestQueue.FifoIff` | src/network/request-queue.ts:113-160 | of two entries of one priority accepted in order, the first is served first whatever else is queued if and only if their time stamps differ |
| `TokenBucket.TokenBucket.TryConsume` | src/network/rate-limiter.ts:26-33 | grants exactly when the refilled bucket holds the amount, and takes it then |
| `TokenBucket.TokenBucket.WaitTimeMs` | src/network/rate-limiter.ts:36-41 | zero when the refilled bucket holds the amount, otherwise the missing part over the rate, rounded up; asking changes nothing but the refill |
| `TokenBucket.TokenBucket.DrainUntil` | src/network/rate-limiter.ts:57-63 | empties the bucket and holds refilling off until a later reset time, and does nothing for an earlier one |
| `TokenBucket.PauseHolds` | src/network/rate-limiter.ts:57-76 | while a pause lasts nothing can be taken, and after it exactly what has come in since its end; a pause for a time already past is none |
| `TokenBucket.ShorterPauseCutsIn` | src/network/rate-limiter.ts:57-63 | a shorter pause set during a longer one ends it early |
| `TokenBucket.Accrual` | src/network/rate-limiter.ts:70-76 | waiting earns at most rate times time, never more than the capacity, and nothing while paused |
| `TokenBucket.CallPays` | src/network/rate-limiter.ts:26-33 | no call grants more than it takes from what the bucket could hand out |
| `TokenBucket.RateBound` | src/network/rate-limiter.ts:26-76 | between header updates, the tokens granted in any window are at most capacity plus rate times its length, pauses included |
| `TokenBucket.RateBoundIsTight` | src/network/rate-limiter.ts:26-76 | over a window of any length some calls reach that bound on a bucket that starts full |
| `TokenBucket.ReadyWhen` | src/network/rate-limiter.ts:26-41 | exactly when an undisturbed attempt some milliseconds later succeeds |
| `TokenBucket.WaitIsLeast` | src/network/rate-limiter.ts:36-41 | with no pause pending, the advice is the least whole wait after which an undisturbed attempt succeeds |
| `TokenBucket.WaitSuffices` | src/network/rate-limiter.ts:36-41 | with a pause pending, the advice is right if and only if what rounding up adds to the missing time covers the pause |
| `TokenBucket.WaitIgnoresPause` | src/network/rate-limiter.ts:57-62 | a pause of a millisecond or more always makes the advice too short |
| `TokenBucket.RateLimiter.CanProceed` | src/network/rate-limiter.ts:105-111 | passes exactly when all three buckets allow it, charging them in order up to the first refusal |
| `TokenBucket.RateLimiter.constructor` | src/network/rate-limiter.ts:92-102 | a limit of null or zero is none; each other one is a full bucket of that size which refills over a minute or a day |
| `TokenBucket.LimiterBound` | src/network/rate-limiter.ts:26-145 | between header updates, what the whole limiter lets through in any window stays within each of its three limits, however attempts, questions and pauses mix |
| `TokenBucket.TwiceTheLimit` | src/network/rate-limiter.ts:92-111 | a new limiter lets through at most twice a limit in any minute, or any day |
| `TokenBucket.PassingPaysAll` | src/network/rate-limiter.ts:105-111 | an attempt that passes is charged to every bucket there is |
| `TokenBucket.RateLimiter.WaitTimeMs` | src/network/rate-limiter.ts:114-121 | the longest of the three buckets' advice |
| `TokenBucket.LimitsWaitIsLeast` | src/network/rate-limiter.ts:105-121 | with no pause pending, the limiter's advice is the least whole wait after which an undisturbed attempt gets past all three buckets |
| `TokenBucket.RefusalStillPays` | src/network/rate-limiter.ts:105-111 | exactly which buckets a refused attempt has been charged to: the request bucket and the daily one where the attempt got past them, the token bucket never |
| `TokenBucket.RefusalIsFreeIff` | src/network/rate-limiter.ts:105-111 | a refusal costs nothing if and only if the first bucket there is refuses |
| `TokenBucket.DailyBucketPays` | src/network/rate-limiter.ts:105-111 | a limiter without a request bucket whose daily bucket pays for what the token bucket refuses |
| `Semaphore.Semaphore.Acquire` | src/network/semaphore.ts:9-15 | takes a free slot at once, otherwise waits at the end of the line |
| `Semaphore.Semaphore.Release` | src/network/semaphore.ts:17-24 | hands the slot straight to the longest waiter, so it is never free in between |
| `Semaphore.FirstComeFirstServed` | src/network/semaphore.ts:9-24 | over every run of calls slots are granted in the order they were asked for, each once, grants not given back never exceed the slots, and nobody waits while one is free |
| `QueueSystem.StepCount` | src/network/queue-state.ts:192-292 | no step loses, copies or settles a request twice; only a submission adds one |
| `QueueSystem.StepInv` | src/network/queue-state.ts:184-292 | every step keeps the queue's whole invariant |
| `QueueSystem.Lifecycle` | src/network/queue-state.ts:184-495 | over every run each submitted request is queued, in the loop's hand, in an attempt, on a retry timer or settled, in exactly one of them and once; slot holders (leaked slots counted) equal the semaphore's count and never exceed the limit; a queued request has a running loop; re-sends stay in budget |
| `QueueSystem.SettledForGood` | src/network/queue-state.ts:286-493 | a settled request is settled once and never anywhere else again |
| `QueueSystem.StepDecreases` | src/network/queue-state.ts:192-292 | each step the queue takes by itself brings it strictly closer to rest |
| `QueueSystem.Progress` | src/network/queue-state.ts:192-236 | while a request is unsettled and a slot is left, some step of the queue's own is due |
| `QueueSystem.EverythingSettles` | src/network/queue-state.ts:184-495 | left to itself, open streams ending included, the queue comes to rest after boundedly many steps, every request settled unless leaked slots have used up all of them |
| `QueueSystem.SettlesBesideIdleStreams` | src/network/queue-state.ts:111-180 | and even where no open stream ever ends, a queue with nothing else due has settled every request as long as streams and leaks leave a slot |
| `QueueSystem.NeverAttemptedAgain` | src/network/queue-state.ts:111-134 | for any number of slots, once all have leaked no request is ever attempted again, whatever is submitted |
| `QueueSystem.StrandsIff` | src/network/queue-state.ts:184-495 | from any reachable moment and with no further leak, the queue can come to rest with a request unsettled for ever if and only if every slot has leaked |
| `QueueSystem.StrandsIffAllSlotsLeaked` | src/network/queue-state.ts:111-180 | over runs from the start, the streams that threw before their try never outnumber the slots, and a request can be stranded if and only if they equal them |
| `QueueSystem.LeakStrandsARequest` | src/network/queue-state.ts:111-134 | a concrete run with one slot: the request behind a stream that cannot be measured is never settled |
| `Retry.DefaultResends` | src/network/queue-state-config.ts:44-63 | exactly which answers the default policy re-sends, for every request: 429, 5xx and anything non-successful below 400, within the vetoes, the cap and the budgets |
| `Retry.RedirectIsResent` | src/network/errors.ts:105 | an error flagged as not retryable is re-sent all the same below 400 |
| `Retry.KindsByStatus` | src/network/errors.ts:58-106 | exactly which statuses have which kind, which are flagged as retryable and which carry a wait, and that the server's own word is kept |
| `Retry.WaitAsAsked` | src/network/errors.ts:146-175 | a usable number of milliseconds counts before anything else, then a usable number of seconds or a date, and without those the server has asked for nothing |
| `Retry.RequestWins` | src/network/queue-state.ts:500-513 | what a request overrides is what it gets, one figure at a time, the backoff's included; what it leaves open is the queue's, and the rules per kind always are |
| `Retry.MostSpecificCounts` | src/network/queue-state.ts:428-430 | of the numbers of re-sends the request's counts before the kind's, and that before the queue's |
| `Retry.LongWaitIsFinal` | src/network/queue-state.ts:438-444 | a server's wait rules a retry out if and only if it is longer than the cap, and decides nothing else about it |
| `Retry.SentAtMost` | src/network/queue-state.ts:415-495 | for every sequence of answers a buffered request is sent at most once plus the largest effective maxRetries over the error kinds |
| `Retry.RetryBoundReached` | src/network/queue-state.ts:426-430 | a retryable error that keeps coming is sent exactly that often |
| `Retry.Connect` | src/network/queue-state.ts:543-613 | the connect loop of a stream goes on past exactly the failures that may be retried, stops at the first other outcome, a thrown classified error and a caller's abort included, and sends at most once plus the largest effective maxRetries |
| `Retry.WhatGoesOn` | src/network/queue-state.ts:571-610 | exactly which failures the connect loop goes on past: an answer that may be retried, and anything thrown that is neither a classified error nor the caller's abort |
| `Attempt.Worker.HandleRetry` | src/network/queue-state.ts:415-495 | exactly one of a timer, a rejection and the retry hook's own exception |
| `Attempt.Worker.Try` | src/network/queue-state.ts:300-366 | what escapes the try block, and that its slot is released exactly when nothing escapes or the retry hook does |
| `Attempt.Worker.ExecuteWithRetry` | src/network/queue-state.ts:269-413 | wherever its awaits throw, the attempt releases and settles as its ending says, or crashes with the settling still to come |
| `Attempt.Worker.Run` | src/network/queue-state.ts:234-413 | the entry is resolved if and only if the answer is a success and is read; otherwise it is rejected or put on a timer, exactly one of the three and once on every path, and the slot is released once and once more for each retry hook that throws |
| `Attempt.EndsIff` | src/network/queue-state.ts:269-495 | exactly when an attempt resolves its request and when it starts a timer, told from what happens and the retry decision alone: a timer for a non-successful answer, or for what the first thing to throw is retried as, whose hook then returns |
| `Attempt.ReleasedOnceIff` | src/network/queue-state.ts:365-371 | the slot is released exactly once if and only if no retry hook that is reached throws, and exactly when each of the two hooks is reached and throws |
| `Attempt.ReleasedThreeTimes` | src/network/queue-state.ts:365-371 | a 503 and a retry hook that throws each time release one slot three times |
| `Attempt.AttemptIsStep` | src/network/queue-state.ts:269-495 | an attempt whose retry hooks do not throw is the queue's step of that ending: allowed, a retry within the budget, one slot handed on, the request on a timer or settled |
| `Retry.ReconnectVersusRetry` | src/network/queue-state.ts:587-598 | while a stream connects the same failures are retried as for a buffered request, except that an unapproved stateful request is retried too |
| `Retry.ServerWaitIsKept` | src/network/queue-state.ts:515-528 | what is retried after a server asked for a wait is retried after exactly that wait |
| `Retry.BackoffBounded` | src/network/queue-state.ts:531-534 | without a server wait or a fixed one, the delay is the initial one multiplied once for each earlier attempt and cut at the cap, within its jitter and the rounding |
| `Retry.PowAdds` | src/network/queue-state.ts:532 | attempts multiply: m and then n of them make a delay grow by the product of what each makes |
| `Retry.DefaultWaits` | src/network/queue-state-config.ts:44-49 | the default delays, a quarter either way: half a second, then double each time, at most eight seconds |
| `Retry.WhichWait` | src/network/queue-state.ts:515-530 | the server's wait, cut at the cap, goes before the kind's fixed one |
| `Retry.EndlessWaitIsRefused` | src/network/errors.ts:146-151 | a wait no number can hold is never retried, under any policy |
| `Retry.ParsedWaitIsAWait` | src/network/errors.ts:146-151 | a parsed Retry-After is never negative and never NaN |
| `Pairing.RepairAnswersOpenCalls` | src/agent/loop.ts:1596-1635 | repair adds exactly one result for each open call id and none for any other, and changes the history exactly when a call was open |
| `AgentLoop.Loop.RepairUnansweredToolCalls` | src/agent/loop.ts:1596-1635 | the loops over the history append the results repair should, in the order the calls were first seen |
| `Pairing.BegunPaired` | src/agent/loop.ts:1735-1747 | a run starts with every call answered exactly when its own input leaves none open, whatever the history held |
| `Pairing.AnsweredTwice` | src/agent/loop.ts:1735-1738 | how often each id is answered once a run has begun: a caller's own answer to an interrupted call comes on top of the repair's |
| `AgentLoop.ExecuteSingleTool` | src/agent/loop.ts:1070-1219 | every gate answers a call with one result of its id and one report, except when something on its way throws; the tool itself is run if and only if every gate lets the call through |
| `AgentLoop.ExecuteToolCalls` | src/agent/loop.ts:1053-1068 | a step's calls are answered in order with one report each, or the step throws |
| `AgentLoop.Loop.AddInput` | src/agent/loop.ts:1995-2004 | input is staged in order between runs and refused during one |
| `AgentLoop.Loop.BeginRun` | src/agent/loop.ts:1637-1750 | repair, then the run's input, then the staged input, each once; a second run is refused and a throwing setup leaves the agent marked as running |
| `AgentLoop.Loop.Complete` | src/agent/loop.ts:507-759 | the buffered loop ends with the history, the retry streak, the report and the model calls of the run specified pass by pass |
| `AgentLoop.Loop.Stream` | src/agent/loop.ts:780-1022 | the same for the streamed loop, wherever its consumer leaves |
| `AgentLoop.PairedAtEveryCall` | src/agent/loop.ts:534-712 | for any history, script of events and ending: the model is only ever called with every tool call answered, if and only if the run's input leaves none open |
| `AgentLoop.FollowedAtEveryCall` | src/agent/loop.ts:534-712 | every call the model is shown has its result in a later message, for any run, if and only if the input's calls have and no open call of the history has an id answered before; stronger than pairing by ids |
| `Pairing.BegunFollowed` | src/agent/loop.ts:1596-1635 | exactly when a run starts with every call followed by its result |
| `Pairing.ReusedIdStaysOpen` | src/agent/loop.ts:1597-1620 | a concrete history in which an open call reuses an answered id, so that the repair passes it over |
| `AgentLoop.PassHistory` | src/agent/loop.ts:534-712 | for either loop and every pass, exactly what joins the history, a reply before the results of its calls, and what is reported |
| `AgentLoop.PassRecords` | src/agent/loop.ts:534-712 | exactly when a pass calls the model, keeps its usage, counts its tool calls and counts a failure |
| `AgentLoop.PassEnds` | src/agent/loop.ts:534-712 | exactly when a pass ends the run, one condition for each way to end |
| `AgentLoop.FirstCallSees` | src/agent/loop.ts:1735-1747 | the first call of a run sees the repaired history, the input and what was staged before, in that order |
| `AgentLoop.SessionPaired` | src/agent/loop.ts:1721-1747 | over any sequence of runs, each ended in any way and from any history, every model call sees every tool call answered, as long as what the caller adds leaves none of its own calls open |
| `AgentLoop.SetupThrowIsForever` | src/agent/loop.ts:1648-1650 | once a run's setup has thrown, no later run of that agent reaches a model |
| `AgentLoop.StillRunningIff` | src/agent/loop.ts:1648-1713 | a run leaves the agent marked as running if and only if its setup throws or it was so marked before |
| `AgentLoop.StuckAfterSessionIff` | src/agent/loop.ts:716-721 | over any sequence of runs the agent ends up stuck if and only if one of the setups threw |
| `AgentLoop.RunIsBounded` | src/agent/loop.ts:533-712 | a run makes at most the model steps its lexicographic budget leaves, and ends within that many passes |
| `AgentLoop.ModelStepsBounded` | src/agent/reflect-retry.ts:64-68 | a buffered run makes at most maxSteps * (maxRetries + 1) model steps, each however many backups it asks, less the streak it started with; a streamed run or one without reflection at most maxSteps |
| `AgentLoop.BoundIsReached` | src/agent/reflect-retry.ts:64-68 | some model makes a run use exactly that budget |
| `AgentLoop.FullBudgetOnlyWithoutStreak` | src/agent/reflect-retry.ts:74-77 | the full budget is open to a run if and only if it starts with no failure behind it, which nothing restores between runs |
| `AgentLoop.ReflectAndRetryPolicy.RecordFailure` | src/agent/reflect-retry.ts:64-68 | counts the failure and permits a retry while the count is within the budget |
| `AgentLoop.Accounts` | src/agent/loop.ts:584-701 | each of the six usage figures is the sum of that figure over every response received, discarded turns included; the tool calls counted equal the calls reported unless, and only unless, the consumer left at a tool_call_end |
| `History.ConversationHistory.Append` | src/agent/history.ts:126-158 | appends one entry, and an assistant turn with a reported input count anchors exactly the messages before it |
| `History.ConversationHistory.RecordActualUsage` | src/agent/history.ts:75-79 | anchors the exact count to the messages present |
| `History.ConversationHistory.Truncate` | src/agent/history.ts:272-282 | removes and returns exactly a prefix, cut at or after the requested place and past orphaned results, and renumbers the rest |
| `History.ConversationHistory.IsOrphanedResult` | src/agent/history.ts:286-299 | tells exactly whether the entry answers a call that is not among the entries from it on |
| `History.ConversationHistory.SpliceRange` | src/agent/history.ts:307-331 | replaces exactly the range by one message, returns what was there, renumbers, and forgets an exact count that covered it |
| `History.ConversationHistory.EstimatedTokens` | src/agent/history.ts:225-245 | the exact count up to the anchor plus estimates after it, or estimates alone |
| `History.SumSplits` | src/agent/history.ts:225-245 | in an estimate every entry counts once, by the figure given when it was appended or else by its message's own estimate |
| `History.TruncateCleanIff` | src/agent/history.ts:272-299 | truncation leaves every result after (or beside) a call of its id, for every number of entries kept, if and only if from the entry after a result's last call up to the result every entry answers an id called neither there nor later |
| `History.WellPairedFollows` | src/agent/history.ts:291-292 | a history whose ids are unique and whose results directly follow their calls meets that condition |
| `History.TruncateKeepsLongest` | src/agent/history.ts:272-282 | on such a history truncation keeps the longest suffix of at most keepLast entries without an orphaned result |
| `History.OrphanLeftBehind` | src/agent/history.ts:286-299 | a concrete history with a user turn between two results on which truncation leaves a result without its call |
| `History.ReusedIdLeftBehind` | src/agent/history.ts:286-299 | a concrete history that calls an id again, on which it does so too |
| `StreamAccum.StepState.AccumulateStreamEvent` | src/agent/loop-internals.ts:77-131 | an event lands in the accumulator of its id, or of the call started last when it carries none |
| `StreamAccum.StepState.FindAccumulator` | src/agent/loop-internals.ts:67-73 | by id when there is one, otherwise the most recently started call |
| `StreamAccum.StepState.FinalizeUnendedToolCalls` | src/agent/loop-internals.ts:192-198 | finishes each accumulator no end event has finished, in starting order |
| `StreamAccum.FinalizedCalls` | src/agent/loop-internals.ts:192-198 | finalizing keeps the calls already finished and adds the unfinished ones with what they gathered |
| `StreamAccum.OneCallPerStartedId` | src/agent/loop-internals.ts:67-131 | for any event stream there is exactly one call per id that was started |
| `StreamAccum.OwnArguments` | src/agent/loop-internals.ts:67-131 | when every event carries its id and deltas lie between start and end, each call has the name it was started with and the concatenation of its own deltas |
| `StreamAccum.InterleavingIrrelevant` | src/agent/loop-internals.ts:67-131 | so the calls are the same under every interleaving of parallel calls |
| `StreamAccum.SameCallsSameOrder` | src/agent/loop-internals.ts:77-198 | and so is their order when the streams agree on the order of starts and ends: the calls come as they end, then the unfinished ones as they started |
| `Approvals.ApprovalStore.ResumeWithApproval` | src/agent/loop.ts:2029-2050 | moves the first pending record of the id into the store with the call it was about, or changes nothing when there is none |
| `Approvals.ApprovalStore.CheckGate` | src/agent/loop.ts:1405-1416 | a failed setup changes nothing; a stored decision for the same call is returned and spent, one about another tool or other arguments refused and spent; with nothing stored the approver is asked, or the call denied for want of one |
| `Approvals.ApprovalStore.AnswerGate` | src/agent/loop.ts:2082-2086 | the gate goes by the approver's answer whatever the store holds by then, and leaves the store alone |
| `Approvals.ConsentIsBound` | src/agent/loop.ts:2066-2081 | over every interleaving of gates and decisions, a stored decision is only ever used for the id, tool and arguments its approval was opened for, and once |
| `Approvals.RecordStaysIff` | src/agent/loop.ts:1405-1416 | a gate's record stays pending if and only if the gate has reached no decision; a stored decision survives a look into the store if and only if the setup failed, and an approver's answer always |
| `Approvals.DecidedIff` | src/agent/loop.ts:2066-2086 | exactly when a look into the store settles a gate, and exactly when the approver is asked instead |
| `Approvals.FedWhileAsking` | src/agent/loop.ts:2029-2050 | a decision fed back while the approver is awaited settles nothing and outlives the gate, for the next one of that id |
| `Fallback.ClientChain` | src/agent/fallback.ts:72-79 | the loop builds the chain whose meaning ChainHasNoDuplicates states |
| `Fallback.ChainHasNoDuplicates` | src/agent/fallback.ts:72-79 | the chain starts with the primary, repeats nobody and holds exactly the configured clients |
| `Fallback.CompleteWithFallback` | src/agent/fallback.ts:89-112 | clients are asked in order up to the first that does not fail survivably, and its answer or error is the caller's |
| `Fallback.WhoServes` | src/agent/fallback.ts:72-112 | each client is asked at most once; the first listed client that does not fail survivably decides, duplicates or not, and when all do, the last one's error is thrown |
| `Fallback.BackupsCannotHelp` | src/agent/fallback.ts:37-48 | by default exactly a bad key, a malformed request, a prompt too long and a content filter are left to the caller |
| `Fallback.StreamWithFallback` | src/agent/fallback.ts:120-151 | the events delivered are a prefix of exactly one client's stream, and that client is the one recorded |
| `Fallback.StreamedVersusBuffered` | src/agent/fallback.ts:138-142 | streaming is served by another client than buffering would be exactly when a stream fails survivably after showing output with a backup left |
| `Catalog.NormalizeIdempotent` | src/catalog/catalog.ts:257-259 | normalizing twice is normalizing once |
| `Catalog.SpellingOf` | src/catalog/catalog.ts:257-259 | exactly what becomes of each character: capitals become small, a hyphen between two digits a dot, and everything else stays |
| `Catalog.SameSpelling` | src/catalog/catalog.ts:257-259 | exactly which ids count as one spelling: same letters up to case, differing only in separators that stand between digits |
| `Catalog.KeyInjective` | src/catalog/catalog.ts:270-272 | keys tell two providers apart when neither's name followed by a slash begins the other's |
| `Catalog.ModelCatalog.Set` | src/catalog/catalog.ts:278-329 | after any sequence of calls the three maps are what scans of the call log say, for every key |
| `Catalog.ModelCatalog.Get` | src/catalog/catalog.ts:331-339 | the lookup equals the scan: the latest registration of the exact slug, else of the slug that last listed the id, else of the earliest slug with a name of that spelling |
| `Catalog.ModelCatalog.ResolveModelId` | src/catalog/catalog.ts:352-362 | for any sequence of calls, the id to send is a function of the call log, whose meaning SentNamesTheEntryFound states |
| `Catalog.TargetsExist` | src/catalog/catalog.ts:312-328 | no index entry points at a slug that was never registered |
| `Catalog.FoundStaysFound` | src/catalog/catalog.ts:278-339 | a name that finds an entry goes on finding one, whatever is registered later |
| `Catalog.NamesFind` | src/catalog/catalog.ts:278-339 | right after its registration an entry answers to every one of its names that is no other entry's slug, and every spelling of them finds something |
| `Catalog.LookupStaysWithProvider` | src/catalog/catalog.ts:331-339 | whichever level answers, the entry was registered for the provider asked, if no registered provider is nested with it |
| `Catalog.KeptApartIff` | src/catalog/catalog.ts:270-339 | the catalog answers each of a set of providers only with its own entries, whatever is registered, if and only if none of their names followed by a slash begins another |
| `Catalog.SentNamesTheEntryFound` | src/catalog/catalog.ts:341-362 | exactly what is sent: the name as written if nothing is found or the provider accepts it and it is no slug of ours; otherwise the provider's own name for the entry found, or its slug |
| `ServerState.ResolveServerState` | src/llm/server-state.ts:29-69 | the backward search and its early returns reuse the last stamped turn exactly when it is reusable and something follows it |
| `ServerState.UnlistedReuseIff` | src/llm/server-state.ts:29-69 | for a model the catalog does not list, exactly when an id is sent instead of the history: not opted out, something new to send, the same provider and one that keeps conversations, thirty days or google's three, and but for google the same model |
| `ServerState.EntryWins` | src/catalog/catalog.ts:392-415 | what a catalog entry says goes before what is said of its provider, and an entry on no stateful API rules continuing out |
| `ServerState.SeenIsHistory` | src/llm/server-state.ts:42-68 | in any world that keeps the invariant, exactly what a request shows the model: the whole history, only the messages after the followed turn, or nothing because it is refused |
| `ServerState.PromiseKept` | src/llm/server-state.ts:11-17 | for a provider whose catalog entry promises no more than the server keeps, or no server state at all, a request is refused only for an id minted locally |
| `ServerState.StepKeepsInv` | src/llm/client-internal.ts:27-46 | every turn, input and expiry keeps what the server stores in step with the stamped history |
| `ServerState.WholeHistoryIff` | src/llm/client.ts:520-530 | over every conversation, whichever providers, models and APIs it mixes, a turn shows the model the whole history if and only if it is not refused and follows no id on an API that does not carry ids; it is refused exactly for an id minted locally, dropped by the server or bound to another model |
| `ServerState.StatelessApiLosesContext` | src/llm/client.ts:520-530 | a possible conversation of one stateful turn and one on a stateless API in which the model sees the last message alone |
| `ServerState.BufferedNeverRefused` | src/llm/client-internal.ts:27-46 | where all turns so far were buffered, a request on a stateful API is never refused and shows the whole history, unless the catalog promises it more than the server keeps |
| `ServerState.AfterStreamedTurn` | src/agent/loop-internals.ts:239 | after a streamed turn on a stateful API the next request there is refused whenever the turn would be reused |
| `Shape.PathsOf` | src/llm/response-shape.ts:102-119 | the recursion with its shared accumulator and guards computes the set specified node by node |
| `Shape.PathsAreReached` | src/llm/response-shape.ts:102-119 | only paths the body has are collected, all of them down to the depth limit when there are no more than the size limit, and more than that otherwise |
| `Shape.PathsByRoute` | src/llm/response-shape.ts:102-119 | the paths of a body are exactly those that some route from its root, within the depth limit, comes by |
| `Shape.DottedPaths` | src/llm/response-shape.ts:111-113 | keys nested eleven deep are found, each path written with dots between its keys |
| `Shape.ListLengthIrrelevant` | src/llm/response-shape.ts:104-108 | lists of the same items, however often and in whatever order, have one shape |
| `Shape.FlatMapIsUnbounded` | src/llm/response-shape.ts:110-116 | one object's own keys are never counted against the size limit: a flat map of n entries yields n paths for every n |
| `Shape.DiscsAreReached` | src/llm/response-shape.ts:122-142 | what is collected are the strings under discriminator keys that some route from the root leads to within the depth limit: all of them in order when there are no more than the size limit, and more than that otherwise |
| `Shape.Declare` | scripts/derive-response-shapes.ts:60-89 | known paths are those of some sample, expected ones those of every recorded sample if there is one, values those some sample shows |
| `Shape.CorpusIsClean` | scripts/derive-response-shapes.ts:60-89 | checked against the declaration derived from a corpus, no body of it has an unknown path or value and no recorded body a missing path |
| `Shape.ReportedExactly` | src/llm/response-shape.ts:145-165 | for any body, exactly which paths are reported unknown or missing and which values unknown |
| `Shape.OneMoreSample` | scripts/derive-response-shapes.ts:60-81 | one more sample only adds to known paths and values, never changes expected when synthetic, and otherwise only shrinks it unless it is the first recorded one |
| `Shape.ResponseShapeChecker.Report` | src/llm/response-shape.ts:215-232 | each check warns once of every finding not reported before and of nothing else |
| `Shape.SharedKeys` | src/llm/response-shape.ts:216-220 | exactly when any two findings, of the same or of different kinds of body, are reported under one key |
| `Shape.ResponseAndStreamApart` | src/llm/response-shape.ts:188-213 | findings of a body and of a stream event never share a key |
| `BusTable.Subscriptions.On` | src/bus/agent-bus.ts:111-149 | the subscription joins the table its pattern selects |
| `BusTable.Subscriptions.OnReply` | src/bus/agent-bus.ts:152-171 | the subscription joins the replies of its correlation id |
| `BusTable.UnsubscriptionMatches` | src/bus/agent-bus.ts:116-148 | unsubscribing takes that subscription out for exactly the events its pattern matches and leaves every other as often as it was |
| `BusTable.OffUndoesOn` | src/bus/agent-bus.ts:111-171 | subscribing and unsubscribing again leaves every event with the subscribers it had |
| `BusTable.SubscriptionMatches` | src/bus/agent-bus.ts:248-260 | a subscription is found for exactly the events its pattern matches, once, and disturbs no other |
| `BusTable.MatchesInCharacters` | src/bus/agent-bus.ts:10-16 | exactly which kinds a pattern matches, character by character |
| `BusTable.CalledInOrder` | src/bus/agent-bus.ts:248-260 | an event's subscribers are called wildcard first, then prefix by prefix, then those of its kind, then those of the reply, and under one pattern in the order they subscribed in |
| `BusTable.NewPrefixLast` | src/bus/agent-bus.ts:117-131 | prefixes are served in the order of their first subscription |
| `BusTable.DropPrefixKeepsOrder` | src/bus/agent-bus.ts:116-148 | unsubscribing leaves the other prefixes in their order, and its own in its place as long as a subscriber is left |
| `BusTable.DropKeepsOrder` | src/bus/agent-bus.ts:116-148 | and the other subscribers in theirs |
| `AgentBus.SiblingsSimulated` | src/bus/agent-bus.ts:262-276 | the suspended machine serves a list of subscribers as the recursive interpreter does |
| `AgentBus.HandlerSimulated` | src/bus/agent-bus.ts:187-194 | a nested emit runs depth-first inside its handler |
| `AgentBus.OrderRefinesInterpreter` | src/bus/agent-bus.ts:176-306 | however emits arrive while handlers are suspended, calls and results are those of the interpreter run over the top-level emits in submission order, and nothing queued is without a drain loop |
| `AgentBus.EveryEmitCompletes` | src/bus/agent-bus.ts:229-246 | every emit completes: some number of drain steps brings the bus to rest with one result each |
| `AgentBus.SkipsOnlyAfterNullish` | src/bus/agent-bus.ts:264-288 | the subscribers called are the first ones, in order, and all of them unless the event rejects; it rejects if and only if the last one called threw null or undefined, which no earlier one did |
| `AgentBus.ErrorsContained` | src/bus/agent-bus.ts:266-273 | when handlers throw errors only, no event rejects |
| `AgentBus.ServedInTurn` | src/bus/agent-bus.ts:264-305 | an event's subscribers are called one after the other, and between one that throws an error and the next every subscriber found for system.handler-error at that moment is called once, in order, and nothing else happens |
| `AgentBus.NullishSkipsSiblings` | src/bus/agent-bus.ts:278-288 | a first subscriber that throws null or undefined at once rejects the event and none of the others is called |

## Left out

- Real HTTP, sockets, timers, clocks and abort signals: a network answer, a time or an abort is a parameter.
- UTF-8, JSON and regular expressions: text is a sequence of characters, file names of the ZIP writer are already bytes, and a parsed header, message pattern or duration is given. A malformed retention duration, which throws, is not modelled; ids are lower-cased for ASCII letters only.
- Whole-stream decoding state of TextDecoder: a chunk is what the decoder returned for it.
- Hook payloads, telemetry, warnings and latency figures: of a hook only its effect is kept (abort, skip, override, throw where listed). Subscribers of onModelError and onWarning are taken not to throw, and in `QueueSystem` those of onRetry either; `Attempt` says what they do when they throw.
- Sse.OneBreakHarmlessIff: several broken CRLFs in one stream are covered by `LinesIndependentOfChunks` for the lines, not by a condition for the events.
- Which entries expire or are served next, and what the limiter says, is left to the environment in `QueueSystem`; `RequestQueue` and `TokenBucket` say what those choices are. The loop there ignores the limiter's last answer, as the code does.
- QueueSystem.EverythingSettles: the end of an open stream counts as a step the queue takes by itself, so it takes consumers to read on or close their streams; `SettlesBesideIdleStreams` does without. Subscribers of onDequeue and onQueueTimeout are taken not to throw: one that does ends the processing loop with an entry in its hand.
- AgentBus.OrderRefinesInterpreter: handlers are taken to await the emits they make, and subscriptions to change only inside handlers while the bus drains.
- Wall time of a buffered request: its time budget restarts with every attempt, so no bound on total time is claimed.
- Rounding in the token bucket and the backoff: they are exact reals, and `updateFromHeaders` is its two setters.
- AgentLoop.ModelStepsBounded: counts steps; with backup models one step calls up to the whole chain, each client once, as `Fallback` states.
- Retry.SentAtMost: counts the sends of one queue entry; redirects followed inside one attempt are not counted.
- Fuel of the bus interpreter: statements about the bus are for handlers that end; one that never returns, or nested emits without end, keeps its emit waiting in the code as well. Only the isolated async context is modelled, not the browser's.
- The drain loop of the bus and the loop, attempts and timers of the queue suspend at every await and interleave with other calls, so they are steps on a state value rather than loops inside methods; the classes they use are classes here.
- AgentLoop.ExecuteToolCalls: parallel calls give the same results in the same order, but file their reports in order of completion, which is not modelled.
- AgentLoop.PairedAtEveryCall: the responses' call lists are taken to hold every call of their content, as adapters promise; clearing, truncating or importing the history between runs needs no assumption.
- Text, thinking, citations, usage events and the step response of a stream: only the tool calls are modelled.
- `estimatedTokens` after `truncate` or `clear`: the anchor index is not updated there, so no meaning is claimed for it.
- The Markdown text around the media links: the document is some function of the parts' texts. A file's extension is some function of its media type.
- Media.LinkSurvivesTheArchive: names are encoded by a function taken to be injective, as UTF-8 is on well-formed strings.
- Catalog entries carry the fields the lookups and the server-state decision read; prices, capabilities and availability are left out, as is loading JSON.
- Shape.ResponseShapeChecker.Report: the order of warnings within one check, sorted in the code, and unknown event types of a stream are not modelled.
- ServerState.WholeHistoryIff: conversations only grow; every client names a model; one clock stamps turns and ages them; the server's ids and the minted ones do not collide. That the catalog promises no more than the server keeps is assumed only by the lemmas that name `Promised`.
- `src/helpers/*` other than the ZIP export, `src/server/*`, `src/runtime/*`, provider adapters and the remaining scripts: plumbing over other code, which would add easy members only.
