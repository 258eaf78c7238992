# Verified model of the voice helmsman

This project models the parts of the voice helmsman that carry state or intricate text handling, and
proves what they promise. `dafny verify dfyconfig.toml` checks it with Dafny 4.11.

## What is modelled

**The simulator link** (`voice_agent/backends/simulator/real.py`). The link is connectionless and its
loss is silent, so the client must not leak a live session, must not acknowledge an order that was not
carried, and must not let a failed order fire later. `SimulatorLink` is a step system of the supervisor
task, `connect()`, `disconnect()`, commands and queries around the one lock: every await is a step
boundary, and time, frames and the build thread are steps of the environment. `SimulatorLinkInvariant`
and `SimulatorLinkSteps` prove the inductive invariant; `SimulatorLinkOrders`, `SimulatorLinkSafety`,
`SimulatorLinkDisconnect`, `SimulatorLinkOrphans` and `SimulatorLinkProgress` draw the promises from it,
over all runs; `SimulatorLinkReadings` says what a reading of a session decides, `SimulatorLinkReconnect`
how the link comes back, and `SimulatorLinkWitnesses` holds concrete runs in which stronger promises fail.
`SimulatorLinkClient` is the command path as the class has it, with the polling loop, and every call of it
is shown to be a run of the step system (`SimulatorLinkRefinement`).

**Ingestion** (`chunking.py`, `metadata.py`, `store.py`, `engine.py` under `voice_agent/kb/ingestion`).
`Text`, `Splitting` and `Chunking` are the paragraph-aware chunker; `SplittingParts` says what its patterns
split, `SplittingWords` that no word is torn, `ChunkingShape` what each later stage does to the text, and
`ChunkCoverage` which characters come out. `FixedWindows` is the fixed-size chunker and the search for
offsets, `ChunkIds` the printed ids and their order as strings, `Metadata` the chunk records and the review
decisions, `Sorting` and `Store` the two tables, `Engine` the two phases and `EngineRuns` sequences of them.

**Streaming** (`events.py`, `metrics.py`, `actions/processor.py`, `actions/dispatch.py`). `EventBus` is the
lossy fan-out, `FrameDedup` and `Latency` the latency tracker, `Dispatch` and `ActionProcessor` the way
from a reply of the language model to the ship and to the audit trail.

**Retrieval context** (`langgraph_helmsman/helpers.py`). `Retrieval` is the selection and expansion of the
retrieved chunks.

An algorithm that the source writes with loops or fields is a method or a class here, proved against a
function of the same meaning; the properties are lemmas about these functions.

## Where code and documentation differ

The model follows the code. These intentions of the documentation are stronger than what holds, and the
table names the exact condition in each case.

- `real.py:411-427`, `wrapper_api.py:50-54`: the frames that prove delivery are counted from the snapshot
  before the staging, not from the staging. An order can be acknowledged undelivered exactly if two frames
  arrive in between (`UndeliveredAckIffTwoFramesInTheGap`).
- `real.py:281-284`: `disconnect()` never needs to reap a build that it has itself interrupted
  (`DisconnectNeverInterruptsABuild`). After a cancellation from elsewhere it does, and stops its session,
  if no `connect()` comes first (`NextDisconnectStopsIt`); with one the session can be lost for good
  (`ConnectFirstLosesIt`, `OutsideCancelCanLeak`).
- `real.py:424-426`: if a call into the wrapper raises, the failed order stays in a live session and can
  fire later exactly if it had been stored (`FaultLeavesTheOrderIff`, `FailedOrderCanFireLate`).
- `real.py:419-423`: "order not delivered" means that two frames did not come in time. The order had reached
  the ship exactly if one came before the drop (`TimedOutWasDeliveredIff`, `TimedOutOrderCanBeDelivered`).
- `chunking.py:9-13`: the overlap is cut from the chunk as trimmed, so it does not cover what the trim
  removed. A character that occurs once is in a chunk exactly if the trim did not cut it off
  (`CoveredIffNotCutOff`, `AllIsCoveredIffUntrimmed`, `TextIsLost`).
- `store.py:149-150`: "ordered by chunk_id" is the order of the chunks only up to a thousand of them
  (`BatchReadsBackIff`).
- `metadata.py:63-64`: offsets found by searching are those of the windows exactly if no key occurs between
  the start of the window before and its own (`OffsetsAreTrueIff`, `WindowsAreLocatedIff`).
- `engine.py:197-199`: a failed finalize does not surface in the audit log (`FailedFinalizeIsSilent`,
  `ResumeSettles`). Nor does an upload whose text is empty once cleaned (`UploadLeavesATraceIff`).

## Model

| member | source | states |
|---|---|---|
| `SimulatorLinkSteps.RunKeeps` | voice_agent/backends/simulator/real.py:241-455 | Every run of the supervisor, connect(), disconnect(), commands and queries, interleaved at their awaits, keeps the whole invariant: one lock holder at the matching point of its code, tracked sessions and builds, a coupled state, and orders that are where their command says |
| `SimulatorLinkOrders.NoLateOrder` | voice_agent/backends/simulator/real.py:393-455 | Over every continuation of every run, an order whose command raised its refusal or "order not delivered" is never delivered again, and no live session holds it; a refused one was never staged |
| `SimulatorLinkOrders.FailedOrderFiresOnlyAfterFault` | voice_agent/backends/simulator/real.py:428-455 | Of the failed commands only one whose call into the wrapper raised after the order was stored can leave it in a live session |
| `SimulatorLinkOrders.FaultLeavesTheOrderIff` | voice_agent/backends/simulator/real.py:428-455 | When a call into the wrapper raises, the order of the failed command can be delivered later if and only if the call had stored it or it was staged before |
| `SimulatorLinkOrders.TimedOutWasDeliveredIff` | voice_agent/backends/simulator/real.py:438-454 | An order reported as not delivered had reached the ship if and only if a frame came between its staging and the drop of its session |
| `SimulatorLinkOrders.DeliveredLaterIffHeld` | voice_agent/backends/simulator/real.py:408-455 | The order of a finished command can still be delivered if and only if a live session holds it |
| `SimulatorLinkWitnesses.FailedOrderCanFireLate` | voice_agent/backends/simulator/real.py:436-455 | A concrete run in which a failed order is delivered after the failure was raised: order_rudder raised after storing the setpoint |
| `SimulatorLinkWitnesses.TimedOutOrderCanBeDelivered` | voice_agent/backends/simulator/real.py:436-454 | A concrete run in which one frame carries the order before the link goes quiet and "order not delivered" is raised |
| `SimulatorLinkOrders.AcknowledgedMeansDelivered` | voice_agent/backends/simulator/real.py:428-443 | An acknowledged order was staged, its session showed two frames more than the snapshot before, and frames that carried it are at least two less those between snapshot and staging |
| `SimulatorLinkOrders.UndeliveredAckIffTwoFramesInTheGap` | voice_agent/backends/simulator/real.py:430-443 | A freshly staged order can be acknowledged undelivered if and only if two frames came between the snapshot and the staging |
| `SimulatorLinkWitnesses.AckCanPrecedeDelivery` | voice_agent/backends/simulator/real.py:430-443 | A concrete run that reaches such a gap, and so an acknowledgement before delivery |
| `SimulatorLinkOrders.PollsAreBounded` | voice_agent/backends/simulator/real.py:438-455 | The sleeps of the confirmation loop take less than the budget: fewer than about staleAfter / 0.01 of them, in every run |
| `SimulatorLinkOrders.CommandIsNeverStuck` | voice_agent/backends/simulator/real.py:428-455 | A command that has the lock waits for no other task: its next move, or the end of its sleep, is always possible |
| `SimulatorLinkProgress.OwnMovesAreBounded` | voice_agent/backends/simulator/real.py:428-455 | Over every run a command makes a bounded number of moves, about three for each poll of its budget; being never stuck, it ends |
| `SimulatorLinkReadings.ReadingsAreTheLog` | voice_agent/backends/simulator/real.py:375-379 | Whatever the interleaving, a reading of a session is what the run so far says of it: whether a frame brought the scenario, how many frames came, and the time since the last one |
| `SimulatorLinkReadings.QuietLinkIsDropped` | voice_agent/backends/simulator/real.py:323-346 | A reading without the scenario, without a frame, or with the last frame more than staleAfter ago makes a connected link STALE, stops its session and frees the lock |
| `SimulatorLinkReadings.FreshLinkIsConnected` | voice_agent/backends/simulator/real.py:323-332 | A reading of a loaded scenario with a frame at most staleAfter ago makes the link CONNECTED with its session in place, and resets the backoff and the pending kick |
| `SimulatorLinkReadings.NewLinkMayBeQuiet` | voice_agent/backends/simulator/real.py:323-348 | A link that is not CONNECTED yet keeps its session through any other reading |
| `SimulatorLinkReadings.NothingOnAQuietLink` | voice_agent/backends/simulator/real.py:408-495 | Over every run an order is staged, and a state reported, only on a reading with a frame at most staleAfter before it, and for a report with the scenario loaded |
| `SimulatorLinkReadings.RefusedIffNoFreshLink` | voice_agent/backends/simulator/real.py:393-495 | With the lock free a call is let in if and only if the link is CONNECTED, and its order is staged, or its state reported, if and only if its reading is fresh |
| `SimulatorLinkReconnect.MissingSessionIsBuilt` | voice_agent/backends/simulator/real.py:317-321 | The cycle after a session was dropped builds another one, CONNECTING |
| `SimulatorLinkReconnect.BuiltSessionIsAdopted` | voice_agent/backends/simulator/real.py:206-228 | A build that opened a session makes it `_wrapper`, to be read next |
| `SimulatorLinkReconnect.FailedSessionIsDropped` | voice_agent/backends/simulator/real.py:349-361 | A snapshot that raises costs the session: it is stopped, the state is CONNECTING, and the supervisor backs off |
| `SimulatorLinkReconnect.FailedBuildIsForgotten` | voice_agent/backends/simulator/real.py:349-361 | A build that failed leaves nothing pending, and the supervisor backs off |
| `SimulatorLinkReconnect.ConnectStartsOneIffNoneLives` | voice_agent/backends/simulator/real.py:254-261 | connect() starts a supervisor if and only if none is alive, and otherwise only kicks the one there is |
| `SimulatorLinkReconnect.KickEndsTheBackoff` | voice_agent/backends/simulator/real.py:363-371 | A kick ends a backoff at once and is spent by it; the next delay is doubled all the same |
| `SimulatorLinkReconnect.KickStaysUntilSpent` | voice_agent/backends/simulator/real.py:254-371 | In every run a kick stays until a backoff ends, by its time, by the kick or by a cancellation, or until the session is found healthy; no other step of any task spends it, and none but connect() with a live supervisor gives it |
| `SimulatorLinkReconnect.SupervisorWaitsForLockAndBuildOnly` | voice_agent/backends/simulator/real.py:308-371 | In every run a live supervisor can go on, but for a lock that another task has and a build that is not over; a cancelled one can end |
| `SimulatorLinkClient.RealSimulatorClient.SetState` | voice_agent/backends/simulator/real.py:171-186 | The listener is told of every change and of changes only |
| `SimulatorLinkClient.RealSimulatorClient.DropSession` | voice_agent/backends/simulator/real.py:236-239 | The session is forgotten and stopped together |
| `SimulatorLinkClient.RealSimulatorClient.Await` | voice_agent/backends/simulator/real.py:430-455 | What the client sees at an await, time passing and frames arriving, is a run of the step system |
| `SimulatorLinkClient.RealSimulatorClient.Round` | voice_agent/backends/simulator/real.py:440-455 | One round of the loop acknowledges, gives up, or sleeps on, and the step system goes the same way |
| `SimulatorLinkClient.RealSimulatorClient.Confirm` | voice_agent/backends/simulator/real.py:438-455 | The polling loop terminates: it acknowledges with two frames more than before and the session in place, or declares the link stale and stops the session with the order in it; it ends with the first poll that shows the frames or comes with the budget spent, as an acknowledgement if and only if that shows them |
| `SimulatorLinkClient.RealSimulatorClient.StageAndConfirm` | voice_agent/backends/simulator/real.py:408-455 | The whole command: refused with nothing staged if and only if not connected, or if at the first read no frame had come or the last one was more than staleAfter ago; otherwise acknowledged with the order held by the same session, or failed with that session stopped, by the first poll that decides it; and the step system has a run from the same start to the same end |
| `SimulatorLinkRefinement.ReachedByTheClient` | voice_agent/backends/simulator/real.py:408-455 | From a reached state the client leads to reached states, so that what is proved of all runs of the step system holds of it |
| `SimulatorLinkSafety.AtMostOneSupervisor` | voice_agent/backends/simulator/real.py:254-261 | No two supervisors are alive at once, in any run |
| `SimulatorLinkSafety.NoOrphanSession` | voice_agent/backends/simulator/real.py:206-239 | Whenever the lock is free the started and not stopped sessions are exactly `_wrapper`, if cancellation comes from disconnect() only |
| `SimulatorLinkSafety.DisconnectNeverInterruptsABuild` | voice_agent/backends/simulator/real.py:278-304 | disconnect() never finds a build to reap that it has itself interrupted, because builds need its lock |
| `SimulatorLinkSafety.OrphansAreLostBuilds` | voice_agent/backends/simulator/real.py:206-239 | With cancellations from elsewhere and the lock free, every live session is `_wrapper`, the pending build's, or of a lost build; nothing is lost if and only if no pending build was overwritten |
| `SimulatorLinkOrphans.NobodyHoldsItIffLost` | voice_agent/backends/simulator/real.py:206-239 | With cancellations from elsewhere and the lock free, a live session is neither `_wrapper` nor the pending build's if and only if its build is a lost one |
| `SimulatorLinkOrphans.CancelLeavesTheBuildPending` | voice_agent/backends/simulator/real.py:217-228 | A supervisor cancelled from elsewhere at the build leaves that build recorded as pending, the lock free and no supervisor alive |
| `SimulatorLinkOrphans.NextDisconnectStopsIt` | voice_agent/backends/simulator/real.py:278-306 | From there, over every run without a connect(), the disconnect() that returns has awaited the build and stopped its session: no session lives on but those lost before |
| `SimulatorLinkOrphans.ConnectFirstLosesIt` | voice_agent/backends/simulator/real.py:254-261 | If connect() comes first, the first step of the new supervisor loses the build |
| `SimulatorLinkOrphans.LosableIffConnect` | voice_agent/backends/simulator/real.py:217-261 | Every run that loses the build has a connect(), and there is a run that loses it |
| `SimulatorLinkSafety.LostSessionLivesOn` | voice_agent/backends/simulator/real.py:286-306 | No later step stops the session of a lost build, disconnect() included |
| `SimulatorLinkWitnesses.OutsideCancelCanLeak` | voice_agent/backends/simulator/real.py:217-228 | A concrete run with a cancellation from elsewhere, followed by connect(), that ends with such a session |
| `SimulatorLinkSafety.StateMatchesSession` | voice_agent/backends/simulator/real.py:308-361 | Whenever the lock is free, CONNECTED means a live session, STALE and DISCONNECTED mean none |
| `SimulatorLinkSafety.SessionStaysUnderCommand` | voice_agent/backends/simulator/real.py:393-455 | From its pre-check to its return a command or query keeps the same session as `_wrapper`, with the link connected |
| `SimulatorLinkSafety.ListenerHearsThePath` | voice_agent/backends/simulator/real.py:171-186 | The listener hears the path of states with no two equal neighbours and the current one last; CONNECTED only after CONNECTING, STALE only after CONNECTED, never CONNECTED straight after STALE |
| `SimulatorLinkSafety.BackoffDoublesUpToTheCap` | voice_agent/backends/simulator/real.py:315-361 | The n-th delay in a row is min(initial * 2^n, max), and the initial one after a healthy cycle |
| `SimulatorLinkSafety.KicksBoundShortBackoffs` | voice_agent/backends/simulator/real.py:254-256 | No more backoffs are cut short than connect() found a running supervisor |
| `SimulatorLinkDisconnect.DisconnectIsNeverStuck` | voice_agent/backends/simulator/real.py:286-306 | disconnect() awaits the cancelled supervisor with the lock held, and what it awaits is always possible without the lock and brings its return closer |
| `SimulatorLinkDisconnect.NoStepSendsDisconnectBack` | voice_agent/backends/simulator/real.py:286-306 | No step of any other task moves a disconnect() that holds the lock away from its return |
| `SimulatorLinkDisconnect.DisconnectReturns` | voice_agent/backends/simulator/real.py:286-306 | Taking the awaited step keeps disconnect() in possession of the lock until it has returned |
| `SimulatorLinkDisconnect.DisconnectLeavesQuiet` | voice_agent/backends/simulator/real.py:278-306 | On return the link is DISCONNECTED, with no supervisor, and no session or build but lost ones |
| `SimulatorLinkDisconnect.QuietUntilConnect` | voice_agent/backends/simulator/real.py:278-306 | Until the next connect() no session is built and nothing is staged, over every run |
| `Splitting.SplitBlockText` | voice_agent/kb/ingestion/chunking.py:95-119 | The pieces, joined, are the block once white space is ignored |
| `Splitting.SplitBlockWithin` | voice_agent/kb/ingestion/chunking.py:95-119 | No piece is longer than the limit |
| `Splitting.SplitBlockTidy` | voice_agent/kb/ingestion/chunking.py:95-119 | The pieces of a stripped block that is not empty are stripped and not empty |
| `Splitting.ShortPartsOfTheBlockStayWhole` | voice_agent/kb/ingestion/chunking.py:97-106 | A paragraph, line or sentence that fits is one of the pieces, where its pattern is the first to give several parts of which one fits |
| `Splitting.LongPartsAreSplitFurther` | voice_agent/kb/ingestion/chunking.py:97-106 | A part that does not fit is split as if it were alone, by all patterns again, and its pieces stand in its place |
| `SplittingParts.PartsAreSplit` | voice_agent/kb/ingestion/chunking.py:97-100 | re.split for each of the three patterns: parts and gaps in turn are the block, each gap is a match that begins where it first can and is as long as can be, and no part has a match inside |
| `SplittingWords.UnsplitBlockIsCutAtASpace` | voice_agent/kb/ingestion/chunking.py:108-119 | A block that no pattern splits, and that is too long, begins with the piece up to the last space among its characters 1 to max, or with max characters if there is none; the rest is cut alike |
| `SplittingWords.WordsStayWhole` | voice_agent/kb/ingestion/chunking.py:95-119 | A word between spaces of at most max characters comes out whole, in one piece and in its place |
| `SplittingWords.RawChunksKeepWords` | voice_agent/kb/ingestion/chunking.py:95-147 | No raw chunk begins or ends inside a word of the text of at most 725 characters |
| `Splitting.SplitBlockByLoops` | voice_agent/kb/ingestion/chunking.py:95-119 | The recursion over loops terminates, each part being shorter, and computes the specified pieces |
| `Chunking.RawChunks` | voice_agent/kb/ingestion/chunking.py:137-147 | The merged chunks have at most 725 characters and keep all other characters than white space in order |
| `Chunking.MergeIsGreedy` | voice_agent/kb/ingestion/chunking.py:137-147 | No two neighbouring raw chunks would have fitted into one |
| `ChunkingShape.RawChunksAreGroups` | voice_agent/kb/ingestion/chunking.py:137-147 | A raw chunk is a run of pieces, a line each, that the first piece of the next one did not fit into any more; all pieces are there in order |
| `Chunking.TrimCuts` | voice_agent/kb/ingestion/chunking.py:149-162 | The trim keeps a prefix of more than 85 % of the chunk that ends in a sentence end |
| `ChunkingShape.TrimIs` | voice_agent/kb/ingestion/chunking.py:149-164 | A chunk is cut behind the last match of the sentence-end pattern in its last 15 %, if more than five characters follow, and otherwise stays as it is |
| `ChunkingShape.LastChunkIsLong` | voice_agent/kb/ingestion/chunking.py:166-171 | Of several raw chunks a last one below 400 characters, and only such a one, goes to the one before; so the last merged chunk is never short, and one that took in a tail has more than 600 |
| `Chunking.WholeTextIffUntrimmed` | voice_agent/kb/ingestion/chunking.py:149-169 | The merged chunks, before overlaps are added, hold the whole text if and only if no chunk was trimmed |
| `ChunkCoverage.OverlapsBringNothingBack` | voice_agent/kb/ingestion/chunking.py:171-183 | But for newlines, a character is in some chunk put out if and only if it is in some merged chunk: the overlaps add none |
| `ChunkCoverage.ChunksHoldWhatIsLeft` | voice_agent/kb/ingestion/chunking.py:125-183 | A character of a text is in some chunk put out if and only if the trim leaves it in some raw chunk |
| `ChunkCoverage.CoveredIffNotCutOff` | voice_agent/kb/ingestion/chunking.py:125-183 | A character that occurs once in the text is in some chunk put out if and only if the trim did not cut it off its raw chunk |
| `ChunkCoverage.AllIsCoveredIffUntrimmed` | voice_agent/kb/ingestion/chunking.py:125-183 | If the characters of a text are all different, white space aside, the chunks put out hold all of them if and only if no raw chunk was trimmed |
| `ChunkingWitness.TextIsLost` | voice_agent/kb/ingestion/chunking.py:125-183 | A concrete document with a letter that is in none of the chunks put out: the overlap does not cover again what the trim cut off |
| `Chunking.OverlapIsSuffix` | voice_agent/kb/ingestion/chunking.py:172-182 | The overlap is a suffix of the chunk before, of at most 75 characters |
| `ChunkingShape.OverlapIs` | voice_agent/kb/ingestion/chunking.py:173-182 | The overlap is what follows the first newline in the last 75 characters of the chunk before, or else the first space, or else all of them |
| `Chunking.ChunksOfText` | voice_agent/kb/ingestion/chunking.py:125-183 | A stripped text that is not empty is always chunked; chunk i is an overlap, a newline and merged chunk i, of at most 801 characters, the last of at most 1201 |
| `Chunking.RaisesIffNothingToChunk` | voice_agent/kb/ingestion/chunking.py:132-183 | Chunking raises if and only if the text is empty, or all white space and longer than the limit |
| `Chunking.ChunkParagraphAware` | voice_agent/kb/ingestion/chunking.py:125-183 | The loops of the chunker compute the specified chunks, or raise its error |
| `FixedWindows.ChunkFixedSize` | voice_agent/kb/ingestion/chunking.py:186-198 | The window loop terminates with 1 + ceil(max(0, n - 800) / 725) windows at multiples of 725 |
| `FixedWindows.WindowsReassemble` | voice_agent/kb/ingestion/chunking.py:186-198 | Dropping 75 characters of each window but the first gives the text back |
| `FixedWindows.EveryPositionIsCovered` | voice_agent/kb/ingestion/chunking.py:186-198 | Every position is in a window |
| `FixedWindows.OnlyNeighboursShareAPosition` | voice_agent/kb/ingestion/chunking.py:186-198 | A position is in two windows at most, neighbours, and only in their overlap |
| `FixedWindows.OffsetsIncrease` | voice_agent/kb/ingestion/metadata.py:78-85 | Whatever the chunks, start_char strictly increases |
| `FixedWindows.WindowsAreFound` | voice_agent/kb/ingestion/metadata.py:78-85 | For windows the search always succeeds, at most at 725 * i, and end_char never passes the text |
| `FixedWindows.OffsetIsTrueIff` | voice_agent/kb/ingestion/metadata.py:78-85 | One start_char is 725 * i if and only if the 80-character key does not occur from where the search begins up to there |
| `FixedWindows.OffsetsAreTrueIff` | voice_agent/kb/ingestion/metadata.py:78-85 | The first n offsets are all true if and only if none of these windows begins with 80 characters that occur in the text after the start of the window before it and before its own |
| `FixedWindows.OffsetCanBeWrong` | voice_agent/kb/ingestion/metadata.py:78-85 | In a text of one repeated character the second window is located at 1 |
| `ChunkIds.IdReadsBack` | voice_agent/backends/llm/langgraph_helmsman/helpers.py:265-268 | A printed id gives its number back, for every natural number |
| `ChunkIds.ParseIdIff` | voice_agent/backends/llm/langgraph_helmsman/helpers.py:265-268 | An id reads as a number if and only if it is the prefix and digits of that value, with or without leading zeros, and perhaps a newline at the end |
| `ChunkIds.IdsAreDistinct` | voice_agent/kb/ingestion/metadata.py:93 | No two indices print the same id |
| `ChunkIds.IdsAreOrdered` | voice_agent/kb/ingestion/metadata.py:93 | Below 1000 ids sort as strings like their numbers |
| `ChunkIds.IdsAreSortedIff` | voice_agent/kb/ingestion/metadata.py:93 | The ids of a batch sort as strings like their numbers if and only if there are at most 1000 |
| `ChunkIds.IdsAreMisordered` | voice_agent/kb/ingestion/metadata.py:93 | chunk_1000 sorts before chunk_101 |
| `ChunkIds.PointIdsAreDisjointIff` | voice_agent/kb/ingestion/metadata.py:107 | Two batches share no point id if and only if the earlier has at most 1000 chunks for each millisecond between them |
| `Metadata.WordCountsAgreeIff` | voice_agent/kb/ingestion/metadata.py:98-164 | The word count of an edit agrees with that of a fresh chunk if and only if the text is stripped and not empty |
| `Metadata.CompleteMetadata` | voice_agent/kb/ingestion/metadata.py:48-110 | The loop over search_from attaches the specified record to every chunk, or raises on none |
| `Metadata.RecordsAre` | voice_agent/kb/ingestion/metadata.py:77-110 | A record starts where the first 80 characters of its chunk next occur behind the start of the record before, or right behind that, ends after the length of the chunk, and has its text, length, words, page, point id and document |
| `Metadata.WindowsAreLocatedIff` | voice_agent/kb/ingestion/metadata.py:77-110 | The first n records of a fixed-size chunking start at 725 * i if and only if none of these windows begins with 80 characters that occur between the start of the window before and its own; then each record is the text at its offsets |
| `Metadata.WordsAreCounted` | voice_agent/kb/ingestion/metadata.py:98 | The word count is the number of places where a word begins |
| `Metadata.MetadataIncreases` | voice_agent/kb/ingestion/metadata.py:77-110 | Start offsets and point ids strictly increase, chunk ids differ and read back as the index, and two chunks share a page exactly as its halves |
| `Metadata.ApplyDecisions` | voice_agent/kb/ingestion/metadata.py:128-175 | The dictionary of decisions and the loop over the chunks compute the review defined by the last decision for each id |
| `Metadata.ReviewConserves` | voice_agent/kb/ingestion/metadata.py:144-175 | Every chunk is counted exactly once, and the kept ones are those approved or edited |
| `Metadata.CountersAre` | voice_agent/kb/ingestion/metadata.py:144-175 | Each counter is the number of chunks of which the last decision naming them says so, in any case of letters; an edit to fewer than 50 characters is a rejection and no action an approval |
| `Metadata.KeptInOrder` | voice_agent/kb/ingestion/metadata.py:144-175 | Kept is an order-preserving selection of exactly the chunks whose last decision does not reject them; an edited one has the stripped text with its length and words, any other is as it was |
| `Metadata.EditsAreLong` | voice_agent/kb/ingestion/metadata.py:154-168 | An edit has at least 50 characters, is stripped, and changes the text, its length and its word count only |
| `Metadata.DecisionIsIgnored` | voice_agent/kb/ingestion/metadata.py:139-146 | A decision for an unknown id, or one replaced by a later one, changes nothing wherever it stands |
| `Metadata.NothingIsDroppedSilently` | voice_agent/kb/ingestion/metadata.py:145-150 | A batch without decisions is kept whole |
| `Sorting.SortSorts` | voice_agent/kb/ingestion/store.py:142-146 | The sort of batches and chunks is ordered and a permutation |
| `Store.BatchReadsBackIff` | voice_agent/kb/ingestion/store.py:84-162 | A new batch is read back with all its chunks, and in index order if and only if it has at most 1000 |
| `Store.WritingSparesOthers` | voice_agent/kb/ingestion/store.py:102-106 | INSERT OR REPLACE of a batch leaves every other batch as it was |
| `Store.DeletingSparesOthers` | voice_agent/kb/ingestion/store.py:164-169 | Deleting a batch empties it and leaves every other batch as it was |
| `Store.IngestionStore.WritePendingBatch` | voice_agent/kb/ingestion/store.py:84-106 | The rows are upserted one by one and the primary key stays unique |
| `Store.UpsertIs` | voice_agent/kb/ingestion/store.py:102-106 | INSERT OR REPLACE leaves the new row and all rows with another key |
| `Store.WrittenRowsAre` | voice_agent/kb/ingestion/store.py:84-106 | Of a new batch there is one pending row for each chunk, in order, with the time of the call |
| `Store.BatchChunksAre` | voice_agent/kb/ingestion/store.py:149-162 | get_batch_chunks gives the chunks of the pending rows of the batch, and no others |
| `Store.BatchChunksAreSorted` | voice_agent/kb/ingestion/store.py:149-162 | and gives them sorted by chunk id |
| `Store.IngestionStore.DeleteBatch` | voice_agent/kb/ingestion/store.py:164-169 | Exactly the rows of the batch are gone, and the primary key stays unique |
| `Store.IngestionStore.InsertAudit` | voice_agent/kb/ingestion/store.py:173-191 | A row is appended under an id above all earlier ones |
| `Store.IngestionStore.ListPendingBatches` | voice_agent/kb/ingestion/store.py:108-147 | Each pending batch is listed once, newest first, with the time of its first row, its count and exactly the chunks that get_batch_chunks gives |
| `Engine.IngestionEngine.RunIngest` | voice_agent/kb/ingestion/engine.py:97-153 | One ingest has the specified effect on both tables, error paths included |
| `Engine.IngestionEngine.ResumeBatch` | voice_agent/kb/ingestion/engine.py:181-263 | One resume has the specified effect and reply: unknown, all rejected, failed, or indexed |
| `EngineRuns.ResumeSettles` | voice_agent/kb/ingestion/engine.py:181-263 | A resume accounts for every chunk of its batch as its last decision says, and is audited, under the file of the batch, if and only if it did not raise |
| `EngineRuns.IndexedIsKept` | voice_agent/kb/ingestion/engine.py:181-250 | A resume indexes what the review kept, in order and under its batch, all or nothing |
| `EngineRuns.NothingRejectedIsIndexed` | voice_agent/kb/ingestion/engine.py:181-250 | No chunk is indexed whose last decision rejects it |
| `EngineRuns.UploadProduces` | voice_agent/kb/ingestion/engine.py:97-146 | An upload that gets as far has one record for each chunk, of the strategy asked for in any case of letters or else by paragraphs, with the summary and the name of the strategy |
| `EngineRuns.ChunksAreConserved` | voice_agent/kb/ingestion/engine.py:97-263 | Over every run of uploads and resumes, stored chunks are those pending, reviewed, or abandoned by a failed finalize |
| `EngineRuns.StepSparesOthers` | voice_agent/kb/ingestion/engine.py:97-263 | An upload or a resume leaves every other batch alone |
| `EngineRuns.ReviewGetsTheUpload` | voice_agent/kb/ingestion/engine.py:134-190 | After any run on other batches a review of up to 1000 chunks gets exactly what the upload produced, in order |
| `EngineRuns.WholeDocumentIsIndexed` | voice_agent/kb/ingestion/engine.py:97-263 | From end to end: a document uploaded in fixed-size windows and resumed without decisions is indexed whole and in order, whatever happened to other batches meanwhile, and the indexed texts without their overlaps are the cleaned text |
| `EngineRuns.ResumeIsOneShot` | voice_agent/kb/ingestion/engine.py:181-200 | Only one resume of a batch ever does anything; all later ones find it unknown and change nothing |
| `EngineRuns.UploadLeavesATraceIff` | voice_agent/kb/ingestion/engine.py:108-153 | An upload leaves an audit row of its kind of failure or a pending batch, unless its text is empty once cleaned: then chunking raises outside the handlers and nothing is left |
| `EngineRuns.FailedFinalizeIsSilent` | voice_agent/kb/ingestion/engine.py:197-250 | A finalize that fails has removed the batch and writes no audit row |
| `EventBus.EventsAreAccounted` | voice_agent/api/events.py:169-190 | Over every run, events offered to a subscriber are those taken, queued and dropped, and its queue never passes the bound |
| `EventBus.RoomMeansDelivery` | voice_agent/api/events.py:186-190 | After any run an event goes to the end of the queue of a subscriber that is unbounded or below its bound, and is counted as dropped for it otherwise |
| `EventBus.EventsComeInOrder` | voice_agent/api/events.py:179-190 | What a subscriber took and has queued is an in-order selection of what it was offered |
| `EventBus.DropsAddUp` | voice_agent/api/events.py:164-190 | The drop counter is the sum over all subscribers there ever were |
| `EventBus.OthersDoNotInterfere` | voice_agent/api/events.py:179-190 | A subscriber's queue, stream and drops are the same in the run without the moves of the others |
| `EventBus.EventBus.Subscribe` | voice_agent/api/events.py:169-173 | A new empty queue is subscribed, and nothing else changes |
| `EventBus.EventBus.Unsubscribe` | voice_agent/api/events.py:175-177 | The queue is no longer subscribed; idempotent |
| `EventBus.EventBus.OfferToAll` | voice_agent/api/events.py:186-190 | In whatever order the set is visited, every queue with room gets the event and the full ones are counted |
| `EventBus.EventBus.Publish` | voice_agent/api/events.py:179-190 | Publishing is the step of the bus that the run properties are about |
| `EventBus.Consume` | voice_agent/api/events.py:154-173 | A client that gets an event from its queue makes the take step of the bus |
| `FrameDedup.WindowIsTheLastAccepted` | voice_agent/metrics.py:146-160 | The deque holds the last 512 ids taken for new, all different |
| `FrameDedup.AgreesWithUnboundedIff` | voice_agent/metrics.py:151-160 | The answers are those of a set that forgets nothing if and only if every repeat comes before 512 further new ids |
| `Latency.CountedOnceIff` | voice_agent/metrics.py:162-168 | Each downstream frame is counted at its first crossing, and only there if and only if its crossings come in time |
| `Latency.OnlyNewFramesCount` | voice_agent/metrics.py:162-202 | After any calls the tracker is what the frames let through, downstream and new, make of it |
| `Latency.LatencyTracker.IsNew` | voice_agent/metrics.py:151-160 | Deque and set stay equal as sets, and the answer is whether the id is in neither |
| `Latency.LatencyTracker.OnPushFrame` | voice_agent/metrics.py:162-202 | One call is the specified step of tracker and deque: nothing for an upstream or known frame |
| `Latency.LatencyTracker.FinalizeTurn` | voice_agent/metrics.py:204-232 | The open turn is completed, counted, written and published once |
| `Latency.LatencyTracker.FinalizeSession` | voice_agent/metrics.py:234-256 | The summary is written once |
| `Latency.OpenTurnIs` | voice_agent/metrics.py:171-202 | A turn is open if and only if no TTSStopped came since the last end of speech; each stamp is the time of the first frame of its kind since; its index is the number of turns closed |
| `Latency.ClosedTurnIs` | voice_agent/metrics.py:200-210 | A completed turn has the stamps of the frames from its end of speech to its TTSStopped |
| `Latency.StampsLieWithinTheTurn` | voice_agent/metrics.py:162-210 | After any calls by a clock that does not go back, dedup included, completed turn k has index k and its stamps lie between its end of speech and its finish |
| `Latency.FileIs` | voice_agent/metrics.py:204-250 | The file has a line for each turn in order and one summary, of the turns completed before the first End or Cancel |
| `Latency.PartsAddUp` | voice_agent/metrics.py:52-104 | With all stamps there the three parts add up to voice-to-voice, and their rounded values within 0.2 ms; the whole and the first part are never negative |
| `Dispatch.CallsFollowTheOrder` | voice_agent/actions/dispatch.py:159-198 | Starboard is positive and port negative; a named order goes out as it is, a speed never asks for the other direction; only helm, telegraph and questions make a call |
| `Dispatch.SaidIs` | voice_agent/actions/dispatch.py:126-223 | The words of the model are said, but for a course order, a call that raised, and a question, which gets the reading that was asked for behind them |
| `ActionProcessor.TurnHasOneVerdict` | voice_agent/actions/processor.py:102-206 | A turn has one reply, first, which is the spoken line, and at most one verdict; a refusal with the spoken line as reason if and only if a course was ordered or the call raised |
| `ActionProcessor.TurnPublishes` | voice_agent/actions/processor.py:102-206 | All events of a turn, by kind of action and end of the call, the new state of the ship included |
| `ActionProcessor.SpokenIs` | voice_agent/actions/processor.py:102-113 | What is spoken: the stripped words, or the fixed line where nothing is left of them |
| `ActionProcessor.AuditTrailIsTheShipsLog` | voice_agent/actions/processor.py:119-192 | Over every run the rudder and telegraph orders reported as dispatched are exactly those the simulator carried out, in order |
| `ActionProcessor.CallsComeFromReplies` | voice_agent/actions/processor.py:83-113 | Over every run the simulator is called for what the replies ask, once for each, in their order, and for nothing else |
| `ActionProcessor.CapturesTheReply` | voice_agent/actions/processor.py:83-94 | Capturing is from a Start to the next End, and what is parsed are the texts since that Start, in order |
| `ActionProcessor.OnlySpokenLinesGoOut` | voice_agent/actions/processor.py:74-100 | No text of a reply goes out as it came: out go the other frames and one Start/Text/End triple for each reply that ended |
| `ActionProcessor.RepliesAreTheLines` | voice_agent/actions/processor.py:102-131 | Each reply that ended is published once, as the line that is spoken |
| `ActionProcessor.JsonActionProcessor.ProcessFrame` | voice_agent/actions/processor.py:74-100 | One frame has the specified effect on the buffer, the frames pushed, the events and the calls |
| `ActionProcessor.JsonActionProcessor.Resolve` | voice_agent/actions/processor.py:102-113 | Parse failure, dispatch and publication, in this order |
| `ActionProcessor.JsonActionProcessor.PublishTurnEvents` | voice_agent/actions/processor.py:119-206 | The events of a turn, by kind of action and result |
| `Retrieval.Rerank` | voice_agent/backends/llm/langgraph_helmsman/helpers.py:214-246 | Reranking a list that is not empty gives one to three of its chunks, whatever the model said |
| `Retrieval.LabelsAreFollowed` | voice_agent/backends/llm/langgraph_helmsman/helpers.py:214-234 | The first three labels of the model that name a chunk, counted from one, are followed in their order; if none does, the first three chunks are taken |
| `Retrieval.NeighbourIds` | voice_agent/backends/llm/langgraph_helmsman/helpers.py:253-279 | For every file of a winner, exactly the ids before and after its winners, each once |
| `Retrieval.PlacesAre` | voice_agent/backends/llm/langgraph_helmsman/helpers.py:262-268 | A winner counts if it has a file name and an id that reads as a number |
| `Retrieval.MergeNeighbours` | voice_agent/backends/llm/langgraph_helmsman/helpers.py:282-320 | The loops compute winners and admissible neighbours, each key at its first hit |
| `Retrieval.MergedAre` | voice_agent/backends/llm/langgraph_helmsman/helpers.py:282-320 | Merged are winners and points with an id that are not of the file "__no_winners__"; of each there is a hit with its key, and no two with its file and id |
| `Retrieval.MergedContext` | voice_agent/backends/llm/langgraph_helmsman/helpers.py:282-320 | The winners come first in order, no key twice, and no key of a winner or admissible neighbour is missing |
| `Retrieval.KeysAreDistinct` | voice_agent/backends/llm/langgraph_helmsman/helpers.py:293-303 | For hits with a file and a printed id the merge key is the same if and only if file and number are |
| `Retrieval.KeysCollideIff` | voice_agent/backends/llm/langgraph_helmsman/helpers.py:293-303 | Hits of different files with given ids can share a key if and only if the ids differ and one of them, with its separator, is the end of the other with its separator |

## Left out

Of the simulator link:

- Assumed of the wrapper: `stop()` stops a session, and a session delivers its setpoints with each frame, as `wrapper_api.py:25-29` has it. The vendored wrapper itself is not part of this model.
- The FIFO order of the lock and the length of sleeps: a waiting task may take the free lock in any order and a sleep without bearing on a property may end at any time, so there are more runs in the model than in the program.
- Cancellation of a command, and of the supervisor from elsewhere at any await but that of the build: the code defines no outcome there.
- A listener that raises, log lines, `close()`, `build_simulator`, and the wait of `connect()` for the link after it has released the lock.
- SimulatorLinkClient.RealSimulatorClient.StageAndConfirm: the calls into the wrapper do not raise here; the step system has the runs in which they do. Frames come at the end of an await.

Of ingestion:

- `clean_pdf_text` but for its final `strip()`, PDF extraction, the summary and its prompt, Qdrant and the embedding server: they are parameters of an upload or a resume.
- Regular expressions: separators are runs of white space after the given characters and a sentence end is a predicate. `float` rounding: `int(len * 0.85)` is `85 * len / 100` rounded down.
- JSON: a row holds the chunk that it encodes. Decisions whose fields have other types than text. `str.lower()` beyond ASCII, which makes no difference to the actions recognised.
- `compute_avg_len`, `query_audit`, the splitting of the categories, the names of strategies beyond the dispatch, the choice of the collection, and the shape of points: they would only add easy members.
- EngineRuns.ResumeIsOneShot: claimed of resumes of one batch that do not overlap; between the read and the delete there is an await, so two overlapping ones may both go on.
- EngineRuns.ReviewGetsTheUpload: new batch ids are taken to be unused; the source makes them of the clock and a random suffix.
- Store.IngestionStore.ListPendingBatches: rows are scanned in insertion order, which SQL does not promise; it decides only the order of batches with equal time stamps and which row names the batch.

Of streaming and retrieval:

- EventBus.EventBus.Publish: the loop over the subscribers is the method OfferToAll. `UserTranscriptObserver`, the API around the bus, and a consumer that waits on an empty queue.
- Latency.PartsAddUp: exact reals stand for floats, and rounding to a tenth may go either way on a tie.
- `percentiles`: the summary is the list of turns that it is computed from. `ConversationLogger`.
- JSON and pydantic parsing of replies: a parser is a parameter. Errors other than `SimulatorError` out of the simulator, a processor without a bus, and the details of a dispatched event beyond the action.
- The fixed lines that are spoken are names here, not texts; they are stripped and not empty in the source.
- `rrf_top3`, the remaining fields of retrieved chunks, the empty file name that a merged neighbour without one is given, the envelopes, the audit rows, and the graph around the helpers.
