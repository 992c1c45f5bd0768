# superwatcher, verified

superwatcher polls an EVM chain for event logs, notices when blocks it has already reported are
replaced (a chain reorganisation), and tells service code which blocks to handle and which to undo.
Three state machines cooperate: the *emitter* computes the next window of block numbers, the *poller*
turns the node's answers for that window into good and reorged blocks with the help of a cache (the
tracker), and the *engine* keeps a state machine per block hash that decides what service code gets to
see. A fourth component, the *reorg simulator*, builds families of chains that share block objects.

This project models the four of them in Dafny and proves what they promise, alone and together.

## How it is laid out

Each component has a module of plain functions that say what one call computes (`PollSpec`,
`EngineSpec`, `EmitterSpec`, `ReorgSimSpec`), a module of classes and methods in the shape of the code
(`Pollers`, `Engines`, `Emitters`, `ReorgSim`), each method proved to compute its function or to leave
the state its function describes, and theories about those functions:

| modules | subject |
|---|---|
| `Words`, `SortedSets`, `Types`, `Listings`, `Selections` | 64-bit arithmetic, the sorted set, shared values |
| `PollTheory`, `PollChecks`, `PollRuns`, `PollViews` | one poll; what it checks of arbitrary answers; all runs of the poller; polls of one view of the chain |
| `EngineTheory`, `EngineCalls`, `EngineRepeats` | what service code sees of one hash, for any sequence of results; which blocks it is given; how often over a run |
| `EmitterTheory`, `EmitterTurns`, `EmitterRuns`, `Sightings` | single windows and reorg episodes; what each iteration does; all runs of the emitter |
| `Handshake` | emitter and engine as two processes over unbuffered channels |
| `Alignment` | both evictions against the next window |
| `Watcher`, `WatcherSafety`, `WatcherNumbers`, `WatcherCrash` | poller and engine together |
| `WatcherRuns`, `WatcherPanics`, `WatcherRepeats`, `WatcherTwice` | emitter, poller and engine together |
| `ReorgSimTheory`, `ReorgForks`, `ReorgPaths`, `ReorgPast` | conservation of the simulator's chains; their hashes; the declared paths; what events do to the shared past |

The deepest results are `WatcherRuns.WholeRun`, `WatcherPanics.NeverPanicsIff`,
`WatcherRepeats.HandledTwiceIff`,
`WatcherSafety.EndToEnd`, `EngineTheory.ServiceTrace` with `EngineTheory.ArtifactRoundTrip`,
`EngineCalls.ServiceIsGiven`, `PollChecks.PollEnds` with `PollChecks.GoodsMadeOf`,
`PollRuns.CacheIsExact` with `PollRuns.ReorgedWereEmitted`, `PollViews.FastRefinesExpensiveOverRuns`,
`EmitterRuns.NoGaps`, `Sightings.RestartIsSafeIff`, `Handshake.HandshakeSafety` with
`Handshake.StaleReadIff`, and `ReorgSim.NewBlockChain` with `ReorgSimTheory.ChainsConserve`,
`ReorgPaths.DestinationsAgree` and `ReorgPast.PastUntouchedIff`.

## Assumptions

- The sorted set of github.com/wangjia184/sortedset is a map from keys to scored values from which a
  least-scored entry can be peeked and popped. Its score is a signed 64-bit integer, so a difference
  that wrapped below zero becomes a negative score and clears nothing (`Words.ScoreOfDifference`).
- Unsigned arithmetic wraps at 2^64, written out in `Words`. Where a theorem needs numbers and products
  below 2^63, it says so in its `requires`.
- Reorg detection is switched on (`doReorg` is true), so the poller always has a tracker.
- The client's answers, the service's replies, the head of the chain and the gateway's replies are
  inputs, arbitrary unless a theorem says otherwise. A batch of headers holds exactly the numbers
  requested or fails as a whole. Of a header only its hash is kept.
- A poll that finds conflicting hashes has no result, and the emitter panics on it. That step ends a run.

## What turned out differently from what the code or its comments suggest

- Without go-back retries the engine forgets a block's metadata in the iteration that handles it, while
  the poller still tracks the block; its reorg then makes the engine panic. The whole program never
  panics exactly when at least one retry is configured (`WatcherPanics.NeverPanicsIff`); without, a new
  program can panic in its second turn, for every start block and range. That a hash fixes its number is
  all the chain has to keep to for this: replaced hashes may come back, and logs may change.
- internal/engine/STATES.md:38-42 promises that a handled block is never passed to the service as good
  again. Over whole runs it is, exactly when it is listed again after an eviction of the engine has
  reached its number (`WatcherRepeats.HandledTwiceIff`); so it is not as long as every window starts above
  all evictions before it (`WatcherRepeats.HandledOnce`), which a reorg episode keeps to exactly until its
  last retry (`Alignment.GoBacksAgainstEviction`). `WatcherTwice.HandledTwice` is an honest run of
  three turns that passes a block twice. What internal/engine/STATES.md:46-49 promises, that no hash is
  tagged as reorged twice, holds (`WatcherSafety.NeverReorgedTwice`).
- The comment at internal/emitter/loop_emit.go:244-245 promises that a first run goes back
  `filterRange * maxRetries` blocks. The code multiplies by the retry counter, which is zero at every
  first run (`Emitters.Loop`, `EmitterTheory.FirstRunWindowIs`), and it does not stop at the head. A
  loop restarted after a failure can therefore record a block that was never polled while it existed
  (`Sightings.EarlyRestartLosesBlock`). A restart is safe in every continuation exactly when each
  recorded block above the last head was polled before while it existed (`Sightings.RestartIsSafeIff`),
  which means, unless the chain has shrunk, that the record does not exceed the last head
  (`Sightings.ReadyIsCaughtUp`).
- The artifacts collected for good blocks are appended to the list of the reorged ones
  (internal/engine/handle_results.go:124), so service code receives none with good blocks.
- A hash that comes back after it was reorged becomes Invalid and is never given to the service again
  (`EngineTheory.GoodsAtStored`).
- Blocks can be in `GoodBlocks` with their `LogsMigrated` flag set: it is copied with the fresh block
  (`PollTheory.LookedCoherent` says exactly when).
- When the engine leaves without saving, the closed sync channel releases the emitter. Its range
  computations have then read stale records exactly when it has read the record again and the unsaved
  LastGoodBlock differs from the saved one (`Handshake.StaleReadIff`); one such behaviour is
  `Handshake.StaleReadAfterEngineLeft`.
- The validation of simulator events looks at where moves start and not at where they land. An event
  that passes it, and moves each transaction at most once, leaves a shared block below the reorg block
  alone exactly when no move into that block names a transaction with a log where the move starts
  (`ReorgPast.PastUntouchedIff`, with `ReorgPast.LandingBelowAltersPast` as an instance).
- A go-back window ends before it starts when the head has dropped below it
  (`EmitterRuns.GoBackWindowNeedsHead`); the poller's downward loop over an unsigned
  counter ends exactly when its window does not start at block 0 (`Pollers.DownwardLoopEnds`).

## Model

| member | source | states |
|---|---|---|
| Words.ScoreOfDifference | internal/poller/poll.go:42-44 | the eviction bound of small numbers keeps its sign through unsigned wrap and signed cast: a difference below zero is a negative score |
| SortedSets.ClearUntil | internal/poller/tracker.go:78-87 | popping minima leaves exactly the entries scored above the bound |
| Pollers.BlockTracker.AddTrackerBlock | internal/poller/tracker.go:38-49 | the tracker holds the block at its number, everything else unchanged |
| Pollers.BlockTracker.GetTrackerBlock | internal/poller/tracker.go:52-65 | finds a block exactly when one is tracked at the number |
| Pollers.BlockTracker.RemoveBlock | internal/poller/tracker.go:67-75 | fails exactly when nothing is tracked there, and removes that entry only |
| Pollers.BlockTracker.ClearUntil | internal/poller/tracker.go:78-87 | only blocks numbered above the bound's signed score stay |
| Pollers.CollectLogs | internal/poller/utils.go:14-53 | groups the answer's logs by block in order, or reports conflicting hashes |
| PollTheory.CollectGathers | internal/poller/utils.go:14-53 | collecting fails exactly when two logs of a block disagree on its hash; otherwise each block with logs is there with all its logs, in order |
| Pollers.CollectHeaders | internal/poller/utils.go:55-92 | fails exactly when a header contradicts a block's hash; otherwise adds an empty block per new header and changes none |
| Pollers.GetHeadersByNumbers | internal/poller/header_by_number_batch.go:76-105 | all requested headers, or a failure of the batch |
| Pollers.RunPollCheap | internal/poller/poll_policy.go:115-183 | the blocks with logs, each checked against its header, and no others |
| Pollers.RunPollExpensive | internal/poller/poll_policy.go:21-111 | every block of the window, empty ones included, or the error that comes first |
| Pollers.RunPoll | internal/poller/poll.go:90-115 | the policy decides which of the two is fetched; the block policy is an error |
| PollTheory.AssembledShape | internal/poller/poll_policy.go:21-183 | fresh data is unmarked; cheap policies hold only blocks with logs, the expensive one every block of the window |
| PollTheory.AssembledErrors | internal/poller/poll.go:90-115 | fetching never ends in the internal reorg error |
| PollChecks.CheapEnds | internal/poller/poll_policy.go:115-183 | for any answers: the cheap fetch fails on hashes exactly when two logs of a block disagree, or, with all headers there, a log of the window disagrees with its header; and as a fetch exactly when logs or such a header are missing |
| PollChecks.ExpensiveEnds | internal/poller/poll_policy.go:84-107 | the same for the expensive fetch, which needs every header of the window first |
| PollChecks.PollEnds | internal/poller/poll.go:47-72 | for any answers and tracker: a poll has a result if and only if logs and headers agree and every missing block has a header, and fails on hashes if and only if they conflict |
| PollChecks.GoodsMadeOf | internal/poller/utils.go:75-89 | for any answers a poll gets through with: each good block holds all the answer's logs of its number, in order, under the hash of the node's header for it, and each fetched block of the window is there |
| PollChecks.GoesBackIff | internal/poller/poll.go:78-85 | after any run, the poll calls for going back if and only if the window's first block is among the reorged ones |
| PollChecks.ReportedIff | internal/poller/poll.go:217-234 | a tracked block of the window is reported as reorged if and only if its replacement has another hash, or more logs, or fewer |
| Pollers.CollectMissing | internal/poller/poll.go:134-148 | the downward unsigned loop ends, and lists exactly the tracked numbers without fresh data, in descending order |
| Pollers.DownwardLoopEnds | internal/poller/poll.go:136 | the downward unsigned counter gets below the window's start if and only if that is not block 0 |
| Pollers.CompletedByHeaders | internal/poller/poll.go:174-183 | headers of exactly the missing numbers contradict nothing and complete the fresh data |
| Pollers.PollMissing | internal/poller/poll.go:118-186 | fresh data for every tracked block of the window, or a fetch error when a header is missing |
| Pollers.FindReorg | internal/poller/poll.go:190-238 | marks exactly the tracked blocks whose hash or number of logs changed; fails exactly when a tracked block of the window has no fresh data |
| Pollers.HandleBlocksMissingPolicy | internal/poller/poll.go:319-342 | an emptied block leaves the Fast tracker and stays, emptied under its new hash, in the others; never fails on a tracked block |
| Pollers.AddTrackerBlockPolicy | internal/poller/poll.go:346-357 | PolicyFast never tracks a block without logs |
| Pollers.ProcessNumber | internal/poller/poll.go:254-313 | one number: the replaced tracked block is reported, the fresh one is good, the tracker is settled one number further |
| Pollers.ProcessResult | internal/poller/poll.go:243-316 | succeeds exactly when every forked block is tracked; good and reorged lists are read off the old tracker though it is updated on the way |
| Pollers.SettledStep | internal/poller/poll.go:261-312 | the final tracker, told as one entry per number, is what the loop reaches number by number |
| Pollers.Look | internal/poller/poll.go:53-67 | the reading half of a poll never ends in the internal reorg error, and forks only tracked blocks |
| Pollers.Poller.constructor | internal/poller/poller.go:33-59 | a new poller tracks nothing and has recorded nothing |
| Pollers.Poller.Poll | internal/poller/poll.go:29-88 | evict, look, compare, settle, record: state and outcome; the internal reorg error is unreachable |
| Pollers.Poller.Conclude | internal/poller/poll.go:69-87 | result out, tracker and last recorded block updated; told apart by whether the window's first block forked |
| PollTheory.LookedCoherent | internal/poller/poll.go:117-238 | any poll that gets through has fresh data for every tracked block of its window, forks exactly the changed ones, and says which carry the migrated flag |
| PollTheory.LastGoodOfLists | poll_result.go:13-36 | window end without reorgs; otherwise the block before the first reorged one, except when that one is the last good block |
| PollTheory.ReorgedIsReplaced | internal/poller/poll.go:254-313 | each reorged block is the tracked one, and its differing replacement is among the good blocks of the same result |
| PollTheory.LastGoodOfReport | poll_result.go:13-36 | every report satisfies that: the branch without good blocks is dead, and from-1 <= LastGoodBlock <= to |
| PollTheory.SettledAt | internal/poller/poll.go:307-357 | the tracker's entry at any number after a poll |
| PollRuns.StepKeepsCache | internal/poller/poll.go:29-88 | any poll, failing or not, keeps every tracked block equal to the one last emitted at its number |
| PollRuns.CacheIsExact | internal/poller/poll.go:190-357 | over every run each tracked block is the block last emitted as good at its number, with a log under PolicyFast |
| PollRuns.ReorgedWereEmitted | internal/poller/poll.go:204-313 | after any run the reorged list is, ascending, exactly the tracked blocks of the window that changed, each of them emitted before |
| PollRuns.GoodMembers | internal/poller/poll.go:307-312 | the good blocks are exactly the fresh blocks of the window, ascending |
| PollRuns.ReorgedMembers | internal/poller/poll.go:267-287 | the reorged blocks are exactly the tracked ones that forked, ascending |
| PollViews.LookedView | internal/poller/poll.go:90-186 | shown one chain, a poll sees the blocks with logs, the tracked ones, or all of them, as they are |
| PollViews.AnswersShow | internal/poller/utils.go:14-92 | every well-formed chain has answers that show it: the assumption on views is never empty |
| PollViews.PollOfView | internal/poller/poll.go:29-88 | a poll of one chain succeeds and its good blocks with logs are the chain's |
| PollViews.ReorgReportedOnce | internal/poller/poll.go:205-313 | polling any part of a window again against the same chain reports no reorg, the same blocks with logs, and the end of the part as LastGoodBlock, under every policy |
| PollViews.TrackedAsSeen | internal/poller/poll.go:307-357 | after a poll of one chain, every tracked block of the window has that chain's hash and that chain's logs |
| PollViews.SameReorgs | internal/poller/poll.go:190-287 | where the trackers agree on the window, Fast and Expensive report the same reorged blocks with logs |
| PollViews.SameTrackers | internal/poller/poll.go:318-357 | trackers that agree at a number, up to empty blocks, still agree there after a poll of one chain |
| PollViews.AgreeEverywhere | internal/poller/poll.go:344-357 | agreement at every number is that the Fast tracker is the Expensive one without its empty blocks |
| PollViews.FastRefinesExpensive | internal/poller/poll.go:90-357 | one pipeline over one chain keeps every agreement of the trackers; where they agree on the window, same reorged and good blocks among those with logs, no other reorgs from Fast |
| PollViews.TrackersAgree | internal/poller/poll.go:40-357 | over such runs the trackers agree, up to empty blocks, at every number neither has evicted |
| PollViews.FastRefinesExpensiveOverRuns | internal/poller/poll.go:29-357 | after any runs of two pollers over the same windows and chains, each evicting by its own record, a poll through a window neither has evicted into makes Fast report what Expensive reports about blocks with logs |
| Engines.BlockMetadata.Fire | internal/engine/block_metadata_states.go:74-88 | moves the shared object along the table; what the table lacks is Invalid |
| Engines.MetadataTracker.ClearUntil | internal/engine/block_metadata_tracker.go:48-65 | only metadata numbered above the bound's signed score stays |
| Engines.MetadataTracker.SetBlockMetadata | internal/engine/block_metadata_tracker.go:67-83 | stores the object under its hash, everything else unchanged |
| Engines.MetadataTracker.GetBlockMetadata | internal/engine/block_metadata_tracker.go:85-120 | returns the shared object itself; without one, a new unstored object, or a panic for a reorged block |
| Engines.Engine.SeeReorgedBlock | internal/engine/handle_results.go:37-58 | firing through the shared reference changes the stored state of that hash and of no other |
| Engines.Engine.SeeReorgedBlocks | internal/engine/handle_results.go:36-65 | the whole pass over reorged blocks, repeated hashes included; panics exactly when a hash has no metadata |
| Engines.PanicsLater | internal/engine/handle_results.go:37-39 | a panic in the reorged pass is final |
| Engines.Engine.FinishBlocks | internal/engine/handle_results.go:86-98 | fires and stores artifacts through the collected references, in order |
| Engines.Engine.SeeGoodBlock | internal/engine/handle_results.go:101-106 | looks up or makes metadata, fires, stores: one entry changes |
| Engines.Engine.SeeGoodBlocks | internal/engine/handle_results.go:100-125 | the whole pass over good blocks, repeated hashes included |
| Engines.Engine.ServeReorgedBlocks | internal/engine/handle_results.go:36-98 | reorged pass, at most one service call, and its aftermath |
| Engines.Engine.ServeGoodBlocks | internal/engine/handle_results.go:100-148 | good pass, at most one service call without artifacts, and its aftermath |
| Engines.Engine.HandleResult | internal/engine/handle_results.go:26-167 | one iteration: calls made, metadata left, LastGoodBlock saved, or how it ended early |
| EngineTheory.SeeReorgsAt | internal/engine/handle_results.go:36-65 | per stored hash: listed while Handled it is picked once with its artifacts; listed in any other state it becomes Invalid and is not picked; unlisted it stays |
| EngineTheory.SeeGoodsAt | internal/engine/handle_results.go:100-125 | per hash: a new one is picked once however often it is listed, a stored one never, and only a Handled one survives a listing |
| EngineTheory.FinishedAt | internal/engine/handle_results.go:86-98 | a hash picked once is advanced once and gets what the service returned for it; others stay |
| EngineTheory.ReorgsAtStored | internal/engine/handle_results.go:36-98 | what the service is given of a stored hash in the reorged call, and the state it ends in |
| EngineTheory.GoodsAtStored | internal/engine/handle_results.go:100-148 | a stored hash is never given to the service as good again; one that was reorged becomes Invalid |
| EngineTheory.GoodsAtNew | internal/engine/handle_results.go:100-148 | a new hash is given exactly once and keeps the returned artifacts |
| EngineTheory.ServeFits | internal/engine/handle_results.go:36-148 | one result extends the life of any hash to an admissible one that its stored state agrees with |
| EngineTheory.LoopHeadStates | internal/engine/handle_results.go:26-167 | at every loop head all stored states are Handled, HandledReorg or Invalid and agree with what the service has seen |
| EngineTheory.ServiceTrace | internal/engine/handle_results.go:37-148 | for any results, between insertion and eviction a hash is given as good at most once, and as reorged at most once and only afterwards |
| EngineTheory.ArtifactRoundTrip | internal/engine/handle_results.go:60-148 | artifacts handed over with a reorged block are those the service returned for it as good, whatever happened in between |
| EngineCalls.FiredInOrder | internal/engine/block_metadata_states.go:47-72 | events that end in a state other than Invalid came in its one order: seen, handled, sighted any number of times, seen reorged, handled as reorged |
| EngineCalls.InOrderFires | internal/engine/block_metadata_states.go:74-88 | and in that order they end in that state |
| EngineCalls.GoodsPicked | internal/engine/handle_results.go:100-125 | the good blocks picked are the listed blocks themselves, in order: the first of each hash without metadata, and no others |
| EngineCalls.ReorgsPicked | internal/engine/handle_results.go:36-65 | the reorged blocks picked are the listed blocks themselves, in order: the first of each Handled hash, and no others |
| EngineCalls.CallsFit | internal/engine/handle_results.go:68-134 | at most two calls, the reorged blocks first; each hands over exactly those blocks, and no artifacts with good ones |
| EngineCalls.CallsAreMade | internal/engine/handle_results.go:68-134 | the service is called for reorged blocks if and only if one is Handled, and for good ones, in an iteration that goes on, if and only if one has no metadata |
| EngineCalls.StepEnds | internal/engine/handle_results.go:70-164 | an iteration panics exactly when a reorged block has no metadata, otherwise goes on exactly when service and gateway consent to everything, and ends with the first refusal |
| EngineCalls.SavesLastGood | internal/engine/handle_results.go:162-164 | the block saved is the LastGoodBlock of the result just served |
| EngineCalls.ServiceIsGiven | internal/engine/handle_results.go:26-148 | over every run of the engine, the next iteration's calls hand over the right blocks of its result as they are |
| EngineRepeats.ServeStores | internal/engine/handle_results.go:36-148 | one iteration, per hash: given as good exactly when listed without metadata, stored afterwards exactly when it was stored or is listed |
| EngineRepeats.TwiceIff | internal/engine/handle_results.go:100-153 | a hash that is given when listed without metadata, and forgotten when an eviction reaches it, is given twice if and only if it is listed again after such an eviction |
| EngineRepeats.GivenTwiceIff | internal/engine/STATES.md:38-42 | over any run of the engine, a hash that fixes its number is given to the service as good more than once if and only if it is listed as good again after an eviction has reached its number |
| Emitters.ComputeWindow | internal/emitter/loop_emit.go:250-344 | which of the three windows applies, and the marks left on the previous status |
| Emitters.ComputeStatus | internal/emitter/loop_emit.go:163-239 | the new status, and what is left on the old one, with every early return |
| Emitters.IterateOnce | internal/emitter/loop_emit.go:38-156 | one iteration: skipped, emitted with a new status object, returned or panicked; the old object keeps its counter |
| Emitters.LoopEmit | internal/emitter/loop_emit.go:29-157 | the iterations until one ends the loop; the status object it was given never counts a retry |
| Emitters.Loop | internal/emitter/emitter.go:81-98 | every restart of the loop, hence every first run, begins with no retries counted |
| EmitterTheory.NormalWindowIs | internal/emitter/blocknum_utils.go:10-37 | over the integers: from max(start, min(head, last+1) - range) to min(head, last + range) |
| EmitterTheory.FirstRunWindowIs | internal/emitter/blocknum_utils.go:92-116 | from last+1 to last+range, wherever the head is: no look-back, no cap |
| EmitterTheory.ReorgingWindowIs | internal/emitter/blocknum_utils.go:39-90 | fails exactly when the retries exceed the maximum; otherwise one range further back, not below the start, and not past the old end or the head |
| EmitterTheory.EpisodeStep | internal/emitter/loop_emit.go:81-119 | one go-back poll that finds its first block reorged |
| EmitterTheory.Episode | internal/emitter/blocknum_utils.go:61-89 | after k go-back polls the start is exactly max(start, f - k * range), the end has not grown, k+1 retries are counted, k is at most the maximum |
| EmitterTheory.EpisodeEnds | internal/emitter/blocknum_utils.go:61-72 | the next attempt gives up if and only if k is the configured maximum |
| EmitterTheory.DoubleSighting | internal/emitter/blocknum_utils.go:25-36 | with a growing head, every block a normal window newly covers lies in the next window too |
| EmitterTheory.Progress | internal/emitter/blocknum_utils.go:25-36 | saving the end of each window k times gives min(head, last + k * range), the head exactly from ceil((head - last) / range) on |
| EmitterTheory.ProgressStep | internal/emitter/loop_emit.go:38-156 | and each of them is an iteration of the loop, with the record strictly growing |
| EmitterRuns.EmittedKind | internal/emitter/loop_emit.go:250-344 | every emitted window is one of the three, over the integers |
| EmitterRuns.TakeKeepsInv | internal/emitter/loop_emit.go:29-157 | what every turn and restart keeps: covered record, well-formed windows, no retries at a first run |
| EmitterRuns.NoGaps | internal/emitter/loop_emit.go:163-344 | over every run: start <= from <= to and from <= last+1 for each window, and every block from the first window's start to the record was in some window |
| EmitterRuns.GoBackWindowNeedsHead | internal/emitter/blocknum_utils.go:74-89 | a go-back window is non-empty exactly when the head is not below its start |
| EmitterRuns.StandingHeadIsReached | internal/emitter/loop_emit.go:38-156 | after k clean turns of the loop at a standing head, min(head, last + k * range) is recorded, and the head exactly when k >= ceil((head - last) / range) |
| EmitterTurns.IterationKinds | internal/emitter/loop_emit.go:163-227 | an iteration waits exactly when the head is the record and it is no first run over a record; it emits, panics or returns exactly when told |
| EmitterTurns.EmittedStatus | internal/emitter/loop_emit.go:78-91 | an emission marks a reorg and counts one retry more, or clears both |
| EmitterTurns.SessionIsChained | internal/emitter/loop_emit.go:38-156 | each iteration of the loop starts from the status the one before left, and only an error or a panic ends the loop |
| EmitterTurns.IdleTurnChangesNothing | internal/emitter/loop_emit.go:198-203 | without a new block, windows and record stay as they are |
| EmitterTurns.PolledForNewBlocks | internal/emitter/loop_emit.go:198-203 | over every run, each window was computed at a head that is not the record it was computed from, or is a first run's |
| EmitterTurns.RetriesAreStreak | internal/emitter/loop_emit.go:81-91 | over every run the retry counter is the number of polls in a row whose first block was reorged, and the reorg mark is set exactly when it is not zero |
| Sightings.TakeKeepsSightings | internal/emitter/blocknum_utils.go:92-116 | what every turn keeps of blocks polled while they existed |
| Sightings.RecordedWereSighted | internal/emitter/loop_emit.go:29-157 | over every run whose restarts wait until they are safe, every recorded block was polled while it existed |
| Sightings.RestartIsSafeIff | internal/emitter/blocknum_utils.go:104-113 | a restart loses no block in any continuation if and only if every recorded block above the last head was polled before while it existed |
| Sightings.ReadyIsCaughtUp | internal/emitter/blocknum_utils.go:112-113 | when the head has never dropped, that condition is that the record is not above the last head, or lies below all windows |
| Sightings.EarlyRestartLosesBlock | internal/emitter/emitter.go:91-95 | a concrete run: a first run beyond the head, a failing turn, a restart, and a recorded block that no poll ever saw |
| Handshake.StepKeepsInv | internal/emitter/emit.go:36-38 | what every step of either process keeps |
| Handshake.HandshakeSafety | internal/emitterclient/client.go:46-62 | in every interleaving results are handled once and in order, at most one is outstanding, every range computation reads the latest LastGoodBlock while the engine lives, and the one before it is what a gone engine leaves |
| Handshake.NoDeadlock | internal/emitter/emitter.go:108-112 | some step is enabled exactly unless the emitter is blocked in a send to an engine that has left |
| Handshake.StaleReadIff | internal/engine/handle_results.go:162-166 | in every interleaving some range computation has read a stale record if and only if the engine has left, the unsaved LastGoodBlock differs from the saved one, and the emitter has read since |
| Handshake.StaleReadAfterEngineLeft | internal/engine/handle_results.go:162-166 | a behaviour in which the emitter reads a stale record after the engine left without saving |
| Alignment.BoundsBelowNextWindow | internal/engine/handle_results.go:151-153 | for this and any earlier lower record, wrapped or not, the poller's bound stays below the next normal window's start, and with a retry or more the engine's does too |
| Alignment.PollerBoundBelowNextWindow | internal/poller/poll.go:42-44 | the poller's bound stays below the start of the next normal window, whatever the retries |
| Alignment.EngineBoundBelowPollerBound | internal/engine/handle_results.go:151-153 | the engine forgets no more than the poller if and only if at least one retry is configured |
| Alignment.GoBacksAgainstEviction | internal/engine/handle_results.go:150-153 | after k go-backs of a reorg episode the window starts above what the engine evicted when the episode began if and only if k is not the last retry, or the start block lies above that anyway |
| Alignment.GoBacksAboveEvictions | internal/engine/handle_results.go:150-153 | before its last retry an episode stays above everything evicted at its record and at lower ones |
| Alignment.NothingEvictedAbove | internal/poller/poll.go:40-45 | over every run, a number above all bounds so far is still tracked if it was emitted (with logs, under PolicyFast) |
| Alignment.ChangeInNextWindowIsReported | internal/poller/poll.go:205-235 | while the record has only grown, a block of the next window is reported as reorged if and only if it changed |
| EngineCalls.SeeReorgsPasses | internal/engine/block_metadata_tracker.go:93-104 | the reorged pass panics exactly when some listed hash has no metadata |
| Watcher.ReorgedEnds | internal/engine/handle_results.go:37-98 | a Handled block reported as reorged once ends HandledReorg |
| Watcher.NewGoodEnds | internal/engine/handle_results.go:100-148 | a new block listed once as good ends Handled under its own number |
| Watcher.CleanServe | internal/engine/handle_results.go:36-148 | on a poller's results the engine ends reorged hashes HandledReorg, good ones Handled, and touches no other |
| WatcherSafety.BoundsAligned | internal/engine/handle_results.go:151-153 | with a retry or more the engine never forgets more than the poller |
| WatcherSafety.PollFeedsEngine | internal/poller/poll.go:254-313 | every reorged block of an honest poll is Handled by the engine, and no good one was or is being retired |
| WatcherSafety.TrackerStaysHandled | internal/poller/poll.go:307-357 | every block tracked after the poll is Handled after the engine's iteration |
| WatcherSafety.RoundKeepsSound | internal/engine/handle_results.go:26-167 | one poll and iteration neither panics nor breaks the invariant that ties tracker and metadata |
| WatcherSafety.RoundEnds | internal/engine/handle_results.go:37-148 | from any sound state, what a poll reports as reorged was never reported before and ends HandledReorg, and what it reports as good ends Handled |
| WatcherSafety.EndToEnd | internal/engine/block_metadata_tracker.go:93-104 | after every honest run, what survives the next eviction is Handled, no state is Invalid, and the next round does not panic |
| WatcherSafety.EndToEndStates | internal/engine/handle_results.go:37-148 | in that round every reorged block ends HandledReorg and every good one Handled |
| WatcherSafety.NeverReorgedTwice | internal/engine/STATES.md:46-49 | after every honest run, no hash that the next poll reports as reorged was ever reported before, nor is it reported twice by that poll |
| WatcherNumbers.ServeNumbers | internal/engine/handle_results.go:36-148 | when every reorged block has metadata the iteration does not panic, adds metadata for exactly the good blocks, and keeps every number that of its hash |
| WatcherNumbers.RoundKeepsStored | internal/engine/handle_results.go:26-167 | as long as a hash fixes its number, a poll and the iteration after it neither panic nor lose the metadata of a block the poller still tracks |
| WatcherNumbers.PlainRunNeverCrashes | internal/engine/block_metadata_tracker.go:93-104 | no run in which a hash fixes its number panics, with returning hashes and changing logs included, when a retry is configured |
| WatcherCrash.CrashWithoutRetries | internal/engine/handle_results.go:151-153 | a window up to start+1, then one that holds start+1 again under a new hash, panic the engine when no retries are configured |
| WatcherCrash.NeverCrashesIff | internal/engine/block_metadata_tracker.go:93-104 | whatever the windows: no honest run panics, and no run in which a hash fixes its number panics, each if and only if at least one go-back retry is configured |
| WatcherRuns.WindowFits | internal/emitter/loop_emit.go:163-344 | every window the emitter computes in a sound system satisfies start <= from <= to, as the poller needs |
| WatcherRuns.LastGoodInWindow | internal/poller/poll.go:74-76 | the saved LastGoodBlock lies in the window or just below it |
| WatcherRuns.EngineSaves | internal/engine/handle_results.go:162-164 | in the whole program, the block the engine saves after a poll is that poll's LastGoodBlock and the poller's record |
| WatcherRuns.IdleTurnChangesNothing | internal/emitter/loop_emit.go:64-73 | in the whole program, an idle turn leaves poller, engine, windows and record as they are |
| WatcherRuns.TurnKeepsBase | internal/emitter/loop_emit.go:29-157 | emitter, poller and engine keep metadata for all tracked blocks, and the poller's record equal to the saved one, when a hash fixes its number |
| WatcherRuns.TurnKeepsInv | internal/emitter/loop_emit.go:29-157 | emitter, poller and engine together keep the joint invariant through every turn and restart |
| WatcherRuns.WholeRun | internal/engine/handle_results.go:26-167 | the whole program over every run: no metadata panic, windows well-formed without gaps below the block the engine saved, tracked blocks Handled, poller's record equal to the saved one, no state Invalid, no hash reported as reorged twice, and every turn's reorged blocks end HandledReorg and its good ones Handled |
| WatcherPanics.PanicsWithoutRetries | internal/engine/handle_results.go:151-153 | without retries a new program can panic in its second turn, for every start block, range and policy |
| WatcherPanics.NeverPanicsIff | internal/engine/block_metadata_tracker.go:93-104 | the whole program, with the windows its emitter computes, never panics for want of metadata if and only if at least one retry is configured, over honest chains and over chains on which a hash just fixes its number |
| WatcherRepeats.EngineRuns | internal/engine/handle_results.go:26-167 | the program's engine is the engine run on the results of its polls |
| WatcherRepeats.HandledTwiceIff | internal/engine/STATES.md:38-42 | over every run of the whole program in which a hash fixes its number, a hash is given as good more than once if and only if it is listed after the engine's eviction has reached its number |
| WatcherRepeats.HandledOnce | internal/engine/handle_results.go:151-153 | no hash is given twice as long as every window starts above all earlier evictions |
| WatcherTwice.HandledTwice | internal/engine/handle_results.go:151-153 | for every start block and policy, with range 1 and one retry: an honest run of three turns in which a block is given as good twice |
| ReorgSim.Block.Reorg | pkg/reorgsim/block.go:61-79 | a fresh copy under the event's hash; the block itself is untouched |
| ReorgSim.Block.RemoveLogs | pkg/reorgsim/block.go:81-92 | keeps, in place and in order, the logs of other transactions; panics exactly on a block without logs |
| ReorgSim.ReorgChain | pkg/reorgsim/chain.go:25-31 | under any visiting order, blocks from the reorg block on are fresh copies, the ones below are the same objects |
| ReorgSim.MoveOne | pkg/reorgsim/chain.go:65-94 | one move on shared objects, source and target possibly the same block; panics exactly when told |
| ReorgSim.MoveLogs | pkg/reorgsim/chain.go:41-98 | all moves of an event under any visiting order, within the blocks the event names |
| ReorgSim.Fork | pkg/reorgsim/chain.go:158-215 | shallow copy, fork, move: both fix-up branches are dead, keys are equal, and the previous chain changes exactly in shared blocks below the reorg block that a move names |
| ReorgSim.NewOriginalChain | pkg/reorgsim/chain.go:102-139 | panics exactly on a block without logs or with two hashes |
| ReorgSim.NewBlockChain | pkg/reorgsim/chain.go:144-218 | panics exactly when a chain cannot be built; with well-placed events every chain is at the end still what its events made of the original one, though blocks are shared |
| ReorgSimTheory.MoveOnceConserves | pkg/reorgsim/chain.go:76-93 | a move loses and duplicates no log |
| ReorgSimTheory.SplitsInOrder | pkg/reorgsim/block.go:81-92 | a block keeps the logs of other transactions and gives away the named ones, each in their order |
| ReorgSimTheory.MoveOrderedConserves | pkg/reorgsim/chain.go:41-98 | nor do all moves of an event in any order |
| ReorgSimTheory.ForkConserves | pkg/reorgsim/chain.go:25-31 | forking changes no log but for its hash |
| ReorgForks.HashAfter | pkg/reorgsim/block.go:61-79 | after any events a block has the hash made of its number and the seed of the last event at or below it, whatever hash it had before, or the original one if there was none; its marks say whether it was forked |
| ReorgForks.HashesTellForks | pkg/reorgsim/hash.go:10-18 | forks of a block under different seeds have different hashes, and so have different blocks under the same seed |
| ReorgForks.OriginalMarks | pkg/reorgsim/chain.go:106-136 | the original chain has the logs given under their hash, and its marks say where the first event begins |
| ReorgForks.OriginalIffOneHash | pkg/reorgsim/chain.go:117-131 | it can be built if and only if every block has logs, all of one hash |
| ReorgSimTheory.ChainsConserve | pkg/reorgsim/chain.go:144-218 | every chain has the original's blocks and its logs as a multiset up to number and hash, each log stamped with its own block |
| ReorgSimTheory.OriginalStamped | pkg/reorgsim/utils.go:88-95 | the original chain is stamped if and only if the logs were mapped by their own numbers |
| ReorgSim.MapLogsToNumber | pkg/reorgsim/utils.go:88-95 | every block number of a log maps to all its logs, in order, and no other number is there |
| ReorgSimTheory.ChainsHoldTheLogs | pkg/reorgsim/chain.go:102-218 | from a list of logs, mapped by number, to any chain: the same logs as a multiset up to number and hash, each stamped with its block |
| ReorgSimTheory.PastUntouched | pkg/reorgsim/utils.go:144-151 | whatever it names and however often, an event whose moves all start and land at or after its reorg block leaves every block below as it was |
| ReorgPast.MoveOrderedLands | pkg/reorgsim/chain.go:56-95 | a block that no move starts from only grows, at its end, and changes if and only if some log lands in it |
| ReorgPast.PastUntouchedIff | pkg/reorgsim/reorgsim_param.go:38-57 | a validated event that moves each transaction at most once leaves a block below its reorg block as it was if and only if no move into it names a transaction with a log where the move starts, whatever the visiting order |
| ReorgPast.OrderDecides | pkg/reorgsim/chain.go:56-95 | for an event that moves a transaction twice, the map's visiting order decides whether a block is altered |
| ReorgPast.LandingBelowAltersPast | pkg/reorgsim/reorgsim_param.go:38-57 | an event that passes validation, lands a log in a shared block below its reorg block, and so alters it |
| ReorgPaths.TrackEvent | pkg/reorgsim/utils.go:48-63 | an entry for each transaction an event names, told by a move that names it |
| ReorgPaths.AppendTracks | pkg/reorgsim/utils.go:71-84 | parked blocks in event order and last destination of each transaction, whatever the visiting order |
| ReorgPaths.LogsReorgPaths | pkg/reorgsim/utils.go:38-86 | the paths of all events; list and maps speak of the same transactions, each listed once, in the order of the events that first name them |
| ReorgPaths.MoveOrderedMoves | pkg/reorgsim/chain.go:41-98 | a transaction named once ends, with all its logs, in the target of that move, whatever the visiting order |
| ReorgPaths.EventMoves | pkg/reorgsim/chain.go:158-169 | a transaction an event does not name stays; one it names is at its target |
| ReorgPaths.DestinationsAgree | pkg/reorgsim/utils.go:66-86 | in the chain after any number of events, all logs of a moved transaction are in its declared destination |
| ReorgPaths.ParksAgree | pkg/reorgsim/utils.go:66-86 | the parked block an event adds held all the transaction's logs before the event, and the target holds them after it |

## Left out

- Network access, RPC batching, Redis and file gateways, logging, sleeping, context cancellation, shutdown, the command line and configuration loading: input and output only; what they return is an input of the model.
- The thin engine, the service routers, the ENS and Uniswap sub-engines and the contract bindings: they rest on ABI decoding, or forward calls.
- The simulated client of the reorg simulator (which chain it shows when), and its file readers: the chains it shows are modelled.
- `SetDoReorg(false)` and the other setters of the poller: switching reorg detection off leaves a nil tracker that the next poll dereferences.
- The policy that fetches whole blocks: the source does not implement it; only its error is modelled.
- The concurrency inside one expensive poll: its two requests do not share state, so their answers are two inputs.
- The state maps of poller, engine and simulator chains are values held in fields or variables, so two Go maps or log slices with one backing store are not distinguished; block, metadata and status objects are heap objects.
- The error channel and the wrapping of error messages: an error is modelled by what it makes the loops do.
- The nonce, time and gas fields of headers and simulator blocks: nothing modelled reads them.
- A poll or gateway that fails ends the emitter's loop, which is then restarted; runs in `EmitterRuns` and `WatcherRuns` also allow the loop to go on without a restart, which includes more runs than the source has.
- PastUntouchedIff: speaks of events that move each transaction at most once, because for others no condition on chain and event alone exists (`ReorgPast.OrderDecides`); `ReorgSimTheory.PastUntouched` covers them one way.
- Detection of reorgs below an earlier eviction bound after the recorded block has dropped: not promised by the source; `Alignment.ChangeInNextWindowIsReported` says what is detected while the recorded block is at its highest.
