# VoClyp: verified model

VoClyp records showroom conversations, turns each into an insight, and delivers that insight to
webhooks, a CRM and messaging channels. What it promises is about its durable state: an insight
and its event commit together, every subscriber gets one delivery row per event, audio survives until
the insight is committed and is gone once the document is returned, no financing figure reaches a
customer unchecked, and the logs cannot be rewritten unnoticed. This project models that state and the algorithms around
it in Dafny, and proves those promises over every run, or says exactly when the code keeps them.

`dafny verify dfyconfig.toml` checks the whole project.

## How the model is built

Where the program is a state machine, the tables are one value (`State`), everything that can
happen is a `Step`, and a run is any list of enabled steps; invariants and histories are lemmas
about all runs. The classes are the program's objects, with its loops, branches and early returns:
each method is proved to perform exactly the steps it stands for, so what holds in every run holds
of the objects. Ids are positions in their table. What the network, a model call, the clock or a
random draw answers is a parameter. A method of the worker or the ingestion service takes the number of
writes it gets to make, so any of its statements may be the one that raises.

| files | part of the program |
|---|---|
| `Ledger`, `LedgerSafety`, `LedgerAnswers`, `LedgerTiming`, `FanOut`, `FanOutTurns`, `Sequences`, `Dispatch` | webhook outbox, dispatcher, delivery ledger |
| `Lifecycle`, `Gate`, `Release`, `Routing`, `Erasure`, `ErasureQueue`, `ErasureRounds`, `ErasureFailures`, `Enterprise` | enterprise conversations: gate, routing outbox, erasure |
| `Chunking`, `Pipeline`, `AudioSafety`, `AudioFate`, `QueueBudget`, `Worker` | upload, job queue, pipeline worker, audio vault |
| `HashChain` | audit and consent chains over an abstract hash |
| `Mentions`, `MentionTotals`, `Ranking`, `RankingNeeds`, `RateLimit`, `SessionToken` | alias matching, discussed-first ranking, rate limit, session tokens |
| `Basics`, `Sorting` | shared vocabulary and a stable sort |

## What the proofs found

Some things the code or its documentation suggests do not hold. Each has the exact condition under
which it does.

- The 12-hour step of the retry schedule is never used: the fifth failure goes to `dead`, so no wait
  is longer than 8640 seconds (`LedgerTiming.LongestWait`).
- A client reference is remembered before its job is queued. An upload cut exactly between the two is
  answered as a duplicate for ever and never processed; every other cut is healed by a retry
  (`AudioSafety.RetryQueuesUnlessCutBetween`).
- The consent chain is verified in order of capture time, so it keeps verifying after a record if and
  only if the clock did not go back before it (`HashChain.RecordVerifiesIffClockHeld`).
- The orphan sweep closes a conversation even if its delete raised; a closed conversation has no audio
  left if and only if the delete went through or there was nothing to delete
  (`Erasure.SweepErasesIffDeleted`). One upload and one such sweep leave audio that no later step
  deletes (`ErasureFailures.ASweepStrandsAudio`).
- Audio can outlive its committed insight for good. After a turn on a job of `n` parts, all in the vault,
  this is so if and only if the turn was cut after at most `3n + 1` writes, and either the process was
  killed there or a vault part had already been shredded (cut after more than `2n + 2` writes), and the
  insight was committed: by an earlier turn whose job was retried, or by this one with write `2n + 2`
  (`AudioFate.AudioOutlivesInsightIff`). Staging then misses a part at every retry. A turn that raised can
  be made good by an uncut retry if and only if it shredded nothing in the vault
  (`AudioFate.RetryReturnsIffNothingShredded`).
- A killed turn leaves its job leased and nothing takes it up again, wherever it was cut
  (`AudioFate.LeasedForGood`).
- Redelivering the dispatch event inserts a routing row again exactly when the conversation's slot has
  none, which includes after a move to the dead-letter table (`Routing.RedeliveryReinsertsIffGone`).
- The erasure batch of the local store takes the tenants' files one after the other, in the order they
  were opened, and deadlines count only within a file. Conversations whose audio cannot be deleted stay in front. A
  deletable one is erased in the end if and only if fewer than a batch of them stand in front of it: due,
  and in a file opened earlier, or in its own with an earlier deadline (or the same, and inserted
  earlier). Otherwise it waits for ever. This holds if none of them falls due only while the passes are
  made, and no newcomer gets in front (`ErasureRounds.ErasedIffFewStuckAhead`). It waits for ever after a
  batch of undeletable uploads of its own tenant (`ErasureFailures.AConversationStarves`); with the earliest
  deadline of all, behind those of another tenant
  (`ErasureFailures.AnotherTenantsConversationStarves`); and, without any failing delete, behind a tenant
  that has a batch fall due before every pass (`ErasureFailures.ABusyTenantCrowdsOut`).
- The one-hour cap on routing retries is never reached (`Routing.RetriesDouble`).
- The audit chain hashes a missing conversation like an empty one, the one edit of a hashed column it cannot see (`HashChain.EditGoesUnnoticedIff`).
- The chunker's loop makes progress if and only if the chunk size is positive
  (`Chunking.ProgressIffPositiveLimit`).
- `drain` is documented to process until the queue is empty; it also ends at the first job that dies
  (`Worker.PipelineWorker.Drain`). The erasure worker is documented to move a row to `erased`; the code,
  and the model, use `purged` and `error_purged`.

## Model

| member | source | states |
|---|---|---|
| LedgerSafety.EveryReachableStateIsSafe | voclyp/delivery.py:91-165 | in every reachable state of commit, fan-out, attempt, replay and disable steps: rows are unique per endpoint and event, status and attempt count are tied (pending 0, retrying 1-4, dead 5), and an active endpoint has fewer than 3 dead rows at its tail |
| LedgerSafety.AttemptDisablesAtThree | voclyp/delivery.py:163-165 | an attempt disables an endpoint if and only if it makes that endpoint's dead tail exactly 3, by the death of one of its rows newer than its last success |
| LedgerSafety.StepKeepsInv | voclyp/store.py:744-831 | every single step of the ledger keeps that invariant |
| LedgerSafety.DeadTailCounts | voclyp/store.py:801-815 | counting back in id order until the first success gives the number of dead rows with no newer success |
| LedgerSafety.TailAfterUpdate | voclyp/store.py:801-815 | settling one in-flight row, wherever it is in id order, moves the dead tail of its endpoint by at most one and of no other |
| LedgerSafety.TailAfterReplay | voclyp/store.py:817-831 | a replay never lengthens a dead tail |
| LedgerSafety.SettledRowsNeverChange | voclyp/store.py:774-831 | delivered and blocked rows are the same in every later state of every run |
| LedgerSafety.StepKeepsSettled | voclyp/store.py:774-831 | a step changes a dead row only if it is a replay, revives no endpoint and removes nothing |
| LedgerSafety.DisabledForGood | voclyp/store.py:744-752 | a disabled endpoint is disabled in every later state |
| LedgerSafety.ReplayToDisabledEndsBlocked | voclyp/delivery.py:97-100 | a row replayed to a disabled endpoint is never posted again in any run: it waits untouched or is blocked |
| LedgerSafety.StepKeepsHopeless | voclyp/delivery.py:97-100 | the next attempt at such a row blocks it, without a post |
| LedgerSafety.FivePostsPerArming | voclyp/delivery.py:115-132 | over any run the posts of a row number at most five for each time it was created or replayed |
| LedgerSafety.AttemptsArePaidFor | voclyp/delivery.py:80-132 | over any run the attempts made, plus the attempts still open over in-flight rows, are at most those open at the start plus five per row armed: the dispatcher's termination measure |
| LedgerAnswers.DeliveredIffAcknowledged | voclyp/delivery.py:115-132 | in every run a row is delivered if and only if one of its posts was acknowledged; then that one is the only one and the last, and of any other row every post was refused |
| LedgerAnswers.AttemptFollowsTheAnswer | voclyp/delivery.py:91-132 | an attempt blocks its row, without a post, if and only if endpoint or event is missing under the tenant, the endpoint is inactive or its URL is refused; otherwise an acknowledgement delivers it and a refusal leaves it retrying, or dead at the fifth |
| LedgerAnswers.ReplayRearms | voclyp/store.py:817-831 | a replay re-arms exactly the dead rows of that tenant, of one endpoint if asked, with a fresh budget |
| LedgerTiming.BackoffWindowsAreDisjoint | voclyp/delivery.py:39-51 | whatever the jitter, the wait after more failures is longer |
| LedgerTiming.RunKeepsTimed | voclyp/delivery.py:121-132 | in every run each retry follows the previous post of its row by at least 0.8 of the schedule entry, and a retrying row is due inside its jitter window |
| LedgerTiming.DeathTakesOverTwoHours | voclyp/delivery.py:39-51 | a dead row was posted exactly five times since it was armed, the last at least 7488 seconds after the first ended, and never since |
| LedgerTiming.LongestWait | voclyp/delivery.py:121-132 | a retrying row is due between 48 and 8640 seconds after its latest post: the 12-hour entry is never drawn |
| LedgerTiming.WaitsFollowTheSchedule | voclyp/delivery.py:39-51 | each wait is its entry of the schedule times the random factor |
| FanOut.FanOutIsExactlyOnce | voclyp/delivery.py:61-77 | passes cut after any number of writes that leave no event unfanned have made exactly one row per unfanned event and active subscribed endpoint, no other row, and changed none that was there |
| FanOut.PassesExhaust | voclyp/delivery.py:61-77 | nothing is left unfanned once the uncut passes could take up all events, a whole batch each, however many cut passes are mixed in |
| FanOut.PassShrinks | voclyp/delivery.py:61-77 | an uncut pass retires a whole batch or all there is; a cut one undoes nothing |
| FanOutTurns.TurnsFanOutExactlyOnce | voclyp/delivery.py:61-89 | with anything else between the passes (commits, registrations, deliveries, replays, disabled endpoints): exactly one row for every event fanned out since and every earlier endpoint that still wants it, no row an endpoint did not want, none for an event fanned out before, and no earlier row lost or moved |
| FanOutTurns.TurnsExhaust | voclyp/delivery.py:61-89 | every event that occurred up to a given time is fanned out once the uncut passes could take those up, a whole batch each, whatever is committed later and whatever else comes between |
| FanOutTurns.BacklogIsDelivered | voclyp/delivery.py:61-89 | each of those events then has exactly one row for every earlier endpoint that still wants it |
| FanOutTurns.BatchTakesBacklogFirst | voclyp/store.py:645-652 | a batch holds all events up to a given time, or only such |
| FanOut.WritesRun | voclyp/store.py:755-762 | the effect of a list of fan-out writes does not depend on their order or repetition |
| FanOut.FanWritesAreCareful | voclyp/delivery.py:67-76 | a pass marks an event only after making every row it wants, and makes no unwanted row |
| FanOut.BatchIsUnfanned | voclyp/store.py:645-652 | the batch is unfanned events, each once, and none is passed over for a later one |
| Sequences.RunKeepsNumbers | voclyp/store.py:628-643 | in every run a resource's events carry 1, 2, ... in commit order up to its counter, and every stored insight has an event |
| Sequences.ConsumerEndsOnTheLastEvent | voclyp/events.py:8-11 | a consumer keeping the highest sequence ends on the last committed event under any reordering and duplication of deliveries |
| Dispatch.Store.SaveInsightWithEvent | voclyp/store.py:611-643 | insight, bumped sequence and outbox event change together, and the event carries the next sequence |
| Dispatch.Store.DeleteConversation | voclyp/store.py:457-466 | the insight goes, its sequence and events stay |
| Dispatch.Store.UnfannedEvents | voclyp/store.py:645-652 | distinct unfanned events, oldest first, as many as there are or fit |
| Dispatch.Store.MarkFannedOut | voclyp/store.py:669-670 | one event is marked, nothing else changes |
| Dispatch.Store.AddWebhook | voclyp/store.py:677-689 | a new active endpoint at the end of the table |
| Dispatch.Store.GetEndpoint | voclyp/store.py:701-706 | found if and only if it exists under the same tenant |
| Dispatch.Store.GetEvent | voclyp/store.py:654-661 | found if and only if it exists under the same tenant |
| Dispatch.Store.EndpointsFor | voclyp/store.py:708-717 | exactly the active endpoints of the tenant that subscribe to the kind or to everything, each once |
| Dispatch.Store.SetEndpointDisabled | voclyp/store.py:744-752 | disables the tenant's endpoint, or reports that there is none and changes nothing |
| Dispatch.Store.CreateDelivery | voclyp/store.py:755-762 | inserts a pending row unless the pair has one |
| Dispatch.Store.DueDeliveries | voclyp/store.py:764-772 | distinct in-flight rows whose timer has elapsed; a pending or retrying one is left out only of a full batch of rows that have waited at least as long |
| Dispatch.Store.MarkDelivery | voclyp/store.py:774-781 | one row gets a new status, attempt and due time, keeping what it links |
| Dispatch.Store.ConsecutiveDead | voclyp/store.py:801-815 | the loop returns the number of the endpoint's dead rows newer than its last success |
| Dispatch.Store.ReplayDead | voclyp/store.py:817-831 | re-arms exactly the tenant's dead rows, of one endpoint if asked, changes no other row and returns how many |
| Dispatch.Dispatcher.FanOutPass | voclyp/delivery.py:61-77 | the nested loops perform exactly the writes of a pass, in order, on the state as it was at the start |
| Dispatch.Dispatcher.DeliverDue | voclyp/delivery.py:80-86 | one attempt for each row of the batch, and the rows fetched are still current when their turn comes |
| Dispatch.Dispatcher.AttemptRow | voclyp/delivery.py:91-132 | every branch leaves the state of the attempt step, which is the one the answer asks for |
| Dispatch.Dispatcher.MaybeDisableEndpoint | voclyp/delivery.py:163-165 | disables at three consecutive dead deliveries |
| Dispatch.Dispatcher.RunOnce | voclyp/delivery.py:88-89 | fan-out then delivery; from a safe state it leads to a safe state |
| Gate.NoUncheckedMessage | voclyp/enterprise/routing/dispatcher.py:61-87 | in every run, events redelivered at will, each WhatsApp send happens only when the stored extraction has no EMI commitment and confidence at or above the threshold, or a human verified the conversation after it was stored |
| Gate.StepKeepsGate | voclyp/enterprise/extraction/bedrock_worker.py:39-59 | every step keeps the invariant behind it: unheld WhatsApp rows belong to cleared conversations |
| Release.HeldIffNotCleared | voclyp/enterprise/extraction/bedrock_worker.py:39-59 | in every run a WhatsApp row is held if and only if the stored extraction has EMI figures or too little confidence and nobody has verified the conversation since; other rows never are |
| Release.VerificationReleases | voclyp/enterprise/routing/dispatcher.py:204-224 | a verification sends a held message once, under its key, addressed as asked, and its row is settled by the answer; it touches no other conversation |
| Release.ACleanUploadIsDelivered | voclyp/enterprise/routing/dispatcher.py:61-87 | an upload that is transcribed, extracted and accepted by the clients ends delivered on every channel, its message too exactly if the extraction is clean; otherwise the message is held and unsent |
| Release.DispatchSends | voclyp/enterprise/routing/dispatcher.py:61-87 | a dispatch writes one row for each channel and settles each by its own answer, save a message that waits |
| Release.SendFollowsTheReply | voclyp/enterprise/routing/dispatcher.py:159-195 | no client skips the row, an acceptance delivers it, a refusal leaves it failed or, at the sixth, moves it to the dead letters; the send is recorded as answered |
| Release.SendsRun | voclyp/enterprise/routing/dispatcher.py:153-157 | of a batch each row is settled by its own answer and no other row is touched |
| Release.PayloadsCarryTheInsight | voclyp/enterprise/routing/dispatcher.py:90-121 | what the CRM, the customer and the agent are sent, and that keys of different channels differ |
| Release.MessageText | voclyp/enterprise/routing/dispatcher.py:142-145 | the first 300 characters of the talking point, else of the next action, else a thank you |
| Routing.EveryRunRoutesSafely | voclyp/enterprise/routing/dispatcher.py:159-195 | in every run each send carries the key fixed at its row's insertion, is at most the sixth, and follows only refusals; a row moves to the dead letters after exactly six refused sends; insertions equal rows in the outbox plus dead letters |
| Routing.InsertedOnceLivesInOneTable | voclyp/enterprise/store.py:442-462 | a slot inserted once is in exactly one of outbox and dead-letter table |
| Routing.RedeliveryReinsertsIffGone | voclyp/enterprise/store.py:359-383 | a redelivered dispatch event inserts a row exactly when the slot has none, and never alters one that is there |
| Routing.StepKeepsKey | voclyp/enterprise/routing/dispatcher.py:159-224 | no step changes a row's key, and only the release of a held message changes its payload |
| Routing.RetriesDouble | voclyp/enterprise/routing/dispatcher.py:191-195 | retries wait one minute, then twice as long each time, always below the cap |
| Erasure.StepClimbs | voclyp/enterprise/store.py:50-69 | every step moves every conversation along the transition table |
| Erasure.TableIsALadder | voclyp/enterprise/store.py:50-69 | the table allows staying, one rung up, and falling out to `error_purged` from any rung, and nothing else |
| Erasure.AtMostFiveChanges | voclyp/enterprise/store.py:290-314 | over any run a conversation changes state at most five times, and never once terminal |
| Erasure.TerminalMeansErased | voclyp/enterprise/erasure/worker.py:27-42 | in every run without a failed orphan delete, terminal, stamped and audio gone go together |
| Erasure.SweepErasesIffDeleted | voclyp/enterprise/erasure/orphan_sweep.py:80-94 | the orphan sweep keeps that if and only if its delete went through or there was no audio |
| Erasure.PassWorksOffTheBacklog | voclyp/enterprise/store.py:316-327 | of what is due in the files opened before a given one, and what was due in that one at any earlier time, a pass retires a full batch, or all, before anything else |
| Erasure.EveryConversationHasAFile | voclyp/enterprise/store.py:167-180 | in every run each conversation's file is among the open ones, so that the batches see it |
| Erasure.StepOnFiles | voclyp/enterprise/store.py:167-180 | a file keeps its place in the order of opening; new ones come last |
| ErasureRounds.PassesEraseEverythingDue | voclyp/enterprise/erasure/worker.py:23-43 | enough passes with successful deletes between `since` and `until` leave a conversation due at `since` terminal, stamped, its audio gone, with any handlers, retries, verifications, clean sweeps and ingests between them, if ingests of tenants whose files were opened earlier fall due after `until`, and those of its own tenant not before it |
| ErasureRounds.ErasedByItsStage | voclyp/enterprise/erasure/worker.py:33-37 | if only the passes erase, such a one ends `purged` if it was dispatching when its turn came, as it is if it was at the start, and `error_purged` otherwise |
| ErasureRounds.ClosedByItsStage | voclyp/enterprise/erasure/worker.py:33-37 | in any run without sweeps the final state follows from the last open one in that way |
| ErasureRounds.ErasedIffFewStuckAhead | voclyp/enterprise/erasure/worker.py:25-42 | with some conversations undeletable, none of them in front falling due meanwhile: after more passes than deletable ones stand in front of it (in a file opened earlier, or in its own with an earlier deadline) a deletable due conversation is erased if and only if fewer than `limit` undeletable ones do; otherwise it still waits with its audio |
| ErasureRounds.FewStuckMeansErased | voclyp/enterprise/erasure/worker.py:25-42 | each pass retires from in front of it at least the places of a batch that cannot be stuck, counting all undeletable ones that fall due there by the last pass |
| ErasureRounds.ManyStuckMeansStarved | voclyp/enterprise/erasure/worker.py:25-42 | a full batch of due undeletable ones in front of it stays there, and it is never reached, whatever is ingested |
| ErasureQueue.InBatchIffNearFront | voclyp/enterprise/store.py:316-327 | a due conversation is in the batch if and only if fewer than `limit` due ones stand in front of it by file, deadline and insertion |
| ErasureQueue.FirstFileQueue | voclyp/enterprise/store.py:316-327 | in front of a conversation of the file opened first are only earlier deadlines of its own tenant, at any time |
| ErasureFailures.AConversationStarves | voclyp/enterprise/erasure/worker.py:25-42 | a reachable state, after `limit` undeletable uploads and one more of the same tenant, in which the last waits for ever |
| ErasureFailures.AnotherTenantsConversationStarves | voclyp/enterprise/store.py:316-327 | a reachable state of two tenants in which the conversation with the earliest deadline of all waits for ever behind undeletable ones of the tenant whose file was opened first |
| ErasureFailures.ABusyTenantCrowdsOut | voclyp/enterprise/store.py:316-327 | a tenant with a batch of uploads falling due before every pass keeps the conversations of all later-opened tenants waiting for ever, though every delete goes through |
| ErasureFailures.ASweepStrandsAudio | voclyp/enterprise/erasure/orphan_sweep.py:80-94 | a reachable state with audio at which a sweep whose delete raises closes the conversation, and the audio is there after every further run |
| ErasureFailures.StrandedForGood | voclyp/enterprise/store.py:316-327 | audio behind a closed conversation is never deleted |
| Erasure.FailedDeletesChangeNothing | voclyp/enterprise/erasure/worker.py:27-42 | a pass whose deletes all fail leaves the state as it was |
| Erasure.BatchIsErasable | voclyp/enterprise/store.py:316-327 | the batch is past-deadline, unerased, non-terminal conversations, each once; one is left out only of a full batch, and not for one of a file opened later or of the same file with a later deadline |
| Erasure.BatchIsFront | voclyp/enterprise/store.py:316-327 | limiting every file's query and then the joined list gives what limiting the joined list alone would |
| Enterprise.LocalStore.OpenFile | voclyp/enterprise/store.py:167-190 | opens the tenant's file behind the others unless it is open |
| Enterprise.LocalStore.DueConversations | voclyp/enterprise/store.py:316-327 | the loop over the files returns the batch: at most `limit` of each file, the files in opening order, cut to `limit`; a due conversation is left out only of a full batch of those in front of it |
| Enterprise.LocalStore.DueRouting | voclyp/enterprise/store.py:430-440 | likewise the rows that are pending or failed and past their retry time |
| Enterprise.LocalStore.SetState | voclyp/enterprise/store.py:290-314 | moves the conversation if and only if the table allows it |
| Enterprise.LocalStore.InsertRouting | voclyp/enterprise/store.py:359-383 | insert or ignore on conversation and channel |
| Enterprise.LocalStore.MoveToDlq | voclyp/enterprise/store.py:442-462 | the row leaves the outbox and its copy, with key and current payload, enters the dead letters |
| Enterprise.Ingestion.IngestAudio | voclyp/enterprise/ingestion.py:32-92 | consent is recorded first and a refusal leaves everything as it was; then the row exists before the upload and advances only if the upload succeeded |
| Enterprise.Extractor.Handle | voclyp/enterprise/extraction/bedrock_worker.py:33-63 | refuses an illegal move; a failed extraction stores nothing; otherwise stores extraction and gate verdict and produces the event |
| Enterprise.RoutingDispatcher.Handle | voclyp/enterprise/routing/dispatcher.py:61-87 | the dispatch event is a legal run: advance, three inserts, then one send for each pending row |
| Enterprise.RoutingDispatcher.DeliverRows | voclyp/enterprise/routing/dispatcher.py:153-157 | each fetched row is sent once, and is still as fetched when its turn comes |
| Enterprise.RoutingDispatcher.DeliverOne | voclyp/enterprise/routing/dispatcher.py:159-195 | every branch leaves the state of the send step, which is the one the reply asks for, and touches no other row |
| Enterprise.RoutingDispatcher.ProcessDue | voclyp/enterprise/routing/dispatcher.py:198-201 | one send for each row of the batch of due rows, and returns how many |
| Enterprise.RoutingDispatcher.VerifyConversation | voclyp/enterprise/routing/dispatcher.py:204-224 | clears the hold, sends the held message, addressed, with the answer to that send, and says whether it did; an unknown conversation changes nothing |
| Release.PendingIsReady | voclyp/enterprise/routing/dispatcher.py:148-151 | what is delivered at once is exactly the conversation's pending rows: a held one waits |
| Enterprise.DueIsReady | voclyp/enterprise/store.py:430-440 | that batch is distinct, pending or failed, past their retry time; one is left out only of a full batch, and not for one of a file opened later or of the same file with a later time |
| Enterprise.ErasureWorker.RunOnce | voclyp/enterprise/erasure/worker.py:23-43 | a pass is a legal run of erasures over the batch; counts the deletes that went through and those that did not |
| Enterprise.ErasureWorker.EraseOne | voclyp/enterprise/erasure/worker.py:28-42 | `purged` where legal, else `error_purged`; nothing at all if the delete raised |
| Chunking.Chunk | voclyp/ingestion.py:45-64 | the chunks concatenate to the upload, and each of a non-empty one has 1 to limit bytes; of audio all but the last have exactly the limit, of text every cut is the latest allowed |
| Chunking.ChunkText | voclyp/ingestion.py:56-64 | the loop ends, with the pieces that `Chunking.TextPiecesAreSound` and `Chunking.ChunkerIsOptimal` are about |
| Chunking.ChunkBinary | voclyp/ingestion.py:50-55 | the loop ends, with the pieces that `Chunking.BinaryPiecesAreSound` is about |
| Chunking.TextPiecesAreSound | voclyp/ingestion.py:56-64 | text pieces concatenate to the input, each of 1 to limit bytes |
| Chunking.BinaryPiecesAreSound | voclyp/ingestion.py:50-55 | binary pieces concatenate to the input, each of 1 to limit bytes |
| Chunking.BinaryPiecesAreFull | voclyp/ingestion.py:50-55 | every binary piece but the last has exactly the limit |
| Chunking.FewestBinaryPieces | voclyp/ingestion.py:50-55 | no partition into pieces within the limit has fewer |
| Chunking.TextCutsAreLatest | voclyp/ingestion.py:56-64 | over-long text is cut after a newline with none between it and the limit, or at the limit if there is none before it; what fits is not cut |
| Chunking.LatestCutsAreUnique | voclyp/ingestion.py:56-64 | and no other partition of the text is cut like that |
| Chunking.FittingLinesAreAligned | voclyp/ingestion.py:61-63 | when every line fits the limit, all cuts fall just after newlines |
| Chunking.ChunkerIsOptimal | voclyp/ingestion.py:56-64 | a newline-aligned partition exists only when every line fits, and then the chunker's is one with the fewest pieces |
| Chunking.ProgressIffPositiveLimit | voclyp/ingestion.py:57-63 | an iteration shortens the remaining text if and only if the limit is positive |
| AudioSafety.AcceptedAudioIsNeverLost | voclyp/worker.py:61-130 | whichever statement fails or is killed and however often it is retried, an accepted conversation has all its vault audio, or a committed insight, or was deleted on demand after one |
| AudioFate.ReturnedMeansPurged | voclyp/worker.py:107-123 | when a turn returns a document its insight is committed and none of its vault audio remains |
| AudioSafety.OneJobPerReference | voclyp/ingestion.py:95-119 | no client reference ever has two jobs |
| AudioSafety.RetryQueuesUnlessCutBetween | voclyp/ingestion.py:110-119 | repeating a cut upload under its reference gets it queued if and only if it was not cut between remembering the reference and queueing the job |
| AudioSafety.ProcessWritesAreSafe | voclyp/worker.py:88-122 | a turn shreds vault audio only after the insight is committed; the pipeline's own deletion stage sees only staged copies |
| AudioSafety.StepKeepsInv | voclyp/worker.py:80-130 | every submit, turn, requeue and deletion, cut anywhere, keeps the invariant behind these |
| AudioFate.TurnByCut | voclyp/worker.py:61-123 | the turn of a job of `n` whole parts returns with all its `3n + 4` writes, commits with write `2n + 2`, and shreds vault part `k` with write `2n + 3 + k` |
| AudioFate.RetryReturnsIffNothingShredded | voclyp/worker.py:61-130 | after a turn that raised (requeued, if dead) an uncut retry returns the document if and only if no vault part had been shredded |
| AudioFate.CutTurnIsTheLast | voclyp/worker.py:61-130 | after a cut past the first vault shred, or a kill anywhere, no later run returns the document and exactly the unshredded parts are there in every later state |
| AudioFate.AudioOutlivesInsightIff | voclyp/worker.py:74-78 | after a turn there is a committed insight and audio that no later run removes if and only if the insight was committed, by this turn or an earlier one, and the turn was cut before its last shred, killed or past the first shred |
| AudioFate.StalledForGood | voclyp/worker.py:66-72 | a conversation that misses a part or whose job was left leased is never returned and its vault never touched again |
| AudioFate.LeasedForGood | voclyp/queueing.py:48-120 | a job left leased keeps its row in every later run, and its conversation is never returned |
| AudioFate.AudioIsLeftBehind | voclyp/worker.py:112-113 | a reachable run with a committed insight whose last part stays for ever |
| QueueBudget.TurnOutcome | voclyp/queueing.py:48-83 | a turn changes one job: one more attempt, then done, pending below the limit, dead at it, or left leased if the process died |
| QueueBudget.TurnFiles | voclyp/worker.py:61-123 | a turn cut anywhere leaves the files of other conversations alone, and one that returns leaves none of its own working copies |
| QueueBudget.JobsAreConserved | voclyp/queueing.py:38-83 | no step loses or duplicates a job row or changes a done one |
| QueueBudget.LeasesPerArming | voclyp/queueing.py:48-75 | over any run a job is leased at most `max_attempts` times (once, if that is below one) for each time it was queued or requeued |
| QueueBudget.TurnShrinksWork | voclyp/worker.py:132-140 | every turn that finds a job lowers the remaining attempts over pending jobs |
| Worker.JobQueue.EnqueueJob | voclyp/queueing.py:38-46 | one pending job with a fresh budget at the end |
| Worker.JobQueue.Dequeue | voclyp/queueing.py:48-66 | leases the oldest pending job and no other, or none if there is none |
| Worker.JobQueue.FailJob | voclyp/queueing.py:71-75 | back to pending below the limit, dead at it |
| Worker.JobQueue.RequeueDead | voclyp/queueing.py:105-120 | re-arms the newest dead job of the conversation, if any |
| Worker.IngestionService.SubmitUpload | voclyp/ingestion.py:75-125 | refused uploads change nothing; others store exactly their bytes in order, or answer a known reference with its conversation |
| Worker.IngestionService.WriteUpload | voclyp/ingestion.py:102-119 | the loop and what follows make exactly the writes of a submission up to the cut |
| Worker.PipelineWorker.StageAudio | voclyp/worker.py:61-72 | copies every vault part, byte for byte, or stops at the cut or a missing part with the earlier copies made; the vault is left as it is |
| Worker.PipelineWorker.RunPipeline | voclyp/pipeline/stages/audio_delete.py:23-27 | the deletion stage shreds the staged copies only |
| Worker.PipelineWorker.PurgeVaultAudio | voclyp/worker.py:74-78 | shreds every vault part, or the parts before the cut |
| Worker.PipelineWorker.TryJob | voclyp/worker.py:88-123 | the statements of the try block, cut anywhere, leave exactly the writes made until then |
| Worker.PipelineWorker.ProcessOne | voclyp/worker.py:80-130 | one turn: idle, a returned document, a retry, or a raise for a dead job |
| Worker.PipelineWorker.Drain | voclyp/worker.py:132-140 | always ends, as a run of turns that keeps the safety invariant: with nothing pending and the number of jobs completed, or raising at a job that is dead |
| HashChain.ChainHash | voclyp/security.py:194-199 | hashes the previous hash and every field behind a separator |
| HashChain.MaterialIsInjective | voclyp/security.py:194-199 | separator-free fields can be read back from what is hashed |
| HashChain.LastHashFixesTheLog | voclyp/store.py:501-515 | two verified logs with the same last hash are equal, for a collision-free hash that is never the genesis |
| HashChain.EditIsReported | voclyp/store.py:508-514 | any change of one entry of a verified log is reported there, or at the next entry if it recomputed its own hash |
| HashChain.FieldEditIsReported | voclyp/store.py:508-514 | editing hashed fields of one entry is reported at that entry |
| HashChain.TableEditIsReported | voclyp/store.py:501-515 | editing hashed columns of one row of the shared table makes its tenant's verification report that very row |
| HashChain.DeletionIsReported | voclyp/store.py:508-514 | deleting an entry other than the last is reported at the entry that took its place |
| HashChain.AuditLog.Audit | voclyp/store.py:474-491 | appends one row; every tenant's chain that verified still does |
| HashChain.AuditLog.VerifyAuditChain | voclyp/store.py:501-515 | accepts if and only if the tenant's chain verifies, and otherwise names the first row that does not fit |
| HashChain.EditGoesUnnoticedIff | voclyp/store.py:483-485 | an in-place edit of one row goes unnoticed if and only if event, detail and time are the same and so is the conversation, up to missing against empty |
| HashChain.InOrderIsTheQueryOrder | voclyp/enterprise/store.py:228-234 | the order modelled is the query's: by capture time, then by row id, the same rows |
| HashChain.ForwardClockKeepsConsentChain | voclyp/enterprise/store.py:193-242 | on a clock that never goes back the consent chain verifies after every append |
| HashChain.RecordVerifiesIffClockHeld | voclyp/enterprise/consent/service.py:89-113 | one append keeps a verified consent chain verifying if and only if it was not captured before the last one |
| HashChain.ConsentLedger.Record | voclyp/enterprise/consent/service.py:67-118 | refuses without recording consent or language; otherwise appends the hash of the fields after the last entry in query order |
| Mentions.BuildAliasIndex | voclyp/product_mentions.py:41-66 | exactly the usable aliases of the catalog, once each, longest first |
| Mentions.Scan | voclyp/product_mentions.py:87-90 | every position returned is a whole-word occurrence of the alias |
| Mentions.ScanIsComplete | voclyp/product_mentions.py:87-90 | every whole-word occurrence is covered by one the scan returned |
| Mentions.WordsStandAlone | voclyp/product_mentions.py:87-90 | an alias of word characters occurs where its letters stand with no word character on either side |
| Mentions.GreedyIsDisjoint | voclyp/product_mentions.py:83-90 | the chosen spans do not overlap |
| Mentions.SpansAreApart | voclyp/product_mentions.py:83-90 | of two chosen spans one ends before the other begins |
| Mentions.GreedyIsGenuine | voclyp/product_mentions.py:86-90 | every chosen span is a whole-word occurrence of an alias of its product |
| Mentions.LongestWins | voclyp/product_mentions.py:76-92 | every scanned occurrence of every alias is a chosen span or overlaps one at least as long |
| Mentions.HitsAreOrdered | voclyp/product_mentions.py:91-92 | hits come in strictly rising position, one for each chosen span |
| Mentions.FindNamed | voclyp/product_mentions.py:76-92 | the loops return exactly those hits |
| MentionTotals.Resolve | voclyp/product_mentions.py:95-153 | every product's record counts its mentions by kind with first and last turn; `ordered` is a rearrangement of the mentioned products, by falling total and, where that is equal, falling last turn |
| MentionTotals.BumpRecords | voclyp/product_mentions.py:113-121 | one more mention brings exactly its product's record up to date |
| MentionTotals.TotalsAreConserved | voclyp/product_mentions.py:123-142 | totals sum to the named hits plus one for each line that names nothing, carries a cue and has a product named before it |
| MentionTotals.EveryTurnIsCounted | voclyp/product_mentions.py:123-142 | a line that names products counts each name, in order, and nothing else; one that names none counts one mention, of the product named last before it, exactly if it carries a cue and there is one |
| MentionTotals.HearsEveryLine | voclyp/product_mentions.py:123-140 | every line that is not empty is searched for names and cues |
| MentionTotals.FirstMentionsInOrder | voclyp/product_mentions.py:113-121 | records are made in the order of first mention |
| MentionTotals.PronounsFollowTheFocus | voclyp/product_mentions.py:132-142 | a pronoun is credited to the product named most recently before it and to no other |
| MentionTotals.FocusIsTheLastNamed | voclyp/product_mentions.py:132-133 | the focus is the last product of the last line that named one, and there is none if no line did |
| Sorting.SortIsStable | voclyp/product_mentions.py:144-148 | elements that rank equal keep their order, as the program's sorts do |
| Ranking.ScoreProduct | voclyp/catalog.py:77-135 | the points of needs, overlap and affordability that the lemmas of `RankingNeeds` are about, kept within 40 to 99, with the list of reasons |
| RankingNeeds.MeetingANeedPays | voclyp/catalog.py:85-102 | of two products alike but for needs, one that meets every voiced need of the other and one more scores strictly higher, unless both are at the same end of the scale: by 30 (ortho), 38 (cooling), 14 (soft) or 10 points (firm) before the clamp |
| RankingNeeds.NeedsDecide | voclyp/catalog.py:85-102 | alike products differ before the clamp by the weights of the needs they meet |
| RankingNeeds.NobodyMeets | voclyp/catalog.py:81-105 | the points of a product that meets no need, for every profile without a posture |
| RankingNeeds.OverlapCounts | voclyp/catalog.py:107-110 | a further keyword is worth four points up to three |
| RankingNeeds.PostureDecides | voclyp/catalog.py:112-120 | a tight budget makes points fall from entry to luxury, a premium intent makes them rise, by the points of the two tiers |
| RankingNeeds.SilentProfile | voclyp/catalog.py:81-110 | a customer who voices nothing sees 60 and at most 12 for keywords |
| RankingNeeds.ScoreIsClamped | voclyp/catalog.py:135 | a score is what was counted, or the nearer end of 40 to 99 |
| RankingNeeds.NeedsAreShownFirst | voclyp/catalog.py:167-169 | with nothing discussed a product is never behind its like that misses a need it meets, unless both are at one end of the scale and the other is no dearer |
| RankingNeeds.HigherScoreFirst | voclyp/catalog.py:167-169 | with nothing discussed the order is by falling score and, where equal, rising price |
| Ranking.ReasonsAreTheOnesThatHold | voclyp/catalog.py:85-133 | a product is given exactly the reasons that hold of it and the profile, and its own line if and only if none does |
| Ranking.RankProducts | voclyp/catalog.py:138-184 | the loops return the first `limit` of the ranking, every score within 40 to 99 |
| Ranking.DiscussedThenBest | voclyp/catalog.py:166-184 | with distinct SKUs: the known discussed products in first-mention order, tagged, then the rest untouched by falling score and rising price |
| Ranking.TagGoesFirst | voclyp/catalog.py:176-180 | a discussed product gets its tag in front of its reasons and is otherwise as scored |
| Ranking.NoProductLostOrRepeated | voclyp/catalog.py:171-182 | with distinct SKUs, every product is in the ranking exactly once |
| RateLimit.Limiter.Request | voclyp/gateway/app.py:140-149 | the pruning loop leaves the recent timestamps, and a request is recorded if and only if it is granted |
| RateLimit.DecidesLikeFullHistory | voclyp/gateway/app.py:140-149 | on a non-decreasing clock the limiter answers every call of every caller as if it kept all granted requests, for any window and limit |
| RateLimit.LimiterSpacesGrants | voclyp/gateway/app.py:140-149 | a caller's granted requests are in order, and one and the request granted `limit` grants later are a full window apart |
| RateLimit.NoBurst | voclyp/gateway/app.py:140-149 | so no stretch shorter than the window holds more than `limit` grants |
| SessionToken.RoundTrip | voclyp/security.py:74-79 | stripped base64url (section 5 of RFC 4648) decodes back, for every byte string |
| SessionToken.TheAlphabet | voclyp/security.py:74-79 | the letters are those of the URL-safe alphabet (table 2 of RFC 4648), in their places |
| SessionToken.TestVectors | voclyp/security.py:74-75 | test vectors of section 10 of RFC 4648, without padding |
| SessionToken.EncodingIsInjective | voclyp/security.py:74-75 | different byte strings have different texts |
| SessionToken.IssuedTokenVerifies | voclyp/security.py:86-111 | an issued token verifies to its claims plus expiry exactly until it expires |
| SessionToken.OnlySignedIsAccepted | voclyp/security.py:95-111 | an accepted token is a body and its signature under the secret, and its claims are what the body holds |
| SessionToken.ExpiryDecides | voclyp/security.py:109-111 | claims are accepted up to their expiry, a number or a text that spells one; without one it is time zero |
| SessionToken.SignatureBindsClaims | voclyp/security.py:95-111 | a token accepted under an issued token's signature is that token: no claim can be edited in |

## Left out

- SQL text, locks, threads and the thread pool: each store method is one atomic step, and rows handed to the pool are sent one after another.
- The PostgreSQL stores: the enterprise one asks for all tenants in one query; what is proved for a single file describes it.
- Two dispatchers at once, and concurrent uploads racing on one client reference: the code does not guard these.
- A crash inside one webhook attempt or inside one routing send: the transient `delivering` status is not modelled.
- AudioSafety.OneJobPerReference: references are those of one tenant; the table keeps one set per tenant, all alike.
- Chunking.Chunk: requires a limit of at least 1, because with 0 the program's loop does not end; the verdict of the audio sniffer is a parameter.
- Enterprise.RoutingDispatcher.DeliverOne: a row without an idempotency key (written before keys existed) is not modelled, nor a per-row attempt limit other than 5.
- HashChain.AuditLog.Audit: the audit lines written by the other operations are not part of their models; timestamps are parameters.
- HashChain.ConsentLedger.Record: hashing the artifact, the phone number and the purposes is an input, as the hashed fields.
- Enterprise.LocalStore.OpenFile: the order of opening is that of one process; a restart opens the files again in directory order. A tenant is named by its schema, so two tenants with the same schema name are one.
- AudioFate.RetryReturnsIffNothingShredded: a shred is one atomic write; the program overwrites the file and then unlinks it, and a cut between the two leaves a part that is there but unreadable, so that a retry after exactly `2n + 2` writes can fail too.
- Mentions.FindNamed: text normalisation and the two regular expressions are inputs, the latter as a predicate on characters and one on lines.
- Ranking.ScoreProduct: deriving the need profile, counting keyword overlap and formatting the EMI line are inputs; reasons are modelled by kind, not by wording.
- SessionToken.RoundTrip: the decoder refuses characters outside the alphabet, where the library skips them; no encoded text has any.
- SessionToken.IssuedTokenVerifies: JSON text and the keyed digest are abstract functions; a body that is JSON but no object is not modelled.
- Worker.PipelineWorker.TryJob: metrics, usage and the insight's content have no effect in the model; a failure among them is a failure before the job is finished.
- Worker.PipelineWorker.PurgeVaultAudio: removing the work directory either happens or raises, where the program ignores errors.
- Confidence is a real number: not-a-number and rounding are not modelled; nor are float rounding of clocks and backoff.
- The speech-to-text and language-model workers beyond their effect on state, events and failures; transcripts; wording of summaries and messages.
- Merging of byte-split WAV parts, redaction, voiceprints, live sessions, analytics, users, stores and areas, HTTP routes and front ends: no protocol of their own, or outside these state machines.
- ErasureQueue.InBatchIffNearFront: conversations with the same deadline are taken in the order of insertion, which the query leaves open; likewise for the other ordered batches.
- Test events, webhook signatures and secret rotation: easy members.
