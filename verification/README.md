# ALF chat runtime: a verified model

ALF is a personal assistant daemon. Between the event stream of a language model and what a user's
tabs see, and what is stored, lies an in-memory machinery with real state and concurrency. This
project models that machinery in Dafny and proves what it promises.

| module | models |
|---|---|
| `ChatJob` | a background chat job: an event log shared by one writer, a canceller and any number of streaming readers, with a notification channel that is taken and closed; the reader's loop body |
| `JobStream` | all interleavings of those operations, with locks released before channels are closed, as a transition system over the same log operations |
| `JobRegistry` | one job per conversation: starting, pruning and looking up jobs, as a class and as a transition system over many callers |
| `Accumulator` | the state machine that turns interleaved text, thinking and tool events into content blocks, and the reference that cuts the stream into runs |
| `Invocation` | one answer: the fold over a provider stream, the retry without a resumed session, and the fallback loop |
| `Summarization` | progressive summarisation: the trigger, the single-flight slot and the landing of a summary, in every interleaving |
| `Tiers` | the choice of tiers: default fallback (implemented twice), media tier, onboarding tier, fallback chain |
| `Routing` | the route decision of a message: a chain of override stages |
| `Text`, `SkillFile`, `SkillReading`, `SkillRoundTrip` | skill files: parsing front matter, merging what the user supplied, printing; what any file is read as, in terms of its characters; and reading back what was printed |
| `MediaGroups` | merging the messages of an album through shared objects, and acknowledging the batch |
| `StableSort`, `MemorySearch` | the fan-out of a memory search over all scopes, merged into the best hits |
| `AppToken` | length-prefixed signed tokens in base64url (section 5 of RFC 4648) |
| `SessionKey` | 64-bit session keys from a wrapping hash that exists in two places |
| `Sequences`, `Integers`, `Wrappers` | searching sequences; machine integers; `Option` and `Result` |

Code that changes state is a class or a method with loops, tied by its `ensures` to a function of the
old state; the theorems are about those functions and about runs of the transition systems. A run is
any list of labels; a label that is not enabled leaves the state alone, so statements about all runs
cover all interleavings.

## What was found

Where the code does not keep what it seems to promise, the model keeps the code, states the exact
condition, and shows a case that fails.

- `finish` closes the current channel without replacing it. A push or stop that enters its critical
  section after a finish takes the same channel again, and the second close panics:
  `PanicIffWriteAfterFinish`, `StopAfterFinishPanics`.
- Of two summarisation triggers that read before either lands, the second can land a plan that covers
  less than the summary already there: `CoverageGrowsIff`, `CoverageCanShrink`.
- A skill value that is still in quotes after one pair was stripped loses the next pair each time the
  file is enriched: `ParseUndoesPrint`, `EnrichingTwice`, `NestedQuotesAreLost`. A source label with a
  line break can assign fields of its own, or end the block: `SourceCanRename`, `FenceGrowsBody`.
- When the last update of a polled batch has been merged into an earlier one, the poller asks for it
  again, because it continues after the last update that was kept: `AcknowledgedIffLastIsKept`,
  `AlbumAtTheEnd`.
- The tab that is called "default" has two different session keys, one hash value maps to a positive
  key, and the channel "cc:-1" does not have the default key -1: `KeysAgree`, `TabKeyIsNegative`,
  `PositiveTabKey`, `DefaultKeyIsNotAName`.
- Tool results that arrive while text or thinking is open come out before the block of that run, so
  block order is the order of the runs exactly when there is none: `BlocksInOrderOfRuns`,
  `ResultOvertakesText`.
- A tier with the Read tool is chosen for media, and then replaced by the first fallback, which may
  not read, if it is neither routable nor forceable, or an orchestrator without teams. A required
  skill tier of either kind can end below the tier the message was routed to: `MediaEndOnReaderIff`,
  `MediaMayMissTheReader`, `OrchestratorMayMissTheReader`, `SkillEndsNoLowerIff`, `SkillMayLower`,
  `OrchestratorMayLower`.
- A finished job is pruned by the next job that starts in any other conversation, and replaced by the
  next in its own, so a client that reconnects after that does not find the rest of its log:
  `FoundUntilDropped`, `FinishedJobIsForgotten`.
- A token for a slug of more than 255 bytes is never good for that slug: `OwnToken`.

## Model

| member | source | states |
|---|---|---|
| `ChatJob.ChatJob.LockedPush` | internal/controlcenter/chat_job.go:31-38 | the locked part of a push appends the event, keeps flags and error, takes the current channel and puts a fresh open one in its place |
| `ChatJob.ChatJob.LockedFinish` | internal/controlcenter/chat_job.go:40-47 | the locked part of finish marks the job done with its error, keeps log and cancellation, and takes the channel without replacing it |
| `ChatJob.ChatJob.LockedStop` | internal/controlcenter/chat_job.go:51-59 | the locked part of stop marks the job cancelled, so that it counts as done at once, keeps log, done flag and error, and replaces the channel it takes |
| `ChatJob.ChatJob.Push` | internal/controlcenter/chat_job.go:31-38 | a whole push: the log grows by the event, the channel that readers slept on is closed, the new one is open; it panics exactly if that channel was closed already, which takes a finished job |
| `ChatJob.ChatJob.Finish` | internal/controlcenter/chat_job.go:40-47 | a whole finish: done with its error, log and cancellation kept, and the current channel is closed; it panics exactly if it was closed already |
| `ChatJob.ChatJob.Stop` | internal/controlcenter/chat_job.go:51-59 | a whole stop: cancelled, so done for every status check and reader before the provider returns, with log, done flag and error kept; it panics exactly if the channel it takes was closed already |
| `ChatJob.ChatJob.Snapshot` | internal/controlcenter/chat_job.go:80-88 | a snapshot is the events from the offset on, whether the job is done or cancelled, its error, and the channel to wait on, all of one moment |
| `ChatJob.Connection.Round` | internal/controlcenter/handler_chat.go:355-387 | one turn of the stream loop writes exactly the events from its offset on, then returns with the error if the job is done or cancelled, and else waits on the channel of the same snapshot |
| `JobStream.StepKeepsInv` | internal/controlcenter/chat_job.go:31-88 | every step of push, stop, finish, a late close or any reader keeps the invariant behind the next results |
| `JobStream.NoLostWakeup` | internal/controlcenter/handler_chat.go:378-386 | in every interleaving, a reader sleeps only on the current channel with nothing unread and the job not over, or on a channel that an operation in flight has taken and is about to close, or has closed |
| `JobStream.SentIsContiguous` | internal/controlcenter/handler_chat.go:354-366 | in every interleaving, what a connection was sent is exactly the log from its start offset to its current one: no gap, repeat or reordering |
| `JobStream.StartsWhereAsked` | internal/controlcenter/handler_chat.go:336-356 | in every run the readers are the clients that connected, each starting at the offset it asked for |
| `JobStream.JobOfRun` | internal/controlcenter/chat_job.go:31-59 | over all interleavings: the log is the events of the pushes in order, the job is cancelled exactly if a stop ran and done exactly if a finish ran, and its error is that of the last finish |
| `JobStream.TakenOnceIffNoWriteAfterFinish` | internal/controlcenter/chat_job.go:40-59 | each channel is taken for closing at most once exactly in the runs where nothing is written after a finish |
| `JobStream.PanicIffWriteAfterFinish` | internal/controlcenter/chat_job.go:31-59 | some order of the outstanding closes closes a channel twice exactly if something was written after a finish |
| `JobStream.StopAfterFinishPanics` | internal/controlcenter/handler_chat.go:309-314 | a concrete run: a cancel request that found the job active stops it just after it finished |
| `JobStream.ReaderMoves` | internal/controlcenter/handler_chat.go:355-387 | a reader has a step to take unless its stream has ended or it sleeps on a channel that is still open |
| `JobStream.Drain` | internal/controlcenter/chat_job.go:36-58 | the closes still due can always be carried out, and leave every taken channel closed |
| `JobStream.ReturnedReaderSentEverything` | internal/controlcenter/handler_chat.go:368-376 | a stream that ends by itself on an uncancelled job has carried everything from its start and ends with the error of the job, when nothing is written after finish |
| `JobStream.ReaderAdvances` | internal/controlcenter/handler_chat.go:355-387 | once a job is over and its closes are done, every unfinished reader has a step, and each of its steps brings it nearer to the end |
| `JobStream.ReaderCompletes` | internal/controlcenter/handler_chat.go:355-387 | such a reader can run to the end of its stream by its own steps alone |
| `JobStream.ReconnectSeesWholeLog` | internal/controlcenter/handler_chat.go:279-293 | a client that reconnects with the count it received has, over all its connections, a prefix of the log without gap or repeat, and the whole log if its last stream ended by itself on an uncancelled job |
| `JobRegistry.ChatService.StartJob` | internal/controlcenter/chat_service.go:1270-1321 | the job returned is neither done nor cancelled and has the slot of its conversation; it is a new one exactly if the slot held none that was neither; only then is the message stored, if it has a conversation, is no slash command and has text or media, and the store takes it; finished jobs of other conversations lose their slot |
| `JobRegistry.ChatService.Prune` | internal/controlcenter/chat_service.go:1290-1295 | the done or cancelled jobs of other conversations, and only those, lose their slot |
| `JobRegistry.RunKeepsSlots` | internal/controlcenter/chat_service.go:1270-1296 | every run keeps live jobs in their own slot, also while the lock holder is between check, storing and insert |
| `JobRegistry.OneLiveJobPerConversation` | internal/controlcenter/chat_service.go:1270-1321 | over all runs of start, stop, finish and prune, a job is neither done nor cancelled exactly if it is the one found under its conversation, and then all others of that conversation are done or cancelled |
| `JobRegistry.LiveIffFound` | internal/controlcenter/chat_service.go:1323-1331 | over all runs: lookup by conversation gives a job exactly if the conversation has one that is neither done nor cancelled, and gives that one |
| `JobRegistry.JobOfRun` | internal/controlcenter/chat_service.go:1284-1296 | over all runs: a job keeps the request that started it, and is cancelled or done exactly if a stop or a finish of it ran since |
| `JobRegistry.RunKeepsCallers` | internal/controlcenter/chat_service.go:1270-1321 | every run keeps each caller's stored messages, answer and own job in step, with stops and finishes of other jobs between any two steps |
| `JobRegistry.LiveJobIsReused` | internal/controlcenter/chat_service.go:1274-1277 | over whole runs: an answered caller shares another caller's job if and only if its conversation had one neither done nor cancelled when it came to the check; then it is that one, and the caller owns no job and has no stored message |
| `JobRegistry.OneMessagePerJob` | internal/controlcenter/chat_service.go:1225-1296 | over whole runs: every answered caller has a job of its own conversation; if it started that job, exactly its message is stored if it names a conversation, is no slash command, has text or media and was taken by the store; if another caller did, none |
| `JobRegistry.RequestsOfRun` | internal/controlcenter/chat_service.go:1225-1264 | over all runs: each request is what its caller asked for, and a message counts as refused exactly if it was due and the store did not take it |
| `JobRegistry.MessagesInJobOrder` | internal/controlcenter/chat_service.go:1284-1289 | in every run the stored messages are in the order in which the jobs they started were created |
| `JobRegistry.UnansweredLeaveNothing` | internal/controlcenter/chat_service.go:1273-1296 | a caller that neither was answered nor holds the lock has no stored message |
| `JobRegistry.FoundUntilDropped` | internal/controlcenter/chat_service.go:1289-1343 | over all runs: lookup by job finds it if and only if, since it was inserted, no further job of its conversation was, and no starter for another conversation pruned its slot after it was over |
| `JobRegistry.LiveJobIsFound` | internal/controlcenter/chat_service.go:1334-1343 | in every run a live job is found |
| `JobRegistry.FinishedJobIsForgotten` | internal/controlcenter/chat_service.go:1290-1295 | a concrete run: a job finishes, a message to another conversation prunes it, and its client can no longer find it |
| `Accumulator.Accumulator.ProcessEvent` | internal/comms/accumulator.go:57-132 | the three buffers and flags refine the one-open-run machine on every event, and at most one run is open |
| `Accumulator.Accumulator.OnToolResult` | internal/comms/accumulator.go:101-125 | a result completes the open tool with its ID, and is appended whole, or as its first 2048 bytes and "..." |
| `Accumulator.Accumulator.FlushThinking` | internal/comms/accumulator.go:134-150 | flushing an open thinking run adds its text, or its first 1024 bytes and "..." if it is longer, as one block, nothing if it is empty; otherwise it does nothing |
| `Accumulator.Accumulator.FlushText` | internal/comms/accumulator.go:152-165 | flushing an open text run adds its text as one block unless it is empty, and otherwise does nothing |
| `Accumulator.Accumulator.FlushTool` | internal/comms/accumulator.go:167-178 | flushing an open tool adds a block with its name and input and no ID, and otherwise does nothing |
| `Accumulator.Accumulator.Blocks` | internal/comms/accumulator.go:182-193 | returns a fresh copy of all blocks and the block of the run that is pending; a second call reports the same |
| `Accumulator.BlocksAreRuns` | internal/comms/accumulator.go:57-193 | on every event sequence the state machine gives what cutting the stream into runs gives, where the reference has its own blocks: thoughts up to 1024 bytes and results up to 2048 whole, longer ones cut and marked |
| `Accumulator.OneEvent` | internal/comms/accumulator.go:57-193 | the blocks of a stream of any single event, written out |
| `Accumulator.BetweenTexts` | internal/comms/accumulator.go:57-193 | the blocks of two pieces of text with any event between them, written out: which events join, split or precede them |
| `Accumulator.BetweenThoughts` | internal/comms/accumulator.go:57-193 | the same for two thoughts |
| `Accumulator.BetweenToolAndResult` | internal/comms/accumulator.go:88-125 | the blocks of a tool call and a result with any event between them: which events feed the call, and which leave it without the ID of the result |
| `Accumulator.TextIsConserved` | internal/comms/accumulator.go:78-86 | the text blocks concatenate to all text deltas: nothing lost, repeated or reordered |
| `Accumulator.ToolsAreConserved` | internal/comms/accumulator.go:88-125 | one tool-use block per named tool_use event, and exactly the tool results, in order |
| `Accumulator.ToolUsesArePaired` | internal/comms/accumulator.go:101-125 | every tool-use block has no ID or is followed at once by the result with its ID |
| `Accumulator.ChunkingIsInvisible` | internal/comms/accumulator.go:57-178 | cutting any text, thinking or tool-input payloads into any pieces, empty ones included, leaves the blocks unchanged |
| `Accumulator.BlocksInOrderOfRuns` | internal/comms/accumulator.go:88-125 | every block traces back to the event that began its run, and block order is the order of those events exactly when no result arrived inside a text or thinking run that gave a block |
| `Accumulator.ResultOvertakesText` | internal/comms/accumulator.go:101-125 | a result inside a text run comes out before the text that began earlier |
| `Invocation.InvokeViaRuntime` | internal/comms/runtime_invoke.go:89-154 | one turn feeds the accumulator the translated events and returns the concatenated tokens, or the last stream error, or the context error, in that order of precedence |
| `Invocation.OutcomeIs` | internal/comms/runtime_invoke.go:98-144 | a turn succeeds exactly if it was not refused, the last error event of its stream reports none, and the request is not over; which error wins, and that the usage is the one reported last |
| `Invocation.OneEventTurn` | internal/comms/runtime_invoke.go:109-135 | the blocks that a turn of any single event leaves, written out |
| `Invocation.ToolTurn` | internal/comms/runtime_invoke.go:119-130 | a tool call with its input and output leaves both under one ID |
| `Invocation.RecordsAgree` | internal/comms/runtime_invoke.go:108-144 | the result text of a successful attempt is the concatenation of the text blocks of the same attempt |
| `Invocation.EligibleOfDistinct` | internal/comms/pipeline.go:757-788 | the fallbacks that pass the pre-flight checks are as distinct as the chain they come from |
| `Invocation.TryFallbacks` | internal/comms/pipeline.go:757-846 | members of the chain are tried in order, once each, up to the first success; each name tried has an enabled tier and its first tier a backend at hand, and if none succeeds, every member not tried has no enabled tier or a first tier without such a backend |
| `Invocation.Answer` | internal/comms/pipeline.go:674-847 | through retry and fallback: result and blocks are those of the last attempt, all earlier ones failed; the first attempt is repeated exactly if it failed with a session to drop on the CLI; each fallback tried is in the fallback chain, enabled and with a backend at hand, none such is left out on failure, and the tier reported is the one that answered |
| `Summarization.MaybeSummarize` | internal/comms/summarize.go:35-102 | the trigger plans exactly if it is enabled, keepLast (10 if not positive) is below the threshold (20 if not positive), more than keepLast messages are uncovered, and with the summary, if there is one, they reach the threshold; it plans the oldest uncovered messages but keepLast, in order, after all that was covered |
| `Summarization.DecideIs` | internal/comms/summarize.go:39-91 | the decision that the runs below take is that one |
| `Summarization.IdleUnlessActive` | internal/comms/summarize.go:39-50 | in every run, disabled or with keepLast at or above the threshold, no task starts and no summary is stored |
| `Summarization.ListOnce` | internal/comms/summarize.go:98-101 | the ids already covered are listed once each, in any order |
| `Summarization.PlanCovers` | internal/comms/summarize.go:50-102 | a plan made from an earlier read covers a prefix of the timeline without repeats, strictly extends what was covered, and leaves out the last keepLast messages |
| `Summarization.RunKeepsInv` | internal/comms/summarize.go:50-160 | in every run the store, the plans and the slots stay consistent: unique ids, covered prefixes, one holder per slot |
| `Summarization.CoveredIsPrefix` | internal/comms/summarize.go:50-116 | in every run, every stored summary and every plan in flight covers a prefix of the messages, without repeats and without summaries |
| `Summarization.SingleFlight` | internal/comms/summarize.go:104-115 | in every run at most one summarisation runs per channel |
| `Summarization.LandingContainsLatest` | internal/comms/summarize.go:159-160 | a landing summary contains all that the latest one covers exactly if the task had read at least the latest coverage and keepLast more messages |
| `Summarization.CoverageGrowsIff` | internal/comms/summarize.go:57-160 | over all runs and any number of channels: coverage grows strictly from summary to summary if and only if every task that lands had read enough to cover more than the latest |
| `Summarization.FreshReadMore` | internal/comms/summarize.go:57-160 | a task that lands with no summary since its read of the covered ids has read enough |
| `Summarization.CoverageGrows` | internal/comms/summarize.go:57-116 | with one channel and no summary between the read and winning the slot, the slot keeps every landing fresh, so each later summary covers strictly more |
| `Summarization.CoverageCanShrink` | internal/comms/summarize.go:57-116 | a concrete run in which a later summary covers less than the one before it |
| `Summarization.TriggerAfterLanding` | internal/comms/summarize.go:80-91 | in every run, a trigger right after a landing does nothing exactly when no message was added since the summary's read, or too few to reach the threshold again |
| `Tiers.EngineFallbackModel` | internal/comms/tier.go:46-85 | the engine's scan returns the model of the tier that the three-step rule picks |
| `Tiers.ControlFallbackTier` | internal/controlcenter/fallback.go:21-62 | the control centre's scan picks the same tier, with its backend, and fails exactly when no tier is enabled |
| `Tiers.FallbackModelsAgree` | cmd/alf-daemon/adapters.go:209-238 | the two implementations, run on a configuration and on its snapshot projection, both return the model that the rule gives |
| `Tiers.DefaultPickIs` | internal/comms/tier.go:46-85 | the rule: the first enabled tier of the default name; else the first of the lowest-priority enabled routable tiers below 2^63-1; else the first enabled tier; none exactly if none is enabled |
| `Tiers.LowestMediaTier` | internal/comms/tier.go:229-255 | the media scan returns the first lowest-priority reader, else the first lowest-priority enabled tier, else the first tier |
| `Tiers.MediaTierReads` | internal/comms/tier.go:228-240 | if enabled readers (write-capable, or with tool "*" or "Read") have names and one has a priority the scan can see, the media tier is one of minimal priority |
| `Tiers.MediaTierWithoutReaders` | internal/comms/tier.go:241-255 | without enabled readers: an enabled tier of minimal priority under the same provisos, and the first tier if none is enabled |
| `Tiers.OnboardingTier` | internal/comms/tier.go:183-212 | the scan for the two smallest gives element 1 of the stable sort of the candidates by priority; the first fallback tier if there are not two |
| `Tiers.OnboardingPickIs` | internal/comms/tier.go:183-212 | that is the tier that is enabled, no orchestrator, and has exactly one such tier before it by priority and then position |
| `Tiers.ResolveFallbackChain` | internal/comms/tier.go:260-280 | on any configuration, cyclic and dangling ones included, terminates with a maximal repeat-free path of first-match fallback links that avoids the start |
| `Tiers.ChainIsUnique` | internal/comms/tier.go:260-280 | there is exactly one such chain |
| `Tiers.ChainIsShort` | internal/comms/tier.go:260-280 | no such path is longer than the list of tiers |
| `Routing.CheckForced` | internal/comms/pipeline.go:93-107 | a forced tier survives exactly if a tier of that name is enabled or can be forced |
| `Routing.RouteMedia` | internal/comms/pipeline.go:312-339 | the router's choice for media with a caption is kept if and only if it names a tier, carries no answer and every tier of that name can read; all else goes to the media tier |
| `Routing.ApplySkillTierOverride` | internal/comms/pipeline.go:342-364 | the loop computes the override on the last tier of each name |
| `Routing.SkillOverrideTakesMaximum` | internal/comms/pipeline.go:347-363 | the override takes the higher of the two priorities, of the last tier of each name, and never lowers one, unlisted tiers included |
| `Routing.ChooseRoute` | internal/comms/pipeline.go:127-208 | the stages, run in sequence, give the first that applies of onboarding, skill override, forced tier, media, the router's tier, reply, close recall, direct answer |
| `Routing.StagesApply` | internal/comms/pipeline.go:127-208 | what each reason for a tier gets: the onboarding tier; the router's tier; on a reply that it answered itself its second choice or the first fallback; on a recall closer than 0.6 the first fallback; with a required skill that tier |
| `Routing.DirectIff` | internal/comms/pipeline.go:127-211 | a forced tier, media, a reply, a close recall, a required skill tier or onboarding each rules out a direct answer whatever the classifier says, and nothing else does |
| `Routing.Route` | internal/comms/pipeline.go:93-308 | the code's sequence from the requested tier to the dispatch computes the decision; the forced tier is the requested one exactly if some tier of that name is enabled or can be forced, else none |
| `Routing.DecisionIsSound` | internal/comms/pipeline.go:210-308 | direct exit if and only if the router answered, chose no tier, and no forced tier, media, reply, recall closer than 0.6, required skill tier or onboarding asks for one; cancelled exactly when the context is; an unforced tier that reaches invocation is empty, the first fallback, or enabled and routable or forceable; a forced one is kept; agents exactly for an orchestrator with model and teams |
| `Routing.PlainMessageGetsItsTier` | internal/comms/pipeline.go:131-308 | a message that nothing overrides is served by the classifier's tier if that is valid, else by the first fallback |
| `Routing.MediaEndOnReader` | internal/comms/pipeline.go:251-308 | in any catalogue: exactly when media, without force, skill or onboarding, are handed on to a provider or the agents on a tier that can read |
| `Routing.MediaEndOnReaderIff` | internal/comms/pipeline.go:251-308 | with unique names and a reader for the scan to find: if and only if they are handed on, and the first fallback can read or the chosen tier is valid and no orchestrator without teams |
| `Routing.MediaMayMissTheReader` | internal/comms/pipeline.go:251-259 | two tiers for which media end on a tier that cannot read because the reader chosen for them cannot serve |
| `Routing.OrchestratorMayMissTheReader` | internal/comms/pipeline.go:287-301 | two tiers for which they do so because the reader, valid as it is, is an orchestrator without teams |
| `Routing.SkillEndsNoLowerIff` | internal/comms/pipeline.go:197-308 | a message with a required skill tier is handed on at no lower priority than the tier it was routed to if and only if it is handed on, and the first fallback is high enough or the override's result is valid and no orchestrator without teams |
| `Routing.SkillMayLower` | internal/comms/pipeline.go:251-259 | three tiers for which a required skill tier that cannot serve makes the message end below the tier it was routed to |
| `Routing.OrchestratorMayLower` | internal/comms/pipeline.go:287-301 | three tiers for which a valid required tier, an orchestrator without teams, does the same |
| `StableSort.SortIsStable` | cmd/alf-daemon/adapters.go:166-171 | the sort is ascending, a permutation, and keeps the order within each key |
| `StableSort.StableSortIsUnique` | cmd/alf-daemon/adapters.go:166-171 | these properties leave no choice |
| `StableSort.SinkInto` | cmd/alf-daemon/adapters.go:168-170 | the inner loop of adjacent swaps inserts the element behind those that are not greater |
| `StableSort.InsertionSort` | cmd/alf-daemon/adapters.go:167-171 | the in-place sort leaves the stable sort of the array |
| `StableSort.TakeSortConcat` | cmd/alf-daemon/adapters.go:147-174 | the first k of a sorted concatenation depend only on the first k of each sorted part |
| `MemorySearch.SearchAcrossScopes` | cmd/alf-daemon/adapters.go:137-176 | nothing without a store or a positive limit; else the first limit of the stable sort of all scopes that answered, tagged, in scope order |
| `MemorySearch.GatheredIs` | cmd/alf-daemon/adapters.go:146-163 | what is sorted: the hits of the scopes that answered, one scope after the other, each tagged with its own of the five scopes |
| `MemorySearch.FanOutIsGlobalTopK` | cmd/alf-daemon/adapters.go:147-175 | asking each scope for its best limit loses nothing: the answer is that of one search over all their documents, ties included |
| `MemorySearch.BestAreBest` | cmd/alf-daemon/adapters.go:166-175 | scores descend, every hit is a document, and no document left out scores higher |
| `Text.TrimIs` | internal/controlcenter/handler_skill_import.go:526 | what trimming leaves is characterised by what surrounds it |
| `Text.JoinSplit` | internal/controlcenter/handler_skill_import.go:577 | joining lines undoes splitting |
| `Text.SplitUnlines` | internal/controlcenter/handler_skill_import.go:531 | splitting printed lines gives the lines back |
| `SkillFile.ParseFrontmatter` | internal/controlcenter/handler_skill_import.go:524-582 | the line loop computes: fields between the first two fences, last assignment wins, triggers of all trigger lines, body behind the second fence or the whole text |
| `SkillFile.ParseLine` | internal/controlcenter/handler_skill_import.go:544-573 | one line assigns the field of its key, unquoted, or appends its triggers, or does nothing |
| `SkillFile.ListItems` | internal/controlcenter/handler_skill_import.go:565-570 | the comma loop keeps the non-empty trimmed parts in order |
| `SkillFile.BuildEnriched` | internal/controlcenter/handler_skill_import.go:585-630 | prints the merge of the parsed file with what the user supplied: the name of the file if it has one, the supplied triggers and tier if there are any |
| `SkillFile.Print` | internal/controlcenter/handler_skill_import.go:607-629 | the printed text, written out: fences, a name line, a line for each other value that is there, a blank line and the body |
| `SkillReading.LastLineWins` | internal/controlcenter/handler_skill_import.go:543-560 | a field has the value of the last line whose text before the first colon is its key, up to white space; that value is trimmed and rid of one pair of quotes; empty if no line sets it |
| `SkillReading.TriggersSay` | internal/controlcenter/handler_skill_import.go:561-571 | each line that sets triggers adds its list to those before it |
| `SkillReading.ListIsRead` | internal/controlcenter/handler_skill_import.go:563-570 | a list is read the same with both brackets, one, or none |
| `SkillReading.ItemsAre` | internal/controlcenter/handler_skill_import.go:565-570 | its items are the parts that are not blank, trimmed, in order |
| `SkillReading.BomIsSkipped` | internal/controlcenter/handler_skill_import.go:525 | byte order marks at the start of a file make no difference |
| `SkillReading.PlainText` | internal/controlcenter/handler_skill_import.go:526-529 | a text that does not begin with three dashes is all body |
| `SkillReading.BlockSays` | internal/controlcenter/handler_skill_import.go:531-582 | any file with a block, closed or not, fences indented or not: its fields are those of the lines between the first two fences, its body what follows, or the whole text if nothing does |
| `SkillReading.NoBlock` | internal/controlcenter/handler_skill_import.go:531-582 | without a line of three dashes there are no fields, whatever the file begins with |
| `SkillRoundTrip.HeaderReads` | internal/controlcenter/handler_skill_import.go:543-575 | what the parser finds in a printed header, whatever the values |
| `SkillRoundTrip.FenceGrowsBody` | internal/controlcenter/handler_skill_import.go:533-581 | a source label with a fence in it makes the body that is read back longer |
| `SkillRoundTrip.ParsedIsBare` | internal/controlcenter/handler_skill_import.go:524-582 | whatever the file, parsed values fit on a line, parsed triggers are trimmed, non-empty and without commas, and the body is trimmed |
| `SkillRoundTrip.ParseUndoesPrint` | internal/controlcenter/handler_skill_import.go:524-630 | for any record and any source label, parsing the printed file gives the record back if and only if it survives: no fence or trigger in the later lines of the label, each value kept, triggers and body in parsed form |
| `SkillRoundTrip.CleanSurvives` | internal/controlcenter/handler_skill_import.go:524-630 | with a source label on one line, the records that survive are the clean ones: trimmed, unquoted values on one line, proper triggers, trimmed body |
| `SkillRoundTrip.MergedIsClean` | internal/controlcenter/handler_skill_import.go:586-604 | when a merge is clean, in terms of the file's own values and the supplied ones |
| `SkillRoundTrip.EnrichAndReread` | internal/controlcenter/handler_skill_import.go:585-630 | the parse of the enriched file is the merged record if and only if that record survives |
| `SkillRoundTrip.PrintIsInjective` | internal/controlcenter/handler_skill_import.go:606-629 | printing with the same source label tells apart any two records whose values fit on their lines |
| `SkillRoundTrip.EnrichingTwice` | internal/controlcenter/handler_skill_import.go:585-630 | for any source label, enriching again with the same arguments writes the same file if and only if the label holds no fence and each value that is not supplied again is kept |
| `SkillRoundTrip.NestedQuotesAreLost` | internal/controlcenter/handler_skill_import.go:548-551 | a concrete description that changes each time the file is enriched |
| `SkillRoundTrip.SourceCanRename` | internal/controlcenter/handler_skill_import.go:622-624 | with a source label of two lines, the name that is read back is the one in the label |
| `MediaGroups.MergeMediaGroups` | cmd/alf-daemon/types.go:272-319 | one update per group at its first position and all others kept in order; the first message of each group holds the album, and no other message is written to |
| `MediaGroups.KeptAre` | cmd/alf-daemon/types.go:276-317 | what is kept, in order: the updates without a message, those in no group, and the first of each group |
| `MediaGroups.Absorb` | cmd/alf-daemon/types.go:285-311 | the target takes over the photos, then document and then video as files, and the caption if it has none |
| `MediaGroups.AlbumNext` | cmd/alf-daemon/types.go:285-311 | an album of more messages is the album with one more absorbed: photos in order, later files in order, first non-empty caption |
| `MediaGroups.MergeTwice` | cmd/alf-daemon/types.go:272-319 | a second merge gives the same updates and leaves each message holding its album of the first |
| `MediaGroups.MergedStaysMerged` | cmd/alf-daemon/types.go:272-319 | of what merging keeps, merging keeps everything and changes no message, whatever the messages hold by then |
| `MediaGroups.RedeliveredAreTrailing` | cmd/alf-daemon/main.go:1635-1646 | of a batch with rising ids, the updates asked for again are exactly those behind the last one that was kept |
| `MediaGroups.AcknowledgedIffLastIsKept` | cmd/alf-daemon/main.go:1635-1646 | a batch is acknowledged as a whole if and only if its last update was not merged into an earlier one; an empty one leaves the offset |
| `MediaGroups.AlbumAtTheEnd` | cmd/alf-daemon/main.go:1635-1646 | of a batch that ends in an album of two, the second message is asked for again |
| `SessionKey.ConvSessionID` | internal/controlcenter/chat_service.go:50-64 | the control centre's loop computes the wrapping hash, negated, of the tab name; -1 for none |
| `SessionKey.ChannelSessionKey` | internal/comms/types.go:25-52 | the engine's key of a channel: the chat id, the negated hash, or -1 |
| `SessionKey.ChannelKeyIs` | internal/comms/types.go:25-52 | the key of any channel: for "tg" a value that is a number, for "cc" the key of the tab unless the value is empty or "default", and -1 for all else |
| `SessionKey.ConvKeyIs` | internal/controlcenter/chat_service.go:50-64 | the key of a name by its hash h: h if it is negative or 2^63-1, and else -2-h |
| `SessionKey.KeysCollideIff` | internal/controlcenter/chat_service.go:50-64 | two tabs share a key if and only if their hashes are equal or add up to -2 |
| `SessionKey.ParseDecimal` | internal/comms/types.go:33-37 | every number in decimal is read back if it fits in 64 bits, and refused if not |
| `SessionKey.OtherDecimals` | internal/comms/types.go:33-37 | a plus sign and leading zeros make no difference, and no digits are refused |
| `SessionKey.NotDecimal` | internal/comms/types.go:33-37 | a value with anything but digits behind its sign is refused |
| `SessionKey.KeysAgree` | internal/controlcenter/chat_service.go:50-64 | the two computations, run on a tab name and on its channel, give the same key if and only if the name is not "default" |
| `SessionKey.TabKeyIsNegative` | internal/controlcenter/chat_service.go:60-62 | a tab key is negative exactly when the hash is not 2^63-1, is -1 exactly for no name or hash -1, and is never 0 |
| `SessionKey.ChatKey` | internal/comms/types.go:33-37 | a Telegram channel has its chat id for key, for every id |
| `SessionKey.TabsAvoidChats` | internal/comms/types.go:38-50 | a tab can share its key with a positive chat id only if its hash is 2^63-1 and so is the id |
| `SessionKey.HashOfDefault` | internal/comms/types.go:39 | the hash of "default" is not the default key |
| `SessionKey.PositiveTabKey` | internal/comms/types.go:46-48 | the tab name "is0EY.s5S_QY" has the key 2^63-1 |
| `SessionKey.DefaultKeyIsNotAName` | internal/controlcenter/chat_service.go:569 | the channel "cc:-1" does not have the default key |
| `AppToken.DecodeEncode` | internal/controlcenter/app_token.go:60-69 | decoding undoes unpadded base64url, for every byte string |
| `AppToken.EncodeThree` | internal/controlcenter/app_token.go:60 | any four groups of six bits, packed in three bytes, are written as their four letters, whatever follows |
| `AppToken.EncodeLast` | internal/controlcenter/app_token.go:60 | one or two bytes at the end are two or three letters, without padding, the bits that are missing zero |
| `AppToken.ForeignIsRefused` | internal/controlcenter/app_token.go:66-69 | text with a character outside the alphabet that is no line end is refused |
| `AppToken.LoneLetterIsRefused` | internal/controlcenter/app_token.go:66-69 | a single letter behind whole groups of four is refused |
| `AppToken.ExpiryReads` | internal/controlcenter/app_token.go:51-53 | every signed 64-bit expiry survives its eight bytes |
| `AppToken.ExpiryBytesAre` | internal/controlcenter/app_token.go:51-53 | the eight bytes are the two's complement of the expiry, the most significant first |
| `AppToken.FramesAreInjective` | internal/controlcenter/app_token.go:47-58 | a frame determines its slug and expiry |
| `AppToken.Issue` | internal/controlcenter/app_token.go:41-61 | a token is the encoding of the length, the first 255 bytes of the slug, the eight bytes of the time 300 seconds on, and their signature |
| `AppToken.AcceptedIffSigned` | internal/controlcenter/app_token.go:65-98 | a token is accepted for a slug if and only if it decodes to a signed, unexpired frame for that slug |
| `AppToken.IssueAndValidate` | internal/controlcenter/app_token.go:41-104 | the token that Issue builds is accepted until exactly 300 seconds later, for the first 255 bytes of the slug and no other slug |
| `AppToken.OwnToken` | internal/controlcenter/app_token.go:41-104 | an app's own token is good for the app if and only if its slug has at most 255 bytes |

## Left out

- HTTP, SSE headers, Telegram, SQLite, providers, Docker, the setup wizard, seeding and migrations: input and output only.
- Simple stores, lookup caches, redaction, handler dispatch, emoji and mood choice, cost figures, log text, traces and the `Reason` of a route: they decide nothing that is modelled.
- `collectRecentAll`, `stripReactTags`, `ringBuffer` and `chatHistoryBuffer`: a sort, a text filter and two plain buffers beside the modelled flows.
- `ActiveJobs` of the chat service: a lookup over the job map whose contents `OneLiveJobPerConversation` describes.
- JobStream.ReconnectSeesWholeLog: takes it that each reconnect finds the job; when it does is the subject of `FoundUntilDropped`.
- ChatJob.Connection.Round: negative reconnect offsets, which crash the copy, and events that cannot be encoded, which are skipped without advancing the offset, are excluded; the closing error event, which is not part of the log, is the error that the round returns.
- JobStream.ReturnedReaderSentEverything: assumes that nothing is written after finish, which `StartJob` itself keeps but a cancel request racing with finish does not; such a run is the subject of `PanicIffWriteAfterFinish`.
- JobRegistry.ChatService.StartJob: the job's own goroutine is left out; its pushes, stop and finish are steps of `JobStream` and `JobRegistry`.
- Accumulator.BlocksAreRuns: truncation counts bytes and may cut a multi-byte character; strings are byte strings here, so this is kept but not discussed.
- Invocation.Answer: the accumulator is always there, as it is when the memory store is; the tool-loop wrapping of a provider, the parameters of a turn and the moment at which a context is cancelled within a turn are not modelled. An attempt is any function of its number.
- Invocation.TryFallbacks: that `ResolveTierParams` finds a tier is taken as that a tier of the name exists; the parameters it resolves are not modelled.
- Summarization.MaybeSummarize: read errors of the store, which the code ignores, and the text of the summary are left out. Message ids are unique, listing keeps order, and an appended summary is the next one read; one conversation is modelled.
- Summarization.CoverageGrows: is about the triggers of one channel, whose slot it relies on; `CoverageGrowsIff` covers all runs and any number of channels.
- Routing.Route: the tier store is read several times by the code and once here, so the configuration does not change during one decision; what skills, onboarding, recall and the classifier say are inputs.
- Tiers.OnboardingTier: priorities are compared as integers and sorted by the real of the same value.
- MemorySearch.SearchAcrossScopes: scores are real numbers without NaN; the metadata map that is written through a shared reference is a field of the hit, so aliasing between hits is not captured.
- SkillFile.ParseFrontmatter: files are sequences of code points, so invalid UTF-8 is left out.
- SkillRoundTrip.EnrichingTwice: the supplied name, triggers and tier are on one line; with line breaks in them, different records can print the same file.
- MediaGroups.MergeMediaGroups: updates have separate message objects, as decoding gives them; the appended slices share no backing array here. Of a message only what merging reads or writes is modelled.
- SessionKey.TabKeyIsNegative: collisions of the hash between tab names are not ruled out, and cannot be.
- AppToken.AcceptedIffSigned: the signature is any function to 32 bytes, so nothing is said about forging one; the key, randomness and the clock are inputs.
- The regular expressions of `parseCommand` and `stripToolXML`: not part of this model.
