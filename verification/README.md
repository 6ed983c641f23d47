# Verified model of the AG-UI run and recovery layer

This project models the parts of `sdk/` that run, stream, recover and merge AG-UI conversations, and
proves what they are for. Each module follows one source file; code that works step by step is a method
proved against a specification function, and protocols that several workers run at once are state
machines whose every run is covered.

| module | models |
|---|---|
| `DependencyGraph`, `DependencyResume`, `DependencyHandover` | the graph of delegated turns: validation by depth-first search and count, resumption from leaf to root over durable rows, and the list handed on after a pause (`sdk/agui_dependency_resume.go`) |
| `RunStore` | the durable run journal: append under compare-and-set, claim and renewal of leases (`internal/datly/agui/manage`) |
| `ProxyWorker` | at-most-once native effects of guest calls, with crashes, lease expiry and lost messages (`sdk/agui_mcp_apps_worker.go`) |
| `Approval` | answers to one tool approval, applied by any number of workers (`sdk/agui_interrupts.go`) |
| `StateCommand` | concurrent `state.get` and `state.patch` commands (`sdk/agui_state_commands.go`) |
| `ClientToolTimeout` | deadline recovery of frontend calls (`sdk/agui_clienttool_timeout.go`) |
| `FencedText`, `FencedStreaming`, `Presentation` | plain text out of authored Markdown, and its streaming projection (`sdk/agui_rendering.go`, `sdk/rendered_content.go`) |
| `RecoveryMerge`, `RecoveryIdempotence` | merging recovered native messages into the journal's messages (`sdk/agui_recovery.go`) |
| `FeedActivation` | the frontier of feed lifecycle facts (`sdk/agui_feed_activation.go`) |
| `CanonicalReducer` | the conversation reducer (`sdk/canonical_reducer.go`, `sdk/canonical_helpers.go`) |

In the three protocols a run is an arbitrary sequence of steps: workers arrive, read, write, stop and
lose messages in any order, and a step that is not enabled changes nothing. History variables
(`effects`, `receipts`, `published`, `log`, `commits`) record what an observer would see; no step reads
them. Each module also holds the worker's own program as a class, whose contract says that undisturbed
(for `StateCommand`, with given steps of other writers in between) it is a run of the protocol.

## Where the code differs from what is said of it

- An approval answer that differs from the decided one is refused, except in one race: its check passed
  before the decision was claimed, and its second read of the row found the decision carried out. Then it
  is acknowledged, without effect, because the second read does not compare answers
  (`sdk/agui_interrupts.go:547-552`). `Approval.AcknowledgedAnswers` gives the exact condition and
  `Approval.RacedAnswerIsAcknowledged` a run.
- `finalizeTurn` is described as refusing to downgrade a terminal status (`sdk/canonical_helpers.go:842-843`),
  but a completed turn can still become failed or canceled, and a failed or canceled one leaves that status
  when it is started again or asks for input. `CanonicalReducer.FailureIsLeftExactlyByReopening` and
  `CanonicalReducer.CompletionIsReplaced` say exactly when.
- Starting an existing turn again renames its user message in place. When that message is shared with the
  turn's list of user messages, two entries of the list can end up with the same id
  (`sdk/canonical_reducer.go:123-128`, `313-321`); `CanonicalReducer.UsersStayUnique` gives the exact condition and
  `CanonicalReducer.UserIdsCanRepeat` a log that gets there.
- Streamed plain text does not always grow: text shown after an unfinished fence header can be taken back
  when the header's line ends. `FencedStreaming.PlainGrowsExactlyWhenSteady` gives the exact condition and
  `FencedStreaming.TextCanBeTakenBack` an input; the projector then sends a snapshot instead of a delta.

## Model

| member | source | states |
|---|---|---|
| `DependencyGraph.Validate` | sdk/agui_dependency_resume.go:34-76 | accepts an edge list exactly when it has at most 128 well-formed edges forming a tree rooted at the admitted turn; each error means what it says |
| `DependencyGraph.Validation.Index` | sdk/agui_dependency_resume.go:37-50 | fills both indexes with exactly the listed edges in order, or names the first edge that is malformed or repeats a child |
| `DependencyGraph.Validation.Visit` | sdk/agui_dependency_resume.go:54-70 | the depth-first search terminates; on success the visited set is closed and holds only turns reachable from the start; on failure there is a cycle below the start |
| `DependencyGraph.CountProvesTree` | sdk/agui_dependency_resume.go:74-76 | the count test: a closed reachable set of children + 1 turns under distinct children is a tree |
| `DependencyGraph.CountDetectsDisconnection` | sdk/agui_dependency_resume.go:74-76 | a wrong count exhibits an edge whose child is the root or is not reachable from it |
| `DependencyGraph.CycleIsNoTree` | sdk/agui_dependency_resume.go:54-76 | a cycle below the root, like any other, excludes a rooted tree |
| `DependencyGraph.TreeIsAcyclic` | sdk/agui_dependency_resume.go:54-70 | in an accepted graph no turn that the root reaches lies below itself |
| `DependencyGraph.ChildSubtreeShrinks` | sdk/agui_dependency_resume.go:101-165 | the measure that makes the resuming recursion, which keeps no visited set, terminate |
| `DependencyGraph.SiblingSubtreesDisjoint` | sdk/agui_dependency_resume.go:101-165 | two delegations of one turn share no descendant, so no turn is met twice |
| `DependencyResume.ResumeGraph` | sdk/agui_dependency_resume.go:30-221 | a whole pass, on any rows and any outside behaviour: rejects exactly the graphs validation rejects; resumes each child at most once, only while waiting and after its own delegations; answers waiting calls with the children's own results and changes nothing else of the calls; nothing follows a pause, which hands on the edges still open; the root is reached only when every call it owns is answered, and it is reached whenever each call is answered or waits for a turn that polling finds ended, or waiting and resumed to its end |
| `DependencyResume.Pass.ResumeChildren` | sdk/agui_dependency_resume.go:100-168 | post-order: when it returns without pausing every call the turn owns is terminal; only turns below it change, only waiting calls are answered; it comes through when every turn below is willing |
| `DependencyResume.Pass.ResumeEdge` | sdk/agui_dependency_resume.go:102-165 | a terminal call is skipped, a mismatched one fails, a waiting one ends terminal unless the pass pauses, and it does end so when the child and everything below it is willing |
| `DependencyResume.Pass.FinishEdge` | sdk/agui_dependency_resume.go:120-165 | a child already terminal is read and completed without being resumed; a willing child's call ends answered |
| `DependencyResume.Pass.ReadChild` | sdk/agui_dependency_resume.go:233-272 | what polling may conclude from the child's row, and that it concludes when a row in time is ended or waiting under the right parent |
| `DependencyResume.Pass.CompleteCall` | sdk/agui_dependency_resume.go:155-163 | a waiting call gets the child's own result once; with the same result a completed one is accepted unchanged |
| `DependencyResume.CarryOn` | sdk/agui_dependency_resume.go:178-186 | the edges whose calls still wait, in order, or a failure exactly when some call does not match its row |
| `DependencyResume.Pass.MergeEdges` | sdk/agui_dependency_resume.go:85-99 | replaces an edge with the same id in place and appends the others |
| `DependencyResume.AnsweredStaysAnswered` | sdk/agui_dependency_resume.go:101-168 | over any history of durable steps - any number of passes, each over its own edge list and cut off anywhere, and other steps that leave answered calls alone - an answered call keeps its answer |
| `DependencyResume.CompletedIsFinal` | sdk/agui_dependency_resume.go:101-168 | over any such history a call is completed at most once and its child is never polled or resumed for it again, whatever edge list a later pass has |
| `DependencyResume.ResumedAfterDelegates` | sdk/agui_dependency_resume.go:100-168 | a turn is resumed only after everything it delegated was answered, and none of that is touched again |
| `DependencyHandover.PassKeepsLayers` | sdk/agui_dependency_resume.go:100-168 | wherever a pass is cut off, a call is answered only if every call below the turn it waited for is |
| `DependencyHandover.OpenPartIsTree` | sdk/agui_dependency_resume.go:178-186 | the open edges of a rooted tree form a rooted tree exactly when each belongs to the root or to a turn another open edge waits for |
| `DependencyHandover.TreesGraft` | sdk/agui_dependency_resume.go:85-99 | edges returned by a turn, a tree of new turns below it, join the list to one rooted tree |
| `DependencyHandover.HandedOverListIsAccepted` | sdk/agui_dependency_resume.go:149-186 | after a pause the list handed on is well formed and a rooted tree again, so that the next pass admits it if it is not too long, and the next pass starts from answers in order again |
| `RunStore.LifecycleShape` | internal/datly/agui/manage/append.go:60-124 | an accepted batch is addressed to its run, starts a journal or holds no start, and only its last event is terminal |
| `RunStore.AppendKeepsJournal` | internal/datly/agui/manage/append.go:19-216 | a successful append matches the revision, raises it by one, extends the journal by exactly its events and leaves a journal with one start and at most one, final, terminal event |
| `RunStore.ClaimsExclude` | internal/datly/agui/manage/lease.go:63-121 | a claim changes the lease only, lets the claimer write, and shuts out every other owner until it expires |
| `RunStore.JournalStore.Scan` | internal/datly/agui/manage/append.go:60-124 | the event loop computes the lifecycle function |
| `RunStore.JournalStore.Append` | internal/datly/agui/manage/append.go:19-216 | the whole new run and thread rows, or the error and unchanged rows |
| `RunStore.JournalStore.Claim` | internal/datly/agui/manage/lease.go:63-121 | the claim transaction |
| `RunStore.JournalStore.Renew` | internal/datly/agui/manage/lease.go:81-84 | the renewal transaction |
| `ProxyWorker.EffectsHappenAtMostOnce` | sdk/agui_mcp_apps_worker.go:27-272 | over every run of the protocol the native call begins at most once, by the worker whose RUN_STARTED was committed |
| `ProxyWorker.AbandonedCallIsNeverMade` | sdk/agui_mcp_apps_worker.go:110-156 | once the run has started and no worker stands before its call, no later worker makes the call |
| `ProxyWorker.RecoveryReportsTheReceipt` | sdk/agui_mcp_apps_worker.go:110-156 | a recovering worker publishes success only with exactly the last durable receipt; with none, an error; after an approval only for the approved operation, turn and answer |
| `ProxyWorker.OneTerminalEvent` | sdk/agui_mcp_apps_worker.go:60-109 | no run of the protocol journals two terminal events or two starts |
| `ProxyWorker.TerminalIsFinal` | sdk/agui_mcp_apps_worker.go:60-109 | a terminal run and what was published never change |
| `ProxyWorker.SuccessNeedsTheEffect` | sdk/agui_mcp_apps_worker.go:79-109 | a finished run had its one call, and what an observer saw published is the journal's last event |
| `ProxyWorker.RecoveryCompletes` | sdk/agui_mcp_apps_worker.go:28-32 | no crash strands a started run: a later claimant can always end it with the recovery's verdict |
| `ProxyWorker.UndisturbedRunPublishes` | sdk/agui_mcp_apps_worker.go:166-271 | a fresh run, undisturbed, makes its one call and ends with what it answered |
| `ProxyWorker.StepKeeps` | sdk/agui_mcp_apps_worker.go:27-272 | every step of every worker keeps the protocol's invariant |
| `ProxyWorker.Attempt.AppendEvents` | sdk/agui_mcp_apps_worker.go:60-66 | the pending data travels with every append, and the worker moves to the new record exactly on success |
| `ProxyWorker.Attempt.Note` | sdk/agui_mcp_apps_worker.go:169-189 | the recorder refuses receipts without the approved operation and otherwise makes them durable |
| `ProxyWorker.Attempt.Close` | sdk/agui_mcp_apps_worker.go:79-109 | the terminal append of each ending |
| `ProxyWorker.Attempt.Attend` | sdk/agui_mcp_apps_worker.go:110-166 | a started run is recovered without a call, a new one is started first |
| `ProxyWorker.Attempt.Proceed` | sdk/agui_mcp_apps_worker.go:190-271 | from a committed start: refusal, or the call and the verdict on its reply |
| `ProxyWorker.Attempt.Work` | sdk/agui_mcp_apps_worker.go:27-272 | the whole worker, undisturbed, is the run of the protocol its script spells out |
| `Approval.OnlyApproveAuthorizes` | sdk/agui_interrupts.go:286-309 | an answer authorizes the tool exactly when it is a readable, uncancelled approve, and only such an answer edits arguments |
| `Approval.ToolRunsAtMostOnce` | sdk/agui_interrupts.go:534-687 | over every run of the protocol the tool runs at most once, and only if the claimed answer is approve |
| `Approval.OutcomesAreFaithful` | sdk/agui_interrupts.go:588-687 | a recorded outcome agrees with the message and the tool call, is what the tool returned or that it was not run, and the row has left the queue |
| `Approval.DecisionIsFinal` | sdk/agui_interrupts.go:577-598 | a decision is never replaced, withdrawn or returned to pending; after its outcome nothing changes |
| `Approval.StrandedDecisionIsNeverRetried` | sdk/agui_interrupts.go:496-502 | a decision whose worker stopped is never executed, acknowledged or reset by anyone |
| `Approval.ReplayHasNoEffect` | sdk/agui_interrupts.go:488-510 | after completion the same answer is acknowledged, any other refused, and neither changes anything |
| `Approval.AcknowledgedAnswers` | sdk/agui_interrupts.go:535-552 | the exact condition under which an answer, and a differing one, is acknowledged |
| `Approval.RacedAnswerIsAcknowledged` | sdk/agui_interrupts.go:546-552 | a run in which an approve is acknowledged although a reject was decided |
| `Approval.UndisturbedAnswerCompletes` | sdk/agui_interrupts.go:534-687 | an answer in time, undisturbed, is carried out: the tool runs exactly for approve and the row ends with this answer and its outcome |
| `Approval.StepKeeps` | sdk/agui_interrupts.go:465-687 | every step of every worker keeps the protocol's invariant |
| `Approval.ClaimKeeps` | app/store/toolapprovalclaim/claim.go:18-65 | the atomic claim, won or lost, keeps the invariant: one claimer, whose answer is the decision |
| `Approval.Queue.Inspect` | sdk/agui_interrupts.go:488-532 | the check of an answer against the row, its message and its tool call |
| `Approval.Queue.Answer` | sdk/agui_interrupts.go:534-587 | the whole program, undisturbed, is the run of the protocol its script spells out |
| `Approval.Queue.CarryOut` | sdk/agui_interrupts.go:588-603 | the tool runs only for approve, and the result is what is then reported |
| `Approval.Queue.Report` | sdk/agui_interrupts.go:637-686 | message, tool call and row are written in that order |
| `Approval.MatchAnswers` | sdk/agui_interrupts.go:126-212 | a resume is accepted exactly when its answers are a permutation of distinct, named interrupts and each is acceptable |
| `StateCommand.NoUpdateIsLost` | sdk/agui_state_commands.go:48-109 | however commands and other writers interleave, each write of the shared state starts from what the one before left |
| `StateCommand.StateIsTheFold` | sdk/agui_state_commands.go:48-109 | the shared state equals the fold of the successful patches and foreign writes in commit order |
| `StateCommand.FinishedMeansCommittedOnce` | sdk/agui_state_commands.go:60-102 | a patch run is finished exactly when it is in the log, once; its patch was computed from the state it replaced, whose hash matched |
| `StateCommand.NothingIsRebased` | sdk/agui_state_commands.go:68-75 | what an attempt is about to commit was computed from the state its command first read |
| `StateCommand.FinishedRunsReplay` | sdk/agui_state_commands.go:87-99 | replaying a finished run's journal yields the state its result event reports, under the reported hash |
| `StateCommand.UncontendedAttemptCommits` | sdk/agui_state_commands.go:50-102 | an attempt nobody interferes with commits what it prepared |
| `StateCommand.StepKeeps` | sdk/agui_state_commands.go:48-109 | every step of every worker keeps the protocol's invariant |
| `StateCommand.CommitKeeps` | sdk/agui_state_commands.go:92-102 | the commit under both revisions keeps log, journal and hash in agreement |
| `StateCommand.Resource.Attempt` | sdk/agui_state_commands.go:60-105 | one attempt, with other writers between its read and its append, is a run of the protocol |
| `StateCommand.Resource.Execute` | sdk/agui_state_commands.go:48-109 | the loop of at most eight attempts is a run of the protocol, and a failure leaves the run unchanged |
| `ClientToolTimeout.PrepareTimeout` | sdk/agui_clienttool_timeout.go:65-196 | the loops compute the verdict of the specification function |
| `ClientToolTimeout.ScanCalls` | sdk/agui_clienttool_timeout.go:112-160 | the scan of the pending calls, in order, with its first error |
| `ClientToolTimeout.RetainedIds` | sdk/agui_clienttool_timeout.go:104-109 | detects exactly the duplicate retained answers |
| `ClientToolTimeout.CollectMeans` | sdk/agui_clienttool_timeout.go:112-160 | the scan succeeds exactly when calls are well identified, considered deadlines readable and expired calls answerable, and answers exactly those |
| `ClientToolTimeout.DueExactly` | sdk/agui_clienttool_timeout.go:65-163 | a timeout is due exactly when, besides, some call has expired |
| `ClientToolTimeout.RetainedAnswersAreStable` | sdk/agui_clienttool_timeout.go:94-111 | recomputing an admitted timeout at any later time gives exactly the retained answers if and only if the answered calls' rows can still be answered |
| `ClientToolTimeout.FinishWait` | sdk/agui_clienttool_timeout.go:205-247 | the remaining calls and interrupts and the outcome that names them; nothing to do when none is left |
| `ClientToolTimeout.FinishSplits` | sdk/agui_clienttool_timeout.go:213-227 | calls, and interrupts, are split in order into answered and remaining with none dropped or duplicated |
| `ClientToolTimeout.FinishMembers` | sdk/agui_clienttool_timeout.go:218-227 | a call, or an interrupt, remains exactly when it has no answer |
| `ClientToolTimeout.FinishTakesTheExpired` | sdk/agui_clienttool_timeout.go:112-227 | the finisher removes exactly the calls the timeout answered, in the order of its answers |
| `ClientToolTimeout.RoundsAnswerOnce` | sdk/agui_clienttool_timeout.go:24-247 | over any number of timeouts each call is answered once or still pending, and only calls with a deadline are answered |
| `FencedText.PlainContent` | sdk/agui_rendering.go:182-253 | the cursor loop terminates and computes what the segments show |
| `FencedText.ReadFence` | sdk/agui_rendering.go:197-250 | one round of the loop writes and skips exactly one segment |
| `FencedText.ReadLanguage` | sdk/agui_rendering.go:199-203 | finds the end of the language word |
| `FencedText.ReadTail` | sdk/agui_rendering.go:187-196 | keeps back up to two final backticks of a partial text |
| `FencedText.FindFence` | sdk/agui_rendering.go:186-186 | the first fence at or after a position |
| `FencedText.LanguageEnd` | sdk/rendered_content.go:246-248 | the maximal language word |
| `FencedText.LineBreak` | sdk/rendered_content.go:215-244 | the first line break at or after a position |
| `FencedText.BodyStart` | sdk/rendered_content.go:215-244 | a body lies within the text, at or after the end of the language word |
| `FencedText.BodyStartMeans` | sdk/rendered_content.go:215-244 | where a body starts, exactly: at a bracket or behind the line break that ends the header, and nowhere otherwise |
| `FencedText.FindClose` | sdk/rendered_content.go:197-213 | the first fence of the scan that satisfies the closing rule; none exactly when no fence of the scan does |
| `FencedText.SegmentsAreLossless` | sdk/agui_rendering.go:182-253 | the segments spell the input |
| `FencedText.SegmentsAreSound` | sdk/agui_rendering.go:197-250 | every segment is what the text makes of it where it stands: a payload is a recognised block up to its first admissible closing fence, or to the end if there is none; a foreign block shown whole ends at its first closing fence; other shown text holds no fence; only the end of partial text is withheld. A fence inside a foreign header or block is part of it and stays shown |
| `FencedText.HeadFits` | sdk/agui_rendering.go:197-250 | what one fence makes of the text has exactly the extent said above |
| `FencedText.MarkerReplacesFirstPayload` | sdk/agui_rendering.go:219-243 | all prose is kept in order, with the marker exactly once, at the first payload |
| `FencedText.PlainTextIsUnchanged` | sdk/agui_rendering.go:182-253 | complete text that yields no recognised block is returned unchanged |
| `FencedText.PayloadsAreReplaced` | sdk/agui_rendering.go:182-253 | complete text with recognised blocks loses exactly those, each of the extent just said, and gains one marker in place of the first |
| `FencedStreaming.PlainGrowsExactlyWhenSteady` | sdk/agui_rendering.go:152-163 | what a partial text shows is kept under every continuation if and only if the text is steady |
| `FencedStreaming.NoPayloadAfterOpenerIsSteady` | sdk/agui_rendering.go:217-232 | text is steady when no recognised block follows an unfinished header |
| `FencedStreaming.TextCanBeTakenBack` | sdk/agui_rendering.go:158-163 | an input whose shown text is taken back by a line break |
| `Presentation.Projector.Project` | sdk/agui_rendering.go:26-180 | routing, duplicate suppression and what one event emits and leaves |
| `Presentation.Projector.ReadText` | sdk/agui_rendering.go:96-130 | overlap handling of offset fragments |
| `Presentation.Projector.ProjectText` | sdk/agui_rendering.go:87-180 | the new message state and the emitted delta or snapshot |
| `Presentation.Projector.Deliver` | sdk/agui_rendering.go:26-180 | over any event sequence a client that folds the emitted events holds exactly the visible text, every delta at its current length; every resolved message shows the plain text of its raw text; when the events of each message carry pieces of its source, in any order, repeated or lost, its raw text is a beginning of that source, and under fragments alone it never shrinks |
| `Presentation.AnnounceKeepsSync` | sdk/agui_rendering.go:151-179 | what one processed event emits is contiguous for a client in step and leaves it in step |
| `Presentation.FragmentStep` | sdk/agui_rendering.go:97-124 | a true fragment never shrinks the raw prefix and is dropped exactly after a gap |
| `Presentation.FragmentsAssembleAPrefix` | sdk/agui_rendering.go:96-124 | lost, duplicated, overlapping or reordered true fragments always assemble a prefix of the source |
| `Presentation.UnresolvedWaits` | sdk/agui_rendering.go:97-130 | after a gap nothing is emitted until an authoritative snapshot |
| `Presentation.LastFragmentCompletes` | sdk/agui_rendering.go:96-124 | without a gap, having seen the source's end means holding all of it |
| `Presentation.SteadyTextSendsDeltas` | sdk/agui_rendering.go:152-157 | steady text is sent as deltas only |
| `RecoveryMerge.MergeCallList` | sdk/agui_recovery.go:730-775 | the loop computes the merged call list |
| `RecoveryMerge.MergeMessages` | sdk/agui_recovery.go:630-719 | the whole merge computes the specification function |
| `RecoveryMerge.FindToolHome` | sdk/agui_recovery.go:639-645 | the alias of a recovered tool result |
| `RecoveryMerge.FindCallsHome` | sdk/agui_recovery.go:646-657 | the alias of a message by the calls it declares, the last match winning |
| `RecoveryMerge.SplitTools` | sdk/agui_recovery.go:688-695 | separates tool messages in order |
| `RecoveryMerge.PlaceTool` | sdk/agui_recovery.go:696-717 | inserts one tool message behind its owner's group |
| `RecoveryMerge.ReinsertTools` | sdk/agui_recovery.go:688-718 | reinserts all of them |
| `RecoveryMerge.CallsAreKept` | sdk/agui_recovery.go:733-775 | no journaled call is lost or moved, and a journaled function name never changes |
| `RecoveryMerge.MergeCallsIsIdempotent` | sdk/agui_recovery.go:730-775 | merging the same calls twice equals merging them once, whatever ids repeat on either side |
| `RecoveryMerge.UpsertKeepsMessages` | sdk/agui_recovery.go:658-687 | no message is lost, renamed or moved by the upserts and ids stay unique |
| `RecoveryMerge.ReinsertIsPermutation` | sdk/agui_recovery.go:688-718 | reinsertion is a permutation that keeps the order of the other messages |
| `RecoveryMerge.InsertToolsIsLayout` | sdk/agui_recovery.go:696-717 | the insertion loop equals laying each message out before its tools |
| `RecoveryMerge.ToolsFollowTheirCalls` | sdk/agui_recovery.go:696-717 | only tool messages lie between a tool message and the first message declaring its call |
| `RecoveryMerge.ReinsertIsIdempotent` | sdk/agui_recovery.go:688-718 | reinserting again changes nothing |
| `RecoveryIdempotence.HomeIsGoal` | sdk/agui_recovery.go:637-657 | under consistent identities a recovered message finds the same goal however much of the batch has been merged, other messages with the same goal included |
| `RecoveryIdempotence.MergeProgress` | sdk/agui_recovery.go:632-687 | after each message of the batch the list is the existing messages with exactly that part merged, several messages into one where they share a home |
| `RecoveryIdempotence.MergeIsIdempotent` | sdk/agui_recovery.go:630-719 | merging one batch twice equals merging it once, on consistent identities: each call owned by one message on each side, the calls of one recovered message by one journaled message or none, shared ids of one kind |
| `RecoveryIdempotence.MergeKeepsEverything` | sdk/agui_recovery.go:630-719 | on any input with distinct ids: ids stay unique, no message is lost or renamed, the others keep their order |
| `RecoveryIdempotence.MergePlacesTools` | sdk/agui_recovery.go:688-718 | in the merged list only tool results lie between a tool result and the first message declaring its call |
| `RecoveryIdempotence.SharedHomeIsSettled` | sdk/agui_recovery.go:646-657 | an input on which two recovered messages go into one journaled message, and merging it again changes nothing |
| `RecoveryIdempotence.DeclaringToolBreaksPlacement` | sdk/agui_recovery.go:699-713 | an input showing that placement needs tool messages to declare no calls |
| `FeedActivation.CompareIsStrictPartialOrder` | sdk/agui_feed_activation.go:30-51 | the comparison is a strict partial order with a matching equivalence |
| `FeedActivation.Activation.Observe` | sdk/agui_feed_activation.go:53-67 | the frontier stays the maximal facts up to equivalence, and the report is the conclusion from all facts seen |
| `FeedActivation.Activation.Summarize` | sdk/agui_feed_activation.go:68-81 | Active is known exactly when all maximal facts agree, with the latest time and a single origin |
| `FeedActivation.Recover` | sdk/agui_feed_activation.go:118-121 | the fold has seen exactly the given facts |
| `FeedActivation.ReplaceKeepsFrontier` | sdk/agui_feed_activation.go:54-67 | dropping dominated facts and adding an undominated one gives the new frontier |
| `FeedActivation.AbsorbKeepsFrontier` | sdk/agui_feed_activation.go:56-59 | a dominated or equal fact leaves the frontier right as it is |
| `FeedActivation.ConclusionIsOrderIndependent` | sdk/agui_feed_activation.go:53-82 | the report depends on the evidence seen, not on order, multiplicity or journal position |
| `FeedActivation.RecoveredViewsAgree` | sdk/agui_feed_activation.go:84-121 | recovering from any permutation or duplication of the facts gives the same report |
| `CanonicalReducer.ReduceIsLocal` | sdk/canonical_reducer.go:15-103 | one event changes the turn it names, as a function of that turn alone, and no other |
| `CanonicalReducer.TurnDependsOnItsEvents` | sdk/canonical_reducer.go:15-103 | folding the whole log and selecting a turn equals folding only the events naming it |
| `CanonicalReducer.DistinctTurnsCommute` | sdk/canonical_reducer.go:15-103 | events of distinct turns commute up to the order of the turn list |
| `CanonicalReducer.InterleavingsAgree` | sdk/canonical_reducer.go:15-103 | logs that agree on a turn's events agree on the turn |
| `CanonicalReducer.TextIsWhatWasWritten` | sdk/canonical_reducer.go:219-266 | after any log the text of every page is the last text that replaced it followed by the deltas since, in order (also `347-358`); no other event touches it |
| `CanonicalReducer.ReachableIsWellFormed` | sdk/canonical_helpers.go:264-422 | every reachable state has distinct nonempty turn ids, page iterations, message, link and step ids, and an active page in range |
| `CanonicalReducer.ApplyToPageKeeps` | sdk/canonical_helpers.go:373-405 | every event keeps model-call and tool-call ids distinct on a page and never changes its iteration |
| `CanonicalReducer.WithPageKeeps` | sdk/canonical_helpers.go:303-356 | finding or creating the current page keeps iterations distinct and the active page in range |
| `CanonicalReducer.FeedsFollowTheirLastEvent` | sdk/canonical_helpers.go:888-931 | after any log a feed is listed exactly when its last lifecycle event activated it |
| `CanonicalReducer.FailureIsLeftExactlyByReopening` | sdk/canonical_helpers.go:842-886 | a failed or canceled turn leaves that status exactly by a start or an elicitation request |
| `CanonicalReducer.FailureIsKept` | sdk/canonical_helpers.go:842-886 | over any log without those it keeps the status |
| `CanonicalReducer.CompletionIsReplaced` | sdk/canonical_helpers.go:842-886 | the status every kind of event gives a completed turn |
| `CanonicalReducer.MessagesAreIdempotent` | sdk/canonical_reducer.go:292-343 | a message event delivered twice leaves what delivering it once leaves |
| `CanonicalReducer.UsersStayUnique` | sdk/canonical_reducer.go:107-131 | user message ids of a turn stay distinct under an event exactly unless it renames a shared message to a listed id |
| `CanonicalReducer.UserIdsCanRepeat` | sdk/canonical_reducer.go:123-128 | a log from the empty state after which a turn lists two user messages with one id |
| `CanonicalReducer.Conversation.Handle` | sdk/canonical_reducer.go:15-103 | dispatch of every kind of event, as the whole new state |
| `CanonicalReducer.Conversation.FindOrCreateTurn` | sdk/canonical_helpers.go:264-301 | the turn found with its empty fields filled, or a new one at the end |
| `CanonicalReducer.Conversation.Activate` | sdk/canonical_helpers.go:888-912 | an active feed is refreshed in place or appended |
| `CanonicalReducer.Conversation.Deactivate` | sdk/canonical_helpers.go:914-931 | the feed and only it is removed, order kept |
| `CanonicalReducer.FindPage` | sdk/canonical_helpers.go:309-313 | the first page of an iteration |
| `CanonicalReducer.UpsertTool` | sdk/canonical_helpers.go:391-405 | a named step keeps its place, an anonymous one is always new |
| `CanonicalReducer.SeedPlanned` | sdk/canonical_reducer.go:254-264 | the planned calls seed their steps one after another |
| `CanonicalReducer.UpdatePage` | sdk/canonical_reducer.go:204-423 | what each kind of event does to the current page |
| `CanonicalReducer.Say` | sdk/canonical_reducer.go:292-343 | message events update or append by id, user messages through the shared reference |
| `CanonicalReducer.Attach` | sdk/canonical_helpers.go:407-422 | linked conversations are attached once and marked on the matching tool steps |

## Left out

- The database, transactions and SQL: each store operation is one atomic function of the rows.
- Parsing and validation of JSON and of wire messages: payloads are abstract text or already decoded fields, canonical JSON is the value itself, and decoding failures are options. JSON null counts as absent, and identifiers are strings.
- Keys joined with a zero byte (`sdk/agui_dependency_resume.go:23-25`, `sdk/agui_rendering.go:72-87`) are pairs and triples; that the join is injective is not modelled.
- The patch library, the JSON validity test, the schema check and the hash are parameters; only `NothingIsRebased` asks that the hash be injective.
- HTTP, server-sent events, authorization, principals and owner checks: they appear as booleans or optional errors where a branch depends on them.
- Goroutines and heartbeats: a renewal is a step, a cancelled context is a worker that stops.
- The appended `change.status` and turn id (`internal/datly/agui/manage/append.go`), thread identity and not-found rows: the protocols modelled here do not use them.
- The completion receipt and `aguiFinishMCPGuestTurn` in the proxy worker: finishing the guest turn can only stop the worker before its closing append, which is a crash step.
- The payload records and their links written between the effect and the message (`sdk/agui_interrupts.go:604-636`): they are not read by any later check; stopping among them is a crash step.
- Rows and messages whose identity does not match (`sdk/agui_interrupts.go:474-487`): the worker stops, which is a crash step. Other writers of the same message and tool call are not modelled; another writer of the queue row is (`Settle`).
- Editing approved arguments: whether the edits are admissible is a flag of the answer.
- Elicitation answers, the thread of historical tool results and client-tool deadlines in `preflightAGUIResume`: each is part of `acceptable` in `Approval.MatchAnswers`.
- Admission of the timeout's successor run and building its input: only its retained answers are modelled.
- `aguiFinishRecovered`, journal reading and the projection of recovered runs.
- A crash inside the writer that completes a dependency: its writes are one durable step.
- What a resumed native turn does (`ResumeContinuation`) is given from outside: its result, its row and the rows of the calls it makes. It is taken to write no call row that is already there.
- HandedOverListIsAccepted: asks that every listed call be on record as waiting or answered and that returned edges have new ids and new turns. With a call in any other state an edge can be dropped from under another, and the next pass then rejects the list; `DependencyHandover.OpenPartIsTree` gives the exact condition.
- Rewriting of protocol identifiers of calls found while resuming, and the resumption of the root turn itself.
- Rendered content, report assembly and its fingerprint: they ride along the projected text and do not affect it.
- Reducer fields that never decide a branch: execution roles, payload references, usage, timings, providers, resource links and presentation of feeds.
- Pages, steps and messages of a conversation are values inside its lists rather than objects of their own; the one shared reference of the source, between a turn's user message and its list of user messages, is modelled by position.
- Error texts are shortened; which branch produces which error is kept.
- Unicode white space and letter case: the fields of a reducer event are given trimmed, and statuses in lower case.
