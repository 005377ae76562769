# Verified model of the control plane's investigation core

The repository is a control plane that investigates incidents: an agent loop drives a language model through
reads of connected sources until it writes an evidence-bounded conclusion, and a PostgreSQL store holds
Conversations, Messages, events, inventory changes and alerts around it. This project models the parts of it
whose guarantees cannot be read off one function, and proves them.

The files follow the source's components.

| file | component |
|---|---|
| `AgentRun.dfy` | the agent loop: `RunState`, attempts, batches, the terminal write |
| `Conclusions.dfy`, `Prompts.dfy`, `History.dfy`, `Tools.dfy`, `Investigation.dfy` | what the loop validates, shows, bounds and routes |
| `ConversationQueue.dfy`, `HistoryPaging.dfy`, `ConversationHistory.dfy` | Messages, turns, the queue, the paged history reader, and what a turn reads of both |
| `EventLog.dfy` | the event log, its writer and its resumable follower |
| `InventoryChanges.dfy`, `AlertDelivery.dfy` | ingestion that tolerates replay and reordering |
| `ChurnWatch.dfy`, `RateLimit.dfy`, `DuplicateKeys.dfy`, `Base64.dfy`, `PasswordVerifier.dfy`, `RangeQueries.dfy` | algorithms with their own laws |
| `Text.dfy` | bytes, runes and decimals as Go counts them |

How the outside is modelled:

- The model provider, the tools, the store's reads and the clock of a run are the functions of an `Environment`,
  indexed by how often each was asked. Nothing is assumed of them, so a contract for every `Environment` is a
  contract for an adversarial one.
- Each SQL transaction is one step over values that stand for the tables. Methods of `ConversationStore`,
  `ChangeStore` and `AlertStore` update those tables in place and are proved equal to the step functions; the
  laws over whole runs are proved of the step functions.
- The event follower is proved against every choice of writer actions between any two of its reads.
- An Investigation is claimed by one run only, and a lapsed claim ends it
  (`internal/store/postgres/investigation_lease.go:16-49`, `96-130`), so one stream announces, to an empty log.
- Sizes the JSON encoder gives to a history entry, a text or a number, the redactor of each recorded run, the key
  derivation and incident grouping are arbitrary functions.
- A report keeps, beside each recorded run, where it comes from: the call, the turn and how the run was made. The loop
  never reads it; it is what ties a run to its execution.
- Times are integers (nanoseconds, or seconds in `ChurnWatch.dfy`); bucket arithmetic is over reals.

## What turned out otherwise

- The whitelist is not all a prompt cites. A history page is shown whole, so the runs an earlier answer names for its
  impact, a hypothesis, an action or a limitation are cited too, but only what its findings rest on is whitelisted.
  `Prompts.AsideIsCitedNotWhitelisted` gives an input, `AgentRun.DeliverAside` a history read that delivers it, and
  `Prompts.WhitelistAndCitations` the exact condition.
- Replaying an inventory delta is not always idle: recorded before its watched Integration has a scope row, its
  update changes no row, and once the scope is opened the replay does. `InventoryChanges.OpeningRevives` gives the
  family and `InventoryChanges.ReplayIsIdleExactlyWhen` the exact condition.
- Nothing in the store stops an event of a terminal kind from being appended without the status change;
  `EventLog.StepKeeps` shows the log stays well formed exactly when no writer does so. Reads hide three retired kinds.
- The stream a run writes through numbers events itself, and so does the store. The numbers are the same exactly when
  the stream learned of every append that was committed: `EventLog.NumbersAgreeExactlyWhen`. A commit whose
  acknowledgement is lost shifts them: `EventLog.LostAcknowledgementShifts`.
- A call's identity joins tool, source and arguments by spaces, so names with spaces can collide, and the second call of
  a batch is then taken for a repeat: `Tools.IdentityMayCollide` gives two, and by `Tools.IdentityTellsCalls` none
  collide where names have no space.
- `ClampWindow` does not move an interval that ends before the Investigation window into it; the caller modelled
  here refuses such intervals first.
- A stored verifier that names no lanes passes every check of `verifyPassword` and reaches the key derivation,
  which panics; `PasswordVerifier.NoLanesPanics` gives one and `PasswordVerifier.OutcomeOfAnyString` states exactly
  which strings do. Text before the first `$` is never looked at.
- The tool says a step is raised when needed to evaluate at most 240 timestamps. It is also raised without need, exactly
  when 239 steps are shorter than the window and 240 are longer: `RangeQueries.RaisedNeedlesslyExactlyWhen`, and
  `RangeQueries.RaisedNeedlesslyAt` for one second over 239.5 seconds.

## Model

| member | source | states |
|---|---|---|
| `AgentRun.Run` | internal/investigation/agent/run.go:136-535 | For every model, store, tool and clock, a run keeps all of `Kept`: one terminal write and never "did not conclude"; at most maxTurns+1 turns, two completions a turn and maxRuns reads, history included, none past a cancellation; at most one context reduction; every prompt is about what the run was given, or that reduced, answers each call ID exactly once and whitelists exactly what the findings it prints or delivers rest on; every answer is a note, a page the store gave for its cursor, or the observation of the run made for that call; every recorded run was dropped for the reason it gives, names the run of its batch that it repeats, or carries just what its own execution answered, and every execution has such a run; ordinals are 1..n; a written conclusion is the model's own, sound, checked present, made after every recorded run was shown, and marked with the missing-evidence notice exactly when the brief or a page shown admitted some; the ceiling it names is the one met; a failure has the cause it names |
| `AgentRun.EveryWhitelistIsCited` | internal/investigation/agent/run.go:290-296 | In every prompt of every run what is whitelisted is cited; all that is cited is whitelisted if and only if no delivered answer names a run only aside from its findings |
| `AgentRun.DeliverAside` | internal/investigation/agent/history.go:27-88 | A concrete environment and call whose history read delivers the page of that answer and whitelists nothing |
| `AgentRun.EveryAnswerIsGrounded` | internal/investigation/agent/run.go:272-284 | Every answer in every prompt of every run is a note for a call that may get it, a page the store gave for the cursor of its history call, within its budget, or the bounded observation of the run made for the very call it answers, failed iff that run did |
| `AgentRun.EveryAnswerIsRecorded` | internal/investigation/agent/run.go:500-532 | Every execution e of a finished run has its recorded run, but one whose recording failed: successful exactly when the call had a source and the tool answered, for the call's tool, arguments, purpose and source; it is what that answer's own window, summary, truncation, content or error was prepared to |
| `AgentRun.ExecutionIsRecorded` | internal/investigation/agent/run.go:500-532 | The same of the books alone, at any point of a run |
| `AgentRun.AnswerIsObserved` | internal/investigation/agent/tools.go:289-318 | The observation of a successful run reads, line by line, the tool's own window, redacted summary, incompleteness warning and as much of its content as fits |
| `AgentRun.EveryRunIsShown` | internal/investigation/agent/run.go:272-284 | By the time a conclusion is written the model has been shown the observation of every recorded run |
| `AgentRun.EveryOtherRunIsExplained` | internal/investigation/agent/run.go:482-499 | Every run that no tool was run for failed and says why: the complaint about its arguments, the budget, spent in the end, or the ordinal of an executed run of the same turn with the same identity |
| `AgentRun.SameReadIsTheSame` | internal/investigation/agent/run.go:709-715 | Where no tool or source has a space in its name, a repeat has the tool, source and arguments of the run it names |
| `AgentRun.WrittenIsStated` | internal/investigation/agent/conclusion.go:72-143 | A written conclusion has, member by member, the status, summary, impact, findings, hypotheses, actions and limitations of the last answer's document, with at most the notice added |
| `AgentRun.LedgerGrows` | internal/investigation/agent/run.go:517-532 | Recording one more run, prepared from how it was made, keeps every earlier run accounted for |
| `AgentRun.LaterPromptsKeepAnswers` | internal/investigation/agent/run.go:272-297 | Later prompts keep every turn of earlier ones, its calls and exactly its answers |
| `AgentRun.DisclosureIsMade` | internal/investigation/agent/run.go:467-470 | A written conclusion discloses missing evidence whenever a page the model was shown admitted some |
| `AgentRun.CallsAreBounded` | internal/investigation/agent/run.go:248-334 | A schedule of two attempts a turn is at most twice as many completions as turns, counted over the whole run |
| `AgentRun.RunState.Compose` | internal/investigation/agent/run.go:289-297 | A prompt built between answers is about what the run was given, or that reduced, offers its tools or ends with the instruction to conclude and its reason, is paired, whitelists exactly what the findings printed in its brief and delivered in its pages rest on, and shows the observations of all recorded runs and no others |
| `AgentRun.RunState.Ask` | internal/investigation/agent/run.go:289-300 | Sending keeps every prompt so far faithful, in shape, in order, and carrying every usable answer given before it |
| `AgentRun.RunState.OnProviderError` | internal/investigation/agent/run.go:301-334 | A first context rejection is retried with less context if that is shorter, else forced to conclude if reads were offered, else ends the run; the whitelist and pairing survive the reduction |
| `AgentRun.RunState.OnCompletion` | internal/investigation/agent/run.go:336-345 | A refusal ends the run, a truncation is tried again, anything else is judged |
| `AgentRun.RunState.OnAnswer` | internal/investigation/agent/run.go:346-368 | Calls that cannot be told apart end the run; offered reads are taken up with the turn recorded and early conclusions answered |
| `AgentRun.RunState.OnFinalAnswer` | internal/investigation/agent/run.go:369-418 | An answer that should conclude is accepted, answered call by call and retried forced, or on the second attempt ends the run because it was neither offered reads nor an acceptable conclusion |
| `AgentRun.RunState.Judge` | internal/investigation/agent/run.go:375-402 | Accepts what is stated only if sound and its prior evidence held; leaves undecided only what the store could not look up; faults what is unsound as a bad conclusion, and what is sound only as found to cite missing evidence |
| `AgentRun.RunState.CheckCitations` | internal/investigation/agent/run.go:379-394 | Adds exactly one lookup, of exactly the prior references the findings cite, and none if they cite none |
| `AgentRun.CitedEvidence` | internal/investigation/agent/run.go:380-383 | Gathers the cited prior references of all findings in order |
| `AgentRun.RunState.Disclose` | internal/investigation/agent/run.go:395-400 | Adds the missing-evidence notice exactly where it is due and not yet there, changes nothing else, and keeps the conclusion sound |
| `AgentRun.MarkingKeepsSound` | internal/investigation/agent/run.go:395-400 | The added notice cannot make a sound conclusion unsound |
| `AgentRun.RunState.OnConclude` | internal/investigation/agent/run.go:375-405 | A lone conclude call ends the run with the accepted conclusion, ends it because the store could not say, or is refused, by how the answer stands |
| `AgentRun.VerdictDecides` | internal/investigation/agent/run.go:375-402 | The verdict on a lone conclude call decides whether the answer is acceptable or undecided, by what it states alone |
| `AgentRun.RunState.Refuse` | internal/investigation/agent/run.go:404-418 | An unusable answer is recorded with every call answered and retried forced, or on the second attempt ends the run |
| `AgentRun.RunState.TakeReads` | internal/investigation/agent/run.go:352-368 | The reads of an answer become its move, each decoded under its own ID with all its fields, and exactly they are owed answers |
| `AgentRun.RunState.Defer` | internal/investigation/agent/run.go:352-367 | After a mixed answer the transcript owes answers to exactly the read call IDs; its conclusions are answered |
| `AgentRun.RunState.Reject` | internal/investigation/agent/run.go:408-418 | After an invalid answer every call ID of it is answered, with a fault such calls can have, and nothing is owed |
| `AgentRun.RunState.Attempt` | internal/investigation/agent/run.go:289-418 | One attempt leaves the run ready to try again or with a move it may rely on, and stops on context only after a context rejection |
| `AgentRun.RunState.Decide` | internal/investigation/agent/run.go:285-424 | Two attempts at most; once forced, a turn stays forced and cannot end in reads, so the "no conclusion" branch is unreachable |
| `AgentRun.DeliverySettles` | internal/investigation/agent/run.go:272-284 | Delivering what is owed leaves every turn answered exactly once and shows just the pages and observations delivered |
| `AgentRun.RunState.Deliver` | internal/investigation/agent/run.go:272-284 | A transcript with pending answers becomes ready, and the empty-transcript branch is unreachable |
| `AgentRun.RunState.CheckCeilings` | internal/investigation/agent/run.go:255-268 | The ceiling set is the first one met in the order read budget, turns, wall clock; none is set exactly when none is met |
| `AgentRun.RunState.OpenTurn` | internal/investigation/agent/run.go:254-270 | A conclusion is forced exactly when a ceiling was met or there is nothing left to read |
| `AgentRun.RunState.Act` | internal/investigation/agent/run.go:285-533 | From a settled transcript, a turn reaches a move and carries it out, keeping the loop invariant or every promise of an ended run |
| `AgentRun.RunState.Resolve` | internal/investigation/agent/run.go:420-533 | Carries out the move: one terminal write that keeps every promise, or the next turn with answers owed |
| `AgentRun.RunState.TakeTurn` | internal/investigation/agent/run.go:248-533 | One outer turn ends the run with its one terminal write or preserves the loop invariant |
| `AgentRun.RunState.End` | internal/investigation/agent/run.go:426-446 | The one terminal write, after which all of `Kept` holds |
| `AgentRun.RunState.ReadHistory` | internal/investigation/agent/history.go:27-88 | A read is spent exactly when the call asks for history that is there, in range, not yet read and within budget; a page is delivered if and only if moreover the store gave one for that cursor, some of it fits and its lookup answered; it is the most of the stored one that fits, and admits missing evidence exactly when a reference its findings rest on was looked up and not held |
| `AgentRun.RunState.FetchHistory` | internal/investigation/agent/history.go:59-87 | One read is spent on the store's next page, which is delivered if and only if it is given, can be bounded and can be looked up |
| `AgentRun.RunState.PreparePage` | internal/investigation/agent/history.go:67-82 | A page is prepared if and only if some of it fits with the notice and the lookup answers; it still fits after the notice is dropped, which stays exactly when due |
| `AgentRun.RunState.CheckPage` | internal/investigation/agent/history.go:75-82 | Adds one lookup of exactly the references the findings of the bounded page rest on; undecided exactly when the store is |
| `AgentRun.RunState.ServeHistory` | internal/investigation/agent/run.go:456-473 | Exactly the references the findings of a delivered page rest on become citable, and its notice is remembered |
| `AgentRun.RunState.RecordToolRun` | internal/investigation/agent/run.go:600-609 | A recorded run is appended with where it comes from; a failed write records nothing |
| `AgentRun.RunState.PrepareAndRecord` | internal/investigation/agent/run.go:517-527 | What is recorded is the run that was made, prepared with the credentials opened by then, and every run stays accounted for |
| `AgentRun.RunState.MakeRun` | internal/investigation/agent/run.go:474-516 | A read executes exactly when usable, not yet run in this batch and within budget. The run made for it has its tool, arguments, purpose and source; it carries just what its execution answered, or the complaint about its arguments, the spent budget, or the ordinal of the run of this batch that it repeats |
| `AgentRun.RunState.Skip` | internal/investigation/agent/run.go:482-499 | A read that does not execute is unusable, else a repeat of a run of this batch, else past the budget, in that order, and its run says which |
| `AgentRun.RunState.Execute` | internal/investigation/agent/run.go:500-516 | One execution is entered for the next ordinal and identity, and its run carries its answer; an execution refused its audit enters nothing |
| `AgentRun.Perform` | internal/investigation/agent/tools.go:118-209 | The run of execution e carries just what e answered, or why it did not, for the call's tool, arguments, purpose and routed source |
| `AgentRun.DroppedRun` | internal/investigation/agent/tools.go:102-116 | A dropped call becomes a failed run of its ordinal, tool and arguments, with its reason as summary and error, and without content, window or source |
| `AgentRun.SuppressedRun` | internal/investigation/agent/run.go:689-707 | A repeat becomes a failed run that names the run it repeats and shares its source |
| `AgentRun.ExecutedRun` | internal/investigation/agent/tools.go:118-209 | A run succeeds exactly when its tool was offered and answered, and then carries just its window, truncation, summary and content; a failed one carries none of them and the error of an unoffered tool, an unopened credential or the tool itself |
| `AgentRun.RunState.ServeRead` | internal/investigation/agent/run.go:474-532 | Each read is answered by the run made for it, prepared and recorded, successful exactly when it ran and answered; every run stays accounted for |
| `AgentRun.RunState.Serve` | internal/investigation/agent/run.go:454-533 | Every call, history or read, is answered under its own ID by a page from the store or by its own run; a page is given exactly when the call is usable and readable; what becomes held is exactly what its answer shows |
| `AgentRun.RunState.Batch` | internal/investigation/agent/run.go:452-533 | A batch answers every call once, in order and under its own ID, each by its own page or run, runs no identity twice, never exceeds the read budget, and leaves every run accounted for |
| `Conclusions.SplitKeepsIds` | internal/investigation/agent/conclusion.go:56-70 | Reads and conclusions together hold exactly the call IDs of the whole answer |
| `Conclusions.SplitCalls` | internal/investigation/agent/conclusion.go:56-70 | Succeeds exactly when no call ID is blank or repeated, and splits without loss |
| `Conclusions.ValidateRunRefs` | internal/investigation/agent/conclusion.go:255-262 | True exactly when every reference names a run in range |
| `Conclusions.ValidateSuccess` | internal/investigation/agent/conclusion.go:162-167 | True exactly when every cited run was recorded and succeeded |
| `Conclusions.ValidatePrior` | internal/investigation/agent/conclusion.go:168-178 | True exactly when prior references are well formed, whitelisted and not repeated |
| `Conclusions.ValidateFinding` | internal/investigation/agent/conclusion.go:145-189 | True exactly for a finding that cites something, cites only evidence, and has a mechanism if causal |
| `Conclusions.ValidateStatus` | internal/investigation/agent/conclusion.go:269-296 | True exactly when the status agrees with the finding kinds |
| `Conclusions.ValidateLists` | internal/investigation/agent/conclusion.go:192-248 | True exactly when hypotheses, actions and limitations are complete, bounded and in range |
| `Conclusions.DecodeConclusion` | internal/investigation/agent/conclusion.go:72-253 | Accepts exactly the documents that state a sound conclusion, and returns it with every list and field the document has |
| `Investigation.MarkMissingEvidence` | internal/investigation/conversation.go:37-48 | Afterwards missing evidence is disclosed; a conclusion that disclosed it is unchanged, any other gains just that limitation |
| `History.SettledFits` | internal/investigation/agent/history.go:67-82 | A page that fits with the reserved notice still fits once it is dropped, whatever sizes the encoder gives |
| `History.BoundHistoryPage` | internal/investigation/agent/history.go:90-112 | Terminates with the most of the page that fits: a longest suffix, or its newest entry without the answer; refuses exactly when not even that fits |
| `History.BoundingKeepsNotice` | internal/investigation/agent/history.go:90-112 | Bounding never loses the reserved notice |
| `History.SettledDelivers` | internal/investigation/agent/history.go:67-87 | A bounded page settled either way fits and its findings rest on the same references |
| `History.FittingIsDeliveredWhole` | internal/investigation/agent/history.go:90-112 | A page that fits with the notice is never refused and is delivered whole |
| `History.HistoryEvidence` | internal/investigation/agent/history.go:114-130 | Returns exactly the references the findings of the page rest on |
| `History.EntryEvidence` | internal/investigation/agent/history.go:116-128 | Exactly the references the findings of one entry rest on; none without a structured answer |
| `History.FindingEvidence` | internal/investigation/agent/history.go:120-126 | A finding's prior references and its own runs, nothing else |
| `HistoryPaging.ReadPriorMessages` | internal/store/postgres/conversation_context.go:166-220 | Fetching one past the limit newest first, cutting and reversing gives the newest stored Messages before the cursor in order, and the exact next cursor |
| `HistoryPaging.DeliveredContinues` | internal/investigation/agent/history.go:67-112 | A delivered page shows a newest part of what precedes its cursor and continues exactly before it |
| `HistoryPaging.FollowingCovers` | internal/store/postgres/conversation_context.go:185-219 | After any number of pages, everything between where reading stands and the first cursor was shown once and in order |
| `HistoryPaging.HistoryIsComplete` | internal/store/postgres/conversation_context.go:155-220 | Pages followed until the next cursor is zero show every earlier prior Message exactly once and in order |
| `HistoryPaging.DeliverPage` | internal/investigation/agent/history.go:60-87 | A page is delivered, or refused only when nothing of it fits |
| `HistoryPaging.FollowHistory` | internal/investigation/agent/history.go:27-112 | Following terminates, each page fits, and the history read is complete unless some page was refused |
| `ConversationHistory.EveryRunKeepsTurns` | internal/store/postgres/conversation.go:397-477 | In every reachable state later Investigations of a Conversation have later turns and only the last may be running |
| `ConversationHistory.PriorIsFixed` | internal/store/postgres/conversation_context.go:187-201 | What precedes a turn never changes once the turn exists, whatever is appended, opened or ended meanwhile |
| `ConversationHistory.PriorIsChronological` | internal/store/postgres/conversation_context.go:187-201 | In every reachable state the Messages of earlier turns are numbered from 1 and rising, as the paged reader supposes |
| `ConversationHistory.ConversationHistory` | internal/store/postgres/conversation_context.go:155-220 | Unknown exactly when the Investigation is not of the Conversation; otherwise the page of the Messages that earlier turns own |
| `ConversationHistory.MessagesAreNeverMissing` | internal/investigation/agent/run.go:186-192 | A run of an Investigation opened in any reachable state never fails because its Messages are missing or unreadable for being too many |
| `Prompts.DedupeFindings` | internal/investigation/agent/prompt.go:508-527 | The loop with its seen map computes the order-preserving deduplication |
| `Prompts.DedupeKeepsKeys` | internal/investigation/agent/prompt.go:508-527 | No printable finding is forgotten: its key, and so its references, survive |
| `Prompts.DedupeKeepsStatements` | internal/investigation/agent/prompt.go:508-527 | Every printable statement is kept with its references, kind and scope, and every finding kept is one there was |
| `Prompts.DedupeIsDistinct` | internal/investigation/agent/prompt.go:508-527 | No two findings left share a key |
| `Prompts.DedupeCommutesWithSection` | internal/investigation/agent/prompt.go:485-527 | Deduplicating a section equals that section of the deduplicated findings, for both sections |
| `Prompts.WhitelistIsPrinted` | internal/investigation/agent/prompt.go:402-483 | The references whitelisted from a brief are exactly those its sections print |
| `Prompts.BriefReferences` | internal/investigation/agent/run.go:290-295 | Gathers exactly the references the brief prints |
| `Prompts.WhitelistAndCitations` | internal/investigation/agent/prompt.go:336-366 | Of any faithful prompt: whitelisted implies cited, counting every run a delivered answer names; cited implies whitelisted if and only if each run named for impact, a hypothesis, an action or a limitation is also one a shown finding rests on |
| `Prompts.AsideIsCitedNotWhitelisted` | internal/investigation/agent/history.go:114-130 | A concrete sound answer, delivered to a well-formed history call under a brief that allows it, cites a run that no finding may then cite |
| `Prompts.DeliveredPageIsCited` | internal/investigation/agent/prompt.go:353-359 | Whatever a delivered page cites, anywhere in its answers, the prompt cites |
| `Prompts.PromptIsFaithful` | internal/investigation/agent/run.go:537-575 | Adding the instruction to conclude changes no call, no answer, no shown page and no shown observation |
| `Prompts.ReductionKeeps` | internal/investigation/agent/run.go:305-318 | A reduced orientation keeps subject, sources, history cursor and missing-evidence notice and lists nothing else, so its brief whitelists nothing; reducing again changes nothing |
| `Prompts.OffersExactly` | internal/investigation/agent/prompt.go:122-138 | Offered are exactly the tools of the sources, each once, then history where earlier Messages exist, then concluding |
| `Tools.DecodeToolCall` | internal/investigation/agent/tools.go:28-72 | A call is usable exactly when its arguments are an object input with optional text around it, and then carries that input, integration and purpose; of several faults the last one checked is named |
| `Tools.DecodeToolCalls` | internal/investigation/agent/tools.go:28-72 | One decoded call per read, in order, under the same ID and with all its fields; malformed ones are kept so that they can be answered |
| `Tools.ToolNamed` | internal/investigation/agent/tools.go:432-451 | Finds the source a call goes to: it must be able to mean one offered tool only |
| `Tools.RouteServes` | internal/investigation/agent/tools.go:432-451 | A routed call reaches an offered source that serves it |
| `Tools.RoutesExactlyWhen` | internal/investigation/agent/tools.go:432-451 | A call is routed if and only if exactly one tool of one source could be meant by it, and then to that source |
| `Tools.IdentityTellsArguments` | internal/investigation/agent/run.go:709-715 | Two calls of one tool and source share an identity if and only if their arguments are equal |
| `Tools.IdentityTellsCalls` | internal/investigation/agent/run.go:709-715 | Where no tool or source has a space in its name, an identity is shared exactly by equal tool, source and arguments |
| `Tools.IdentityMayCollide` | internal/investigation/agent/run.go:709-715 | Two concrete calls of different tools and sources with spaces in their names share an identity |
| `Tools.BoundedList` | internal/investigation/agent/tools.go:367-397 | Keeps exactly the longest prefix whose bracketed, comma-joined form fits 16384 bytes |
| `Tools.CutBytes` | internal/investigation/agent/tools.go:351-352 | The longest whole-character prefix within the limit |
| `Tools.BoundedJson` | internal/investigation/agent/tools.go:334-353 | Shows all of content that fits, the longest list prefix of a list that does not, the byte prefix otherwise; clipped exactly when not whole |
| `Tools.RenderObservation` | internal/investigation/agent/tools.go:280-303 | A failed run shows its error, a successful one its window, summary, incompleteness and content, in that order |
| `Tools.PrepareObservation` | internal/investigation/agent/tools.go:234-319 | Every prepared observation is the whole rendering or, past 65536 bytes, a note within them, and then without arguments; it is marked clipped exactly when content or observation was cut; all texts are the redacted ones within their limits and no content is left |
| `Tools.NothingRawIsLeft` | internal/investigation/agent/tools.go:234-319 | Two runs whose redacted texts, arguments and contents agree are prepared to the same run, observation included, so nothing that redaction takes out can show |
| `Tools.ShownAlike` | internal/investigation/agent/tools.go:334-397 | Of contents that redact alike, whole and element by element, the same text is shown |
| `ConversationQueue.AcceptedIsQueued` | internal/store/postgres/conversation.go:619-663 | An accepted window is that of every Message already queued in the Conversation |
| `ConversationQueue.AppendKeeps` | internal/store/postgres/conversation.go:278-315 | Appending keeps every invariant: one window per queue, order, and at most 100 queued |
| `ConversationQueue.BatchIsWholeQueue` | internal/store/postgres/conversation.go:479-504 | Below the capacity, the limited batch query takes the whole queue of its Conversation |
| `ConversationQueue.OpenTurnDrains` | internal/store/postgres/conversation.go:397-477 | An opened turn takes 1 to 100 Messages, all that were queued, and has their window |
| `ConversationQueue.OpensExactlyWhen` | internal/store/postgres/conversation.go:397-477 | Opening a known Conversation changes the tables if and only if none of its Investigations is running and some user Message of it is unassigned; then exactly one running Investigation of it is added, numbered after its last turn, and no Message of it stays queued |
| `ConversationQueue.AcceptsExactlyWhen` | internal/store/postgres/conversation.go:619-663 | A window is accepted if and only if what was asked for is valid and that of every Message waiting, or, with nothing asked or waiting, the default is valid; and which it is |
| `ConversationQueue.AppendsExactlyWhen` | internal/store/postgres/conversation.go:278-315 | An append is taken if and only if the Conversation is known, there is room and its window will do; then one Message is added at the end, unassigned, under the next number |
| `ConversationQueue.EndsExactlyWhen` | internal/store/postgres/investigation.go:372-465 | Ending stops exactly a running Investigation and appends its reply as the latest Message; any other ending changes nothing |
| `ConversationQueue.OpenTurnKeeps` | internal/store/postgres/conversation.go:397-477 | Opening a turn keeps every invariant, at most one running Investigation included |
| `ConversationQueue.EndTurnKeeps` | internal/store/postgres/investigation.go:372-465 | Ending an Investigation, with or without a reply, keeps every invariant |
| `ConversationQueue.StepKeeps` | internal/store/postgres/conversation.go:225-256 | Every transaction, the combined append-and-open included, keeps every invariant |
| `ConversationQueue.EveryRunKeeps` | internal/store/postgres/conversation.go:225-477 | Every reachable state satisfies them: one running turn, one window per queue and turn, assigned before queued, at most 100 queued |
| `ConversationQueue.RunGrows` | internal/store/postgres/conversation.go:397-477 | Over any run Messages are never removed, reordered or reassigned |
| `ConversationQueue.AssignedMessagesAreThere` | internal/store/postgres/conversation_context.go:256-292 | In every reachable state an Investigation of a Conversation has 1 to 100 assigned Messages, so neither "batch exceeds" nor "assigned Messages are missing" can occur |
| `ConversationQueue.ConversationStore.AppendMessage` | internal/store/postgres/conversation.go:278-315 | The transaction changes the tables as specified, or refuses and changes nothing |
| `ConversationQueue.ConversationStore.QueuedBatch` | internal/store/postgres/conversation.go:479-504 | The row loop finds where the batch ends |
| `ConversationQueue.ConversationStore.OpenTurn` | internal/store/postgres/conversation.go:397-477 | The transaction opens the next turn as `OpensExactlyWhen` says, or changes nothing |
| `ConversationQueue.ConversationStore.EndTurn` | internal/store/postgres/investigation.go:372-465 | The transaction ends a running Investigation and appends its reply |
| `EventLog.StepKeeps` | internal/store/postgres/investigation_event.go:14-51 | An action keeps the log gap-free with nothing after a terminal event exactly when terminal kinds come with the status change (or it is refused) |
| `EventLog.RunKeeps` | internal/store/postgres/investigation.go:372-465 | Over any actions the log only grows, and nothing changes once the Investigation has ended |
| `EventLog.EventTable.AppendEvent` | internal/store/postgres/investigation_event.go:14-51 | An append commits exactly while the Investigation runs and its claim holds, and then takes the next number |
| `EventLog.EventTable.End` | internal/store/postgres/investigation.go:372-465 | Status and terminal event change together, once |
| `EventLog.EventStream.Emit` | internal/investigation/events.go:138-171 | The mutex-guarded writer and its table step together: a number is spent exactly on an append known to be committed, nothing is written once closed, and the first event is reported once |
| `EventLog.NumbersAgreeExactlyWhen` | internal/investigation/events.go:138-171 | Over every interleaving of announcements and endings of a new Investigation, the events as the stream numbered them are the stored ones without the terminal one, if and only if no acknowledgement of a committed append was lost |
| `EventLog.LostAcknowledgementShifts` | internal/store/postgres/investigation_event.go:47-51 | One lost acknowledgement and the next event is stored as the second and numbered as the first |
| `EventLog.WorkIsActions` | internal/investigation/agent/run.go:158-161 | To the store, the work of the one run of an Investigation is a sequence of proper actions |
| `EventLog.FollowRun` | internal/investigation/events.go:285-365 | Against the run that writes, in every interleaving, a follower delivers exactly the visible log, each event taken by the client; one that stops because the Investigation ended received the events as the stream numbered them and the terminal one |
| `EventLog.NextVisible` | internal/store/postgres/investigation_event.go:53-102 | The next event a read returns is the first visible one past the cursor, and nothing visible is skipped |
| `EventLog.DeliverNext` | internal/investigation/events.go:326-335 | Writing it moves the cursor exactly past it; a terminal one is the last of an ended log |
| `EventLog.WriteEvents` | internal/investigation/events.go:326-335 | One read's events are written in order up to the first the client refuses and no further; it stops as disconnected exactly when one was refused |
| `EventLog.TakenIsTook` | internal/investigation/events.go:326-335 | What is written of a read is the longest prefix of which the client takes every event |
| `EventLog.Complete` | internal/investigation/events.go:306-319 | Nothing visible past the cursor means the whole log after the start was delivered |
| `EventLog.PollEvents` | internal/investigation/events.go:321-335 | Events found are written and fewer are left |
| `EventLog.PollStatus` | internal/investigation/events.go:306-319 | No events after an ending already seen is the end; otherwise the status is read, and what was written stays |
| `EventLog.Poll` | internal/investigation/events.go:293-335 | Reading status before events loses nothing, whatever writers do between the two reads |
| `EventLog.Follow` | internal/investigation/events.go:285-365 | For every interleaving, what was delivered is exactly the visible log between start and cursor, once and in order, every event of it taken by the client, and the cursor is the last ID delivered; a follower that stops because the Investigation ended delivered all of it; one whose client refuses an event stops there as disconnected; undisturbed, it stops so once the Investigation has ended, within as many polls as the log has events and two |
| `EventLog.RefusalCutsShort` | internal/investigation/events.go:326-335 | A client that refuses event n is delivered at most the n before it, and if the log goes that far it is left as disconnected there |
| `EventLog.ResumeLeavesNoGap` | internal/investigation/events.go:408-421 | Resuming from the sequence of the last event received continues with no gap and no repetition (section 9.2 of the HTML Living Standard, Last-Event-ID) |
| `InventoryChanges.StepKeeps` | internal/store/postgres/changes.go:144-215 | Each transaction keeps covered_since <= baseline_at <= last_confirmed_at where set |
| `InventoryChanges.EveryRunKeeps` | internal/store/postgres/changes.go:16-236 | So does every run of deltas, freshness stamps, interval changes and pruning |
| `InventoryChanges.RecordsExactly` | internal/store/postgres/changes.go:75-142 | A delta is recorded if and only if its Integration is served and every change is storable; then its changes stand beside the rows there were, the count is of those that are new, and no other scope changes |
| `InventoryChanges.CoverageRestartsExactlyWhen` | internal/store/postgres/changes.go:144-180 | covered_since becomes the observation time exactly when a baseline meets no coverage, a change not yet recorded, no confirmation, or one more than two intervals earlier; otherwise it stays; and what becomes of every other column |
| `InventoryChanges.StampsExactly` | internal/store/postgres/changes.go:182-215 | A stamp touches exactly an existing scope of the Relay and confirms it only when completed without fault; coverage stays |
| `InventoryChanges.CoverageIsUnbroken` | internal/store/postgres/changes.go:144-180 | Over any run, the coverage a scope claims goes back to a baseline observed then, and since then no baseline found anything new or came more than two intervals after the last confirmation |
| `InventoryChanges.ReplayIsIdle` | internal/store/postgres/changes.go:75-180 | A delta recorded into an existing scope, replayed at any later point with its events unpruned, inserts nothing and leaves the scope unchanged |
| `InventoryChanges.UnwatchedStaysUnscoped` | internal/store/postgres/changes.go:16-73 | A delta of an Integration that is not watched never meets a scope |
| `InventoryChanges.OpeningRevives` | internal/store/postgres/changes.go:16-180 | A family of inputs where replay is not idle: recorded before the scope row exists, then the scope is opened |
| `InventoryChanges.ReplayIsIdleExactlyWhen` | internal/store/postgres/changes.go:106-180 | Replay is idle at every later point if and only if the scope row existed at the first recording or the Integration is not watched |
| `InventoryChanges.ChangeStore.RecordInventoryDelta` | internal/store/postgres/changes.go:75-142 | The insert loop counts what it inserted and the transaction commits as `RecordsExactly` and `CoverageRestartsExactlyWhen` say, or changes nothing |
| `InventoryChanges.ChangeStore.RecordInventoryFreshness` | internal/store/postgres/changes.go:182-215 | Stamps are applied one after another to existing scopes of the Relay, disabled Integrations included; a faulted one confirms nothing |
| `InventoryChanges.OpeningAsks` | internal/store/postgres/changes.go:30-53 | A request gives every served watched Integration a scope at its interval; a revision starts at one and moves by one exactly when the interval changed; coverage and every other scope stay |
| `InventoryChanges.ReopeningIsIdle` | internal/store/postgres/changes.go:30-53 | Asking again for the same interval changes nothing |
| `InventoryChanges.OpenRows` | internal/store/postgres/changes.go:30-71 | Row by row, in any order, each wanted Integration is upserted once and answered with its stored revision and interval |
| `InventoryChanges.ChangeStore.OpenInventoryScopes` | internal/store/postgres/changes.go:16-73 | Refused exactly for an interval below a second, which changes nothing; otherwise one row for each served watched Integration, no two for one, each as its scope then stands |
| `AlertDelivery.UpsertsAgree` | internal/store/postgres/alert_event.go:145-199 | After any batch each row tells what was accepted of its key: resolved with the time and content of the first resolved event, or firing with the content of the last and no resolution time, in the Incident given for the first |
| `AlertDelivery.EveryRunAgrees` | internal/store/postgres/alert_event.go:31-97 | So after any sequence of deliveries |
| `AlertDelivery.RowIsHistory` | internal/store/postgres/alert_event.go:145-199 | After any run, a row exists iff an event of its key was accepted; a resolved row carries resolution time and content of the first accepted resolved event of its key, a firing one the content of the last accepted event and no resolution time; there is an Incident iff the first was firing |
| `AlertDelivery.IncidentIsTheFirst` | internal/store/postgres/alert_event.go:47-90 | Whatever follows, an alert first met firing stays in the Incident grouping gave for that event, the one after those of the newly firing events before it in its delivery |
| `AlertDelivery.GroupsNewlyFiring` | internal/store/postgres/alert_event.go:47-90 | Grouping is asked once for each event that is firing and the first of its key, and Incidents opened are those it calls new |
| `AlertDelivery.OutcomeExactlyWhen` | internal/store/postgres/alert_event.go:31-262 | After any run, what a delivery is answered and counts: a duplicate or a conflict by the digest accepted under its identity, rejected for an event that cannot be stored, refused exactly when what it begins is too much for the limit or for what is left of it, accepted otherwise |
| `AlertDelivery.HeardIsAccepted` | internal/store/postgres/alert_event.go:31-97 | The events a row is told by are those of accepted deliveries, in whatever order each was sorted |
| `AlertDelivery.StatusIsOrderFree` | internal/store/postgres/alert_event.go:31-199 | A row exists iff some accepted delivery carried an event of its key, and is resolved iff one carried a resolved event, whatever the order |
| `AlertDelivery.ResolvedIsAbsorbing` | internal/store/postgres/alert_event.go:171-199 | Over any continuation a resolved row keeps every column |
| `AlertDelivery.ClaimsStay` | internal/store/postgres/alert_event.go:106-143 | A claimed delivery identity stays claimed with its digest |
| `AlertDelivery.RedeliveryIsIdle` | internal/store/postgres/alert_event.go:106-143 | At any later point a redelivery changes nothing, whatever order, policy or grouping it meets |
| `AlertDelivery.RefusalLeavesNoTrace` | internal/store/postgres/alert_event.go:233-262 | A delivery not accepted leaves no trace: any run continues as if it had not been tried |
| `AlertDelivery.FreedCapacityAdmits` | internal/store/postgres/alert_event.go:233-262 | Refused for want of capacity, a delivery is accepted as new once enough waiting Investigations are claimed, and exactly then |
| `AlertDelivery.AlertStore.RecordDelivery` | internal/store/postgres/alert_event.go:31-97 | The claim, upsert loop and admission commit together or not at all, with the rows of `RowIsHistory` and the outcome of `OutcomeExactlyWhen` |
| `ChurnWatch.SameVerdict` | internal/relay/churn.go:107-127 | What is kept is the newest eight of the window, and gives its contested flag and backoff |
| `ChurnWatch.ForgettingKeeps` | internal/relay/churn.go:99-105 | Dropping the expired front loses nothing of the window |
| `ChurnWatch.ForgetBefore` | internal/relay/churn.go:99-105 | Drops exactly the expired front |
| `ChurnWatch.Add` | internal/relay/churn.go:90-97 | What is kept stays enough of the history, within eight takeovers |
| `ChurnWatch.Judge` | internal/relay/churn.go:107-127 | The verdict counts takeovers and distinct hosts |
| `ChurnWatch.AddAndJudge` | internal/relay/churn.go:57-74 | Adding and judging gives the verdict on the unbounded history |
| `ChurnWatch.ActiveIsKept` | internal/relay/churn.go:90-105 | What is kept of a registration shows whether it had a takeover in the window |
| `ChurnWatch.Watch.Sweep` | internal/relay/churn.go:76-88 | Sweeping changes no later verdict; once a window has passed since the last sweep, exactly the registrations with a takeover in the window stay tracked, and before that nothing changes |
| `ChurnWatch.Watch.Record` | internal/relay/churn.go:57-74 | Under a monotone clock, contested flag and backoff equal those of the unbounded history of tracked takeovers restricted to the window, and the counts are those of its newest eight; one is left untracked only when 4096 others each had a takeover since the window before the last sweep, which was less than a window ago |
| `RateLimit.StaysSane` | internal/webhooks/ratelimit.go:40-51 | Tokens stay within 0..600 over any request sequence |
| `RateLimit.Conserves` | internal/webhooks/ratelimit.go:40-51 | What was admitted plus what is left never exceeds the burst plus the refill |
| `RateLimit.IntervalIsBounded` | internal/webhooks/ratelimit.go:34-51 | Any interval of length d, in any sequence, admits at most 600 + d/100ms |
| `RateLimit.RefusedExactlyWhen` | internal/webhooks/ratelimit.go:40-51 | A request is refused if and only if admitting it would exceed what was held at the start and refilled since, or the burst and the refill since some earlier request |
| `RateLimit.IdleRefills` | internal/webhooks/ratelimit.go:40-51 | After any requests, an idle d leaves the lesser of 600 and what was held plus d/100ms, and the next request is admitted exactly when that is at least one |
| `RateLimit.SpacedAreAdmitted` | internal/webhooks/ratelimit.go:40-51 | Requests at least 100ms apart are all admitted |
| `RateLimit.Bucket.Take` | internal/webhooks/ratelimit.go:40-51 | The in-place update is the specified one and keeps tokens in range |
| `DuplicateKeys.ScanOfTokens` | internal/integrations/genericwebhook/adapter.go:235-285 | Scanning a value followed by anything consumes exactly the value, and fails iff some object at some depth repeats a key (section 4 of RFC 8259) |
| `DuplicateKeys.ScannedIsAValue` | internal/integrations/genericwebhook/adapter.go:235-285 | Whatever a scan passes over was one whole value in which no object repeats a key |
| `DuplicateKeys.CanonicalIsScanned` | internal/integrations/genericwebhook/adapter.go:222-233 | A payload is one such value and nothing more iff the scan consumes it all |
| `DuplicateKeys.ValueIsCanonical` | internal/integrations/genericwebhook/adapter.go:222-285 | Of one value's tokens, acceptance is decided by its keys alone |
| `DuplicateKeys.ScanJsonValue` | internal/integrations/genericwebhook/adapter.go:235-285 | The recursive scan over the moving decoder accepts and consumes as specified |
| `DuplicateKeys.ScanObject` | internal/integrations/genericwebhook/adapter.go:245-263 | The member loop with its seen map accepts and consumes as specified |
| `DuplicateKeys.ScanArray` | internal/integrations/genericwebhook/adapter.go:264-269 | The item loop accepts and consumes as specified |
| `DuplicateKeys.RejectDuplicateKeys` | internal/integrations/genericwebhook/adapter.go:222-233 | Accepts exactly the payloads that are one whole value without a repeated key |
| `Base64.GroupIsOneNumber` | internal/auth/identity/local.go:255-258 | Three bytes and four symbols of a group spell one 24-bit number (section 4 of RFC 4648) |
| `Base64.RoundTrip` | internal/auth/identity/local.go:255-290 | Unpadded decoding recovers every encoded byte string (section 3.2 of RFC 4648) |
| `PasswordVerifier.SplitOfJoin` | internal/auth/identity/local.go:262-269 | Cutting recovers joined parts that lack the separator |
| `PasswordVerifier.JoinOfSplit` | internal/auth/identity/local.go:262-269 | Joining the parts of any text gives it back |
| `PasswordVerifier.NumberRoundTrip` | internal/auth/identity/local.go:302-312 | A printed number is read back exactly when it fits 32 bits |
| `PasswordVerifier.ParseParameter` | internal/auth/identity/local.go:302-312 | Reads exactly the name, an equals sign and a 32-bit number |
| `PasswordVerifier.DenotedIsRead` | internal/auth/identity/local.go:261-293 | Every text that denotes an in-range verifier is read as that verifier |
| `PasswordVerifier.ReadIsDenoted` | internal/auth/identity/local.go:261-293 | Nothing else is read |
| `PasswordVerifier.PrintedIsRead` | internal/auth/identity/local.go:253-293 | Parsing what the printer wrote recovers salt, parameters and key exactly when they are in range |
| `PasswordVerifier.VerifyOfEncode` | internal/auth/identity/local.go:253-300 | Usable iff the salt has 8 to 64 bytes and memory is positive; then valid iff the derived keys match, and a rehash is asked for iff the parameters are not the current ones |
| `PasswordVerifier.HashThenVerify` | internal/auth/identity/local.go:240-300 | A password of 12 to 1024 bytes, and no other, is hashed; the hash accepts it with nothing to rehash |
| `Base64.GatherLength` | internal/auth/identity/local.go:283-290 | Every four symbols give three bytes, and a single one left over is refused |
| `PasswordVerifier.NoLanesPanics` | internal/auth/identity/local.go:261-300 | One concrete stored verifier passes every check and reaches the derivation without lanes |
| `PasswordVerifier.OutcomeOfAnyString` | internal/auth/identity/local.go:261-300 | For any string whatever: which are refused, which reach the derivation without lanes, and the verdict on the rest |
| `RangeQueries.AtRises` | internal/integrations/prometheus/tools.go:207-220 | Retained indices are strictly increasing |
| `RangeQueries.AtInRange` | internal/integrations/prometheus/tools.go:207-220 | They are in range, with the first and the last sample exactly at the ends |
| `RangeQueries.NothingIsFar` | internal/integrations/prometheus/tools.go:207-220 | Every dropped sample is within one even spacing of a retained one |
| `RangeQueries.Thin` | internal/integrations/prometheus/tools.go:207-220 | A short series is kept whole; a longer one becomes 240 evenly spaced samples of it with both ends |
| `RangeQueries.ThinnedIsBounded` | internal/integrations/prometheus/tools.go:207-220 | A thinned series has at most 240 samples, all from the series, with its first and last |
| `RangeQueries.NormalizeVector` | internal/integrations/prometheus/tools.go:169-192 | Refuses exactly when a kept sample is missing, ambiguous or a histogram; otherwise one series per kept sample |
| `RangeQueries.NormalizeMatrix` | internal/integrations/prometheus/tools.go:193-226 | Refuses exactly when a kept stream is missing or has histograms; otherwise thins each, limited exactly when something was left out |
| `RangeQueries.Normalize` | internal/integrations/prometheus/tools.go:165-237 | At most 50 series of at most 240 samples; refused and limited exactly when due |
| `RangeQueries.ClampWindow` | internal/integrations/tool.go:38-49 | The result lies in the Investigation window iff the interval asked for does not end before it; an overlapping one becomes exactly the overlap |
| `RangeQueries.QueryWindow` | internal/integrations/prometheus/tools.go:320-350 | Gives exactly the wanted moments in the Investigation window of the last 24 hours before the latest wanted one; refuses iff there is none or the bounds are unusable; limited iff an earlier one was cut |
| `RangeQueries.StepIsLongEnough` | internal/integrations/prometheus/tools.go:92-92 | The minimum step is the least positive whole second count with window <= 239 steps |
| `RangeQueries.EvaluationsAreBounded` | internal/integrations/prometheus/tools.go:92-118 | Any step not below it evaluates at most 240 moments, all inside the window |
| `RangeQueries.EvaluatesFewExactlyWhen` | internal/integrations/prometheus/tools.go:92-118 | A step evaluates at most 240 moments if and only if the window is shorter than 240 steps |
| `RangeQueries.RaisedNeedlesslyExactlyWhen` | internal/integrations/prometheus/tools.go:61-62 | A step is raised although it would have evaluated few enough moments if and only if the window lies strictly between 239 and 240 steps |
| `RangeQueries.RaisedNeedlesslyAt` | internal/integrations/prometheus/tools.go:92-109 | One second over 239.5 seconds evaluates 240 moments and is raised to two |
| `RangeQueries.ChooseStep` | internal/integrations/prometheus/tools.go:92-118 | Refuses exactly a step that is no whole number of 1 to 86400; otherwise the caller's own if long enough, else the least that is, raised exactly then |

## Left out

- HTTP handlers, routers, cookies, OIDC and connect flows: request plumbing over libraries.
- GitHub, Slack, Loki, Tempo and Kubernetes clients: a tool execution is an oracle that answers or fails.
- Telemetry, metrics, logging, progress announcements, token usage and configuration loading.
- Cryptography: Argon2id is an arbitrary function with keys of the length asked for, its panic on zero rounds or lanes taken from its documentation; digests are opaque text.
- Leases, claims and heartbeats of Investigations and Relay jobs: a write under a lost claim is a refused step.
- Incident grouping and refresh: an oracle answers with an Incident and whether it is new.
- Capacity for waiting Investigations: a count in `AlertDelivery.dfy`; in `ConversationQueue.dfy` it is not modelled, since a refusal there changes nothing.
- Transaction isolation below a committed transaction.
- Prompt wording, JSON syntax and escaping, history and validation error texts and UTF-8 repair: contents that only tell cases apart are constructors.
- `offeredSourcesForConversation` and credential opening (`credentialCache`): which sources a run is offered is part of the environment, and a credential either opens, fails or fails to be audited.
- `readPriorTurns` and the brief's selection limits: the brief a run starts with is arbitrary.
- Redaction itself: an arbitrary function of text, which may change from one recorded run to the next as credentials are opened; that no credential survives it is not proved.
- Who may append (`validateAuthenticatedAppend`), Message authors and texts, titles and Slack Message storage.
- Integer widths other than the verifier's 32-bit parameters and 8-bit lanes and the observation's 64-bit ordinal.
- RateLimit.Bucket.Take: does not model floating-point rounding or a clock that runs backwards; tokens are reals and time is monotone.
- RangeQueries.ChooseStep: does not model floating-point division; the ceiling is of the exact quotient.
- ChurnWatch.Watch.Record: does not model a clock that runs backwards, which the source reads from a monotone clock.
- EventLog.Follow: does not model heartbeats or poll intervals, which delay a follower without delivering anything; its deadline is a number of polls.
- AgentRun.Run: does not model the outcome of the terminal write itself, only that exactly one is attempted.
- Catalog and permission tables, audit truncation and the per-window registration limiter: true but easy.
