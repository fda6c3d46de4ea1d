# Verified models of hey-boss

hey-boss keeps people and coding agents in touch: notifications travel through a durable queue, events are
replicated between machines, saved conversations are paged, and commands are retried over unreliable links.
This project models the parts of it that are state machines, protocols or parsers, and proves what they
promise over all their inputs and runs. Every model follows the branches, limits and error cases of the code
it cites. Nothing was executed.

Most parts come in two forms. Functions on values say what one operation does to the state. Classes and
methods do the same step by step, the way the program does, and are proved equal to the functions. Lemmas
about the functions then cover whole runs.

* **Notification queue** (`BrokerQueue`, `BrokerProtocol`, `BrokerInvariant`, `BrokerSafety`, `QueueOrder`).
  Any number of client handlers and one replay worker take turns on the queue records; each step is one hold
  of the mutex or one exchange with the receiver, which may be lost on the way there or back. Actions that are
  not enabled do nothing, so the theorems hold for every sequence of actions.
* **Event log** (`EventLog`, `EventReplica`, `EventConvergence`, `EventRetention`, `EventCursor`). Tombstones,
  outbox, journal, pruning, retention floor and cursors; runs of any operations, with a crash possible at each
  point between them.
* **Conversation paging** (`Transcript`, `ConversationPaging`, `ConversationHistory`). Byte offsets over a file
  that only grows and may end in a partial line.
* **Session reader** (`LineReader`, `AgentSummary`, `SessionCache`). A bounded line reader over arbitrary
  chunks, and the cache of folded summaries on top of it.
* **Guarded requests** (`GuardedCommand`, `GuardedRequest`, `GuardedReplay`, `GuardedSafety`,
  `GuardedExplicit`, `GuardedTrace`, `GuardedRuns`, `GuardedReopen`).
  Version guards captured from snapshots, receipts, and retries over a transport that loses messages while
  other clients write. One command has one mutation over any number of calls with its request ID
  (`GuardedRuns.CallsMutateOnce`): the store deduplicates by ID, and every write of a call carries that ID.
* **Settings files** (`JsonSyntax`, `JsonParsing`, `JsonStrings`, `JsonEdit`, `AgentPermissions`,
  `SettingsMerge`, `CodexRules`). JSON texts after RFC 8259, kept to the last byte; an edit of the text is
  shown to be one update of the parsed object.
* **Error inbox** (`ErrorInbox`, `ErrorLedger`, `ErrorJournal`), **connector** (`Connector`) and **code fences**
  (`Fence`, after section 4.5 of CommonMark 0.31.2).

Two promises turned out to hold only under a condition, which is proved exact in both cases:

* A locally hidden notification is cleaned up at the receiver exactly when its delivery was recorded
  (`BrokerSafety.CleanedUpExactlyWhenMapped`). If the acknowledgment of a delivery is lost and a hide arrives
  before the retry, the worker skips the entry for good and the receiver goes on presenting it;
  `BrokerSafety.LostAcknowledgmentLeavesItPresented` is that run.
* A retried command replays its receipt exactly when its wire form names the guard that was filled in
  (`GuardedSafety.RetryIsReplayed`). A supervised `reopen` does not: src/issues/mod.rs:723-728 leaves an absent
  `if_version` out, while src/cli_request.rs:52-68 ignores only guards that the template contains. Its retry
  after a lost acknowledgment is refused as a different command, although the mutation was applied and its
  receipt is kept (`GuardedReopen.ReopenLosesItsRetry`).

## Model

| member | source | states |
|---|---|---|
| QueueOrder.NumeralsAreRecovered | src/broker.rs:549-561 | any three numerals in a queue name, padded or not, are read back as their values |
| QueueOrder.QueueOrderRoundTrip | src/broker.rs:360-369 | sorting recovers exactly the time, process and sequence printed at enqueue |
| BrokerQueue.LocalHide | src/broker.rs:416-431 | a local hide is final, cancels exactly questions and reviews, and gives a review its cancelled status and its comments |
| BrokerQueue.Queue.LoadForHandler | src/broker.rs:407-434 | a handler's first hold of the mutex has exactly the effect and outcome that the protocol uses |
| BrokerQueue.Queue.StoreForHandler | src/broker.rs:446-471 | so does its second hold, with either of its two writes failing |
| BrokerQueue.Queue.PickForWorker | src/broker.rs:631-641 | the worker sends a pending hide, else an undelivered request, else nothing, and changes nothing |
| BrokerQueue.Queue.FailDelivery | src/broker.rs:644-650 | a failed delivery only notes its error |
| BrokerQueue.Queue.FinishDelivery | src/broker.rs:658-687 | an answered delivery clears a hide, settles a rejected legacy record, or maps the entry and leaves a racing hide pending |
| BrokerInvariant.StepKeeps | src/broker.rs:306-488 | every step of every interleaving keeps the invariant, and records keep their request and first replies |
| BrokerInvariant.WriteKeeps | src/broker.rs:446-467 | writing a record that extends the stored one disturbs no handler, reply or receipt |
| BrokerInvariant.HideKeeps | src/broker.rs:416-432 | hiding an unmapped entry by its own terminal reply keeps the invariant |
| BrokerInvariant.AckKeeps | src/broker.rs:656-689 | the worker's second hold keeps the invariant, saved or not |
| BrokerInvariant.TransmitKeeps | src/broker.rs:642-655 | sending, with the answer delivered, lost or never produced, keeps the invariant |
| BrokerSafety.Agreement | src/broker.rs:403-487 | in every run each final reply to a client of a question or review is the persisted terminal reply |
| BrokerSafety.WrittenOnce | src/broker.rs:608-693 | request, first upstream and first terminal reply of an entry never change in any continuation |
| BrokerSafety.ClientsAgree | src/broker.rs:403-487 | two clients at any two moments are never told different final outcomes |
| BrokerSafety.AtMostMaxClients | src/broker.rs:501-517 | never more than 64 handlers, and the counter counts them |
| BrokerSafety.RacingHideIsCleanedUp | src/broker.rs:671-688 | a hidden entry with an upstream is pending clean-up or hidden at the receiver; a pending hide has its upstream and is sent next |
| BrokerSafety.CleanedUpExactlyWhenMapped | src/broker.rs:634-639 | a locally hidden entry is cleaned up if and only if it has an upstream |
| BrokerSafety.UnmappedStaysPresented | src/broker.rs:638-638 | without an upstream it stays presented in every continuation |
| BrokerSafety.LostAcknowledgmentLeavesItPresented | src/broker.rs:642-655 | the run with a lost acknowledgment and then a hide stays presented for ever |
| BrokerSafety.AcceptedInQueueOrder | src/broker.rs:623-690 | when an entry is accepted, every readable older entry of that pass is already settled |
| BrokerSafety.ResendIsRecognized | README.md:879-882 | an accepted entry sent again, after a lost acknowledgment or a restart, is recognized by its unchanged request: same task, nothing presented |
| BrokerSafety.PresentedOnce | README.md:879-882 | what was ever accepted and presented is of its entry's own stored request, so an entry has one presentation |
| EventLog.EventLog.InsertEvent | src/event_log.rs:135-162 | a known identity is accepted only with the same digest and stays retired; a new one becomes a row |
| EventLog.EventLog.AppendEvent | src/event_log.rs:166-187 | an inserted event is queued for publication in the same transaction |
| EventLog.EventLog.RetireItems | src/event_log.rs:421-450 | retirements make tombstones, unqueue their payloads and raise the floor, each or none |
| EventLog.EventLog.RetireIds | src/event_log.rs:452-488 | retiring live events also queues one retirement record; a failure changes nothing |
| EventLog.EventLog.ReceiveRecord | src/event_log.rs:518-553 | a foreign record is ignored; event and retirement records are applied or leave no trace |
| EventLog.EventLog.ExportTo | src/event_log.rs:490-516 | the oldest page of the outbox moves to the journal |
| EventLog.EventLog.PruneRetired | src/event_log.rs:555-577 | exactly the payloads of published retired rows leave the journal and are marked |
| EventLog.OldestAreExpired | src/event_log.rs:559-559 | a maintenance pass selects live rows past thirty days, and leaves one for later only behind 128 that were received before it |
| EventLog.EventLog.Collect | src/event_log.rs:555-577 | maintenance is retirement of the selected rows, publication and pruning in this order, stopping at a failure |
| EventReplica.InsertRows | src/event_log.rs:135-162 | an insertion keeps row identity, digests, order and floor, and records the event |
| EventReplica.RetireRecordsRows | src/event_log.rs:421-450 | a retirement touches only named rows and drops only their payloads from the outbox |
| EventReplica.RunRows | src/event_log.rs:421-450 | in every run identities are unique and the floor is the last retired position |
| EventConvergence.RunReflects | src/event_log.rs:518-553 | after every run the rows say exactly what the applied facts say |
| EventConvergence.ReplicasConverge | src/event_log.rs:518-553 | replicas that applied the same facts agree on every identity, live or retired |
| EventConvergence.RetiredIsNeverLiveAgain | src/event_log.rs:135-162 | once retired, before or after its event, an identity is never live |
| EventConvergence.DeliverySucceeds | src/event_log.rs:518-553 | a well-formed fact without conflict is never refused |
| EventConvergence.DeliveryOrderIsIrrelevant | src/event_log.rs:518-553 | order, repetition and time of delivering conflict-free facts do not matter |
| EventRetention.RunKept | src/event_log.rs:452-516 | the retention invariant holds after every run, crashes included |
| EventRetention.NoFactIsLost | src/event_log.rs:166-187 | an appended event is held or covered by a held retirement; a pruned one by a retirement in the journal |
| EventRetention.PruningIsSafe | src/event_log.rs:555-577 | only retired rows whose retirement is in the journal are ever pruned; live payloads are always held |
| EventCursor.Query | src/event_log.rs:362-385 | visiting rows until one more than the limit finds exactly the first or last matches |
| EventCursor.Read | src/event_log.rs:312-399 | a read with its cursor checks returns exactly the specified page |
| EventCursor.PageIsExact | src/event_log.rs:312-399 | a continued page holds exactly the matching events recorded between its two cursors |
| EventCursor.GapExactlyWhenRetired | src/event_log.rs:312-399 | a cursor is refused if and only if an event after it has been retired |
| EventCursor.FirstPage | src/event_log.rs:312-399 | without an age limit a first page is the latest matches and its cursor the head; with one it is the oldest live matches and its cursor right behind them |
| EventCursor.FirstPageStartsChain | src/event_cli.rs:246-306 | a first page and the pages that follow it deliver, in order and once, all that matches after its cursor |
| EventCursor.ChainIsExact | src/event_cli.rs:246-306 | the pages of an unbroken chain are the matching history between its ends, whatever is written between them |
| EventCursor.HistoryInOrder | src/event_log.rs:312-399 | that history has each matching event once, in position order |
| Transcript.LinesSplit | src/agent_conversations.rs:550-574 | the lines of a range are those of its two parts |
| Transcript.LinesStable | src/agent_conversations.rs:519-524 | appending to the file changes no complete line |
| ConversationPaging.ReadLines | src/agent_conversations.rs:548-575 | the seeking reader reads exactly the complete lines of its range, stepping back before a partial one |
| ConversationPaging.TailScan | src/agent_conversations.rs:389-437 | the saved offset is the true start of a complete call record, and of the last one in the tail |
| ConversationHistory.RangeIsAligned | src/agent_conversations.rs:586-620 | every range begins and ends at a line boundary and moves a whole page unless it reaches the beginning |
| ConversationHistory.BeforeFailsExactly | src/agent_conversations.rs:596-618 | an earlier page is refused if and only if the entry window before it holds no newline |
| ConversationHistory.BeforeSucceeds | src/agent_conversations.rs:586-620 | it cannot be refused where every line fits in 8 MiB |
| ConversationHistory.BeforePage | src/agent_conversations.rs:519-584 | an earlier page holds exactly the lines of its range |
| ConversationHistory.BackwardTiles | src/agent_conversations.rs:579-582 | following older cursors reads adjacent ranges down to the beginning, each line once, however the file grows |
| ConversationHistory.ForwardReadsOnce | src/agent_conversations.rs:547-578 | successful polls read exactly the lines between the first and the last cursor |
| ConversationHistory.NothingMoreMeansCaughtUp | src/agent_conversations.rs:578-578 | a poll that reports nothing more has left no complete line unread |
| ConversationHistory.ConversationIsReadOnce | src/agent_conversations.rs:519-582 | latest window, older pages and later polls together are the whole file, each line once |
| ConversationHistory.SavedInvocationIsShown | src/agent_conversations.rs:526-533 | the window around a saved offset contains its complete record after any growth |
| ConversationHistory.AnchorSucceeds | src/agent_conversations.rs:526-533 | that window can be placed wherever lines fit |
| LineReader.Source.FillBuffer | src/agents.rs:525-558 | a refill delivers some further bytes, or none exactly at the end |
| LineReader.Buffer.Extend | src/agents.rs:525-558 | the buffer grows by the chunk and never beyond 4 MiB |
| LineReader.Absorb | src/agents.rs:525-558 | a chunk is kept while the record fits and the record is given up when it does not |
| LineReader.ReadEventLine | src/agents.rs:525-558 | whatever the chunks, one call consumes exactly one record and returns it if it fits in 4 MiB, else an empty line |
| AgentSummary.EventsPreserveSameness | src/agents.rs:323-499 | no event lets process identity or repository influence the summary, or changes the reader's identity |
| SessionCache.Cache.ReadSession | src/agents.rs:560-641 | one read leaves in the cache exactly the fold of the new records on the resumed summary |
| SessionCache.ReadRecords | src/agents.rs:605-632 | the reading loop folds every complete record and stops at the last line break |
| SessionCache.ReadHeader | src/agents.rs:591-603 | the repository is restored from the first record of the same session only |
| SessionCache.FoldSplit | src/agents.rs:605-632 | folding in two parts is folding at once |
| SessionCache.CacheEqualsFullRead | src/agents.rs:560-641 | for every append-only file and schedule of reads the cache equals one full read |
| SessionCache.IdentityIsTheReaders | src/agents.rs:560-641 | the reader keeps its own process identity |
| GuardedCommand.Strip | src/cli_request.rs:52-68 | removing and descending key by key removes exactly the template's automatic guards |
| GuardedCommand.ComparisonIsExact | src/cli_request.rs:99-109 | stripped commands are equal if and only if the commands agree outside the automatic guards |
| GuardedReplay.FilledIsSame | src/cli_request.rs:190-232 | filling guards keeps the command the same if and only if it names them |
| GuardedReplay.ReceiptIsRecognized | src/cli_request.rs:71-109 | the receipt of a filled command, with digests for uploads, is recognized if and only if the command names its guards |
| GuardedReplay.RestoredKind | src/cli_request.rs:110-117 | a resubmitted saved operation is a write again, so it meets its receipt |
| GuardedReplay.RestoredIsFilled | src/cli_request.rs:110-112 | restoring the uploaded bytes gives back the command that was sent |
| GuardedRequest.Channel.Call | src/cli_request.rs:264-275 | one exchange, with other clients acting first and either message lost |
| GuardedRequest.Channel.ReplayReceipt | src/cli_request.rs:87-121 | the lookup resubmits a recorded operation only if the commands compare equal |
| GuardedRequest.Channel.FillInEdits | src/cli_request.rs:209-217 | each edit of a batch without a version gets it from its own read |
| GuardedRequest.Channel.FillIn | src/cli_request.rs:198-230 | the missing guard is captured by one read of the right kind |
| GuardedRequest.Channel.Perform | src/cli_request.rs:123-262 | the request rewritten step by step is the specified protocol |
| GuardedSafety.ExecuteKeeps | src/issues/store.rs:74-135 | the store keeps one effect and one receipt per request ID and takes nothing back |
| GuardedSafety.PrepareKeeps | src/cli_request.rs:123-262 | so does every prepared request, whatever the transport loses |
| GuardedSafety.OneEffectPerRequest | src/issues/store.rs:74-135 | the store's half: in every run a request ID has at most one effect, whoever sent it, and its receipt is of that effect |
| GuardedSafety.SuccessIsRecorded | src/cli_request.rs:190-262 | success of an automatic command is the recorded response, of the same command if it names its guards |
| GuardedSafety.PreparedSuccessIsRecorded | src/cli_request.rs:123-262 | success of any command under a request ID is the response on record for it |
| GuardedSafety.PlainSuccessIsRecorded | src/cli_request.rs:233-252 | a command without automatic guards is recorded exactly as sent |
| GuardedSafety.DifferentCommandIsRefused | src/cli_request.rs:105-109 | a request ID recorded for another command never succeeds |
| GuardedSafety.RetryIsReplayed | src/cli_request.rs:93-117 | a retry after a lost acknowledgment gets the recorded response if and only if the command names its guards |
| GuardedReopen.ReopenNamesNoGuard | src/issues/mod.rs:723-728 | a supervised reopen waits for a guard that its wire form does not name |
| GuardedReopen.ReopenRetryIsRefused | src/cli_request.rs:26-26 | its retry is refused as a different command although its receipt is on record |
| GuardedReopen.ReopenLosesItsRetry | src/cli_request.rs:190-262 | that whole run from an empty store: applied once, acknowledgment lost, retry delivered and refused |
| GuardedExplicit.FilledAlike | src/cli_request.rs:190-232 | naming the automatic guards in the wire form changes neither what is read for them nor what is filled in |
| GuardedExplicit.FilledIsOfCommand | src/cli_request.rs:190-232 | what is filled in and sent agrees with the command outside its automatic guards, for every command |
| GuardedTrace.FailedGuardIsNotRefreshed | src/cli_request.rs:190-262 | one lookup, one snapshot, one write of the command under its request ID; after a conflict only a shown receipt is resubmitted under that ID, which mutates nothing |
| GuardedTrace.AppliedAtMostOnce | src/cli_request.rs:190-262 | one call mutates the store at most once, under its request ID and with its own command, and not at all once the ID is on record |
| GuardedRuns.CallMutates | src/cli_request.rs:123-262 | so does every call, guarded or not, with a request ID that was given or is made up for it |
| GuardedRuns.RunMutates | src/cli_request.rs:123-262 | over any calls, with any other writers between their exchanges, no two mutations share a request ID |
| GuardedRuns.CallsMutateOnce | src/cli_request.rs:123-262 | all calls with one request ID together mutate the store at most once, under that ID, with the command of the call that did it, and that is the ID's only effect |
| GuardedRuns.SuccessIsOneEffect | src/cli_request.rs:123-262 | a call that succeeds under its request ID has exactly one effect, whose response it returns |
| JsonParsing.ValueSound | src/agent_permissions.rs:24-46 | a parsed value is valid and prints back the text it was read from |
| JsonParsing.DocumentSound | src/agent_permissions.rs:24-46 | a parsed document keeps every byte of its text |
| JsonParsing.ValueComplete | src/agent_permissions.rs:24-46 | every valid value is read back from its text, whatever follows |
| JsonParsing.DocumentComplete | src/agent_permissions.rs:24-46 | printing and parsing documents are inverse |
| JsonStrings.DecodeEncode | src/agent_permissions.rs:75-77 | a serialized string reads back as itself, for every string |
| JsonStrings.EncodedIsOneLine | src/agent_permissions.rs:116-121 | a serialized string contains no control character, so no line end |
| JsonEdit.ReadObject | src/agent_permissions.rs:24-46 | every raw value's span lies in the source and holds exactly its text |
| JsonEdit.FieldsAreContents | src/agent_permissions.rs:24-46 | the table of spans exists exactly for objects with unique keys and agrees with the parsed members |
| JsonEdit.ExchangeText | src/agent_permissions.rs:51-53 | replacing a span in the text is exchanging one member's value |
| JsonEdit.InsertedText | src/agent_permissions.rs:54-58 | inserting after the first brace is adding one member in front |
| JsonEdit.SetPropertyUpdates | src/agent_permissions.rs:49-60 | editing the text updates the object at one key; every other member keeps its bytes |
| AgentPermissions.EditProperty | src/agent_permissions.rs:49-60 | the edit in place updates the parsed object at exactly one key |
| AgentPermissions.MissingRules | src/agent_permissions.rs:73-79 | the loop collects the missing rules in command order |
| AgentPermissions.ListsAreReadable | src/agent_permissions.rs:66-70 | the deny and ask lists are checked without being changed |
| AgentPermissions.MergeSettings | src/agent_permissions.rs:62-94 | the whole merge, with its error cases, is the specified one |
| SettingsMerge.MergedText | src/agent_permissions.rs:83-88 | inserting before the last bracket appends elements |
| SettingsMerge.MergedRead | src/agent_permissions.rs:83-88 | the list then reads as the old strings followed by the added ones |
| SettingsMerge.MergeAddsMissingRules | src/agent_permissions.rs:62-94 | the merge succeeds exactly on settings texts, and only permissions.allow changes, by the missing rules at its end |
| SettingsMerge.MergeIsStable | src/agent_permissions.rs:80-82 | afterwards every command is granted and a second merge returns the same text |
| SettingsMerge.MergeOnlyInserts | src/agent_permissions.rs:83-90 | a merge only inserts, at one place |
| CodexRules.WriteRules | src/agent_permissions.rs:96-125 | the loops over lines and commands accept and write exactly what is specified |
| CodexRules.RuleLineReads | src/agent_permissions.rs:105-111 | a written rule line reads back as its command |
| CodexRules.GitRuleIsNoCommand | src/agent_permissions.rs:102-104 | the fixed rule is not the line of any command |
| CodexRules.OwnFileIsManaged | src/agent_permissions.rs:96-125 | a written file is recognized if and only if its commands are valid, and is then reproduced |
| ErrorInbox.Store.Insert | src/error_inbox.rs:378-426 | a known event changes nothing; a new one is stored, counted and offered to the log |
| ErrorInbox.Store.IngestBatch | src/error_inbox.rs:335-442 | a batch is accepted as a whole, after pruning, or changes nothing |
| ErrorInbox.Store.Publish | src/error_inbox.rs:443-457 | each row of a page is appended to the log before it is acknowledged, up to the first failure |
| ErrorInbox.Bucket | src/error_inbox.rs:464-471 | a sample of the last day falls into its own hour, and the observation time into the last |
| ErrorInbox.HourlyCounts | src/error_inbox.rs:482-493 | each bucket sums its own hour, and the buckets sum to the day |
| ErrorLedger.IngestAllSound | src/error_inbox.rs:378-426 | accepting a batch keeps totals, acceptance history and outbox in agreement |
| ErrorLedger.TotalsAreConserved | src/error_inbox.rs:422-422 | a group's total counts every accepted event once for ever, even after its row is pruned |
| ErrorLedger.AcceptedEventsReachTheLogOnce | src/error_inbox.rs:443-457 | every accepted event waits or has exactly one log record, whatever crashes happen |
| ErrorLedger.PassDrains | src/error_inbox.rs:443-457 | a successful pass removes exactly its page from the front of the outbox |
| ErrorLedger.OutboxIsDistinct | src/error_inbox.rs:418-421 | in every run the outbox holds each log event once |
| ErrorJournal.Journal.Append | src/error_inbox.rs:541-573 | appending rows with rotation in between is the specified sequence of renames and writes |
| ErrorJournal.RotateKeepsSuffix | src/error_inbox.rs:546-559 | a rotation, complete or interrupted, loses only the oldest file |
| ErrorJournal.JournalIsSuffix | src/error_inbox.rs:541-573 | the files in order are a suffix of all rows, at most four, each within the limit if every row fits |
| Connector.Cooldown | src/autoconnect.rs:262-264 | a cooldown is between one and fifteen minutes |
| Connector.CooldownValues | src/autoconnect.rs:262-264 | it doubles with each failure up to its bound, and any jitter adds at most fifteen seconds |
| Connector.Loop.Aim | src/autoconnect.rs:653-659 | a new destination drops the session and the probes |
| Connector.Loop.ProbeNetwork | src/autoconnect.rs:660-668 | a due probe counts consecutive positive results |
| Connector.Loop.WatchSession | src/autoconnect.rs:669-701 | a broken session starts a cooldown and a stable one clears it |
| Connector.Loop.TryStart | src/autoconnect.rs:702-711 | a start needs two samples and an elapsed cooldown, and a failed one starts the next |
| Connector.Loop.Once | src/autoconnect.rs:616-711 | one turn of the loop, with its configuration errors |
| Connector.TurnSpaces | src/autoconnect.rs:616-711 | a turn with an unchanged destination keeps attempts spaced |
| Connector.StartsFollowTwoProbes | src/autoconnect.rs:702-702 | in every run each start follows two consecutive positive probes, whatever the clocks read |
| Connector.AttemptsAreSpaced | src/autoconnect.rs:694-711 | in every run starts are at least sixty seconds and at least the cooldown of the failure count apart |
| Connector.OnlyStableConnectionsForgive | src/autoconnect.rs:686-692 | only a connection stable for sixty seconds lowers the failure count |
| Fence.CountRun | src/document.rs:86-97 | the loop finds the length of the longest run of the marker |
| Fence.Render | src/document.rs:98-106 | the printed document has the chosen fence, language and text |
| Fence.TextLineDoesNotClose | src/document.rs:105-105 | no line of the text can close the chosen fence |
| Fence.ContentsAlike | src/document.rs:105-106 | the contents of a block depend only on what follows its opening |
| Fence.FenceRoundTrip | src/document.rs:86-106 | parsing the printed block gives back the language and exactly the text |

## Left out

- Sockets, SSH, polling, file permissions and fsync: a save is one atomic store, and an exchange is delivered, lost on the way back, or never made. Journal rows are written whole; a crash may fall between renames.
- SQLite and SQL text: tables are maps and sequences, and a transaction is one step that is taken or rolled back.
- Live traffic of the broker (src/broker.rs:76-295), secrets and desktop controls: they never touch the queue. The connection generation and the retry delay (src/broker.rs:572-580) only decide when a pass starts, and passes may start at any time here.
- Checks on new notifications other than project, title and message (src/broker.rs:338-359). Fresh queue IDs are assumed: enqueueing under an ID in use does nothing.
- BrokerQueue.Queue.Save: a save replaces the record or fails and leaves it. The third outcome, where the directory cannot be synchronized after the rename (src/broker.rs:26-36) and the record is replaced although the save is reported as failed, is not modelled.
- BrokerSafety.ClientsAgree: about replies that bear the entry's task ID, as for BrokerSafety.Agreement.
- BrokerSafety.Agreement: about replies that bear the entry's task ID. A handler that fails, for example because a save fails while a question is waited on, writes a reply with an empty task ID and status `error` (src/broker.rs:731-739); such replies are not among those compared. Files left by older versions are undelivered creations that name themselves, or unreadable; the step `Inherit` adds such files at any time.
- The receiver is the deduplicating map of README.md:879-882; its own code is not part of this model.
- Digests of the event log are an injective datatype instead of SHA-256, and the size of an event's data is a field.
- EventRetention.NoFactIsLost: retirement records carry digests of events with their own identities, as the program writes them; a forged one could cover a fact that never existed.
- The synchronization engine and its journal format: payloads are put into and pruned from a set.
- Parsing of log filters from the command line (src/event_cli.rs:66-126) and rendering of records.
- What a conversation record shows (src/agent_conversations.rs:622-731): records are kept as lines, and their JSON validity and call detection are given predicates.
- Decoding of session events, text shortening and tool labels (src/agents.rs:159-322): an event arrives decoded, and labels are its fields. Read errors inside a session file are not modelled.
- AgentSummary.EventsPreserveSameness: about decoded events; the decoding and the labels shown for tools are given with the event, and the reader's own code for them is not modelled.
- SessionCache.CacheEqualsFullRead: `id`, `pid`, `evidence` and `git` are excepted, as the program does on purpose (src/agents.rs:591-603).
- GuardedSafety.ExecuteKeeps: receipts are kept for ever, while src/issues/store.rs:2880-2885 keeps the latest 500 of unarchived ones; an ID that is reused after its receipt expired is a new one to the store. GuardedRuns.CallsMutateOnce is about IDs whose receipts are kept.
- The issue store: its data is one value, and what it shows, refuses and does are given functions. Project, actor and response metadata are fixed.
- GuardedRequest.Channel.Perform: conversion between operations and JSON is the identity on values that are operations, and the lookup of saved attachments of new issues is not part of it.
- Objects in the recursion of JSON are unbounded, while the parser stops at 128 levels.
- Quoted forms of commands (src/agent_permissions.rs:418-436), file locking, backups and the TOML edit of src/agent_permissions.rs:331-360.
- Grouping of errors (src/error_inbox.rs:258-280): the group of an event and the hashed log identity are given functions, distinct keys having distinct identities.
- ErrorLedger.TotalsAreConserved: the clock does not go back and contents are fixed for each event identity.
- Connector.AttemptsAreSpaced: the destination is fixed, as it is for a connector started with a host; a changed destination or an unreadable configuration clears the cooldown and is followed by TurnSpaces only. Restarting the connector keeps its cooldown through a status file that may fail to be written.
- The supervisor that starts connectors (src/autoconnect.rs:388-495) and the status texts of a connector.
- Files that are not UTF-8, images and Markdown files of src/document.rs:13-71, which are not fenced.
- `src/chief_ownership.rs`, `src/attachments.rs`, process control and the command line parsers: easier members of the same kinds, or halves of protocols whose other half is elsewhere.
