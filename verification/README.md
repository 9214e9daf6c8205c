# OpenProgram: verified model

OpenProgram collects status from a team over chat, projects it to readers who
may not see who is who, and is set up for trials by provisioning scripts. This
project models the parts of it that decide something themselves and proves what
they promise. `dafny verify dfyconfig.toml` checks all of it.

**Inbound chat events.** `InboundStore`, `InboundDrain`, `DeadLetters` and
`InboundRegistry` are the intake of provider events, the drain of a
conversation's burst, the dead letters and the sweep, as the service registry
runs them on the Postgres buffer. `InboundProtocol` is the same machinery as
interleaved steps: deliver, redeliver, read the burst key, arm, crash, list,
hand on, mark, retry, give up, sweep, purge. Its drains list first, then hand
their rows on as one reply, and mark them last, so every actor may move, and
any may die, between two steps of another. `InboundRefinement` ties the two
together: a drain, by a workflow or by a sweep, and a whole sweep are runs of
the protocol. What the protocol takes for granted is stated as its steps: the
workflow engine runs a workflow id once, ever; a signal to a running one only
resets its window; a step that raised is run again or gives up. `ReplyRouting`
is who gets a message, with the look-up of a check-in, the hand-over and the
collector's write as steps of their own, because passes over one message may
overlap, and check-ins may be closed and started again in between.

**Chat simulator.** `ChatSimulator` is the open question as a one-register
automaton over the transcript in time order; `ChatSimulatorStore` is the store,
the backward scan and the send path, proved against the automaton.

**Reader projection.** `ReaderProjection` is the rewriting of response trees
for a reader who sees roles instead of people; `ReaderHiding` proves what the
reader cannot tell apart, `ReaderShield` what no projected tree contains, and
`ReaderShape` what is still read: the shape, and all that is no person's. What
is said in place of a text and who counts as a person are left open: the
results hold for every choice.

**Provisioning.** `GitLabSeed` and `JiraSeed` are the two seeds as guarded
remote calls of which any may be the last (`CutOff`); `GitLabConvergence` and
`JiraConvergence` are what any number of cut-off runs followed by one complete
run leave behind; `GitLabMessages` is when a plan with shared issues gets all
its messages committed. `JiraInvites` is the throttled invitation of the roster.

**Helpers with laws.** `BlockerReconciliation` (restated blockers),
`SeedTimeline` (state plans, folded time stamps, weekdays, last-seen dates),
`EnvFile` (an env file's rewriter and reader), `BranchNames` and `RepoList`
(printers and parsers), `ReportName` (a report name nobody has). `Text`,
`Decimal` and `Ordering` hold strings, numbers and stable sorting as Python has
them.

Some promises of the code, its comments or its docstrings do not hold as
written. The code is modelled as it is, and each gap is a lemma:

- The sweep's comment gives two reasons for a dead letter, age and attempts. An
  attempt is counted only by the update that also marks the row processed, so a
  stuck event can only be given up on by age
  (`DeadLetters.StuckEventsExhaustByAgeOnly`).
- A sweep ends at the first drain that raises: the conversations named after it
  are left as they were (the contract of `SweepInboundEvents`). It finishes
  exactly when every drain, in its turn, goes through
  (`InboundDrain.AllDrainedIff`), so always when the pipeline raises on no reply
  (`InboundDrain.QuietPipelineDrainsAll`).
- A workflow that gives up keeps its id taken. Its burst's earliest event still
  names every later burst of the conversation, so later messages arm a dead id
  and only the sweeper takes them (`InboundProtocol.FailedBurstSwallowsTheNext`);
  arming covers the conversation exactly when that has not happened
  (`InboundProtocol.ArmingCoversIffNotFailed`).
- After a crash between insert and arming, the redelivery is a duplicate and
  arms nothing (`InboundProtocol.RedeliveryDoesNotArm`).
- A redelivery is known for a duplicate only while the event's row is there. It
  changes nothing exactly when no purge of its tenant has found the row processed
  before the cutoff (`InboundProtocol.RedeliveryIgnoredIffNeverDue`); after such a
  purge the event is stored, and answered, again.
- One row may be handed on twice: by drains that overlap
  (`InboundProtocol.OverlappingDrainsHandOnTwice`), and by one drain alone that
  ends after its reply went through and before it marked
  (`InboundProtocol.RetryAfterTheReplyHandsOnTwice`). Each row is handed on at
  most once exactly when no pass hands on a row that is out of the buffer, that
  some pass has handed on and is yet to mark, or that a pass ended without
  marking (`InboundProtocol.HandedOnceIffNoneRepeats`).
- Overlapping passes may hand the collector a check-in that has its reply
  (`ReplyRouting.TwoPassesHandOnOneCheckin`): exactly when the check-in was
  closed, and not started again, after the pass looked
  (`ReplyRouting.HandedOnLateIffClosedSinceSeen`). That it is closed once all the
  same, and once more only after it was started again, rests on the collector's
  conditional write (`ReplyRouting.ClosedOncePerReopening`,
  `ReplyRouting.ClosedAgainOnlyIfReopened`), not on the routing.
- Two people of the simulator share a channel exactly when one's id is the
  other's without its U (`ChatSimulatorStore.ChannelsApartIff`), so never among
  ids as Slack gives them.
- The simulator takes the stamp of a reply from its caller. A reply dated
  before its question does not close it, exactly then
  (`ChatSimulator.AnswerClosesIff`).
- The Jira seed asks for one page of 100 issues. It creates a wanted issue again
  exactly when the page did not show it
  (`JiraConvergence.DuplicatesIffNotShown`).
- Works that share an issue in one repository may lose messages. A run from
  fresh repositories, with calls enough, commits every message exactly when no
  work's files are already on the branch they go to, or on main when that branch
  is made (`GitLabMessages.AllMessagesLandIffApart`). Straight to main first and
  then on a branch, no run gets through
  (`GitLabMessages.MainThenBranchNeverFinishes`); twice on one branch, the run
  reports success without the second work's messages
  (`GitLabMessages.SameBranchIsSkipped`). One key per repository is enough
  (`GitLabMessages.DistinctKeysAreApart`).
- Reconciling rows again keeps their wording exactly when no wording on file is
  covered by a different one filed earlier
  (`BlockerReconciliation.ReconcilingAgain`), and wording and key exactly when
  moreover the row's key is the one on file or, for want of one, the one in its
  wording (`BlockerReconciliation.RowsReconciledAgain`): a key that only the
  restatement carried is lost (`BlockerReconciliation.KeyLostOnTheSecondPass`).
- `_at` says that folding keeps the order of a day's stamps. It does exactly
  when the last minute kept stays before the first one folded
  (`SeedTimeline.DayKeepsItsOrderIff`); at noon, 09:30 and 18:00 swap
  (`SeedTimeline.NoonSwapsCheckInAndCommit`).
- The state plan's days never go backwards only because there are four states:
  with more, a piece of work started and last changed on one day breaks it
  (`SeedTimeline.OffsetsNeverGrowIff`).

## Model

| member | source | states |
|---|---|---|
| `InboundStore.AppendedAllGrows` | backend/infra/persistence/postgres_inbound.py:34-63 | Deliveries only add rows at the end, unprocessed and under fresh ids; no (tenant, provider, event id) is ever stored twice, and no row already there moves. |
| `InboundStore.NewMessageIsListed` | backend/infra/persistence/postgres_inbound.py:34-82 | A new message is listed in its own conversation with its own text, thread, reference and time, under an id no row has; a known delivery adds nothing. |
| `InboundStore.SameDeliveryIff` | backend/infra/registry.py:1925-1934 | Two messages are one delivery exactly when tenant and provider agree and so do their envelope ids, or for want of one the message's own id. |
| `InboundStore.ConversationsApart` | backend/core/domain/inbound.py:7-13 | Within a tenant two messages share a conversation exactly when they share a thread, and tenants without a colon never share one. |
| `InboundStore.ListedInOrder` | backend/infra/persistence/postgres_inbound.py:65-116 | Both listings are by receipt and then reference, and hold each row asked for exactly as often as the table does. |
| `InboundStore.Unprocessed` | backend/infra/persistence/postgres_inbound.py:65-82 | Lists exactly the buffered rows of one tenant's conversation. |
| `InboundStore.ListStuck` | backend/infra/persistence/postgres_inbound.py:101-116 | Lists exactly the tenant's unprocessed rows received before the cutoff. |
| `InboundStore.MarkOk` | backend/infra/persistence/postgres_inbound.py:84-99 | Marks exactly the tenant's unprocessed rows among the ids, each with one attempt more, and leaves every other row, its identity and its place alone. |
| `InboundStore.EarliestIsLeast` | backend/core/application/reply_ingestion.py:59-73 | No event of the burst is before the one that names it, by (received_at, message_ref). |
| `InboundStore.ReplyCarriesTheBurst` | backend/core/application/reply_ingestion.py:31-56 | The reply carries every row of the burst once, in the order of receipt: all their texts, which for one-line texts are its lines, all their ids, and the address of the latest. |
| `InboundStore.MarkedAreHandedOn` | backend/core/application/reply_ingestion.py:132-142 | The ids marked after a reply are exactly the ids it carries. |
| `InboundStore.AnsweredInItsThread` | backend/core/application/reply_ingestion.py:43-44 | A row is answered in its message's thread, which the conversation's key gives back; a message without one is answered under the key. |
| `InboundStore.BurstKeyStartsTheReply` | backend/core/application/reply_ingestion.py:31-73 | The event that names the burst is the first of the coalesced reply, in whatever order the rows come and whether or not their stamps differ. |
| `InboundDrain.PassMarksWhatItListed` | backend/core/application/reply_ingestion.py:116-155 | One pass marks exactly the rows it listed: none that landed while it ran and none of another conversation. |
| `InboundDrain.DrainContract` | backend/core/application/reply_ingestion.py:116-155 | A drain that does not raise has processed every row that was there when it began, reports as many as changed, and leaves rows behind only if they landed meanwhile and all five passes were spent; other conversations are untouched. |
| `InboundDrain.PassCount` | backend/core/application/reply_ingestion.py:116-155 | A pass adds to the processed rows exactly as many as it listed. |
| `InboundDrain.QuietDrainTakesOnePass` | backend/core/application/reply_ingestion.py:116-155 | With nothing landing meanwhile one pass processes the whole burst. |
| `InboundDrain.LastReplyDecides` | backend/core/application/reply_ingestion.py:116-155 | A drain reports the pipeline's answer to the last reply it handed on, built from the buffer as it then was, and raises only where the pipeline raised on what it was handed. |
| `InboundRegistry.Registry.EnqueueInboundChatEvent` | backend/infra/registry.py:1115-1146 | A new event is stored once. Inline, the buffer is then that of a drain begun after the insert; the answer is that to the last reply handed on and the event is processed, or it failed and the pipeline raised. Else its burst's workflow is started and signalled. A known event changes nothing and arms nothing. |
| `InboundRegistry.Registry.ArmReplyCoalesce` | backend/infra/registry.py:1148-1163 | Starts and signals the workflow of the earliest unprocessed event's id, and nothing when the buffer is empty. |
| `InboundRegistry.Registry.DrainConversation` | backend/core/application/reply_ingestion.py:116-155 | The drain loop computes the specified drain, raised or not. |
| `InboundRegistry.Registry.GroupByConversation` | backend/infra/registry.py:1245-1248 | The filled dictionary holds each conversation's events in listed order, its keys in the order first met. |
| `InboundRegistry.Registry.RecordInboundDeadLetters` | backend/infra/registry.py:1228-1262 | Upserts exactly one record per conversation with exhausted events and counts them; other records stay. |
| `InboundRegistry.Registry.SweepInboundEvents` | backend/infra/registry.py:1202-1226 | Records first, from what it listed; then, exactly when every drain in turn goes through, every row it found stuck is processed, with `rearmed` the number of stuck conversations and at most that many letters; otherwise it ended at the first drain to raise. |
| `InboundDrain.AllDrainedIff` | backend/infra/registry.py:1217-1220 | Every conversation is drained exactly when the drain of each, in its turn, goes through; otherwise it ends at the first that does not. |
| `InboundDrain.QuietPipelineDrainsAll` | backend/infra/registry.py:1217-1220 | A pipeline that raises on no reply never cuts a sweep short. |
| `InboundRegistry.Registry.DrainEach` | backend/infra/registry.py:1217-1220 | Drains the conversations in the order given up to the first that raises; those after it are untouched. |
| `InboundRegistry.OnlyLateArrivalsRemain` | backend/infra/registry.py:1202-1226 | What is stuck after a finished sweep landed while it ran. |
| `InboundRegistry.SweepKeysCount` | backend/infra/registry.py:1211-1212 | The keys are the stuck conversations, each once, in name order. |
| `InboundRegistry.SweepCounts` | backend/infra/registry.py:1217-1226 | At most as many letters as drained conversations. |
| `DeadLetters.RecordCoversItsGroup` | backend/infra/registry.py:1246-1261 | Each exhausted event is in the record of its own tenant and conversation, which names events of that conversation only and carries the group's earliest time and highest attempts. |
| `DeadLetters.RecordsAreDisjoint` | backend/infra/registry.py:1246-1261 | No other record written by that sweep names the event. |
| `DeadLetters.RecordOneMore` | backend/infra/persistence/postgres_status.py:1076-1107 | Upserting one more group's letter keeps the others and the status of a letter that was there. |
| `DeadLetters.ExhaustedIff` | backend/infra/registry.py:1237-1242 | The exhausted events are those listed that are too old or have spent their attempts, each as often as listed. |
| `DeadLetters.StatusesStay` | backend/infra/persistence/postgres_status.py:1076-1107 | A letter that was there keeps its status, so a re-armed one is not opened again; a new one is open; no other letter changes. |
| `DeadLetters.SameRowIff` | backend/core/application/dead_letter_service.py:55-58 | Two sweeps write the same row exactly when their earliest exhausted events of the conversation came in at the same time. |
| `DeadLetters.StuckEventsExhaustByAgeOnly` | backend/infra/registry.py:1237-1242 | An event that is still stuck is exhausted exactly when it is older than the hard threshold; its attempts never are. |
| `InboundProtocol.NoInboundEventIsLost` | backend/infra/registry.py:1115-1163 | In every run: each delivery is stored at most once, a row that left the buffer has been through a reply, and a row still buffered is held by its own intake, owed by a running workflow, or an orphan. |
| `InboundProtocol.EveryRunKeeps` | backend/infra/adapters/workflows/dbos.py:717-741 | The protocol's invariant survives every interleaving of every step. |
| `InboundProtocol.OnlyFaultsOrphan` | backend/infra/adapters/workflows/dbos.py:702-741 | Rows are orphaned only by an intake that dies before arming, a workflow that gives up, or one that has spent its last pass. |
| `InboundProtocol.OwedUntilProcessed` | backend/infra/adapters/workflows/dbos.py:717-741 | A row a workflow owes stays owed until it is processed, whatever others do, unless that workflow is abandoned; a workflow that finishes has cleared all it ever owed. |
| `InboundProtocol.ArmingCoversIffNotFailed` | backend/infra/registry.py:1148-1163 | Arming makes one workflow owe every buffered row of the conversation, orphans included, exactly when the burst's workflow has not already failed. |
| `InboundProtocol.RedeliveryDoesNotArm` | backend/infra/registry.py:1134-1145 | A crash between insert and arming, then a redelivery: the row stays buffered and no workflow exists. |
| `InboundProtocol.FailedBurstSwallowsTheNext` | backend/infra/adapters/workflows/dbos.py:702-711 | A run in which a failed workflow's id swallows the arming of the next message. |
| `InboundProtocol.HandedOnceIffNoneRepeats` | backend/core/application/reply_ingestion.py:128-142 | In every run, with any pass ending anywhere, each row is handed on at most once exactly when no pass hands on a row that is out of the buffer, between another pass's reply and mark, or left by a pass that ended between the two. |
| `InboundProtocol.OverlappingDrainsHandOnTwice` | backend/infra/registry.py:1217-1220 | An input where it fails: workflow and sweep list one row, the workflow hands it on and marks it, and the sweep hands it on again. |
| `InboundProtocol.RetryAfterTheReplyHandsOnTwice` | backend/core/application/reply_ingestion.py:135-142 | Another, with one drain alone: the reply goes through, the mark does not, and the retried step hands the row on again. |
| `InboundProtocol.RowStaysIffNeverDue` | backend/infra/persistence/postgres_inbound.py:118-134 | In every run a row stays exactly until a purge of its tenant finds it processed before the cutoff; until then only its processing mark may change. |
| `InboundProtocol.ProcessedRowStays` | backend/infra/persistence/postgres_inbound.py:118-134 | A row processed at t is there, unchanged, after any run whose purges of its tenant have cutoffs of at most t. |
| `InboundProtocol.RedeliveryIgnoredIffNeverDue` | backend/infra/registry.py:1134-1135 | The next redelivery of a stored event changes nothing exactly when the event's row was never due; until then it is the only row of its delivery. |
| `InboundProtocol.FinishedSweepLeavesNothingStuck` | backend/infra/registry.py:1202-1220 | Every row stuck when a sweep begins is out of the buffer and through a reply when it ends without raising, whatever intakes, workflows, purges and other sweeps of any tenant do meanwhile. |
| `InboundProtocol.GoneForGood` | backend/infra/persistence/postgres_inbound.py:84-134 | A processed or purged row never comes back. |
| `InboundRefinement.AppendIsDeliver` | backend/infra/persistence/postgres_inbound.py:34-63 | The registry's insert is the protocol's delivery, and changes nothing exactly for a known event. |
| `InboundRefinement.ListAndMarkAgree` | backend/core/application/reply_ingestion.py:116-155 | A drain pass lists the rows the protocol holds and marks them alike. |
| `InboundRefinement.ArmedKeyIsBurstKey` | backend/core/application/reply_ingestion.py:109-114 | The key the registry arms is one the protocol may read; none exactly when the buffer is empty. |
| `InboundRefinement.ArmIsARun` | backend/infra/registry.py:1148-1163 | The registry's arming is a run of the protocol that starts the same workflow, or none where the buffer was emptied meanwhile. |
| `InboundRefinement.IntakeIsARun` | backend/infra/registry.py:1115-1146 | A durable intake, insert and arming, is a run of the protocol to the same buffer and the same started workflows. |
| `InboundRefinement.StuckAgree` | backend/infra/registry.py:1209-1211 | The registry's sweep lists what the protocol's sweep targets. |
| `InboundRefinement.DrainIsARun` | backend/core/application/reply_ingestion.py:116-155 | A whole drain, by a workflow or by a sweep and with whatever lands during each pass, is a run of the protocol's steps to the same buffer: a workflow goes on to its next drain, or is finished when this one found nothing, and runs the drain again when it raised; a sweep turns to its next conversation, or ends. |
| `InboundRefinement.SweepIsARun` | backend/infra/registry.py:1202-1226 | A whole sweep is a run of the protocol to the same buffer, and has swept the rows it found stuck exactly when no drain raised. |
| `ReplyRouting.Router.ProcessInboundMessage` | backend/infra/registry.py:1278-1345 | A message goes to at most one of counterpart handler and collector, by the order of the look-ups; with whatever others close or start again between look-up, hand-over and write, the pass is a run of its steps. |
| `ReplyRouting.Router.HandleReply` | backend/core/application/status_collector.py:522-550 | The collector looks again, and records a reply only for a check-in that was still open. |
| `ReplyRouting.Router.RecordReplyOnce` | backend/infra/persistence/postgres_status.py:100-132 | Closes a check-in, and says so, exactly when it had no reply. |
| `ReplyRouting.Router.RecordCheckin` | backend/infra/persistence/postgres_status.py:68-97 | Starting a check-in clears its reply if it has one and changes nothing else. |
| `ReplyRouting.HandedOnLateIffClosedSinceSeen` | backend/infra/registry.py:1331-1344 | In every run of overlapping passes, restarts, close-outs and console answers, a message is handed to the collector for a check-in that has its reply exactly when that check-in was closed, and not reopened, after the pass looked. |
| `ReplyRouting.ClosedOncePerReopening` | backend/core/application/status_collector.py:3142-3148 | At every point of every such run the closings of a check-in, with the reply it may have had to begin with, are as many as its reopenings, and one more exactly when it has its reply. |
| `ReplyRouting.ClosedAgainOnlyIfReopened` | backend/infra/persistence/postgres_status.py:100-132 | Between two closings of a check-in it was started again. |
| `ReplyRouting.TwoPassesHandOnOneCheckin` | backend/infra/registry.py:1331-1344 | The run in which two passes both look before either closes: both hand on, one closes. |
| `ReplyRouting.RepliedCheckinsStayClosed` | backend/infra/registry.py:1331-1344 | Where every pass hands on right after it looks, no check-in with a reply is handed on, with or without reprocessing. |
| `ChatSimulatorStore.Simulator.OpenQuestion` | backend/infra/registry.py:1367-1397 | The backward scan over the sorted transcript returns what the forward one-register automaton holds. |
| `ChatSimulatorStore.Simulator.SendUserMessage` | backend/infra/registry.py:1399-1447 | The text is filed against the question open in the person's channel, after at most one check-in started only if none was. The question was asked of the sender, among people with Slack's kind of ids. |
| `ChatSimulatorStore.Simulator.SendThreadReply` | backend/infra/registry.py:1449-1498 | Delivered exactly when the parent is a bot message to that person; starts no check-in and changes no open question. |
| `ChatSimulatorStore.Simulator.RecordUserReply` | backend/infra/adapters/chat/mock_slack.py:164-191 | A reply is recorded exactly when its parent is a bot message, and copies the parent's channel, user and, outside a thread, correlation. |
| `ChatSimulatorStore.Simulator.RecordBotMessage` | backend/infra/adapters/chat/mock_slack.py:135-162 | A bot message is appended under the next number, in a known channel only. |
| `ChatSimulatorStore.MessageIdNamesItsCounter` | backend/infra/adapters/chat/mock_slack.py:637-638 | Two messages never share an id, for the id names its number. |
| `ChatSimulatorStore.TiesAreReadAsRecorded` | backend/infra/adapters/chat/mock_slack.py:637-638 | Up to a million messages, those with one time stamp are read in the order they were recorded. |
| `ChatSimulatorStore.SecondsTruncate` | backend/infra/adapters/chat/mock_slack.py:638 | An id opens with the whole seconds of its time, truncated toward zero. |
| `ChatSimulatorStore.ChannelsApartIff` | backend/infra/adapters/chat/mock_slack.py:641-643 | Two people share a channel exactly when one's id is the other's without its U. |
| `ChatSimulatorStore.PostingKeeps` | backend/infra/adapters/chat/mock_slack.py:135-162 | Whatever the bot posts keeps the numbering and the send discipline. |
| `ChatSimulator.OpenIgnoresStoredOrder` | backend/infra/registry.py:1376-1397 | Which question is open does not depend on the order messages are stored in. |
| `ChatSimulator.NeutralMessageKeepsOpen` | backend/infra/registry.py:1384-1396 | Thread replies and the bot's other messages never change the open question, whatever time they carry. |
| `ChatSimulator.QuestionOpens` | backend/infra/registry.py:1367-1402 | A check-in, clarification or nudge stamped after everything else in its channel is the open question there, and nowhere else. |
| `ChatSimulator.OpenQuestionAt` | backend/infra/registry.py:1384-1397 | The open question is a question of the transcript with only neutral messages after it. |
| `ChatSimulator.AnswerClosesIff` | backend/infra/registry.py:1503-1517 | An answer closes the question it is filed against exactly when its stamp is after the question's. |
| `ChatSimulator.SentIsFiledOnce` | backend/infra/registry.py:1399-1447 | Along the send path with growing stamps every answer is filed against a question that was open, and once. |
| `ChatSimulator.NoQuestionAnsweredTwice` | backend/infra/registry.py:1399-1447 | No two answers reply to one question. |
| `ReaderProjection.FeedDetailsOf` | backend/api/people_projection.py:189-208 | The loop over a feed event's people rewrites the ids and names of each and nothing else. |
| `ReaderProjection.DirectoryMetadata` | backend/api/people_projection.py:239-259 | The pops and loops over a directory item's metadata leave exactly the specified entries. |
| `ReaderProjection.EventFieldIsFieldOfTheCopy` | backend/api/people_projection.py:189-208 | Projecting a feed event field by field is the plain projection of the rewritten copy. |
| `ReaderHiding.ReaderCannotTell` | backend/api/people_projection.py:146-259 | Responses that differ only in left-out fields, in ids and names with one stand-in, in text said alike, in small counts or in directory people project to equal trees, at every depth. |
| `ReaderHiding.ModelsCannotBeTold` | backend/api/people_projection.py:146-161 | The same for whole response models. |
| `ReaderHiding.ResponsesCannotBeTold` | backend/api/people_projection.py:135-139 | What a route returns to a reader who sees roles is the same for two such responses. |
| `ReaderHiding.OnlyPairsMatter` | backend/api/people_projection.py:163-187 | A field's projection depends on its siblings only through the paired ids and names. |
| `ReaderHiding.SameMetadataSeenAlike` | backend/api/people_projection.py:239-259 | Directory metadata that differs only in people and contacts is seen alike. |
| `ReaderShield.ProjectionShields` | backend/api/people_projection.py:163-187 | At every depth left-out fields are None, named id and name fields hold stand-ins, any other text is something `say` has said, and feed events about a person have no entity reference. |
| `ReaderShape.ProjectionKeeps` | backend/api/people_projection.py:146-190 | At every depth: lists keep their length, dictionaries and models their keys, numbers, flags and enums their value; a known person is said by their own stand-in, other ids stay, other text is what `say` makes of it; only left-out fields, a developer's reference, small counts and a directory's people go. |
| `ReaderShape.ResponseIsKept` | backend/api/people_projection.py:135-139 | So is every whole response; a reader who sees names gets it as it is. |
| `ReaderShape.NobodysResponseIsReadAsItIs` | backend/api/people_projection.py:146-190 | A response that names nobody, has no field to leave out and no small count, and whose texts `say` leaves alone, projects to itself. |
| `ReaderShape.MembersAreSaid` | backend/api/people_projection.py:61-75 | Each of the eleven id fields says a member by the member's stand-in. |
| `ReaderShape.NamesAreSaidById` | backend/api/people_projection.py:77-90 | A name field says the stand-in of the person whose id is beside it. |
| `ReaderShape.NamesAreSaidByName` | backend/api/people_projection.py:77-90 | With no id to go by, by the name itself, however it is spaced; a name nobody has becomes a team member. |
| `Text.CleanStaysIff` | backend/core/application/people_words.py:113-117 | Texts with single spaces between words and none around them, and no others, are left as they are. |
| `Text.CleanKeepsVisible` | backend/core/application/people_words.py:113-117 | Cleaning takes away no character but spaces. |
| `ReaderShape.NameMapsAreSaid` | backend/api/people_projection.py:92 | A map of ids to names says its members. |
| `ReaderShape.OwnStatusIsLeftOut` | backend/api/people_projection.py:94-96 | The fields of a person's own status are null whatever they held. |
| `ReaderShield.NoIdSurvives` | backend/api/people_projection.py:163-187 | When no stand-in is itself a member's id or name, no named id field at any depth of a projected value holds one. |
| `ReaderShield.DirectoryShielded` | backend/api/people_projection.py:221-259 | A directory item lists nobody and its metadata keeps no string that is a person, except that a description is what `say` has said of one. |
| `ReaderShield.ContactIsNamedByRole` | backend/api/people_projection.py:239-259 | A contact's name key holds its role exactly when one of that contact's three keys was set. |
| `ReaderShield.EventShielded` | backend/api/people_projection.py:189-208 | A projected feed event about a person has no entity reference, and its people's details are stand-ins. |
| `GitLabSeed.Seeder.PushWork` | scripts/qa_org/seed_gitlab.py:218-238 | The script's loop is the specified run, cut off after any call. |
| `GitLabSeed.Seeder.PushCommitsOf` | scripts/qa_org/seed_gitlab.py:240-281 | Pushes the missing commits in order and counts exactly those that landed. |
| `GitLabSeed.Seeder.EnsureRequestOf` | scripts/qa_org/seed_gitlab.py:283-322 | Once through, the branch has a merge request, merged if it should be; one was opened only if there was none, and merged only if it was not. |
| `GitLabSeed.Seeder.EnsureMaintainerOf` | scripts/qa_org/seed_gitlab.py:324-338 | Once through, the author is a maintainer; nobody else becomes or stops being one. |
| `GitLabSeed.PathsAreApart` | scripts/qa_org/seed_gitlab.py:240-268 | Different issues or message numbers never share a file. |
| `GitLabSeed.PathIsLower` | scripts/qa_org/seed_gitlab.py:240-268 | A path has no upper-case letter. |
| `GitLabConvergence.SeedConverges` | scripts/qa_org/seed_gitlab.py:218-338 | After any number of runs cut off after any call, one complete run leaves exactly one commit per message on its own branch and one merge request per branch that wants one; a further run changes nothing. |
| `GitLabConvergence.PushAllKeeps` | scripts/qa_org/seed_gitlab.py:218-238 | Any run, complete or not, keeps the invariant and takes nothing away. |
| `GitLabConvergence.EnoughCallsFinish` | scripts/qa_org/seed_gitlab.py:218-338 | With three calls per message and six per work a run gets through. |
| `GitLabConvergence.NoKeyNoEnd` | scripts/qa_org/seed_gitlab.py:218-226 | A plan with a work whose issue has no key never gets through. |
| `GitLabConvergence.FreshRemoteHolds` | scripts/qa_org/seed_gitlab.py:195-216 | Repositories with nothing but main are a fair start. |
| `GitLabMessages.AllMessagesLandIffApart` | scripts/qa_org/seed_gitlab.py:218-338 | A run from fresh repositories, with calls enough, gets through with as many commits as there are messages exactly when no two works clash. |
| `GitLabMessages.ClashingWorksMiss` | scripts/qa_org/seed_gitlab.py:240-281 | With works that clash no run, however many calls it has, gets through with every message committed. |
| `GitLabMessages.PlanLands` | scripts/qa_org/seed_gitlab.py:218-338 | With works that do not clash a run with calls enough commits every message, from any point of the plan. |
| `GitLabMessages.FirstCommitIff` | scripts/qa_org/seed_gitlab.py:253-266 | The first commit onto a branch yet to be made is taken exactly when main does not have its file. |
| `GitLabMessages.MainThenBranchNeverFinishes` | scripts/qa_org/seed_gitlab.py:240-281 | One issue straight to main and then on a branch: no run ever gets through. |
| `GitLabMessages.SameBranchIsSkipped` | scripts/qa_org/seed_gitlab.py:247-253 | One issue twice on one branch: the run gets through without the second work's messages. |
| `JiraSeed.PageIsOfTheProject` | scripts/qa_org/seed_jira.py:220-226 | The page holds at most 100 of the project's issues, and all of them when there are no more. |
| `JiraSeed.Seeder.ExistingIssues` | scripts/qa_org/seed_jira.py:220-230 | The lookup maps each type and summary on the page to the key shown last. |
| `JiraSeed.Seeder.EnsureEpicsOf` | scripts/qa_org/seed_jira.py:256-266 | Creates the epics the lookup did not show. |
| `JiraSeed.Seeder.EnsureIssuesOf` | scripts/qa_org/seed_jira.py:241-251 | Creates the issues the lookup did not show, notes every key, and moves each towards its status. |
| `JiraSeed.Seeder.Transition` | scripts/qa_org/seed_jira.py:306-320 | Once through, the issue is in the status asked for, or where it was if the workflow offers no way; cut off, it is where it was; no other issue moves. |
| `JiraSeed.ToDoStays` | scripts/qa_org/seed_jira.py:306-320 | A new issue is to do, and one wanted there is not moved. |
| `JiraSeed.Seeder.SeedIssues` | scripts/qa_org/seed_jira.py:233-254 | The script's loop over projects is the specified run, cut off before any call. |
| `JiraConvergence.JiraSeedConverges` | scripts/qa_org/seed_jira.py:220-266 | With room on the page, after any number of cut-off runs one complete run leaves each wanted epic and issue exactly once and in its status unless the workflow has no way there; a further run changes nothing on the site; every key saved along the way names an issue of its summary. |
| `JiraConvergence.SavedKeysNameTheirIssues` | scripts/qa_org/seed_jira.py:233-254 | Where wanted summaries differ, a complete run leaves under each the key of that very issue, of its project and type, whatever the state file held before. |
| `JiraConvergence.EnoughCallsFinish` | scripts/qa_org/seed_jira.py:233-254 | With one call per project and epic and four per issue a run gets through, from wherever the site is. |
| `JiraConvergence.FreshSiteHolds` | scripts/qa_org/seed_jira.py:220-230 | An empty site is a fair start for a plan of at most 100 issues a project. |
| `JiraConvergence.DuplicatesIffNotShown` | scripts/qa_org/seed_jira.py:220-251 | Going through a project leaves each wanted issue at most once exactly when the lookup showed every wanted issue there was. |
| `JiraConvergence.BehindAFullPageIsDuplicated` | scripts/qa_org/seed_jira.py:224-225 | A wanted issue behind 100 older ones is created again by the next complete run. |
| `JiraConvergence.RoomShowsAll` | scripts/qa_org/seed_jira.py:224-230 | A project of at most 100 issues is shown whole, in whatever order the site lists it. |
| `JiraConvergence.RunsKeep` | scripts/qa_org/seed_jira.py:393-410 | Runs cut off anywhere keep every wanted issue unique, the page large enough, and every saved key on an issue of its summary. |
| `JiraInvites.Inviter.Invite` | scripts/qa_org/seed_jira.py:125-153 | At most four posts and 720 seconds; all but the last were throttled, failed or timed out without landing; the last landed, was refused, or was such a failure too and the person is given up on. |
| `JiraInvites.Inviter.EnsureUsers` | scripts/qa_org/seed_jira.py:96-122 | Accounts only grow and are on the site or were known; at most one person is given up on per run. |
| `JiraInvites.RetryAfter` | scripts/qa_org/seed_jira.py:156-160 | Waits longer than the answer asks, up to 180 seconds, and 30 where it gives no number. |
| `BlockerReconciliation.Match` | scripts/mock_llm.py:370-391 | None exactly when no prior is eligible, otherwise the first eligible prior of maximal score. |
| `BlockerReconciliation.MatchPrior` | scripts/mock_llm.py:370-391 | The loop over `best` and `best_score` finds that prior. |
| `BlockerReconciliation.ContainedIff` | scripts/mock_llm.py:384-387 | Two wordings count as contained exactly when one, in lower case, is a stretch of the other. |
| `BlockerReconciliation.Reconcile` | scripts/mock_llm.py:394-413 | The loop reports each candidate under its matched prior's wording and key, once. |
| `BlockerReconciliation.OneRowEach` | scripts/mock_llm.py:394-413 | Rows have distinct wordings; every candidate has its row and every row a candidate. |
| `BlockerReconciliation.WordingOnFileGoesToFirstCover` | scripts/mock_llm.py:370-391 | A wording on file goes to the first prior that contains it, or is contained in it, and misses none of its words. |
| `BlockerReconciliation.ReconcilingAgain` | scripts/mock_llm.py:394-413 | Reconciling the rows again changes no wording exactly when no row's wording on file is covered by a different one filed earlier. |
| `BlockerReconciliation.ReconcilingTwice` | scripts/mock_llm.py:394-413 | Where no wording on file contains another, reconciling again keeps every wording. |
| `BlockerReconciliation.WordingOnFileIsClosed` | scripts/mock_llm.py:394-413 | The priors' own wording yields only the priors' wording. |
| `BlockerReconciliation.RowsReconciledAgain` | scripts/mock_llm.py:394-413 | For all candidates and priors, reconciling the rows again gives the same rows, wording and key, exactly when what first covers each row's wording on file has that wording and the row's key is its key or, for want of one, the key in the wording. |
| `BlockerReconciliation.KeyLostOnTheSecondPass` | scripts/mock_llm.py:405-412 | The input where it fails: a key in the restatement, none on file and none in the wording on file. |
| `BlockerReconciliation.ExtractBlockers` | scripts/mock_llm.py:316-327 | Each blocker opened by a sentence that clears nothing, once, in the order mentioned. |
| `BlockerReconciliation.ResolvedHandles` | scripts/mock_llm.py:416-426 | The handles of the clearing sentences' matches, each once. |
| `BlockerReconciliation.ClearedIff` | scripts/mock_llm.py:416-426 | A handle is cleared exactly when some clearing sentence's best match carries it. |
| `SeedTimeline.TransitionPlan` | scripts/seed_demo_history.py:578-591 | A chain of states from the first to the target, each move with its day. |
| `SeedTimeline.OffsetsNeverGrowIff` | scripts/seed_demo_history.py:583-590 | The moves' days never go backwards exactly when the work took more than a day or has at most three moves. |
| `SeedTimeline.RoundHalfEven` | scripts/seed_demo_history.py:587 | The nearest integer, halves to the even one. |
| `SeedTimeline.FactsInterleave` | scripts/seed_demo_history.py:439-482 | Each move, its issue fact two minutes on and the next move follow each other strictly, all in the past. |
| `SeedTimeline.AtIsPast` | scripts/seed_demo_history.py:1124-1141 | No stamp is after now minus the margin, and a stamp is on its day exactly when that day has begun by then. |
| `SeedTimeline.DaysStayInOrder` | scripts/seed_demo_history.py:1124-1141 | A stamp of a later day is never before one of an earlier day. |
| `SeedTimeline.SameDayOrderIff` | scripts/seed_demo_history.py:1124-1141 | Within a day, kept stamps and folded stamps keep their order; a kept one stays before a folded one exactly when its time of day is at most the folded one's share of what has elapsed. |
| `SeedTimeline.DayKeepsItsOrderIff` | scripts/seed_demo_history.py:1124-1130 | A running day keeps the order of all its stamps exactly when the last minute kept stays before the first folded. |
| `SeedTimeline.NoonSwapsCheckInAndCommit` | scripts/seed_demo_history.py:1124-1130 | At noon an 18:00 commit lands before a 09:30 check-in. |
| `SeedTimeline.Weekdays` | scripts/seed_demo_history.py:1106-1113 | Exactly the window's Mondays to Fridays, strictly ascending, with their exact number. |
| `SeedTimeline.WeekdayCountBounds` | scripts/seed_demo_history.py:1106-1113 | That number lies between five a full week plus what must and what can fall in the rest. |
| `SeedTimeline.LastSeen` | scripts/seed_demo_history.py:866-879 | An open blocker was last seen on the latest replied day of its window, else when first seen; a resolved one on the day it was resolved; never before it was first seen or after its horizon. |
| `EnvFile.Render` | scripts/qa_org/use_real.py:134-143 | The loop over lines computes the specified rendering. |
| `EnvFile.FileValues` | scripts/qa_org/env.py:18-28 | The reader's loop computes the specified reading, later lines winning. |
| `EnvFile.GivenReadBackOthersAsBefore` | scripts/qa_org/use_real.py:134-143 | Every key given is read back with its value as the reader cleans it; every other key reads as before. |
| `EnvFile.ReadBackUnchangedIff` | scripts/qa_org/env.py:26-27 | A given value is read back unchanged exactly when it has no space and no quote at either end. |
| `EnvFile.OtherLinesStay` | scripts/qa_org/use_real.py:134-143 | Lines of other keys keep place and text; every other line is a given key with its value. |
| `EnvFile.SecondRenderingOverrides` | scripts/qa_org/use_real.py:134-143 | A second rendering of the same keys overrides the first. |
| `EnvFile.RenderingTwice` | scripts/qa_org/use_real.py:134-143 | Rendering twice is rendering once. |
| `EnvFile.SettingHasItsKey` | scripts/qa_org/env.py:23-27 | The reader sees the key the writer sees, on exactly the lines with a sign that are no comments. |
| `BranchNames.BranchLeadsToItsKey` | scripts/qa_org/roster.py:126-131 | The first key searched in a branch and any title is the one the branch was made from, for every summary. |
| `BranchNames.KeyThenDash` | scripts/qa_org/check_reconciliation.py:403-404 | The first key of a text that opens with a key and a dash is that key. |
| `BranchNames.BranchesAreApart` | scripts/qa_org/roster.py:126-131 | Two issues never share a branch, and none has the default branch. |
| `BranchNames.SlugIsASlug` | scripts/qa_org/roster.py:130 | A slug has only lower-case letters, digits and single dashes, at most 32 characters and no dash at an end. |
| `BranchNames.SlugStaysIff` | scripts/qa_org/roster.py:130 | Slugs, and no other texts, are their own slug. |
| `BranchNames.SlugKeepsLetters` | scripts/qa_org/roster.py:130 | A slug has the summary's letters and digits in order: all of them up to 32 characters, else the first ones. |
| `BranchNames.LongSlugsAreFull` | scripts/qa_org/roster.py:130 | A slug is cut only after 31 or 32 characters. |
| `BranchNames.FirstKeyIsFirst` | scripts/qa_org/check_reconciliation.py:403-404 | The search finds the first key that stands as a word of its own, and none exactly when none does. |
| `BranchNames.NoKeyInsideAWord` | scripts/qa_org/check_reconciliation.py:45 | A key with a letter or underscore grown to it is none. |
| `BranchNames.ProjectKeysAreFound` | scripts/qa_org/check_reconciliation.py:45 | Every numbered key of the three projects is found. |
| `RepoList.Parse` | backend/api/dtos.py:223-240 | The loop returns exactly the trimmed non-empty items, each once. |
| `RepoList.JoinedIsCut` | backend/api/dtos.py:223-240 | A joined text is cut at every comma and line break and nowhere else. |
| `RepoList.ScalarIsOneName` | backend/api/dtos.py:223-240 | A scalar is one name, or none when blank; a missing value none. |
| `RepoList.ParsingTwice` | backend/api/dtos.py:223-240 | Parsing what was parsed changes nothing. |
| `RepoList.ParsingInvertsJoin` | scripts/seed_demo_history.py:234 | The comma join of distinct clean names parses back to them. |
| `ReportName.DefaultOut` | scripts/qa_org/check_reconciliation.py:248-260 | Ends for every finite set of reports with the first name nobody has. |
| `ReportName.TakenIsBounded` | scripts/qa_org/check_reconciliation.py:256-260 | A run of taken names is no longer than the number of files. |

## Left out

- The Temporal scheduler: only the DBOS workflows are modelled; their ids are kept for good, which the failed-burst result rests on.
- The debounce timer of a coalesce workflow: when it fires is left open, so every result holds for every timing.
- The in-memory repositories: theirs replace a dead letter whole and reopen it; the Postgres upsert, which keeps its status, is modelled.
- InboundStore.Unprocessed: message references are compared as Python strings, where the database's collation may order them differently.
- DeadLetters.SameRowIff: a letter's id is modelled as the pair it is printed from.
- The reply pipeline itself (parsing, acknowledging, writing status): an arbitrary function that answers or raises.
- ReplyRouting.Router.ProcessInboundMessage: the lookups it branches on are given as their answers.
- ReplyRouting.Router.HandleReply: the collector is modelled by its own look-up and by whether it comes to write a reply; what it answers otherwise is not.
- ChatSimulatorStore.Simulator.SendThreadReply: a request that claims the reply may have the bot post more; that posting is modelled on its own (`PostingKeeps`).
- The simulator's reset of a tenant, and its second store in Redis.
- ReaderHiding.ReaderCannotTell: `say` and `is_person` are arbitrary functions; nothing is claimed of projecting twice, which depends on them.
- Dictionary keys in the projection: rules go by the enclosing field, and keys are kept.
- GitLabSeed.Seeder.EnsureRequestOf: the retries of a refused merge, the draft flag and the merge request numbers kept in the state file are not modelled; a refusal is a run cut off there.
- GitLab users, group and projects: one lookup and one create each, the pattern of the maintainer.
- JiraSeed.Seeder.EnsureIssuesOf: assignees, components, labels and the parent epic of a new issue; the `epic:` keys of the state file; dry runs.
- JiraConvergence.JiraSeedConverges: that a created issue is visible to the next search is assumed.
- JiraSeed.Seeder.Transition: names of statuses are compared as they are, not ignoring case.
- Jira boards and sprints: a lookup and a create each.
- JiraInvites.Inviter.Invite: that a landed invitation is visible to the next search is assumed.
- BlockerReconciliation.ExtractBlockers: sentences, clauses and openers are given; the regular expressions are not modelled.
- SeedTimeline.RoundHalfEven: rounds the exact quotient, not its floating-point value; `_at` is over real minutes, not microseconds.
- EnvFile.Render: works on lines; a value with a line break in it would split its line in the file.
- EnvFile.GivenReadBackOthersAsBefore: for keys that are trimmed, not empty, without an equals sign and not a comment.
- BranchNames.SlugIsASlug: the summary comes lower-cased; lower-casing letters outside ASCII is not modelled.
- Forecasts, rollups, risk, gates and escalation, the API's routers and view conversions, the adapters' HTTP, and the frontends.
