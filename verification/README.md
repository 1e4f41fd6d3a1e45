# Verified model of the wallet engine

A Dafny model of a TON wallet engine: the durable send protocol, the client
state machine behind one mutex, and the smaller parts that carry their own
invariants (activity list, NFT list, key-change history, request encoding,
TON Connect bookkeeping, decimal amounts). `dafny verify dfyconfig.toml` checks
the whole project.

## What is modelled

**The durable send protocol** (`Journal`, `SendWorkflow`, `Resolution`, `Chain`,
`Protocol*`). One journal slot per wallet is changed only by compare and swap.
Any number of send and recovery calls interleave; each may fail or crash between
any two of its awaits, and a compare and swap may fail with or without having
stored. A provider may forward a submitted message at any later time. The chain
executes a message only at its own sequence number and inside its validity
window; an index that lags behind answers every provider read. `Protocol.Step`
is one atomic step of that system and the theorems speak about every run.
`Submission` runs `submit_prepared_send` as a method on the mutable reducer and
proves each of its runs, with arbitrary interference at every await, to be a run
of that system.

**The client state machine** (`Client*`, `WalletClient`). Every block that holds
the client's mutex is one step; everything between two blocks of an operation
interleaves freely with all other calls. `ClientRuns.Step` covers sends,
standalone resolutions, previews, refreshes, page loads, cancellation,
listeners, and shutdown, with blocks of an operation in any order.
`ClientPrograms` adds the control flow of every operation, each error exit
included, and `ClientEnds` runs any number of such programs together.
`class WalletClient` performs the send, resolution, listener, and shutdown blocks
on mutable fields and is proved to move the state as the step functions say.

**Both together** (`Joined*`). The sends of one client are calls of the protocol;
the journal commit of a call waits for the client's commit block, and the last
block of a send waits for the end of its call. Other clients of the wallet act
freely. Every joint run projects to a run of each half. `JoinedRecoveries` adds
the client's own recoveries.

**Lists and codecs.** `class ActivityList` and `ActivityCoverage` (merging,
pagination, and which transactions a list covers), `class NftList`,
`KeyHistory` (paging a log that grows while it is read, and walking it back to
the anchor key), `QueryCodec` (the form encoder of requests against the percent
decoder of transfer links), `class TonConnectSession`, and `Amount`.

### Assumptions

- A message is identified by its hash. The wallet contract executes a message
  only at its own sequence number and not after its validity window.
- The index only moves forward and never runs ahead of the chain; how far it may
  lag is a parameter (`Config.lag`), and each theorem says when it matters.
- An explicit rejection means the provider did not and will not forward that
  submission.
- The host's compare and swap is atomic (src/engine/host.rs:47-54), and journal
  versions are the ones the engine writes.
- Rows of one provider page have distinct identifiers. A transaction page starts
  at the transaction its cursor names. Logs grow only at their newest end.
- No two rotations of a wallet install the same key.
- Encrypting and restoring one TON Connect request loses nothing.
- An operation runs its own blocks one at a time and tracks only request numbers
  it reserved. In `ClientPrograms` every decision an operation takes from a
  provider's, the journal's, or the secret host's answer is free.

## What the proofs found

Where code and documentation disagree, the model follows the code.

- A recovery call that loses its compare and swap reports whatever settled record
  it then finds, without comparing operations (src/engine/resolution.rs:317-325).
  `ProtocolFindings.RecoveryCanMisreport` is a run in which an executed payment is
  reported as expired. `ProtocolTheorems.RecoveryReport` says what the report does
  mean: it is true of the record it returns, and of the message the caller asked
  about whenever the two messages and the resolution satisfy `Transfers`, which a
  caller can evaluate. `ChainModel.TransferIff` shows that this is exactly the
  condition: over all chains the report carries over if and only if it holds.
- `Expired` is trustworthy if and only if the index lag never exceeds the margin
  (or the margin is so large that nothing expires):
  `ChainModel.ExpiredTrustworthyIff`. The recheck before `Replaced` cannot be
  dropped: `ChainModel.RecheckIsNecessary`.
- A bounded proof (src/wallet/send.rs:1236-1252) asserts that every terminal
  stage other than two permits replacement; `HandedOff` is a third:
  `Journal.TerminalButBlocking`.
- An operation that was refused can keep its slot. `ClientSlots.RefusedBlockKeepsIff`
  and the four lemmas about refused starts give the exact conditions:
  at the last revision or request number, and for a preview whose request is
  refused because the client is closing. `ClientFindings.PreviewKeepsSlot` is a run
  in which a preview is over and still holds its slot with revisions left.
  `ClientEnds.EndedReleases` shows that over all programs and runs nothing else
  returns with a slot.
- Loading older activity need not end. A refresh of an empty list may lift the
  cursor that the next load lowers again: `ActivityModel.EmptyListCycles`, from a
  new client. `ActivityModel.RaisesIff` says exactly which updates lift it, and
  `ActivityModel.LoadsArePaid` bounds the loads of every run by them.
- A refresh of a loaded activity list skips what lies between the transactions
  known before and the newest page, and what it skips is never loaded afterwards
  (`ActivityCoverage.SkippedForever`). `ActivityCoverage.RunCompleteIff` says for
  every run of a new client when the list is complete all the same: exactly when no
  such refresh stepped over a transaction with a row. `ActivityCoverage.BurstSkips`
  is a run that does, for every burst of more than a page.
- A key-change history is said to be complete for every older key once it holds
  the current one (src/engine/encrypted_comment.rs:279-282). For a current rotation
  that was in the log when reading began, that holds if and only if at some read the
  log above the wallet's oldest rotation fitted in the pages read so far
  (`KeyHistory.CachedHistoryExact`); `KeyHistory.CachedHistoryAnyRow` covers one that
  arrived during the reads. It fails for every log of more than a thousand rotations
  (`KeyHistory.LongHistoryMisses`) and holds for longer logs whose unread rows are
  failed ones (`KeyHistory.UnreadFailuresDoNoHarm`).
- A TON Connect chunk with a repeated or undecodable request loses requests:
  `TonConnect.NothingLostIff`, with a losing run `TonConnect.RepeatedIdLoses`.
  Restoring an older stored session costs exactly what `TonConnect.OlderSessionCosts`
  says.
- A space does not survive the request encoder followed by the link decoder; all
  other text does: `QueryCodec.QueryRoundTrip`.

## Model

| member | source | states |
|---|---|---|
| Journal.NoSubmissionBeforeCommit | src/wallet/send.rs:1309-1358 | For event lists of every length, a stage in which the message may have left the wallet is preceded by a durable commit (the source checks lists of ten). |
| Journal.TerminalAbsorbs | src/wallet/send.rs:1360-1375 | A terminal stage survives every further list of events. |
| Journal.TerminalButBlocking | src/wallet/send.rs:246-289 | The terminal stages that still block a new signature are exactly three, and no stage permits both replacement and forced replacement. |
| Journal.TerminalMutationRoundTrip | src/wallet/send.rs:476-599 | Recording a resolution and reading the record back gives the resolution, under a forward compare and swap. |
| SendReducer.CommitReleasesStoredMessage | src/wallet/send.rs:903-976 | The commit mutation applied to the loaded slot stores exactly the prepared message, and only then is that message released for submission or hand-off. |
| SendReducer.SendWorkflow.constructor | src/wallet/send.rs:712-791 | A new workflow starts in validation with nothing prepared. |
| SendReducer.SendWorkflow.ApplyEvent | src/wallet/send.rs:1141-1162 | An event either takes the transition table's step or leaves the workflow unchanged and is refused. |
| SendReducer.SendWorkflow.JournalWasLoaded | src/wallet/send.rs:812-841 | The mutable reducer moves as the guarded load function. |
| SendReducer.SendWorkflow.TransferWasPrepared | src/wallet/send.rs:903-914 | The mutable reducer accepts only a matching transfer and asks for its persistence. |
| SendReducer.SendWorkflow.JournalWasPersisted | src/wallet/send.rs:916-976 | The mutable reducer moves as the persistence function, success and conflict alike. |
| SendReducer.SendWorkflow.SubmissionReplied | src/wallet/send.rs:978-1019 | Accepted, rejected, and ambiguous answers lead to their own terminal record. |
| SendReducer.SendWorkflow.Cancel | src/wallet/send.rs:1021-1039 | Cancellation never rewrites a terminal result. |
| ResolutionRules.WindowExpiredExact | src/engine/resolution.rs:465-471 | The saturating comparison agrees with unbounded arithmetic, and an overflowing deadline never expires. |
| ResolutionRules.JournalHost.CompareExchangeJournal | src/engine/host.rs:47-54 | The slot changes only at the expected version and the caller learns the current record otherwise. |
| ResolutionRules.PersistOnce | src/engine/resolution.rs:287-345 | One attempt, after arbitrary writes of others, overwrites only an unsettled record of the same operation and message, and continues only with one. |
| ResolutionRules.PersistSendResolution | src/engine/resolution.rs:282-349 | Against any interference and host fault the loop writes at most once, only over an unsettled record of its own operation and message, and every success it returns is a record the slot holds. |
| ChainModel.DeadStaysDead | src/engine/resolution.rs:228-272 | A message that can no longer execute keeps its fate in every later chain state. |
| ChainModel.SoundStable | src/engine/resolution.rs:228-272 | What a resolution claims about a message stays true whatever the chain does next. |
| ChainModel.ReadVerdictSound | src/engine/resolution.rs:145-278 | Each provider read establishes the premise of the next read or a true verdict. |
| ChainModel.ClassifySound | src/engine/resolution.rs:145-278 | The whole ordered, non-atomic evidence procedure: confirmed messages executed, replaced and expired ones never did and never can. |
| ChainModel.ExpiredTrustworthyIff | src/engine/resolution.rs:262-272 | Over all chains and reads, an expired verdict is right if and only if the index lag is within the margin or nothing ever expires. |
| ChainModel.LaggingIndexMisleads | src/engine/resolution.rs:262-272 | For every lag above the margin there is a run in which an executed payment is called expired. |
| ChainModel.RecheckIsNecessary | src/engine/resolution.rs:228-260 | For every external message, an empty lookup and a consumed sequence number are compatible with its execution. |
| ChainModel.TransferIff | src/engine/resolution.rs:317-325 | Over every chain, what a resolution says of one message is also true of another if and only if a condition on the two messages and the resolution alone holds. |
| ChainModel.TransferFails | src/engine/resolution.rs:317-325 | Whenever that condition fails there is a chain on which the report is true of the one message and false of the other. |
| ProtocolTheorems.WriteAhead | src/engine/send.rs:353-372 | In every reachable state a message that left a call stands in the slot history under that very call, first in the durable stage before release. |
| ProtocolTheorems.SlotDiscipline | src/engine/send.rs:145-180 | Versions count the writes; a settled record is never overwritten by its own call or a resolver; an unsettled message gives way to another only under an explicit override. |
| ProtocolTheorems.FateSound | src/engine/resolution.rs:228-349 | What any stored record says about its message holds when stored and in every continuation of the run. |
| ProtocolTheorems.OutstandingHoldsSlot | src/engine/send.rs:145-180 | A released message that can still execute holds the slot and blocks new signatures, or was displaced by an override. |
| ProtocolTheorems.NoTwoOutstanding | src/engine/send.rs:149-169 | Without overrides no two messages of the wallet can be outstanding at once, over any number of clients and crashes. |
| ProtocolTheorems.DefiniteFailureMeansNoHandOff | src/engine/send.rs:353-372 | A call that reported a definite failure never stored or released its message, now or in any continuation. |
| ProtocolTheorems.ReleasedCallReports | src/engine/send.rs:379-413 | After release a call reports delivery or ignorance only, and failure only after a stored explicit rejection. |
| ProtocolTheorems.RecoveryReport | src/engine/resolution.rs:287-349 | A recovery's report is a record the slot really held and true of that record's message; it is true of the resolved message whenever the report transfers to it; records of one call carry one message. |
| ProtocolFindings.RecoveryCanMisreport | src/engine/resolution.rs:317-325 | A complete run in which a recovery call reports an executed payment as expired although the index keeps within the margin. |
| SubmissionDriver.SubmitPreparedSend | src/engine/send.rs:331-430 | The method on the mutable reducer, with arbitrary events of others at every await and any journal fault or provider answer, performs a run of the protocol and returns the outcome that run ends with. |
| SubmissionDriver.ReportMeans | src/engine/send.rs:331-430 | What that outcome means: a refusal stored and released nothing, a released message was stored first under this call, a reported failure was an explicit rejection and never reached the network. |
| JoinedSends.InFlightIsGuarded | src/engine/send.rs:349-413 | In every joint run a send whose message is stored, released, or in flight passed its commit block, and until its call is over its own currency tests succeed, the client refuses cancellation, new sends, and recoveries, and shutdown waits. |
| JoinedSends.CancelledNeverReleased | src/engine/send.rs:289-322 | After a successful cancellation nothing of that send is ever stored in the journal or handed to a provider, in any continuation of client, other clients, provider, and chain. |
| JoinedSends.ShutDownReleasesNothing | src/engine/client.rs:112-150 | Once a client was shut down it starts no send, has none on the way, and hands out no further message in any continuation. |
| JoinedSends.Projects | src/engine/send.rs:331-430 | Every joint run is a run of the protocol and a run of the client, so the theorems about either hold of both together. |
| JoinedFindings.StoredSendIsReached | src/engine/send.rs:331-372 | A joint run through start, load, signature, commit block, and compare and swap to a send that is stored and not over. |
| JoinedRecoveries.RecoveryExcludesSends | src/engine/resolve.rs:17-103 | While a recovery of a client that was not shut down is under way, the client starts no send and no other recovery, and each of its sends is over or never stores or hands out anything again. |
| JoinedRecoveries.RecoveryIsReached | src/engine/resolve.rs:17-47 | A new client whose first call is a recovery reaches a state in which that recovery is under way. |
| JoinedRecoveries.RecoveriesProject | src/engine/resolve.rs:17-103 | Every run with the client's recoveries is a joint run, so the theorems about joint runs hold of it. |
| ClientSafety.StepStateOk | src/engine/state.rs:95-223 | Every event keeps: send and resolution exclude each other, active generations are the newest, the commit flag has an active send, a shut-down client is empty, listeners wait for unpublished revisions. |
| ClientTheorems.SingleFlight | src/engine/send.rs:62-70 | The slot invariant holds in every state of every run from construction. |
| ClientTheorems.StaleInert | src/engine/state.rs:195-223 | A block of a superseded, cancelled, or finished operation changes nothing. |
| ClientTheorems.NeverCurrentAgain | src/engine/state.rs:195-223 | An operation that lost its slot never holds it again in any continuation. |
| ClientTheorems.CancelledNeverCommits | src/engine/send.rs:289-322 | After a successful cancellation that send can never start its durable commit, whatever runs later. |
| ClientTheorems.CommitBoundary | src/engine/send_state.rs:143-169 | From the commit to the send's own last block, every interleaving leaves it current: cancellation is too late, shutdown waits, new sends and resolutions are refused, its checks pass. |
| ClientRequests.RequestsNeverCollide | src/engine/state.rs:151-159 | Over every run no request number is reserved by two operations, and requests in flight in two slots are distinct. |
| ClientSlots.EndingReleases | src/engine/send_state.rs:43-141 | Every block that ends an operation takes it out of its slot, even when no revision is left. |
| ClientSlots.RefusedBlockKeepsIff | src/engine/send_state.rs:43-252 | Over every block of every operation: a refused block leaves its operation in the slot if and only if the stated condition on the state before it holds. |
| ClientSlots.RefusedSendKeepsIff | src/engine/send.rs:54-116 | A refused start of a send keeps the slot exactly at the last revision, with generation and request numbers left and both slots free. |
| ClientSlots.RefusedOtherKeepsNothing | src/engine/resolve.rs:22-47 | A refused start of a standalone operation or a preview never keeps a slot. |
| ClientSlots.RefusedRefreshKeepsIff | src/engine/refresh.rs:30-61 | The exact condition under which a refused refresh keeps its slot. |
| ClientSlots.RefusedPageKeepsIff | src/engine/activity.rs:22-53 | The exact condition under which a refused page load keeps its slot. |
| ClientSlots.BlockLeavesOthers | src/engine/state.rs:195-223 | No block takes a slot from another operation, of another family or of another generation of its own. |
| ClientPrograms.AlwaysGoesOn | src/engine/send.rs:118-430 | No operation stops in the middle: every block but a last one has a successor, after success and after error. |
| ClientPrograms.RankFalls | src/engine/send.rs:118-430 | Whatever the replies and answers are, each block brings its operation strictly closer to its end. |
| ClientEnds.EndedReleases | src/engine/send_state.rs:43-141 | Over every interleaving of any number of operations, with every error exit: an operation that returned holds no slot, except at the last revision or for a preview of a closing client. |
| ClientEnds.RunLeavesOthers | src/engine/state.rs:195-223 | A block an operation runs on its way never takes away the slot of another operation. |
| ClientEnds.OperationsEnd | src/engine/send.rs:118-430 | In every run an operation moves at most as often as its rank allows, and is over once it has. |
| ClientEnds.EveryOperationIsShort | src/engine/send.rs:118-430 | In every run of a new client no operation runs more than 231 blocks, whatever it is answered. |
| ClientFindings.PreviewKeepsSlot | src/engine/preview.rs:523-590 | A run after which a preview is over and still holds its slot while the client is closing and revisions are left. |
| ClientListeners.NoLostWakeup | src/engine/state.rs:161-178 | At every moment a listener has been signalled exactly when a revision above its own was published, and otherwise still waits or was released by shutdown. |
| ClientListeners.ShutdownIsFinal | src/engine/client.rs:207-271 | After shutdown no call and no late completion changes anything; slots and listeners are empty. |
| ClientListeners.EndingPublishes | src/engine/send_state.rs:60-128 | A committed send that lets go of its slot publishes a revision. |
| ClientListeners.ShutdownWakes | src/engine/client.rs:112-150 | A shutdown that waited for a committed send has been signalled once that send lets go. |
| ClientSnapshot.StepShows | src/engine/refresh.rs:131-163 | Only a current load with fresh data changes what is shown for a resource; failures, cancellations, late answers, sends, and shutdown keep the last good data. |
| ClientSnapshot.RunShowsLastDelivery | src/engine/nft.rs:62-101 | Over every run the data shown for a resource is the last one a then-current load delivered. |
| ClientSnapshot.StepShowsSend | src/engine/send_state.rs:26-128 | The send snapshot changes only by a starting send, a block of the current send or resolution, a cancellation before the commit, or a shutdown. |
| ClientSnapshot.CommittedSendShown | src/engine/send_state.rs:143-186 | Past the commit boundary only the send's own blocks change what is shown for it, over every run. |
| WalletClientState.WalletClient.constructor | src/engine/client.rs:154-194 | A new client has no operation, no listener, and request numbers from one. |
| WalletClientState.WalletClient.AllocateRequestId | src/engine/state.rs:152-159 | Takes the next number, or refuses at the last one without reusing it. |
| WalletClientState.WalletClient.NextRevision | src/engine/state.rs:161-178 | The drain loop signals exactly the listeners the revision passes and keeps the others in order. |
| WalletClientState.WalletClient.StartSend | src/engine/send.rs:54-116 | Takes the send slot or changes only counters, as the step function says. |
| WalletClientState.WalletClient.EndSend | src/engine/send_state.rs:60-128 | Failing a send or marking it unknown releases only a current generation. |
| WalletClientState.WalletClient.BlockSendForPending | src/engine/send_state.rs:43-58 | Ends the attempt and keeps the unresolved snapshot visible. |
| WalletClientState.WalletClient.BeginSendCommit | src/engine/send_state.rs:143-156 | Sets the commit flag only for the current send of a running client. |
| WalletClientState.WalletClient.FinishSend | src/engine/send.rs:416-425 | Publishes the final workflow and releases the slot of a current send only. |
| WalletClientState.WalletClient.CancelSend | src/engine/send.rs:294-322 | Refuses after the commit and otherwise releases the slot and returns its requests. |
| WalletClientState.WalletClient.StartRequest | src/engine/send_state.rs:188-209 | Tracks a request for a current operation only. |
| WalletClientState.WalletClient.FinishRequest | src/engine/send_state.rs:230-252 | The retain loop removes exactly the finished request. |
| WalletClientState.WalletClient.CompleteStandaloneResolution | src/engine/resolution.rs:74-91 | Releases the slot of the current resolution and publishes only a changed snapshot. |
| WalletClientState.WalletClient.WaitForChange | src/engine/client.rs:87-101 | Answers at once, registers a listener, or refuses while closing. |
| WalletClientState.WalletClient.PrepareShutdown | src/engine/client.rs:207-271 | Takes every operation down, publishes once if any was active, and releases all listeners. |
| WalletClientState.WalletClient.ShutdownTurn | src/engine/client.rs:117-150 | One turn of the loop: done, wait for a committed send, or finish. |
| ActivityModel.BeforeOrders | src/engine/provider.rs:256-265 | The display order is a strict total order on rows with different identifiers. |
| ActivityModel.ListingUnique | src/engine/activity.rs:134-147 | The list built from the hash map does not depend on its iteration order. |
| ActivityModel.MergeRefines | src/engine/activity.rs:134-174 | A merge is map override: sorted, one row per identifier, no loaded row lost, the newer row on a clash, growth equal to the number of new identifiers. |
| ActivityModel.LoadDeterministic | src/engine/activity.rs:118-149 | The list, the cursor, and the returned count after a page are determined by the list and the page. |
| ActivityModel.UpdateKeeps | src/engine/activity.rs:118-174 | Loads and refreshes keep the list sorted and duplicate-free; a refresh of a loaded list never moves the cursor. |
| ActivityModel.LoadsTerminate | src/engine/activity.rs:118-174 | From any state and whatever the provider answers, in a run without a refresh of an empty list the loads that leave more to read are at most as many as the cursor's logical time. |
| ActivityModel.RaisesIff | src/engine/activity.rs:151-174 | The cursor moves up exactly by a refresh of an empty list whose page ends above it; a load that leaves more lowers it; a refresh of a loaded list leaves it. |
| ActivityModel.LoadsArePaid | src/engine/activity.rs:118-174 | In every run the loads that leave more are bounded by where the cursor stood and by what refreshes of an empty list added to it. |
| ActivityModel.EmptyListCycles | src/engine/activity.rs:118-174 | For every number there is a run of a new client with that many loads that leave more, which returns to where its first refresh left it: full pages without a row. |
| ActivityModel.RunKeepsOrder | src/engine/activity.rs:118-174 | Every run keeps the list sorted and free of repeated identifiers, and a list with a row never becomes empty. |
| ActivityModel.ActivityList.constructor | src/engine/client.rs:169-171 | The list starts empty and in step with its public image. |
| ActivityModel.ActivityList.SyncActivitySnapshot | src/engine/state.rs:181-193 | The public list is the row-by-row image of the internal one. |
| ActivityModel.ActivityList.MergeRows | src/engine/activity.rs:134-147 | Rebuilding through a map drained in any order yields the merged list. |
| ActivityModel.ActivityList.ApplyActivityPage | src/engine/activity.rs:118-149 | Merges an advancing page and counts new rows; any other page only stops pagination. |
| ActivityModel.ActivityList.ApplyRefreshedActivityPage | src/engine/activity.rs:151-174 | The first page is taken as it is; later refreshes merge and keep the cursor. |
| ActivityCoverage.NextCovers | src/engine/activity.rs:118-174 | Over chain growth, loads, and refreshes, the list holds exactly the rows of the transactions it covers. |
| ActivityCoverage.NewClientCovers | src/engine/activity.rs:118-174 | In every run of a new client the list holds exactly the rows of the transactions it covers. |
| ActivityCoverage.OlderPagesLeaveNoGap | src/engine/activity.rs:118-149 | Loading older pages extends an unbroken run of transactions downwards. |
| ActivityCoverage.RefreshCompleteIff | src/engine/activity.rs:160-174 | A refresh of any loaded list leaves it complete down to its cursor if and only if every transaction with a row between the cursor and the refreshed page was covered before. |
| ActivityCoverage.IncompleteSkips | src/engine/activity.rs:160-174 | A refresh of any loaded list that leaves it incomplete skips a transaction that has a row. |
| ActivityCoverage.RunCompleteIff | src/engine/activity.rs:118-174 | In every run of a new client, over chain growth, loads, and refreshes, the list is complete from its cursor to the last refresh if and only if no refresh of a loaded list stepped over a transaction with a row. |
| ActivityCoverage.BurstSkips | src/engine/activity.rs:118-174 | For every burst of more than a page there is a run of a new client that skips all transactions between the loaded one and the page. |
| ActivityCoverage.SkippedForever | src/engine/activity.rs:118-174 | The rows of a skipped transaction never appear in any continuation. |
| KeyHistory.ParseKeyChangePage | src/engine/key_history.rs:104-138 | A page is refused exactly for a malformed rotation of this wallet and otherwise yields this wallet's successful rotations in order. |
| KeyHistory.KeyChangeHistory | src/engine/encrypted_comment.rs:299-324 | The paging loop collects what the pages up to the first short one hold, or fails with an unreadable page. |
| KeyHistory.UnbrokenFromStart | src/engine/encrypted_comment.rs:299-324 | While the log grows, the rows present at the start are read without a gap. |
| KeyHistory.ShortMeansComplete | src/engine/key_history.rs:61-66 | If the last page was short, nothing older than any row read is missing. |
| KeyHistory.CompleteIff | src/engine/key_history.rs:19-23 | Every row present at the start is read if and only if at some read the log fitted in the pages read up to then. |
| KeyHistory.CachedHistoryComplete | src/engine/encrypted_comment.rs:279-298 | A history that ended on a short page and holds the current key's rotation holds every older rotation at any later time. |
| KeyHistory.OlderReadIff | src/engine/encrypted_comment.rs:299-324 | Everything older than a row present at the start was read if and only if at some read the log fitted in the pages read up to then, full last pages included. |
| KeyHistory.CachedHistoryExact | src/engine/encrypted_comment.rs:279-298 | For every log, failed, foreign, and relayed actions included: the cached history holds every rotation up to a row present at the start if and only if the reads came down to the wallet's oldest rotation. |
| KeyHistory.CachedHistoryAnyRow | src/engine/encrypted_comment.rs:279-324 | The same for a row of any age, one that arrived during the reads included: the history holds every rotation up to it if and only if each stood in a page the loop came to. |
| KeyHistory.UnreadFailuresDoNoHarm | src/engine/key_history.rs:98-138 | Logs of more than a thousand rows that fit at no read and whose history is complete, because the unread rows are failed rotations. |
| KeyHistory.RotationHeldIff | src/engine/encrypted_comment.rs:279-324 | A rotation present at the start is in the history if and only if at some read the log above it fitted in the pages read up to then. |
| KeyHistory.LongHistoryMisses | src/engine/encrypted_comment.rs:279-324 | For every log of more than a thousand rotations the history holds the current one and misses the oldest. |
| KeyHistory.RecoverSigningKeys | src/wallet/key_history.rs:54-80 | The bounded walk recovers what the recursive walk over the rotations defines. |
| KeyHistory.RecoversChain | src/wallet/key_history.rs:47-80 | From a history holding every rotation up to a phrase's key, in any order, the walk recovers exactly the keys between anchor and that key, newest first, for the newest phrase and every stale one. |
| KeyHistory.PagesRecoverKeys | src/engine/encrypted_comment.rs:263-324 | From provider pages to keys, for the newest phrase and every stale one: reads of a growing log that ended short and saw its rotation, or that came down to the first rotation, let the walk recover exactly the keys before it. |
| QueryCodec.AppendEncodedQueryComponent | src/transport/request.rs:106-125 | The loop appends exactly the encoded text. |
| QueryCodec.AppendQuery | src/transport/request.rs:94-100 | The loop appends the separated, encoded pairs. |
| QueryCodec.AppendPath | src/transport/request.rs:89-93 | The loop appends every path segment. |
| QueryCodec.UrlHoldsQuery | src/transport/request.rs:66-103 | Splitting the URL at its first question mark gives the built query. |
| QueryCodec.PercentDecodeOnce | src/domain/ton_transfer_link.rs:311-333 | Decodes every escape once; a broken escape or text that is not UTF-8 is refused. |
| QueryCodec.ComponentRoundTrip | src/domain/ton_transfer_link.rs:311-342 | Decoding an encoded text gives it back with a plus for every space, hence exactly without spaces. |
| QueryCodec.QueryRoundTrip | src/transport/request.rs:89-125 | Splitting a built query at ampersands and first equals signs and decoding once gives the pairs back in order, exactly when they hold no space. |
| QueryCodec.QueryInjective | src/transport/request.rs:104-125 | Two lists of pairs with the same query text are equal. |
| QueryCodec.ParseParameters | src/domain/ton_transfer_link.rs:264-297 | The loop assigns decoded pairs in order and stops at the first error. |
| QueryCodec.ParseBuilt | src/domain/ton_transfer_link.rs:264-297 | Parsing a built query assigns the pairs it was built from. |
| QueryCodec.AssignIff | src/domain/ton_transfer_link.rs:264-297 | Parameters are accepted if and only if every name is supported and none repeats, and then each slot holds its value. |
| TonConnect.IngestConserves | src/ton_connect.rs:473-493 | Requests filed and delivered are filed afterwards or lost, each exactly once. |
| TonConnect.IngestSucceedsIff | src/ton_connect.rs:473-493 | An ingest succeeds if and only if every request decodes and no identifier is taken or repeated, and loses a request exactly when it fails. |
| TonConnect.RestoreUndoesPersist | src/ton_connect.rs:311-328 | Storing and restoring gives back the same pending requests and never fails on a repeated identifier. |
| TonConnect.RunsConserve | src/ton_connect.rs:591-683 | Over every run with restarts, staged posts are the delivered ones in order followed by the pending one, every delivered request is pending, answered, or lost, and every event stream was opened with all posts delivered. |
| TonConnect.NothingLostIff | src/ton_connect.rs:473-493 | A run loses no request if and only if every chunk, when it arrived, decoded and repeated no identifier, pending or its own. |
| TonConnect.RepeatedIdLoses | src/ton_connect.rs:473-493 | A run in which a second chunk repeats a pending identifier and the first request is lost unanswered. |
| TonConnect.SubscribesIff | src/ton_connect.rs:373-381 | After every run an event stream is granted if and only if every post staged so far was delivered. |
| TonConnect.OlderSessionCosts | src/ton_connect.rs:295-328 | Restoring a session stored earlier: the requests pending then and delivered since are exactly those pending now, answered since, or lost since. |
| TonConnect.StoredBeforePosting | src/ton_connect.rs:590-611 | If nothing was staged since the session was stored, restoring it reopens no answered request and at most repeats the one post that was pending. |
| TonConnect.HostRun | src/ton_connect.rs:295-683 | A host that makes any calls on the mutable session and restarts it through storage at will leaves a session that is the one the ledger of those calls defines, and opened as many streams. |
| TonConnect.TonConnectSession.IngestSseChunk | src/ton_connect.rs:473-493 | The loop files requests as the recursive definition, including the partial effects of a failure. |
| TonConnect.TonConnectSession.PrepareResponse | src/ton_connect.rs:621-640 | Answers only a pending request and only when no post is pending. |
| TonConnect.TonConnectSession.StageConnectionEvent | src/ton_connect.rs:446-469 | Stages a connection event only when no post is pending. |
| TonConnect.TonConnectSession.PersistedSession | src/ton_connect.rs:597-611 | The stored list holds every pending request once, sorted by identifier. |
| TonConnect.RestoreSession | src/ton_connect.rs:295-328 | Refiles stored requests and refuses a repeated identifier. |
| NftModel.SameAddresses | src/engine/nft.rs:564-570 | De-duplication keeps every address and adds none. |
| NftModel.FirstOccurrencesDistinct | src/engine/nft.rs:564-570 | No two kept items share an address. |
| NftModel.FoldIsFirstOccurrences | src/engine/nft.rs:534-562 | Applying pages one at a time equals keeping the first occurrence of every address in their concatenation, with the saturated number of raw rows as offset. |
| NftModel.NftList.constructor | src/engine/client.rs:172-173 | The list starts empty at offset zero. |
| NftModel.NftList.ApplyRefreshedNftPage | src/engine/nft.rs:534-539 | Replaces list, offset, and flag by the page's. |
| NftModel.NftList.ApplyNftPage | src/engine/nft.rs:541-562 | Extends the list through a set of seen addresses, advances the offset by raw rows, and returns the growth. |
| Amount.FormatTon | examples/cpp-bindgen/main.cpp:553-567 | The stripping and padding loops print what the digit functions define. |
| Amount.ParseTonAmount | examples/cpp-bindgen/main.cpp:569-609 | For every classification of characters into digits and white space, the checks and loops read what the digit functions define, with every error case. |
| Amount.AmountRoundTrip | examples/cpp-bindgen/main.cpp:553-609 | Under every such classification that knows the ASCII digits: printing with any number of decimals and reading back gives the amount rounded down to them as the shortest digit string, or too large, or not positive, exactly by size. |
| Amount.TooLargeIff | examples/cpp-bindgen/main.cpp:595-598 | The digit limit in numbers: a digit string is too long exactly when its value reaches the power of ten. |

## Left out

- JSON decoding, HTTP execution, retries, and URL base validation: provider answers enter the model already decoded.
- Signing, mnemonics, comment encryption, BOC and TL-B parsing: messages, hashes, and keys are values with equality; the key walk takes the public-key and mask functions as parameters.
- The class `WalletClient` performs send, resolution, listener, and shutdown blocks; list loads and previews exist only as step functions.
- What name lookup, comment encryption, transfer preparation, and previews compute: their blocks, requests, and exits are modelled, their results are not.
- Errors that refuse a call before it touches the state (missing signing secret, invalid request).
- ActivityModel.ActivityList.MergeRows: uses an insertion sort where the source calls the library sort; the result is unique either way.
- Mutex poisoning, secret zeroization, logging, bindings, and the desktop interface.
