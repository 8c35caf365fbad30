# Tessivum agent runtime: a Dafny model

Tessivum runs agents inside one process. Each agent has an inbox, a turn driver and an
approval service; a registry owns the agents, and an HTTP layer lists, exports and streams
their sessions. This project models the parts whose correctness depends on interleaving or on
exact bytes, and proves what they promise over every input and every run.

`dafny verify dfyconfig.toml` checks everything.

- `Inbox.dfy`: the in-memory inbox as a class with three queues, a shared arrival order, a
  reservation set and revision counters. Its abstract value is two queues of items; every verb is
  proved to act on that value as a specification function says.
- `InboxRuns.dfy`, `InboxLaws.dfy`: any number of holders use the inbox concurrently. What a
  reservation may rely on between reserve and commit; conservation; arrival order; one-phase against
  two-phase updates.
- `InboxJournal.dfy`: the inbox beside its durable journal. Messages are journalled and then sent; claims
  and updates are reserved, appended and committed in three steps; the append refuses what does not apply.
  When journal and memory stay together. `JournalLaws.dfy`: what the journal keeps whatever happens.
- `AgentCancel.dfy`: first-wins cancellation on top of the inbox.
- `Registry.dfy`: setup tasks, callers that vanish, accept or abandon, retryable disposal and shutdown.
  `RegistryProgress.dfy`: that setups, disposals and shutdowns get done, and why a setup is given up.
- `Driver.dfy`: the wake, drive and when-idle protocol.
- `Turn.dfy`: one turn as a producer of log events, with bounded steps, retries and one recovery.
- `Approval.dfy`: the fail-closed approval coordinator with its write gate and pending decisions.
  `ApprovalProgress.dfy`: that signals, policy changes and answers take effect.
- `HostApproval.dfy`, `HostApprovalRuns.dfy`: the host's pending browser answers. `HostApprovalProgress.dfy`:
  that an exchange goes through from ask to notice.
- `Zip.dfy`, `Descendants.dfy`, `SessionCursor.dfy`, `SessionPaging.dfy`, `EventStitch.dfy`, `Base64.dfy`:
  the data algorithms of the API layer.

Concurrent components are transition systems: one action per critical section or await point, a
function `Next`, a function `Run` over action lists, an invariant proved for every action, and
theorems about every run. Safety alone would hold of a component that never does anything, so each
also has theorems that it gets its work done, from every state in which the source would. Where the source changes an object under one lock, the same
operation also exists as a class method tied to the function the transition system uses.

Seven findings about the code itself are proved here rather than assumed away:

- A removal reserved at `start` k takes its own message out of the journal exactly when every entry ahead
  of it at its reservation is still in the journal when it is appended; otherwise it takes another one
  (`InboxJournal.RemoveSpliceIsCommit`). `InboxJournal.StaleRemovalDiverges` gives the family of runs: the
  driver journals its claim of the head, the host then reserves and journals the removal of the second
  message, and after both commits memory and journal differ. A stale edit never does this: its append is
  refused and it is dropped. Steers are addressed by id, and claims are always right while journal and
  memory are together.
- Senders outside the host's lock may be overtaken between journalling a message and sending it; journal
  and memory then list the queue in different orders (`InboxJournal.DeliverSync`). Together these are
  all the ways the two can part (`InboxJournal.JournalTheorem`), and a later claim can hide the difference
  again (`InboxJournal.ClaimHeals`).
- `take_step_batch` ignores reservations; `InboxLaws.ReservedStaysPending` says exactly when that breaks
  "reserved implies pending".
- A worker that has left its loop settles everything without looking, so `when_idle` may then answer Ok
  although a wake was never looked at. `Driver.ExitMeansDrained` says exactly when the answer is still
  true; `Driver.DisposedAnswersEarly` is a run of a driver that is disposed directly (an agent cancels the
  token before it disposes its driver). While the worker is in its loop the answer is always true
  (`Driver.IdleMeansDrained`).
- `when_idle` answers Err exactly when an error was recorded after the last wake (`Driver.AnsweredErr`). That
  is not "a claim or turn failed after the last wake": a wake may land between a claim's failure and its
  record (`Driver.LateRecord`), and the answer is then Err although nothing failed since.
- The turn number saturates, so "the next turn is new" holds exactly until the last number is used
  (`Turn.NextTurnIsNew`).
- Projection frames carry stream ids too, so a client that reconnects with the last id it saw never
  misses an event but may see some twice: none exactly when the last frame with an id was an event or
  the projection of the newest event (`EventStitch.ReconnectExact`).

## Model

| member | source | states |
|---|---|---|
| Inboxes.Inbox.Send | src/agent.rs:288-320 | A valid message whose id is not pending is appended to its target and to the arrival order; everything else is refused with the code's error and changes nothing; validity is kept. |
| Inboxes.Inbox.Take | src/agent.rs:335-360 | Removes the head of the target's queue, and its entry in the arrival order, unless it is reserved. |
| Inboxes.Inbox.TakeStepBatch | src/agent.rs:375-399 | Empties the step lane and returns exactly its messages in arrival order, reserved or not. |
| Inboxes.Inbox.ReserveNextTurnClaim | src/agent.rs:406-421 | Reserves the head of the next-turn queue unless it is reserved already. |
| Inboxes.Inbox.ReserveStepBatchClaim | src/agent.rs:423-456 | Reserves the whole step lane in arrival order unless it is empty or any entry is reserved; looking entries up cannot fail. |
| Inboxes.Inbox.Pending | src/agent.rs:458-481 | Lists next-turn entries and then the step lane in arrival order. |
| Inboxes.Inbox.ReserveUpdate | src/agent.rs:483-541 | Reserves exactly an addressed, unreserved message whose edit is valid or whose move is possible; the reservation records the old message, with exactly the new content for an edit, its source and its current start; otherwise not pending or steer unavailable as the code answers, and no queue changes. |
| Inboxes.Inbox.CommitReservation | src/agent.rs:543-602 | Publishes exactly when the reservation and its message are still there: an edit leaves the reserved message in that very place, a removal takes it out, a move appends it to the steers, and everything else stays; the id is released either way. |
| Inboxes.Inbox.CommitClaim | src/agent.rs:604-645 | All-or-nothing: removes the claimed entries from queue, arrival order and reservations when every entry is still claimed and pending, otherwise leaves the queues. |
| Inboxes.RemoveClaimed | src/agent.rs:621-645 | The removal loop ends with each queue equal to the projection of the lane without the claimed ids, without a missing entry on the way. |
| Inboxes.Inbox.AbortClaim | src/agent.rs:647-652 | Afterwards none of the claimed ids is reserved, every other reservation is as before, and no queue changes. |
| Inboxes.Inbox.AbortReservation | src/agent.rs:654-664 | Releases the id and advances the wake counter. |
| Inboxes.Inbox.Update | src/agent.rs:666-727 | One-phase edit, removal or move of an addressed, unreserved message: an edited entry has exactly the given content and its old id, source and position; a moved one ends the steers; every other entry and queue stays. |
| Inboxes.Inbox.Locate | src/agent.rs:2028-2036 | Finds the target and index of an addressable message, and nothing exactly when there is none. |
| Inboxes.Inbox.Clear | src/agent.rs:737-750 | Empties all queues and drops all reservations, unless the queues are empty already: then it returns early and keeps the reservations. |
| Inboxes.TakeKeeps | src/agent.rs:335-360 | Taking from one queue keeps ids distinct and the other projection, and the arrival order stays the order of what is left. |
| Inboxes.HeadFacts | src/agent.rs:375-399 | The head of the arrival order is the head of its own queue, so draining in arrival order pops queue heads. |
| Inboxes.DropProjects | src/agent.rs:666-727 | Removing one id from the lane removes one position of its own projection and leaves the other projection. |
| Inboxes.DropPrefix | src/agent.rs:604-645 | Dropping the ids of a prefix removes exactly that prefix. |
| InboxRuns.TokenStep | src/agent.rs:406-455 | One step of anybody else keeps a held reservation in place unless it sweeps that queue, and a lost one never comes back. |
| InboxRuns.GrantedFacts | src/agent.rs:406-541 | A new reservation is held and shares no id with any outstanding one. |
| InboxRuns.InvRun | src/agent.rs:234-760 | In every run with fresh ids: queues distinct, reservations disjoint, each held or lost. |
| InboxRuns.HeldRun | src/agent.rs:406-455 | Over any stretch of others' steps a reservation is still held exactly when no step swept its queue. |
| InboxRuns.HeldClaimCommits | src/agent.rs:604-645 | Committing a held claim succeeds, removes precisely the claimed prefix, leaves the other queue and hands the messages out. |
| InboxRuns.LostClaimCommits | src/agent.rs:604-616 | Committing a claim that no longer holds changes no queue and hands out nothing. |
| InboxRuns.ClaimTheorem | src/agent.rs:406-652 | From reserve to commit under every interleaving: the claim commits if and only if no clear or whole-lane take swept its queue in between, and then it removes exactly the claimed prefix. |
| InboxRuns.LeavingFacts | src/agent.rs:335-399 | Whatever a step hands out was pending in just that form, and exactly that leaves. |
| InboxRuns.RunsConserve | src/agent.rs:288-360 | In every run each accepted message is pending or has left, never both, and has left at most once. |
| InboxLaws.DrainsInArrivalOrder | src/agent.rs:288-456 | In every run both queues list their entries in arrival order. |
| InboxLaws.ReservedStaysPending | src/agent.rs:375-399 | "Reserved implies pending" survives a step if and only if the step is not a whole-lane take over a reserved entry. |
| InboxLaws.TwoPhaseIsOnePhase | src/agent.rs:483-727 | Reserve then commit with nothing between equals the one-phase update if and only if steering is enabled or the change is not a move the one-phase verb would make. |
| InboxLaws.StartIsCurrent | src/agent.rs:483-541 | The recorded start of a held update is still right if and only if nothing ahead of it left; it can only be too large. |
| InboxLaws.ReservedIsOwned | src/agent.rs:406-664 | In every run every reserved id belongs to an outstanding claim or update, so nothing stays reserved for good. |
| InboxLaws.AbortUndoesClaim | src/agent.rs:647-652 | Aborting a claim just granted gives the inbox back exactly; while it was held exactly its ids were reserved besides the others. |
| InboxLaws.AbortUndoesUpdate | src/agent.rs:654-664 | Aborting an update just reserved gives the inbox back up to the wake counter. |
| InboxLaws.AbortedClaimIsGrantable | src/agent.rs:647-652 | In every invariant state, after a held next-turn claim is aborted the same message can be claimed again. |
| InboxJournal.SpliceFindsOwn | src/host.rs:5117-5145 | While journal and memory are together, an edit or removal finds its own message at its recorded start in the journal if and only if everything ahead of it at its reservation is still in the journal. |
| InboxJournal.AheadOverRun | src/host.rs:5095-5160 | That condition seen from the reservation, over every run in between: everything ahead was in the journal then, and no action took any of it out; what left never returns. |
| InboxJournal.ClaimSpliceIsCommit | src/agent_loop.rs:1240-1262 | A claim's splice (start 0, n removed) applies to the journal and takes out exactly the claimed messages, before its commit in memory. |
| InboxJournal.RemoveSpliceIsCommit | src/session.rs:1201-1265 | A removal applies exactly when its start is in range, then removes the entry at its start; that is its own message, and journal and memory stay together, if and only if everything ahead of it is still journalled; out of range the append fails and the reservation is dropped. |
| InboxJournal.EditSpliceIsCommit | src/session.rs:1201-1265 | An edit applies, to its own message, if and only if everything ahead of it is still journalled, and then that journal entry has exactly the new content in its old place; otherwise the append fails and the edit is dropped. |
| InboxJournal.SteerSpliceIsCommit | src/session.rs:1266-1294 | A steer always applies: its message leaves the next-turn journal queue and joins the step queue. |
| InboxJournal.PublishPlain | src/agent.rs:543-645 | Committing an appended claim, edit or removal neither makes nor breaks the agreement. |
| InboxJournal.PublishSteer | src/agent.rs:543-602 | Committing an appended steer keeps the agreement if and only if nothing journalled earlier for the step queue is still on its way. |
| InboxJournal.DeliverSync | src/host.rs:5013-5028 | Sending a journalled message keeps the agreement if and only if it is the first of its queue still on its way. |
| InboxJournal.RecordSync | src/session.rs:1316-1321 | While they are together, recording a claimed message as a user message removes nothing from the journal. |
| InboxJournal.SyncStep | src/session.rs:598-657 | Every action keeps journal and memory together if and only if it is faithful: no removal applied against its condition, no arrival overtaken. |
| InboxJournal.JournalTheorem | src/session.rs:518-526 | In every run journal and memory stay together throughout if and only if every action was faithful, and then at every quiet point the journal restores exactly what memory holds. |
| InboxJournal.MissedRemovalShows | src/host.rs:5101-5160 | After a removal appended against its condition, once everything appended has committed, the journal is not what memory holds. |
| InboxJournal.StaleRemovalDiverges | src/host.rs:5101-5160 | From every agreeing quiet state with three followups: journal the claim of the head, reserve and journal the removal of the second, commit both; memory still holds everything ahead at that commit, yet the journal loses the third message and keeps the second. |
| InboxJournal.ClaimHeals | src/agent_loop.rs:1240-1262 | A claim over two queues that differ in their only message empties both, so agreement at the end alone does not show that every action was faithful. |
| InboxJournal.DurableInvRun | src/session.rs:598-657 | The bookkeeping of appended, uncommitted and undelivered events is kept in every run, faithful or not. |
| JournalLaws.JournalStaysOk | src/session.rs:1201-1294 | From any journal without repeated ids and invalid messages, every run of enqueues, appends, publications, withdrawals and records leaves it so, faithful or not. |
| JournalLaws.EnqueueThenDeliver | src/host.rs:5013-5028 | A valid new message that is journalled and then sent ends its queue in the journal and in memory, and leaves nothing undelivered. |
| JournalLaws.WithdrawReleases | src/agent.rs:647-664 | Withdrawing an unappended reservation gives its ids back and leaves the journal alone; an appended one cannot be withdrawn. |
| JournalLaws.RecordRemoves | src/session.rs:1316-1321 | Recording a handed-out message takes exactly the entries with its id out of the journal. |
| InboxLaws.ReusedIdStealsClaim | src/agent.rs:543-547 | Why ids must not be reused: after a clear, an old claim commits against a new message with the same id and takes it from its claimant. |
| AgentCancel.FirstWins | src/agent.rs:1593-1687 | A recorded cancellation is never replaced; once a clearing cancellation or disposal has cleared, no later verb or earlier reservation makes the inbox non-empty. |
| AgentCancel.EmptyStays | src/agent.rs:543-652 | No commit, abort or update makes an empty inbox non-empty, whatever its reservation says. |
| AgentCancel.CancelInvStep | src/agent.rs:1593-1734 | Every action keeps the recorded cancellation, the disposed flag and a cleared inbox. |
| AgentCancel.KeepingCancelNeverClears | src/agent.rs:1593-1609 | After a cancellation that keeps the inbox, the inbox changes by nothing but the takes, claims, commits and aborts that were called, in their order. |
| AgentCancel.VerbReaches | src/agent.rs:1611-1700 | While the agent is open every verb reaches its inbox as called, a one-phase move only while the driver runs; afterwards sends and updates are refused and the other verbs still pass. |
| AgentCancel.CancelTakesEffect | src/agent.rs:1593-1609 | Over every later run the first cancellation of an open agent stays on record; unless it keeps the inbox, the inbox is empty once its clear has run, and otherwise it is never cleared. |
| AgentCancel.DisposeTakesEffect | src/agent.rs:1702-1734 | Over every later run a disposed agent stays disposed, with the earlier cancellation or its own, which empties the inbox. |
| AgentCancel.NothingAccepted | src/agent.rs:1611-1631 | Once a cancellation is on record no run accepts another message. |
| AgentCancel.AgentInner.CancelIncludingIdle | src/agent.rs:1593-1609 | Answers true exactly for the first cancellation and clears exactly when that one does not keep the inbox. |
| AgentCancel.AgentInner.Send | src/agent.rs:1611-1631 | A cancelled agent refuses every send; otherwise the inbox decides. |
| AgentCancel.AgentInner.MarkDisposed | src/agent.rs:1702-1734 | Marks the agent and clears unless a cancellation was recorded; repeating it changes nothing more. |
| Driver.IdleMeansDrained | src/agent_loop.rs:802-816 | In every run an Ok answer of when_idle while the worker is in its loop means every wake so far was followed by a claim attempt begun after it that found nothing, and no turn is running. |
| Driver.AnsweredErr | src/agent_loop.rs:802-816 | In every run a checking when_idle caller is answered if and only if the driver is idle, and with Err if and only if a failed turn or a failed claim was recorded after the last wake. |
| Driver.LateRecord | src/agent_loop.rs:876-903 | A run in which the recorded error is of a claim that failed before the last wake, so the condition cannot be stated by failures alone. |
| Driver.AlwaysSettles | src/agent_loop.rs:848-912 | In every run a driver neither cancelled nor disposed can come to idle by its worker's own steps, and has then drained every wake unless an error is recorded. |
| Driver.WaiterReturns | src/agent_loop.rs:802-816 | In every run, once the driver is idle and its notification went out, every caller that has not returned returns at its next look. |
| Driver.RefusesWakes | src/agent_loop.rs:786-800 | After a cancellation or disposal no run takes another wake. |
| Driver.CancelledLeaves | src/agent_loop.rs:848-912 | In every run a cancelled worker can leave by its own steps; it is then idle and nobody is left asleep. |
| Driver.DisposedAnswersEarly | src/agent_loop.rs:818-828 | A run of a driver disposed directly in which an Ok answer is given although its wake was never looked at. |
| Driver.ExitMeansDrained | src/agent_loop.rs:863-911 | In every run an Ok answer after the worker left its loop means drained if and only if nothing was unsettled when it left, or the last attempt before that began after the last wake and found nothing. |
| Driver.UnsettledYetDrained | src/agent_loop.rs:876-888 | A run showing that the second half of that condition is needed. |
| Driver.DrainedProbed | src/agent_loop.rs:876-888 | Every wake of a log is covered if and only if an attempt after the last wake found nothing. |
| Driver.NoLostWake | src/agent_loop.rs:786-912 | In every run a parked worker with unseen wakes has a permit or a waker still about to give one, and a sleeping idle waiter whose answer is due was notified or the worker is about to notify it. |
| Driver.EmptyAttemptCovers | src/agent_loop.rs:848-912 | An empty claim attempt covers every wake the worker had seen when it began. |
| Driver.InvRun | src/agent_loop.rs:848-912 | The driver's invariant holds in every run, including the claim-error path that settles without seeing. |
| Registry.AgentRegistry.Reserve | src/agent.rs:1280-1321 | Answers disposing exactly during a shutdown, else no factory exactly without one, else cleanup failed or duplicate exactly as the entries say, else reserves; after Reserved the session is starting for this task and not live; other sessions' entries and validity are kept. |
| Registry.AgentRegistry.DropReservation | src/agent.rs:931-945 | Afterwards the session is not starting for this task; a stale task changes nothing; other sessions' entries and validity are kept. |
| Registry.AgentRegistry.AcceptSetup | src/agent.rs:1490-1552 | Answers cancelled exactly if cancelled or shutting down, accepted exactly if this task's entry is there and the session is not live; accepting moves the session from starting to live under a generation larger than every live one, and anything else changes nothing; other sessions' entries and validity are kept. |
| Registry.AgentRegistry.RemoveFromRegistry | src/agent.rs:1736-1756 | Afterwards the session is not live under this generation; a stale generation changes nothing; other sessions' entries and validity are kept. |
| Registry.DropUndoesReserve | src/agent.rs:931-945 | Dropping undoes a reservation of the same task exactly, and does nothing to another task's. |
| Registry.RemoveUndoesAccept | src/agent.rs:1736-1756 | Removing an accepted generation takes the session out of both maps; removing any other generation does nothing. |
| Registry.OneRuntime | src/agent.rs:1280-1552 | In every interleaving a session has at most one runtime built and not yet disposed, owned by the starting or by the live entry, never both. (That setups do become live is `RegistryProgress.OfferedBecomesLive`.) |
| Registry.OneLiveAuthority | src/agent.rs:1775-1791 | In every run two authorities of a session that both pass is_live are the same generation; a newer one shuts the older out. |
| Registry.OnlyOwnRemoval | src/agent.rs:1702-1756 | A live entry disappears only by its own agent's removal after a clean disposal. |
| Registry.NeverLost | src/agent.rs:1490-1518 | A setup that still holds its reservation is never told that the reservation was lost. |
| Registry.NothingEnters | src/agent.rs:1285-1288 | While a shutdown is in progress no action adds a starting or live entry. |
| Registry.ShutdownEmptiesRegistry | src/agent.rs:1197-1260 | In every run both maps are empty when a shutdown releases its slot with Ok. |
| Registry.SharedResult | src/agent.rs:1197-1221 | A caller joins the running shutdown, stays with it, and a written result never changes. |
| Registry.ConcurrentCallersShare | src/agent.rs:905-923 | Two overlapping dispose_all calls wait for one shutdown and read one answer, whenever they read it. |
| Registry.InvRun | src/agent.rs:1197-1979 | The ownership invariant holds in every run of setups, drops, cancellations, accepts, disposals and abandonments. |
| RegistryProgress.AbandonedForCause | src/agent.rs:1428-1448 | In every run a built driver is abandoned only if its setup was cancelled, its caller vanished, or its acceptance was refused because of a cancellation or shutdown. |
| RegistryProgress.StoppedNeverLive | src/agent.rs:1428-1518 | From every state: once a setup is cancelled, loses its caller or is found starting by a shutdown, no later run gives it an agent. |
| RegistryProgress.UnwantedIsAbandoned | src/agent.rs:1428-1448 | A built driver nobody wants goes to disposal at its task's next step: before the offer, after its caller is gone, or after its acceptance is refused. |
| RegistryProgress.OfferedBecomesLive | src/agent.rs:1428-1552 | From every state with a built, wanted driver and no shutdown, offer and accept make its session live under a larger generation that passes is_live. |
| RegistryProgress.SetupSucceeds | src/agent.rs:1323-1552 | From every state in which a session can be reserved, reserving, building, offering, accepting and finishing make it live. |
| RegistryProgress.LiveIsReachable | src/agent.rs:1280-1552 | For every session there is a run of a new registry that makes it live. |
| RegistryProgress.AbandonedMakesRoom | src/agent.rs:1958-1979 | A failed cleanup blocks the session and is reported as such; the retried clean one makes it reservable again. |
| RegistryProgress.FailedMakesRoom | src/agent.rs:1323-1427 | A setup that fails before its driver is built makes the session reservable at once. |
| RegistryProgress.DisposeRetries | src/agent.rs:1702-1734 | A failed disposal shuts the authority out, keeps the entry and can be retried. |
| RegistryProgress.DisposeSucceeds | src/agent.rs:1702-1756 | A clean disposal takes exactly its own session out, and the session can be reserved again. |
| RegistryProgress.DisposeAgain | src/agent.rs:1702-1711 | Disposing of an agent already clean succeeds and changes nothing. |
| RegistryProgress.ShutdownSucceeds | src/agent.rs:1197-1260 | From every state in which no setup is under way and every agent can be disposed of, a shutdown ends with Ok and an empty registry. |
| Turn.Session.RunTurn | src/agent_loop.rs:914-1222 | Skipped exactly when cancelled before it starts; Ok after turn start: exactly one start, steps 1..k opened and closed once without nesting, k at most the maximum, one end; all steps but the last let the turn go on, and the reason is aborted when cancelled and otherwise what the last step's cause requires; on failure an open turn and nothing else. |
| Turn.Session.RunStep | src/agent_loop.rs:922-1222 | One step opens once and closes at most once; it goes on exactly after tool calls or a stop with queued messages before the last step, and otherwise ends the turn with the reason its cause requires; the cause is what the provider sent; retries are recorded only under its own key. |
| Turn.Session.Generate | src/agent_loop.rs:1076-1166 | With m retries allowed at most m + 2 attempts, the next retry numbers in order, all attempts but the last failures; recovery happens once if and only if one of those was an overflow compaction could help; it ends with the last attempt's reply, or gives up only on a failure that policy, limit or delay does not let be retried. |
| Turn.Session.ScheduleRetry | src/agent_loop.rs:1783-1867 | Unless an append fails: tries again if and only if a policy permits the failure below its maximum and delay and the agent is not cancelled; then the next number is recorded under its key, and no other key is touched. |
| Turn.Session.Attempt | src/agent_loop.rs:1076-1166 | A reply or the model's abort ends the loop; a failure is seen as a cancellation, recovers from an overflow once, fails with the compaction, or may be retried, exactly as the code branches. |
| Turn.Session.AfterMessage | src/agent_loop.rs:1179-1221 | After tool calls, or a stop with queued messages, the turn goes on, or is blocked at the last step; a stop with nothing queued completes it, an exhausted token limit ends it as such, and a cancelled agent's turn ends aborted. |
| Turn.Session.PriorRetry | src/agent_loop.rs:1797-1807 | The backward scan finds the number of the last retry under the key. |
| Turn.Session.NumberedTurn | src/agent_loop.rs:914-1222 | Over a log whose retries belong to started turns, a new turn's number exceeds all earlier ones and its retries per step are exactly 1..n with n at most the limit. |
| Turn.Session.EndTurn | src/agent_loop.rs:1951-1966 | Appends one end, aborted if the agent is cancelled by then. |
| Turn.Session.ComputeNextTurn | src/agent_loop.rs:1999-2008 | The scan returns the highest recorded number plus one, saturating. |
| Turn.MaxTurnBounds | src/agent_loop.rs:1999-2008 | The scanned number bounds every recorded turn and is one of them. |
| Turn.NextTurnIsNew | src/agent_loop.rs:1999-2008 | The next number exceeds every recorded one if and only if the last representable number is unused. |
| Turn.NoEarlierRetries | src/agent_loop.rs:1783-1867 | A turn number that was never started has no retries in the log. |
| Approval.FindActiveTurn | src/approval.rs:1187-1197 | The loop computes the active turn of the log. |
| Approval.ActiveTurnMeans | src/approval.rs:1187-1197 | A turn is active if and only if it was started and nothing started or ended after. |
| Approval.AskInOrder | src/approval.rs:1168-1185 | The loop computes the waterfall, whose four answers `Approval.WaterfallMeans` characterises. |
| Approval.WaterfallMeans | src/approval.rs:1168-1185 | The first answerer that does not decline decides: allowed if it allows, rejected if it denies, unavailable if it fails or if all decline; each if and only if. |
| Approval.WaterfallAllows | src/approval.rs:1168-1185 | The waterfall allows if and only if some answerer allows and all before it decline. |
| Approval.FailClosed | src/approval.rs:346-468 | In every run AllowedOnce implies: asked logged first under policy Ask, which was the durable policy then; every captured hook passed; the first answerer not to decline allowed; a later check saw it uncancelled, live and in the same turn; the matching decision is logged; nothing else is in its trace. |
| Approval.DecidedMeans | src/approval.rs:346-468 | In every run the decided outcome, any of the four, is the one read off the approval's own trace: cancelled if and only if a cancellation was seen, else rejected for a denying hook, a failed check or policy Never, else the waterfall of its answers; the caller gets what was logged, or Rejected if that failed. |
| Approval.BeginAnswers | src/approval.rs:354-364 | Before anything is asked: unavailable without authority, form or turn, cancelled if it is, and each only then. |
| Approval.EnterAnswers | src/approval.rs:367-375 | Inside the gate: cancelled, or rejected because authority or turn is gone, or asked under the policy and registrations of that moment; each only then. |
| ApprovalProgress.AskFails | src/approval.rs:377-407 | If the asked event cannot be logged the caller is rejected, nothing is logged and the gate is free. |
| ApprovalProgress.AllDeclined | src/approval.rs:1168-1185 | When every registered answerer has declined the approval is decided as unavailable. |
| ApprovalProgress.SignalStops | src/approval.rs:434-450 | From every state: a cancellation or loss of authority before the final check means no later run allows the approval. |
| ApprovalProgress.PolicyTakesEffect | src/approval.rs:269-291 | A logged policy change becomes the policy in memory and the one a restart restores; one that cannot be logged changes nothing; the gate is free afterwards. |
| ApprovalProgress.AlwaysAnswers | src/approval.rs:346-468 | In every run an approval that has the gate free can be brought to its answer by its own steps, leaving every other approval as it was. |
| Approval.AskedThenDecidedOnce | src/approval.rs:365-468 | In every run an approval id is asked at most once, before everything else it logs, and decided at most once, after everything else. |
| Approval.DecisionMatches | src/approval.rs:434-450 | In every run the pending generation of an undecided approval is still there when it decides. |
| Approval.AllowedIsReachable | src/approval.rs:346-468 | For every turn number there is a run in which a fresh service returns AllowedOnce, so the fail-closed theorem is not vacuous. |
| Approval.InvRun | src/approval.rs:268-468 | The gate, policy, trace and generation invariants hold in every run, including policy changes and callers dropped at any await. |
| HostApproval.HostApprovalRegistry.Install | src/approval.rs:725-763 | Installs only a live, matching owner into a free slot. |
| HostApproval.HostApprovalRegistry.Respond | src/approval.rs:813-846 | Accepted if and only if the outcome is allowed once or rejected, the request waits and is not expired, session and approval match and the answer was delivered; bad response exactly for another outcome or a mismatch; exactly a matching waiting request is claimed. |
| HostApproval.HostApprovalRegistry.RegisterPending | src/approval.rs:937-990 | Registers if and only if the request names the owner's session and a tool, the slot holds this live generation and there is room; then exactly that entry is added, with a sender; says whether the asked event was relayed before. |
| HostApproval.HostApprovalRegistry.Find | src/approval.rs:854-858 | Finds the first matching request in id order, and nothing exactly when there is none. |
| HostApproval.HostApprovalRegistry.RememberRelayedAsked | src/approval.rs:1110-1120 | The eviction loop ends with the newest keys within the limit and the new one last, without duplicates, and the set equal to the queue's contents; a known key changes nothing. |
| HostApproval.HostApprovalRegistry.ObserveAsked | src/approval.rs:849-866 | Remembers the key and returns the waiting request to announce. |
| HostApproval.HostApprovalRegistry.ClaimTimeout | src/approval.rs:992-1000 | Claims exactly the request with the smallest id for the approval and drops its sender; every other request stays. |
| HostApproval.HostApprovalRegistry.RemoveEntry | src/approval.rs:869-892 | Removes one request and says whether it was there. |
| HostApproval.HostApprovalRegistry.CancelPending | src/approval.rs:1122-1134 | Claims every selected unclaimed request, cancels exactly their tokens and leaves the rest. |
| HostApproval.ClaimMatching | src/approval.rs:1122-1134 | The loop claims exactly the selected unclaimed requests, whatever the order. |
| HostApproval.HostApprovalRegistry.Close | src/approval.rs:1035-1060 | Removes exactly its own slot, and then claims exactly its generation's waiting requests; otherwise changes nothing. |
| HostApprovalRuns.AcceptedOnce | src/approval.rs:813-846 | In every run each request is accepted at most once, has a sender exactly while unclaimed, requests stay within the limit, and the relayed set is its duplicate-free bounded queue. |
| HostApprovalRuns.AnnouncedOnce | src/approval.rs:849-988 | In every run a request is announced at most once if its asked event was relayed once, and exactly once while it is unclaimed, alone for its approval and still remembered. |
| HostApprovalRuns.ResolvedOnce | src/approval.rs:869-892 | In every run a request is resolved at most once, with one outcome, and only after it left the table. |
| HostApprovalRuns.PendingIsOwned | src/approval.rs:957-980 | In every run an answerable request's generation is installed or is being closed at that moment. |
| HostApprovalRuns.CloseRevokes | src/approval.rs:1035-1060 | Once close has returned true no unclaimed request of that generation exists, and none appears until that generation is installed again. |
| HostApprovalRuns.NothingAfterClose | src/approval.rs:1035-1060 | The same from any point between slot removal and revocation, under every interleaving. |
| HostApprovalRuns.InvRun | src/approval.rs:725-1134 | All registry invariants hold in every run. |
| HostApprovalProgress.InstallThenClose | src/approval.rs:725-763 | From every state a live owner gets a free slot, and its close frees exactly that slot again through all its steps. |
| HostApprovalProgress.InstallRefused | src/approval.rs:725-763 | A dead or foreign owner, or a taken slot, changes nothing. |
| HostApprovalProgress.Accepts | src/approval.rs:813-846 | A delivered answer in time, either way, to a waiting request is accepted and recorded once. |
| HostApprovalProgress.Resolves | src/approval.rs:869-892 | The relayed decision removes its request and its notice gets out. |
| HostApprovalProgress.Exchange | src/approval.rs:813-990 | From every state in which an owner may ask: registering, answering and resolving leave only the record of the answer and one notice. |
| HostApprovalProgress.CancelTakesHold | src/approval.rs:1122-1134 | A cancellation claims exactly the waiting requests of its generation, session or turn and cancels exactly their tokens. |
| HostApprovalProgress.TimeoutTakesHold | src/approval.rs:992-1000 | A timeout claims the first request of its approval and nothing else. |
| Zip.SplitJoins | src/api.rs:2257-2266 | The path segments contain no slash and make up the path again. |
| Zip.SafePathMeans | src/api.rs:2257-2266 | A path is accepted if and only if it has no backslash and no control byte and no stretch between slashes is empty, one dot or two dots, stated by positions in the path. |
| Zip.StoredZip | src/api.rs:2350-2418 | Succeeds if and only if the count, every safe path and the total size fit, and then writes the archive the format lays out, within the limit. |
| Zip.WriteLocals | src/api.rs:2354-2380 | The first loop writes the local records and indexes each at the offset where it begins; no conversion truncates. |
| Zip.WriteCentrals | src/api.rs:2382-2405 | The second loop writes one directory record per indexed entry and refuses only what cannot fit. |
| Zip.FittingIsShort | src/api.rs:2359-2361 | Whatever fits the archive has sizes that fit their header fields. |
| Zip.RoundTrip | src/api.rs:2350-2426 | Reading the end record, the directory and each local header at its offset recovers every path, size, checksum and content in order. |
| Zip.ArchiveInjective | src/api.rs:2350-2426 | Two accepted entry lists with one archive are equal. |
| Descendants.FileChildren | src/api.rs:2109-2117 | The first loop groups records by parent in list order. |
| Descendants.SortChildren | src/api.rs:2118-2120 | The second loop leaves each group sorted by creation time and id, a permutation of itself. |
| Descendants.KidsInOrder | src/api.rs:2118-2120 | Of two siblings the earlier in the list is older, or as old with the smaller id. |
| Descendants.ExportDescendants | src/api.rs:2102-2135 | Terminates on every parent graph; succeeds if and only if the list is within the limit and no id below the root occurs twice and the root is not below itself; the result is duplicate-free, exactly the proper descendants, parents first, depth first. |
| Descendants.UniqueTangle | src/api.rs:2102-2135 | With unique ids only the root's own ancestor cycle makes it fail. |
| Descendants.WalkSplits | src/api.rs:2121-2133 | Everything below an earlier sibling is listed before the next sibling. |
| Descendants.WalkUnique | src/api.rs:2121-2133 | The listing order is determined. |
| SessionCursor.CompatHex | src/api.rs:4328-4336 | The loop computes the hexadecimal form. |
| SessionCursor.HexAt | src/api.rs:4328-4336 | Byte i becomes its high and then its low digit out of 0-9a-f. |
| SessionCursor.HexInjective | src/api.rs:4328-4336 | Different bytes have different hexadecimal forms. |
| SessionCursor.ParseExactly | src/api.rs:4263-4296 | Parsing accepts exactly the canonical strings and inverts printing. |
| SessionPaging.SizeSplits | src/api.rs:4235-4254 | The serialized response is the empty response plus the rows and the commas between them. |
| SessionPaging.FillPage | src/api.rs:4202-4225 | The saturating byte count equals the exact response size with the cursor of that row; the loop stops at the first row that does not fit and fails only if it is the first. |
| SessionPaging.SessionList | src/api.rs:4180-4233 | Limit, cursor and size errors in the code's order, otherwise the greedy page with its next cursor. |
| SessionPaging.PageFits | src/api.rs:2720-2743 | No page exceeds the frame limit, so none is replaced by the overflow error. |
| SessionPaging.PageIsFull | src/api.rs:4200-4225 | A page holds consecutive sessions from its start, at most as many as the limit, and fewer only at the end of the list or before a row that does not fit; every shorter page fits. |
| SessionPaging.ListFails | src/api.rs:4180-4219 | Fails exactly for a bad limit, else a bad cursor, else a first row that does not fit alone, with that error. |
| SessionPaging.CursorHonoured | src/api.rs:4298-4319 | A cursor text is honoured with start i + 1 if and only if it is the printed cursor of session i of this very list. |
| SessionPaging.CursorRefused | src/api.rs:4298-4319 | Malformed, stale and unknown-session cursors are told apart, each if and only if. |
| SessionPaging.Defaults | src/api.rs:4185-4199 | No cursor means the first session, no limit means 100, and limits of 0 and 501 are refused. |
| SessionPaging.PageAdvances | src/api.rs:4202-4233 | A next cursor exists exactly before the end, and starts where its page ended. |
| SessionPaging.FollowAll | src/api.rs:4180-4319 | Following cursors on an unchanged list ends and returns every session once in order, unless a row does not fit even alone. |
| EventStitch.SseEvents | src/api.rs:7375-7470 | The two loops emit what the step functions say, one event or signal after the other. |
| EventStitch.NoGapNoRepeat | src/api.rs:7351-7481 | In every interleaving the emitted session events are the log from the requested number on, increasing by one, even after lag, oversize or shutdown cut the stream. |
| EventStitch.NothingLost | src/api.rs:7369-7374 | An open stream that has received all a caught-up host relayed has emitted the whole suffix. |
| EventStitch.OutputExact | src/api.rs:7375-7471 | In every run an open stream has emitted one frame for each event of its history and then, in order, one for each notice received since it subscribed: every event not in that history, every projection, status and subagent notice; a cut stream a beginning of that and at most one error frame. |
| EventStitch.PlainsExact | src/api.rs:7417-7445 | In every run an open stream has emitted exactly as many plain frames as it received status and subagent notices. |
| EventStitch.CutShows | src/api.rs:7375-7471 | Oversize and lag end the stream with an error frame, a shutdown without one. |
| EventStitch.HostRelays | src/api.rs:7369-7374 | The host can put every kind of notice at the end of the channel. |
| EventStitch.CutIsFinal | src/api.rs:7464-7471 | A cut stream never changes again. |
| EventStitch.ReconnectSkipsNothing | src/api.rs:7483-7499 | Reconnecting with the last id seen never skips an event. |
| EventStitch.ReconnectExact | src/api.rs:7483-7499 | In every run reconnecting with the last id seen resumes at or before the first event not emitted, and exactly there if and only if the last frame with an id is an event, or a projection of the newest event emitted (before the first event: of the event just before the requested ones). |
| EventStitch.ReconnectMayRepeat | src/api.rs:7408-7416 | A run in which that condition fails: an older projection follows the history, and reconnecting repeats an event. |
| Base64.EncodeBase64 | src/api.rs:5450-5473 | The chunk loop computes the encoding. |
| Base64.AlphabetExact | src/api.rs:5450-5451 | The encoder's symbols are the 64 characters A-Z, a-z, 0-9, plus, slash in that order, and the decoder gives exactly a character's place in it. |
| Base64.EncodedAt | src/api.rs:5452-5473 | Symbol i stands for bits 6i to 6i + 5 of the input, highest bit of each byte first, with zeros after the end, and is a pad exactly when all of them lie after the end. |
| Base64.EncodedLenExact | src/api.rs:2712-2718 | The predicted length is the encoded length for every slice, and in general if and only if that fits 64 bits. |
| Base64.ReadGroup | src/attachments.rs:224-247 | The slot loop accepts exactly the well-formed groups, counts their padding and yields their six-bit values. |
| Base64.DecodeBase64 | src/attachments.rs:213-256 | The group loop computes the decoding. |
| Base64.RoundTrip | src/attachments.rs:213-256 | Decoding an encoding returns the bytes for every non-empty string; the empty one is refused. |
| Base64.AcceptsExactly | src/attachments.rs:213-240 | Accepted are exactly the non-empty texts of whole groups whose at most two pads end the last group. |
| Base64.Reencodes | src/attachments.rs:241-250 | Encoding a decoded text gives it back if and only if its unused pad bits are zero. |

## Left out

- HTTP and WebSocket routing, JSON decoding, authority headers and error texts: plumbing without hard properties.
- Session storage: appends are atomic and succeed or fail; sequence numbers are log positions.
- Provider streaming, compaction, tool execution, skills and prompt assembly: inputs or arbitrary outcomes in `Turn`, as is whether next-step messages are queued when a reply has been handled; the ordering inside `run_tools` is not modelled.
- Turn.Session.Generate: models policies with a fixed number of retries; the policy that always retries has no attempt bound and is not modelled.
- Counter wrap-around: revisions and generations are natural numbers; the 64-bit wrap to 1 is not modelled. Turn numbers and encoded lengths are bounded as in the code.
- Id reuse: runs assume that message ids are not reused; `InboxLaws.ReusedIdStealsClaim` shows why. Request ids are fresh.
- InboxJournal.JournalTheorem: covers sessions whose messages are all journalled before they are sent, as the host, jobs, schedules and goals do; child sessions journal no messages and take no queue updates. Clearing the inbox, the one-phase update and the plain takes do not journal and are not among its actions. A persistence failure leaves nothing behind.
- Turn.Session.OthersAppend: other writers of a session append neither turn or step brackets nor retries.
- Liveness: nothing says that a blocked followup is picked up later; committing an edit or a removal does not wake the driver, and the counter an aborted reservation advances is not the one the driver reads.
- Clocks, randomness, SHA-256 and CRC-32: parameters. Serialization failures of session rows cannot occur in the model.
- SessionPaging.PageFits: takes the quoted request id to be at most 258 bytes, which the request check ensures; listing failures of the host are not modelled.
- EventStitch.NoGapNoRepeat: sequence numbers are natural numbers, so the saturating increment at the last 64-bit number is not modelled.
- Descendants.ExportDescendants: refers to a record by its index and to ids by numbers; string comparison is not modelled.
- Zip.StoredZip: works on the UTF-8 bytes of a path.
- Approval.FailClosed: the cancelled, live and active-turn checks are one snapshot, where the source reads them one after another; an append that fails is taken to leave nothing in the log; a malformed turn number in a start event is not modelled.
- HostApproval.HostApprovalRegistry.Respond: whether the waiting side is still there is an input.
- Subagents, jobs, questions, remote access, themes, built-in tools, agent modes and image inspection: not part of this model.
