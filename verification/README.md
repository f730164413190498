# OpenFlows coordination logic, modelled and proved in Dafny

OpenFlows drives coding agents: a controller (NEXUS) binds tickets to worker slots, provisions workspaces
and chats through remote services, hands finished work to reviewing agents (SENTINEL), monitors pull
requests (VESSEL) and records changes (LORE). Its hard part is coordination: read-modify-write protocols
over a shared store against services that can fail, or lose a reply, at every call.

Each protocol is a transition system whose step function is total: an action whose guard does not hold
leaves the state alone. A run is a fold over a list of actions, so a statement about every action list is a
statement about every interleaving, failure and restart. Objects whose methods update fields are classes
whose methods are proved against functions of their old state, and loops are loops with invariants.

| module | what it holds |
|---|---|
| `Text` | lines, trimming, decimal numbers and substring search, as Rust's standard library defines them |
| `TokenRotation` | the shared access and refresh token, and the retry after a 401 |
| `ReviewerSession`, `ReviewerPoll` | the lease-protected conversation with SENTINEL, one step per store access or remote call; what one poll brings about |
| `ReviewerOwnership` | which sentinel slot takes a ticket, and when it may change |
| `ReviewNamespace` | the names under which NEXUS stores review chats and SENTINEL looks for them |
| `NotifyOnce` | plan approvals and rejections reported to FORGE |
| `Lifecycle`, `LifecycleProgress` | the ticket lifecycle with its plan, testing, review and merge gates; what it always lets happen |
| `Fleet`, `Scheduler`, `SchedulerEffects`, `Assignment` | tickets and slots; orphan recovery, detection, decision and commit; what they do to each ticket and slot; exclusive assignment |
| `Provisioning` | managed workspaces under persisted idempotency keys |
| `ReworkDelivery`, `ReworkAttempts` | persisted rework directives and their delivery through the Manager |
| `Recovery` | the shared recovery counter and the escalation to a human |
| `PendingPrs` | the pending-PR synchroniser |
| `ReviewGate`, `ReworkLoop` | the merge gate of the PR monitor, and the loop of feedback and rework around it |
| `Directive` | the rework directive written by VESSEL and read by NEXUS |
| `Changelog`, `ChangelogFallback` | the line-by-line changelog editor, and its second fallback on lines |
| `LineLimits` | the parser of changed files and the grandfathering rule of the line limit |

## Model

| member | source | states |
|---|---|---|
| `TokenRotation.RuntimeTokens.RefreshIfNeeded` | crates/agent-nexus/src/runtime_control.rs:131-158 | under the lock: succeeds if and only if the rejected token is no longer current or a new pair is granted; the pair changes to the granted one exactly in the second case, and the held refresh token goes out exactly if the rejected token is current |
| `TokenRotation.ExchangedAtMostOnce` | crates/agent-nexus/src/runtime_control.rs:117-182 | for every interleaving of any number of calls: once the reply to an exchange arrived, neither its refresh token nor the rejected access token behind it is exchanged again |
| `TokenRotation.AtMostTwoRequests` | crates/agent-nexus/src/runtime_control.rs:160-182 | a call sends at most two requests, and the second carries a token different from the rejected one |
| `TokenRotation.StaleRejectionNeverExchanges` | crates/agent-nexus/src/runtime_control.rs:131-158 | in every reachable state a call is at the refresh endpoint, whatever the answer, only with the lock and a rejected token that is still current, and what an exchange puts on the wire is the pair of that moment |
| `TokenRotation.NoDeadlock` | crates/agent-nexus/src/runtime_control.rs:117-182 | while a call has not returned, it or the holder of the lock can move |
| `TokenRotation.StepMovesOn` | crates/agent-nexus/src/runtime_control.rs:160-182 | every step leaves a call alone or brings the stepping call strictly closer to its end |
| `TokenRotation.LostReplyRepeatsToken` | crates/agent-nexus/src/runtime_control.rs:131-158 | a refresh token can reach the server twice when a reply is lost, so the condition of the first law is needed |
| `TokenRotation.FirstRequest` | crates/agent-nexus/src/runtime_control.rs:167-178 | a new call sends one request with the current token, and only a 401 keeps it from returning |
| `TokenRotation.GrantedCallIsResent` | crates/agent-nexus/src/runtime_control.rs:131-182 | in every state with a free lock, a call rejected with the current token that is granted a fresh pair makes that pair current and sends its request again with the new token |
| `TokenRotation.StaleCallIsResent` | crates/agent-nexus/src/runtime_control.rs:131-182 | a call whose rejected token is no longer current sends again with the current one and exchanges nothing |
| `TokenRotation.OneExchangeServesAll` | crates/agent-nexus/src/runtime_control.rs:131-182 | of two calls rejected with the same token, one exchanges and both go on with the new token |
| `TokenRotation.FailedRefreshEndsCall` | crates/agent-nexus/src/runtime_control.rs:138-154 | a refused refresh or a lost reply ends the call after its one request and keeps the pair |
| `TokenRotation.SecondAnswerIsFinal` | crates/agent-nexus/src/runtime_control.rs:175-177 | the answer to the second request is returned, a 401 included |
| `TokenRotation.NothingSentDuringExchange` | crates/agent-nexus/src/runtime_control.rs:122-134 | while a refresh holds the lock, no call reads the token or starts another refresh |
| `ReviewerSession.OneLiveChatPerTicket` | crates/agent-nexus/src/lib.rs:4518-4609 | from an empty store, for any pollers, failures and interleavings under the lease, a ticket never has two existing unarchived chats |
| `ReviewerSession.CreatesOnlyReplacements` | crates/agent-nexus/src/lib.rs:4562-4609 | a chat is created only when no session is recorded and every earlier chat of the ticket is archived or gone |
| `ReviewerSession.ArchivesOnlyQuiesced` | crates/agent-nexus/src/lib.rs:4562-4609 | over every run in which only pollers archive, each archived chat had been read as inactive or gone by a poller, and was archived by a poll that wanted another workspace than the chat's own |
| `ReviewerSession.LiveSessionIsNeverLost` | crates/agent-nexus/src/lib.rs:4518-4609 | no step changes or deletes the session key of a live chat, whatever call fails |
| `ReviewerSession.RoundFollowsDelivery` | crates/agent-nexus/src/lib.rs:4518-4609 | over every run, whenever a round key names a chat, that chat was created for the ticket in the workspace of a poll of that round, and got the request of that round at its creation or as an accepted message |
| `ReviewerSession.MessagesOnlyAtRest` | crates/agent-nexus/src/lib.rs:4587-4597 | over every run, a request is sent as a message only to a chat of the poll's workspace that was read as inactive; that such a chat does get it is `ReviewerPoll.RestingChatGetsTheRound` |
| `ReviewerSession.SuccessBindsBothKeys` | crates/agent-nexus/src/lib.rs:4518-4609 | a poll that succeeds leaves session key and round key naming the chat it returns |
| `ReviewerSession.ReachesCreation` | crates/agent-nexus/src/lib.rs:4535-4561 | for any listing of older rounds, a poll adopts the first chat that exists in its workspace, and gets to creating a new one exactly when there is none |
| `ReviewerSession.LostCreateDuplicates` | crates/agent-nexus/src/lib.rs:4595-4609 | from an empty store, a creation whose reply is lost leaves a second live chat at the next poll, so the assumption on creation is needed |
| `ReviewerPoll.RestingChatGetsTheRound` | crates/agent-nexus/src/lib.rs:4587-4598 | for every store, an undisturbed poll whose chat is at rest in its workspace ends with that chat, which got the request, named by session and round key; no chat is created |
| `ReviewerPoll.WorkingChatIsLeftAlone` | crates/agent-nexus/src/lib.rs:4588-4594 | a chat still working in the workspace becomes the session, gets nothing, and the poll ends without result |
| `ReviewerPoll.FirstChatIsCreated` | crates/agent-nexus/src/lib.rs:4604-4609 | with no recorded and no usable chat, the poll creates one with the request and both keys name it |
| `ReviewerPoll.GoneChatIsReplaced` | crates/agent-nexus/src/lib.rs:4599-4609 | a recorded chat that is gone is replaced by a created one that gets the request and both keys |
| `ReviewerPoll.MovedChatIsReplaced` | crates/agent-nexus/src/lib.rs:4563-4586 | a chat at rest in another workspace is archived and replaced by a created one that gets the request and both keys |
| `ReviewerPoll.MovedWorkingChatIsKept` | crates/agent-nexus/src/lib.rs:4566-4579 | one that still works after its interruption leaves chats, keys and requests as they were |
| `ReviewerPoll.StoppedChatIsReplaced` | crates/agent-nexus/src/lib.rs:4566-4586 | one that stops when interrupted is archived and replaced in the same poll |
| `ReviewerPoll.FailureEndsPoll` | crates/agent-nexus/src/lib.rs:4525-4609 | a remote call that fails, or pending workspace instructions, end the poll and change nothing else |
| `ReviewerPoll.LeaseIsTakenAndGivenBack` | crates/agent-nexus/src/lib.rs:2216-2234 | a poll starts exactly when nobody holds the lease of its ticket, and its end gives the lease back |
| `ReviewerOwnership.SelectionIsExact` | crates/agent-nexus/src/lib.rs:4481-4510 | for any iteration order: fails exactly when no sentinel is bound to the ticket or idle; a bound one wins, then the idle pair; a slot busy on another ticket is never returned |
| `ReviewerOwnership.OneReviewerPerTicket` | crates/agent-nexus/src/lib.rs:2475-2656 | over every run of picks, whole-map reads and whole-map writes by any controllers, a ticket has at most one bound sentinel and a pending pick agrees with it, as long as every write is up to date as in the next row |
| `ReviewerOwnership.WriteIsSoleIff` | crates/agent-nexus/src/lib.rs:2646-2656 | a write of a copy read earlier keeps this if and only if, apart from slots it takes away, the copy shows no sentinel on a leased ticket other than the picked one |
| `ReviewerOwnership.StaleWriteDoubles` | crates/agent-nexus/src/lib.rs:4101-4279 | every other write gives some ticket two bound sentinels, at once or when the holder of its lease binds its pick |
| `ReviewerOwnership.StaleRecoveryDoubles` | crates/agent-nexus/src/lib.rs:4101-4279 | a copy kept across remote deletions, while another controller releases the sentinel and picks a new one, does so |
| `ReviewerOwnership.ReviewerIsReselected` | crates/agent-nexus/src/lib.rs:4481-4510 | the bound sentinel is returned by every later selection, in any order and with the pair idle |
| `ReviewerOwnership.BindIsHarmlessIff` | crates/agent-nexus/src/lib.rs:2646-2656 | a binding leaves all other pending picks on free slots if and only if no other ticket picked the same slot and the written copy shows no other picked slot busy |
| `ReviewerOwnership.ReviewerStaysUntilReleased` | crates/agent-nexus/src/lib.rs:2475-2656 | with one controller, which never writes a stale copy, a ticket has one sentinel and no step of any run moves a busy sentinel to another ticket before it is released |
| `ReviewerOwnership.TwoControllersDisplace` | crates/agent-nexus/src/lib.rs:2216-2234 | the lease is per ticket, so two controllers can pick one idle sentinel and the second binding takes it over |
| `ReviewerOwnership.AbandonedTicketPicksAgain` | crates/agent-nexus/src/lib.rs:4481-4510 | a ticket whose pick was given up gets whatever selection finds then |
| `Fleet.PairIsSentinel` | crates/agent-nexus/src/lib.rs:4444-4475 | the slot paired with a forge slot always has the role sentinel |
| `Fleet.PairHasSameNumber` | crates/agent-nexus/src/lib.rs:4444-4475 | for every 32-bit number, forge-i is paired with sentinel-i |
| `ReviewNamespace.SentinelWatchesRequested` | crates/agent-sentinel/src/lib.rs:73-92 | the name NEXUS requests a review under is the one SENTINEL watches; in every reachable lifecycle a request is made exactly in a review phase, in submission only with a recorded and undecided PR |
| `ReviewNamespace.NameIdentifiesReview` | crates/agent-nexus/src/lib.rs:2316-2323 | two lifecycles share a name if and only if phase, revision, round and head (with its default) agree, even for heads with colons |
| `ReviewNamespace.NamesAreNotReused` | crates/agent-nexus/src/lib.rs:2718-2722 | once a review phase is left, no later review of the ticket gets the same name |
| `ReviewNamespace.NameFormat` | crates/agent-sentinel/src/lib.rs:73-92 | the name is kind, revision, head and round joined by colons, with one kind for each review phase |
| `NotifyOnce.SentAtMostOnce` | crates/agent-nexus/src/lib.rs:2967-3044 | in every run of polls under the lease, each approval and each rejection (revision, round) is successfully sent at most once |
| `NotifyOnce.SentOnlyWhenPhaseMatches` | crates/agent-nexus/src/lib.rs:2967-2972 | a notice is sent only for a lifecycle read after the polled phase, in the same phase, that calls for exactly this notice |
| `NotifyOnce.RetriedUntilSent` | crates/agent-nexus/src/lib.rs:2978-3044 | while a notice is due and unsent, the next undisturbed poll sends it, and it counts as sent, or as lost, exactly as that send went; what is due is given by the next two rows |
| `NotifyOnce.VerdictIsReported` | crates/agent-nexus/src/lib.rs:2967-3044 | in every run, once SENTINEL approves or rejects the plan under review, or SENTINEL or a human rejects the tested head or the pull request, the next undisturbed poll sends FORGE that approval or rejection, for that revision and round, and nothing else |
| `NotifyOnce.ApprovalIsReportedOnce` | crates/agent-nexus/src/lib.rs:2976-3015 | in every run, a poll of a building ticket without feedback reports the approval of its plan under the round it was given in, unless that was sent before; rework does not repeat it |
| `NotifyOnce.OtherwiseSilent` | crates/agent-nexus/src/lib.rs:2967-3044 | in every other phase, and while FORGE has no chat, a poll sends nothing |
| `Lifecycle.MergeHasFullApprovalChain` | crates/config/src/lifecycle.rs:173-492 | in every run a gated merge succeeds only for a candidate with an approved plan, an approved and verified test and both PR approvals, all of this revision, head and round |
| `Lifecycle.GatesHold` | crates/config/src/lifecycle.rs:173-470 | building needs an approved plan of the current revision; submission needs a test approval and a verification of exactly the recorded head |
| `Lifecycle.PendingMergeFreezesCandidate` | crates/config/src/lifecycle.rs:173-470 | over every run from a pending merge, nothing at all changes until it ends, and then the candidate and every decision about it are those it began with |
| `Lifecycle.CountersOnlyGrow` | crates/config/src/lifecycle.rs:173-470 | over every run version, revision and round never decrease, and a finished ticket never changes |
| `Lifecycle.NextReviewIsLaterRound` | crates/config/src/lifecycle.rs:173-470 | after leaving a review phase, any later review phase has a strictly larger round |
| `LifecycleProgress.EveryTicketCanFinish` | crates/config/src/lifecycle.rs:173-492 | from every state that is not finished, a pending merge included, some events take the ticket through planning, building, testing, publication, both reviews and the merge of any given work, and the finished record names exactly that plan, head, pull request and merge |
| `LifecycleProgress.PlanIsApproved` | crates/config/src/lifecycle.rs:200-389 | uploading, handing in and approving a plan leads to building, with the exact record |
| `LifecycleProgress.HeadIsTested` | crates/config/src/lifecycle.rs:211-402 | handing in, verifying and approving a head leads to submission, with the exact record |
| `LifecycleProgress.PrIsApproved` | crates/config/src/lifecycle.rs:299-423 | SENTINEL's approval, its delivery and a human's approval are recorded for the current round, head and pull request |
| `LifecycleProgress.ApprovedIsMerged` | crates/config/src/lifecycle.rs:424-456 | such a candidate can be merged |
| `LifecycleProgress.RejectionSendsBack` | crates/config/src/lifecycle.rs:299-389 | every rejection clears the work, keeps the report as feedback and goes back to the plan or to building; a human's veto withdraws a waiting delivery |
| `LifecycleProgress.ReplanningClearsAll` | crates/config/src/lifecycle.rs:211-287 | FORGE can replan from every phase but the last; plan, approvals, work and feedback are gone and the counters stay |
| `LifecycleProgress.ReworkKeepsPlan` | crates/config/src/lifecycle.rs:211-287 | FORGE and VESSEL can take tested or submitted work back to building, with the plan and its approval kept |
| `LifecycleProgress.BlockingClearsApprovals` | crates/config/src/lifecycle.rs:288-298 | anybody can block with a reason; work and approvals are gone and the plan stays |
| `LifecycleProgress.SentinelStopsTest` | crates/config/src/lifecycle.rs:211-287 | SENTINEL can block a ticket in testing |
| `LifecycleProgress.HumanTestApprovalIsNoted` | crates/config/src/lifecycle.rs:299-389 | a human's approval in testing is recorded and moves nothing |
| `LifecycleProgress.SeenMergeFinishes` | crates/config/src/lifecycle.rs:435-444 | a merge seen on GitHub finishes the ticket from every phase |
| `LifecycleProgress.OnlyItsActor` | crates/config/src/lifecycle.rs:173-470 | every accepted event came from an actor with the authority for it, spoke about the current phase, round and revision, and gave a report, reason, plan or task where one is needed |
| `Scheduler.Controller.RecoverOrphans` | crates/agent-nexus/src/lib.rs:4101-4279 | both loops and the skipped writes leave the recovered store, which the rows of `SchedulerEffects` give ticket by ticket and slot by slot |
| `SchedulerEffects.RecoveryResetsOnlyOrphans` | crates/agent-nexus/src/lib.rs:4108-4138 | recovery sets a ticket to Open exactly if it is assigned or in progress with a worker that has no slot; every other ticket stays as it is, in place |
| `SchedulerEffects.RecoveryFreesExactly` | crates/agent-nexus/src/lib.rs:4140-4270 | said of the store before recovery: a slot becomes idle and empty exactly if its ticket is done or over, or, for a busy slot, Open or without its worker, and its workspace could be deleted; every other slot stays as it is |
| `SchedulerEffects.RecoveryKeepsHealthyWork` | crates/agent-nexus/src/lib.rs:4108-4270 | a busy slot and its ticket stay as they are while the ticket is not done and is assigned or in progress with an existing slot |
| `Scheduler.Controller.Post` | crates/agent-nexus/src/lib.rs:6049-6228 | recovery on every pass, then the assignment of ticket and slot |
| `Scheduler.Controller.ReleaseWorkerSlot` | crates/agent-nexus/src/lib.rs:4815-4853 | frees the slot exactly unless it is missing or idle and empty, the deletion fails or a replacement workspace arrived meanwhile; other slots keep what was read after the deletion |
| `Scheduler.Reconcile` | crates/agent-nexus/src/lib.rs:4345-4413 | reports exactly the assigned or running tickets whose worker has no slot or an idle one, the busy slots whose ticket is gone or whose first ticket of that id is over, and the suspended slots whose ticket is over |
| `Scheduler.Workers` | crates/agent-nexus/src/lib.rs:5877-5891 | lists exactly the idle, or the busy, forge slots |
| `SchedulerEffects.DecisionTable` | crates/agent-nexus/src/lib.rs:5831-6047 | rework first, then a review to deliver, then pull requests; otherwise work is assigned if and only if there is an assignable ticket and an idle forge slot, the first ticket to such a slot; no work exactly without tickets and without idle or busy forge slots |
| `SchedulerEffects.IdleForgeGetsWork` | crates/agent-nexus/src/lib.rs:5831-6146 | when nothing else comes first, a pass with an assignable ticket and an idle forge slot leaves that ticket assigned to an idle forge slot and the slot reserved for it |
| `SchedulerEffects.CommitChangesOnlyItsPair` | crates/agent-nexus/src/lib.rs:6049-6228 | a commit changes the first ticket of its id and its slot, and nothing else that recovery left; an unknown ticket is added by new work and ignored by rework |
| `SchedulerEffects.FailedIsRetriedOrOver` | crates/config/src/state.rs:22-72 | a failed ticket is assignable below three attempts and over from then on; no ticket is both |
| `SchedulerEffects.MergeFreesItsSlots` | crates/agent-vessel/src/node.rs:3129-3176 | after a merge every busy or done slot of the ticket is idle and empty, a suspended one loses its workspace, and slots of other tickets stay as they are |
| `SchedulerEffects.MergeEmptiesItsIdleWorker` | crates/agent-vessel/src/node.rs:3129-3176 | an idle slot loses its workspace exactly if it is the worker of the merged branch |
| `SchedulerEffects.VesselReserves` | crates/agent-vessel/src/node.rs:3205-3325 | an idle slot VESSEL takes is reserved for the ticket with the ticket's own link; only a CI fix marks the ticket |
| `SchedulerEffects.VesselTakesDoneSlot` | crates/agent-vessel/src/node.rs:3187-3253 | without a named slot a done forge slot is taken too, with the link of the ticket it was done with |
| `SchedulerEffects.WorkerIsNamed` | crates/agent-vessel/src/node.rs:3178-3185 | the recorded worker counts; without one, the branch up to its first slash |
| `SchedulerEffects.GateDecides` | crates/agent-nexus/src/lib.rs:6259-6292 | an approved suspended slot goes on with its ticket and link; a rejected slot is idle and keeps its workspace |
| `SchedulerEffects.WorkspacesComeAndGo` | crates/agent-nexus/src/lib.rs:1500-1520 | a forgotten workspace is in no slot afterwards, and a provisioned one in its worker's |
| `Assignment.NoMissingWorkerAfterRecovery` | crates/agent-nexus/src/lib.rs:4108-4138 | detection after recovery reports no ticket whose worker slot is missing |
| `Assignment.StaleAfterRecoveryIff` | crates/agent-nexus/src/lib.rs:4140-4270 | after recovery a slot is reported stale, other than for a ticket that does not exist, if and only if it was stale and its workspace could not be deleted |
| `Assignment.FailedDeletionKeepsSlot` | crates/agent-nexus/src/lib.rs:4153-4247 | a slot whose workspace deletion fails keeps both its status and its workspace id |
| `Assignment.RecoveryIsIdempotent` | crates/agent-nexus/src/lib.rs:4101-4279 | recovering twice changes nothing more |
| `Assignment.DecisionSurvivesRecovery` | crates/agent-nexus/src/lib.rs:5877-6060 | the decided slot is an idle forge slot and the ticket assignable, and both are so after the recovery between decision and commit |
| `Assignment.AssignmentIsMutual` | crates/agent-nexus/src/lib.rs:6090-6146 | every assignment leaves ticket and slot naming each other |
| `Assignment.PassIsExclusiveIff` | crates/agent-nexus/src/lib.rs:6049-6146 | a pass keeps tickets exclusive if and only if recovery can free every forge slot still bound to the assigned ticket |
| `Assignment.CommitIsExclusiveIff` | crates/agent-nexus/src/lib.rs:6049-6228 | whatever happened since the decision, a commit keeps tickets exclusive if and only if recovery frees every other forge slot bound to its ticket |
| `Assignment.CommitsStayExclusive` | crates/agent-nexus/src/lib.rs:5831-6228 | over every run with decision and commit apart, every other writer of slots acting in between and whole slot maps written back late, no ticket is bound to two forge slots, as long as each commit meets that condition and each other binding the one below, in the map it writes |
| `Assignment.OpenTicketIsFreed` | crates/agent-nexus/src/lib.rs:4229-4265 | the condition holds if deletions succeed and the ticket is still Open, or no other slot holds it |
| `Assignment.AssignmentStaysExclusive` | crates/agent-nexus/src/lib.rs:4101-6228 | over every run of whole passes and all other writers of slots, with successful deletions and held tickets becoming assignable only by turning Open, no ticket is bound to two forge slots, as long as each other binding meets the condition below |
| `Assignment.BindingIsExclusiveIff` | crates/agent-vessel/src/node.rs:3205-3325 | when VESSEL, for conflict rework or a CI fix, or the command gate binds a forge slot, tickets stay exclusive if and only if no other forge slot is bound to the ticket |
| `Assignment.BindingDisplacesIff` | crates/agent-vessel/src/node.rs:3205-3325 | such a binding takes a slot away from another ticket if and only if the slot was bound to it |
| `Assignment.VesselDoubleBooks` | crates/agent-vessel/src/node.rs:3178-3203 | a branch that names no slot makes VESSEL take an idle forge slot for a ticket another forge slot still works on |
| `Assignment.DoubleBooking` | crates/config/src/state.rs:22-27 | both conditions are needed: a failed ticket still holding a slot, or one failed deletion, books the ticket twice |
| `Assignment.IdleSlotsStayEmpty` | crates/agent-nexus/src/lib.rs:4140-4270 | over every run of passes and all other writers of slots, idle forge slots hold no workspace, as long as the command gate rejects no forge slot with a workspace |
| `Assignment.OtherKeepsEmpty` | crates/agent-nexus/src/lib.rs:6268-6290 | a step of another writer keeps that if and only if it is not such a rejection |
| `Assignment.AssignedSlotStartsEmpty` | crates/agent-nexus/src/lib.rs:6090-6146 | so in every such run an assigned forge slot brings along no workspace of an earlier ticket |
| `Provisioning.OneLiveWorkspacePerPair` | crates/agent-nexus/src/lib.rs:1286-1371 | for every sequence of retries, lost replies, rebindings, deletions and restarts, a worker and ticket never have two undeleted workspaces, as long as no deletion drops the key of another undeleted workspace |
| `Provisioning.DeletionDuplicatesIff` | crates/agent-nexus/src/lib.rs:1433-1457 | a deletion followed by a request leaves two live workspaces of one pair if and only if it drops such a key, so the condition is exact |
| `Provisioning.RequestNeverGetsDeleted` | crates/agent-nexus/src/lib.rs:1333-1356 | for every such sequence, as long as a deletion forgets the workspace's own key if that is in use, no request is answered with a deleted workspace |
| `Provisioning.DeletionFreshensKey` | crates/agent-nexus/src/lib.rs:1427-1460 | then, once all workspaces of a pair are deleted, its next request carries a key the Manager never saw and creates a new workspace |
| `Provisioning.DeletionForgetsKeyIff` | crates/agent-nexus/src/lib.rs:1433-1457 | a deletion forgets the workspace's own key if and only if the slot is still bound to the ticket it was requested for, and exactly otherwise the next request gets the deleted workspace back |
| `Provisioning.DetachReturnsDeletedIff` | crates/agent-nexus/src/lib.rs:5242-5300 | dropping a workspace id from a slot makes the next request return a deleted workspace if and only if it was deleted and its key is still stored |
| `Provisioning.UnheldDeletionReturnsDeletedIff` | crates/agent-nexus/src/lib.rs:4281-4320 | deleting a workspace that no bound slot holds makes the next request of its pair return it if and only if its key is still stored |
| `Provisioning.ReboundSlotDuplicates` | crates/agent-nexus/src/lib.rs:1433-1457 | handing a slot with a workspace to another ticket can leave that ticket with two live workspaces |
| `Provisioning.ProvisionWithoutKey` | crates/agent-nexus/src/lib.rs:1333-1371 | the first request of a pair creates a workspace under a fresh key, and the slot holds it |
| `Provisioning.ProvisionWithKey` | crates/agent-nexus/src/lib.rs:1333-1371 | a request under a known key leaves the slot with that key's workspace and changes nothing else |
| `Provisioning.FailedRequestIsRepeated` | crates/agent-nexus/src/lib.rs:1333-1371 | repeating a request whose reply was lost, or that was refused, leaves the very state an undisturbed request leaves |
| `Provisioning.FailedDeletionIsRepeated` | crates/agent-nexus/src/lib.rs:1427-1460 | a refused deletion changes nothing, and repeating one whose reply was lost leaves the state an undisturbed deletion leaves |
| `ReworkDelivery.OneTurnPerDeliveryId` | crates/openflows-manager/src/routes/runtime.rs:480-605 | in every run a chat has one first prompt and at most one message turn for each delivery id |
| `ReworkDelivery.DeletedOnlyAfterAccepted` | crates/agent-nexus/src/lib.rs:2093-2131 | for every pattern of failures and restarts, a directive no longer stored was replaced by a newer one or accepted as a first prompt or a message, as long as no directive is persisted over a pending one that is being delivered or whose id the live chat has |
| `ReworkAttempts.PersistVanishesIff` | crates/agent-vessel/src/node.rs:3588-3612 | persisting over a pending directive ends with the new one deleted and never accepted if and only if that condition fails |
| `ReworkAttempts.InFlightOverwriteVanishes` | crates/agent-vessel/src/node.rs:3588-3612 | in every reachable state, a directive persisted between the acceptance of the old one and its deletion is deleted in its place |
| `ReworkAttempts.RemovalIsReachable` | crates/agent-nexus/src/lib.rs:2107-2131 | that moment comes in the delivery of any directive |
| `ReworkDelivery.SecondCopyNeedsUnfinishedCreate` | crates/agent-nexus/src/lib.rs:2107-2131 | under the same condition on overwriting, a chat sees a directive twice only as first prompt and one message, and only if the reply to its creation was lost or not acted on |
| `ReworkAttempts.AttemptRepeatsCopyIff` | crates/agent-nexus/src/lib.rs:2107-2131 | an attempt repeats the directive in a live chat if and only if the chat has got it, yet not as a message with its id |
| `ReworkAttempts.RestartRepeatsCopy` | crates/agent-nexus/src/lib.rs:2107-2131 | no reply needs to be lost for that: a restart between the create reply and the deletion is enough |
| `ReworkDelivery.SecondTurnNeedsUnfinishedCreate` | crates/agent-nexus/src/lib.rs:310-320 | under the same condition, a delivery id gives a second message turn only in another chat, whose creation was also lost or not acted on |
| `ReworkAttempts.AttemptRepeatsIdIff` | crates/agent-nexus/src/lib.rs:310-320 | an attempt sends the delivery id once more if and only if it was sent before, but not to the live chat |
| `ReworkAttempts.LostRepliesRepeatId` | crates/agent-nexus/src/lib.rs:2107-2131 | a lost message reply, a lost chat and a lost create reply send one delivery id twice |
| `ReworkAttempts.AttemptDeliversIff` | crates/agent-nexus/src/lib.rs:2113-2131 | an attempt through a live chat deletes the directive, and delivers it if and only if the chat has no message with its id |
| `ReworkAttempts.AttemptCreatesChat` | crates/agent-nexus/src/lib.rs:2107-2131 | without a live chat an attempt creates one with the directive as first prompt and deletes the directive |
| `ReworkAttempts.FailedAttemptKeepsDirective` | crates/agent-nexus/src/lib.rs:2107-2131 | a refused creation or message leaves chats and directive as they were; a lost reply leaves the directive pending |
| `ReworkAttempts.OverwriteLosesDirective` | crates/agent-vessel/src/node.rs:3588-3612 | a directive persisted over a pending one after a lost message reply keeps the old id and is deleted without reaching any chat |
| `ReworkAttempts.OverwriteIsReachable` | crates/agent-vessel/src/node.rs:3588-3612 | the states from which this loss happens are reached from an ordinary chat and one directive |
| `Recovery.Desk.MarkTicketAwaitingHuman` | crates/agent-nexus/src/lib.rs:4758-4811 | a ticket already waiting changes nothing; otherwise the first ticket with the id gets one more attempt, the counter is reset and one notice goes out, even if no ticket has the id |
| `Recovery.Desk.TryRecovery` | crates/agent-nexus/src/lib.rs:5142-5170 | repairs exactly when the new count is below the limit, and escalates otherwise |
| `Recovery.RepairsAreBounded` | crates/agent-nexus/src/lib.rs:5477-5506 | over both paths and every run, a stretch without a reset of the ticket's counter has at most MAX_ATTEMPTS - 1 repairs |
| `Recovery.AttemptsCountNotices` | crates/agent-nexus/src/lib.rs:4758-4811 | over every run, VESSEL's escalations and failures included, a ticket's attempts grow by exactly the notices and failures about it |
| `Recovery.AwaitingIsFrozen` | crates/agent-nexus/src/lib.rs:4770-4779 | until VESSEL or a human deals with it, a ticket awaiting a human is neither changed nor reported again by recovery |
| `Recovery.VesselRepeatsNotice` | crates/agent-vessel/src/node.rs:3004-3043 | VESSEL's own escalation has no such guard: over every run in which nothing else touches a waiting ticket, each of its escalations adds an attempt and a notice |
| `Recovery.FailuresEscalate` | crates/agent-nexus/src/lib.rs:5142-5170 | failures in a row escalate the ticket at the MAX_ATTEMPTS-th count: status, attempts, flat status, counter and the one notice all name the last failure |
| `Recovery.RepairIsTried` | crates/agent-nexus/src/lib.rs:5142-5170 | below the limit a failure is repaired and nobody is told; a repair that works starts the count anew |
| `Recovery.HealthResetsCounter` | crates/agent-nexus/src/lib.rs:5050-5064 | a healthy workspace starts the count anew and changes nothing else |
| `Recovery.VesselMarks` | crates/agent-vessel/src/node.rs:2934-3043 | what VESSEL makes of a ticket it fails or escalates: attempts, status, worker and notice |
| `Recovery.WaitingSpendsTheBudget` | crates/agent-nexus/src/lib.rs:4770-4779 | failures counted while the ticket waits are not reset: after it is moved on, the next failure escalates at once if and only if MAX_ATTEMPTS - 1 were counted |
| `PendingPrs.Tracker.Sync` | crates/agent-nexus/src/lib.rs:515-787 | the loops, the removal and the conditional write leave the computed list in the store, and the flag is the computed one |
| `PendingPrs.KnownNumbers` | crates/agent-nexus/src/lib.rs:517-520 | collects the numbers of all entries that have one |
| `PendingPrs.SyncKeepsUnique` | crates/agent-nexus/src/lib.rs:515-787 | distinct numbers and at most one entry per ticket are kept, and every entry of the result is open |
| `PendingPrs.UnchangedMeansSame` | crates/agent-nexus/src/lib.rs:781-787 | whatever GitHub lists, when the flag is down the computed list is the stored one |
| `PendingPrs.ChangedIffDiffers` | crates/agent-nexus/src/lib.rs:764-787 | for GitHub's distinct positive numbers the flag is raised if and only if the computed list differs |
| `PendingPrs.UntrackedIsAddedIff` | crates/agent-nexus/src/lib.rs:544-762 | an untracked open PR is tracked afterwards if and only if it is the first admissible one of its ticket, judged on the old list alone |
| `PendingPrs.ChosenIsSynced` | crates/agent-nexus/src/lib.rs:744-762 | such a PR is tracked with its number, ticket, head, mergeability, conflicts, branches and title |
| `PendingPrs.TrackedAreRefreshed` | crates/agent-nexus/src/lib.rs:526-543 | after any number of visits a tracked entry has taken over head, mergeability and conflicts of its open PR if that was visited and may be looked at, and stays in place |
| `PendingPrs.TrackedStaysIff` | crates/agent-nexus/src/lib.rs:764-787 | a tracked PR is tracked afterwards if and only if it is still open |
| `PendingPrs.TrackedIsSynced` | crates/agent-nexus/src/lib.rs:526-543 | its entry keeps number, ticket, branches and title, and takes over head, mergeability and conflicts if the PR may be looked at |
| `PendingPrs.OnlyOpenAreLeft` | crates/agent-nexus/src/lib.rs:764-787 | whatever was stored and listed, only entries with the nonzero number of a listed PR are left |
| `PendingPrs.OpenListSettles` | crates/agent-nexus/src/lib.rs:515-787 | against an unchanged listing and unchanged verdicts, one pass settles a list of distinct numbers whose entries are all open |
| `PendingPrs.TwoPassesSettle` | crates/agent-nexus/src/lib.rs:515-787 | two passes against an unchanged GitHub listing and unchanged verdicts settle any list of distinct numbers |
| `PendingPrs.ClosedEntryDelaysItsTicket` | crates/agent-nexus/src/lib.rs:545-557 | an entry that is about to be dropped still blocks another PR of its ticket for one pass |
| `ReviewGate.LatestReviewPerUser` | crates/github/src/rest.rs:1731-1782 | the replacing loop computes the function described by the next rows |
| `ReviewGate.LatestHoldsWinners` | crates/github/src/rest.rs:1731-1782 | for each user the result holds the winner among that user's own reviews, whatever the others did |
| `ReviewGate.LatestIsOnePerUser` | crates/github/src/rest.rs:1731-1782 | at most one review per user, each from the input, none without a login |
| `ReviewGate.InLatestIffWins` | crates/github/src/rest.rs:1731-1782 | a review is kept if and only if it wins for its user |
| `ReviewGate.WinnerIsTop` | crates/github/src/rest.rs:1739-1769 | nothing of the user takes precedence over the winner: a verdict over none, then the later timestamp |
| `ReviewGate.TextLessIff` | crates/github/src/rest.rs:1742-1747 | timestamps are compared lexicographically as text |
| `ReviewGate.OrderMattersOnlyForTies` | crates/github/src/rest.rs:1739-1769 | the winner is the same for every listing order if and only if one review stands on top of the user's history |
| `ReviewGate.ReadyForMergeIff` | crates/agent-vessel/src/pr_monitor.rs:94-234 | ready to merge if and only if there is no known conflict, CI succeeded, no user's winning review is a change request that is still open, and some owner, member or collaborator's winning review approves the head; open, said of commits and instants: on the head, without dispatch or push, after the dispatch, or of unknown time and not on the dispatched commit |
| `ReviewGate.ClassificationTable` | crates/agent-vessel/src/pr_monitor.rs:202-305 | the exact condition of every other answer: conflicts, failed and running CI, changes requested, comments and review needed |
| `ReviewGate.LaterRequestBlocks` | crates/agent-vessel/src/pr_monitor.rs:94-132 | a user's winning change request given after the dispatch keeps the gate shut whoever approves, and is what the gate reports once CI is green and no conflict is known |
| `ReviewGate.HeadRequestBlocks` | crates/agent-vessel/src/pr_monitor.rs:94-118 | the same for a change request on the head itself, and for any without dispatch evidence or without a push since |
| `ReviewGate.ClassificationIgnoresOrder` | crates/agent-vessel/src/pr_monitor.rs:140-305 | without ties the whole classification ignores the order of the reviews |
| `ReviewGate.TiedReviewsDecideByOrder` | crates/github/src/rest.rs:1742-1747 | with equal timestamps the listing order decides whether the same head may merge |
| `ReviewGate.PushNeedsNewApproval` | crates/agent-vessel/src/pr_monitor.rs:164-200 | after a push the gate opens only if a later review approves the new head |
| `ReworkLoop.CoveredIsAddressedIff` | crates/agent-vessel/src/pr_monitor.rs:94-132 | on every later head, feedback given before the last dispatch is addressed if and only if it has a readable timestamp or names the dispatched commit |
| `ReworkLoop.DueHasCause` | crates/agent-vessel/src/pr_monitor.rs:238-305 | a dispatch for change requests or comments has an unaddressed item behind it |
| `ReworkLoop.DispatchAnswersNewFeedback` | crates/agent-vessel/src/pr_monitor.rs:94-157 | every dispatch answers feedback given since the previous one |
| `ReworkLoop.DispatchesBoundedByFeedback` | crates/agent-vessel/src/pr_monitor.rs:74-305 | over every run with readable timestamps, dispatches are at most the items of feedback, counted anew after each reset of the evidence |
| `ReworkLoop.DueIffOpen` | crates/agent-vessel/src/pr_monitor.rs:94-305 | with all feedback older than the last dispatch, the gate asks for rework on a newer head if and only if some user's winning change request or some comment has no readable timestamp and names another commit than the dispatched one |
| `ReworkLoop.LoopsForeverIffOpen` | crates/agent-vessel/src/pr_monitor.rs:74-305 | without new feedback or resets, such a state allows another dispatch, and then any number of them, if and only if such an item is left |
| `ReworkLoop.DispatchCoversAll` | crates/agent-vessel/src/pr_monitor.rs:74-132 | every dispatch leads to such a state |
| `ReworkLoop.RequestAfterDispatchIsDue` | crates/agent-vessel/src/pr_monitor.rs:94-305 | whatever happens between, a user's winning change request stamped after a dispatch makes the next dispatch due on a later head with green CI |
| `ReworkLoop.CommentAfterDispatchIsDue` | crates/agent-vessel/src/pr_monitor.rs:94-305 | so does a comment stamped after it, while nobody approves the head |
| `ReworkLoop.UnstampedFeedbackLoops` | crates/agent-vessel/src/pr_monitor.rs:111-132 | one change request without a timestamp allows any number of dispatches |
| `ReworkLoop.ResetRepeatsDispatch` | crates/agent-vessel/src/pr_monitor.rs:94-110 | after one reset of the evidence a single stamped change request causes two dispatches, so the bound is reached |
| `Directive.RoundTrip` | crates/agent-vessel/src/pr_monitor.rs:345-357 | for every state, 64-bit number and reason, reading the number of a built directive gives it back |
| `Directive.DirectiveLines` | crates/agent-vessel/src/pr_monitor.rs:345-357 | the built text starts with the command, the state, the number and, if it is one line, the trimmed reason, one line each |
| `Directive.SpacedPrLineParses` | crates/agent-nexus/src/lib.rs:6301-6308 | a blank before the colon is accepted |
| `Directive.StateNamesDiffer` | crates/agent-vessel/src/pr_monitor.rs:345-357 | no two states are named alike |
| `Changelog.RewriteLines` | crates/agent-lore/src/changelog.rs:96-142 | the flag-driven loop inserts the entry below the first section header that qualifies, and says whether one did |
| `Changelog.InsertEntry` | crates/agent-lore/src/changelog.rs:96-163 | the main path and both fallbacks together |
| `Changelog.ChangelogManager.AddEntry` | crates/agent-lore/src/changelog.rs:19-46 | an entry already present leaves the file untouched |
| `Changelog.InsertKeepsEntries` | crates/agent-lore/src/changelog.rs:96-163 | a rewrite keeps every entry the file holds, on all three paths |
| `Changelog.InsertAddsEntry` | crates/agent-lore/src/changelog.rs:96-163 | the new entry is in the result, on all three paths |
| `Changelog.EntriesAreNeverLost` | crates/agent-lore/src/changelog.rs:19-46 | for every starting file and history of calls, each entry asked for is there at the end, and asking again changes nothing |
| `Changelog.EntryIsPlacedBelowHeader` | crates/agent-lore/src/changelog.rs:104-142 | for every file with a qualifying header, the lines are the old ones with the entry below the first such header, up to one dropped trailing blank line and the carriage returns that end lines |
| `Changelog.WithoutTargetFallsBack` | crates/agent-lore/src/changelog.rs:144-160 | without one, a header on the last line included, the result is a fallback insertion into the same lines |
| `Changelog.InUnreleasedIff` | crates/agent-lore/src/changelog.rs:104-142 | the scan is inside Unreleased exactly below a line that opens it with no other release opened since |
| `Changelog.EntryIsInjective` | crates/agent-lore/src/changelog.rs:92-94 | two calls write the same entry only if text and pull request agree |
| `Changelog.NewReleaseFollowsTitle` | crates/agent-lore/src/changelog.rs:141-146 | a file with a title and without Unreleased gets the new release right behind the title |
| `Changelog.NewReleaseComesFirst` | crates/agent-lore/src/changelog.rs:141-146 | a file with neither gets it at the top |
| `Changelog.NewReleaseReads` | crates/agent-lore/src/changelog.rs:165-176 | the new release is its header, one section header and the entry, with blank lines between and after |
| `Changelog.FirstEntryIsPlacedIff` | crates/agent-lore/src/changelog.rs:67-142 | in the initial changelog an entry is placed below its own header if and only if it is no Security entry |
| `ChangelogFallback.FallbackOnLines` | crates/agent-lore/src/changelog.rs:147-158 | on the lines of any text that mentions Unreleased, the second fallback appends header and entry to the line before the first release that follows a blank line, or adds them at the end |
| `ChangelogFallback.FallbackHeaderStartsLineIff` | crates/agent-lore/src/changelog.rs:144-160 | for every file without a usable section: the new header gets a line of its own if and only if no release follows a blank line after Unreleased, or the line before that blank line is blank too |
| `ChangelogFallback.GluedHeader` | crates/agent-lore/src/changelog.rs:19-46 | in the usual layout, adding an entry of a new section glues the header to the last line above |
| `LineLimits.ChangedFiles` | scripts/check_line_limits.py:154-183 | the index-advancing loop computes the pairs of the parse |
| `LineLimits.ParseOfEncode` | scripts/check_line_limits.py:154-183 | for any list of A/M/T/R/D records with NUL-free paths, exactly their (base, head) pairs come back |
| `LineLimits.AcceptedChangeKeepsCap` | scripts/check_line_limits.py:122-151 | an accepted change leaves an in-scope text file within the larger of the cap and its old size |
| `LineLimits.RatchetNeverLoosens` | scripts/check_line_limits.py:122-151 | along any chain of accepted changes and renames, max(MAX_LINES, size) never increases |
| `LineLimits.AcceptedIff` | scripts/check_line_limits.py:122-183 | on git's own output a change is accepted if and only if each changed file is ignored, binary, within the cap, or no larger than its own old version in scope |
| `LineLimits.AboveCapAcceptedIff` | scripts/check_line_limits.py:122-151 | a change that takes an in-scope file above its cap, and is fine otherwise, is accepted if and only if the new version is binary |
| `LineLimits.BinaryDetourEscapes` | scripts/check_line_limits.py:122-135 | a detour through a binary version lets a text file of any size pass |

## Where code and promise differ

The model follows the code; each difference has an input that shows it and the exact condition.

- `latest_review_per_user` documents a fallback to insertion order for equal timestamps; the code keeps the
  earlier review, and timestamps are compared as text (`TiedReviewsDecideByOrder`, `OrderMattersOnlyForTies`).
- Feedback without a readable timestamp counts as addressed only while the last dispatch was for its own
  commit, so rework need not end (`UnstampedFeedbackLoops`; exactly when: `LoopsForeverIffOpen`, `DueIffOpen`).
- A reset of the dispatch evidence makes old feedback count again, hence the factor in
  `DispatchesBoundedByFeedback` (`ResetRepeatsDispatch`).
- Slots are written by reading and writing back the whole slot map, and the scheduling lease is per ticket. With
  two controllers a stale write brings back a released sentinel (`StaleRecoveryDoubles`; exactly when:
  `WriteIsSoleIff`, `StaleWriteDoubles`), and a binding takes over a slot picked for another ticket
  (`TwoControllersDisplace`, `BindIsHarmlessIff`).
- Exclusive assignment fails for a failed ticket that keeps its slot, and after a failed deletion
  (`DoubleBooking`; exactly when: `CommitIsExclusiveIff`).
- VESSEL binds the slot a pull request's branch names, or some idle forge slot, without looking at the other
  slots, and so books a ticket twice (`VesselDoubleBooks`; exactly when: `BindingIsExclusiveIff`) or takes the
  slot of another ticket (`BindingDisplacesIff`).
- A deletion drops the key of the slot's ticket of the moment, and slots that hold a workspace do change
  tickets: a sentinel slot is provisioned for one ticket while still idle, and another ticket may then pick it.
  A ticket can so get two live workspaces (`ReboundSlotDuplicates`; exactly when: `DeletionDuplicatesIff`), or
  a deleted one (`DeletionForgetsKeyIff`, `DetachReturnsDeletedIff`, `UnheldDeletionReturnsDeletedIff`).
- Persisting a directive over a pending one keeps the delivery id, and the Manager compares keys, not
  prompts (`OverwriteLosesDirective`, `InFlightOverwriteVanishes`; exactly when: `PersistVanishesIff`).
- Besides a lost create reply, a restart between that reply and the deletion of the directive also yields a
  second copy (`RestartRepeatsCopy`; exactly when: `AttemptRepeatsCopyIff`), and a delivery id can be sent to
  two chats (`LostRepliesRepeatId`; exactly when: `AttemptRepeatsIdIff`).
- The early return for a waiting ticket skips the reset of the counter (`WaitingSpendsTheBudget`), a missing
  ticket is still reported (`MarkTicketAwaitingHuman`), and VESSEL's own escalation repeats itself
  (`VesselRepeatsNotice`).
- The line limit does not bind binary versions, so a detour through one lets a text file of any size pass
  (`BinaryDetourEscapes`; exactly when: `AboveCapAcceptedIff`).
- The initial changelog ends with its Security header, and a header on the last line takes no entry, so the first
  Security entry brings a second Security header (`FirstEntryIsPlacedIff`).
- The second changelog fallback inserts before the line break that ends the last entry (`GluedHeader`; exactly
  when: `FallbackHeaderStartsLineIff`).

## Left out

- HTTP, GitHub, Coder and git calls, SSH waits, clocks, sleeps and logging: each call is a nondeterministic
  outcome, each clock value a parameter.
- Prompt texts, personas, chat labels, CLI commands, setup, configuration and credential loading: data and
  plumbing without invariants.
- Hashes: message keys and pair tokens are taken as injective.
- Integer widths: counters, rounds and attempts are unbounded; PR numbers and slot indices carry their limits
  where they are parsed.
- TokenRotation.ExchangedAtMostOnce: speaks about exchanges whose reply arrived, because a refresh token
  whose reply is lost stays current and is sent again.
- ReviewerSession.OneLiveChatPerTicket: assumes that a failed creation created nothing and that no lease
  expires during a poll; the sorting of older aliases before adoption is an arbitrary order.
- NotifyOnce.SentAtMostOnce: counts sends whose success came back; a send whose reply is lost is repeated.
- Lifecycle.MergeHasFullApprovalChain: reconciliation of a merge that already happened on GitHub bypasses the
  gates by design; history entries, timestamps and decoding of old records are not modelled.
- Scheduler.Controller.RecoverOrphans: the per-ticket workspace keys and the final retry loop for lingering
  workspaces are not modelled here; such deletions appear in `Provisioning` as deletions without a slot release.
- Scheduler.Controller.Post: workspace and chat creation after the commit, command-gate suspend and resume,
  and the no-work counter are not part of it.
- Scheduler.Reconcile: its lists of unmerged PRs and of tickets completed without a PR are not modelled.
- Assignment.AssignmentStaysExclusive: a pass is one step, from the snapshot its decision was made on to its
  commit, and slots are written on their own; `CommitsStayExclusive` takes decision and commit apart and writes
  whole maps. Steps not listed as actions leave forge slots alone.
- Assignment.VesselDoubleBooks: VESSEL's fallback to the first idle forge slot in id order is any idle one here.
- ReviewerOwnership: a pull request whose branch or record names a sentinel slot makes VESSEL bind that slot; this
  binding is a step of `Assignment` and not of this model.
- Provisioning: one controller with one operation at a time; the Manager's slot and quota refusals are part
  of the refused reply, and readiness polling of an existing workspace changes nothing.
- ReworkDelivery: one ticket and role; VESSEL and NEXUS are nodes of one sequential flow, so a directive
  persisted during an attempt needs a second controller, but the model allows it at any step; the Manager's
  recovery from a crash between sending and recording a message, which looks back 200 messages, is taken as one
  atomic send.
- ReworkDelivery.DeletedOnlyAfterAccepted: assumes that no directive is persisted over a pending one against
  the guard `HarmlessPersist`, which `PersistVanishesIff` shows to be exact; the two statements on second
  copies and second turns assume the same.
- Provisioning.OneLiveWorkspacePerPair: assumes the guard `DropsNoLiveKey`, which `DeletionDuplicatesIff` shows
  to be exact; `RequestNeverGetsDeleted` and `DeletionFreshensKey` assume `ForgetsOwnKey`, exact by
  `DeletionForgetsKeyIff`, `DetachReturnsDeletedIff` and `UnheldDeletionReturnsDeletedIff`.
- ReviewerOwnership.OneReviewerPerTicket: assumes the guard `UpToDate`, exact by `WriteIsSoleIff`.
- Recovery.Desk.MarkTicketAwaitingHuman: the release of the worker slot is `Scheduler.Controller.ReleaseWorkerSlot`
  and is not repeated; which restart or re-creation a repair chooses is not modelled.
- PendingPrs.Tracker.Sync: the rules that admit an untracked PR (ticket status, failure reasons, attempt
  counters, human intervention) are an arbitrary function of the PR, and the ticket updates after the
  synchronisation are left out.
- ReviewGate.ReadyForMergeIff: an RFC 3339 timestamp is its text with an optional instant; parsing is not modelled.
- ReworkLoop.DispatchesBoundedByFeedback: dispatches for conflicts and failed CI are not counted, and feedback
  is not stamped in the future.
- LineLimits.ChangedFiles: the copy branch, which the git command never triggers, is kept but no record of it
  is encoded; ignore patterns are an arbitrary predicate on paths.
- Category guessing, ADR, README and retrospective generators, CI-first ordering of tickets, status-string
  enums and message streaming: settled by reading one branch.
