# DisplayMux: switch protocol, hub gates and input side cores

A Dafny model of how DisplayMux moves keyboard, pointer and display to another host, with proofs over
unbounded runs. `dafny verify dfyconfig.toml` checks everything.

- **Controller** (`tv-multiview`). `Protocol` is the reducer: one function per event, a working draft of the
  state, and the runtime check at the end; a failing `expect` is the outcome `Panicked`. `Invariant` is an
  inductive invariant strong enough to make that check redundant. `Runs`, `Epochs`, `Transactions`,
  `Sessions`, `Fallback`, `ManualChoice`, `Deadlines`, `Provenance`, `Retries`, `Watching` and `Progress` prove
  what every run keeps, and `Refusals` says exactly which events the runtime check refuses. `Witnesses` holds
  four runs, event by event from start-up, that the task can serve and that reach the situations below. `Coordinator` is the task around
  the reducer: event choice, effect worklist, bounded queues and gauges.
- **Hub** (`lan-mouse`). `EdgeGate`, `LeaseManager`, `CaptureGate`, `CaptureTask` and `Service` are the objects,
  each proved against transitions on values; `Hub` holds the service's transitions and their invariant,
  `Outcomes` what each of them comes to, and `Cleanups` what becomes of a lease that was given up. `TwoKey` runs
  the service together with the capture task, their requests and reports in queues, and `Backing` shows when
  captured input is backed by a lease.
- **Both together.** `Authority` says how long the controller honours what it told a client; `Ownership`
  composes hub and controller with two clocks, and messages that are delayed, lost, repeated or reordered.
- **Input side cores.** `EventQueue` is the coalescing capture queue, `Emulation` the pressed-key tracker.

Time is `u64` milliseconds with the source's saturating or checked additions written out. Times, peer
readiness, task results, backend failures and queue consumers are parameters or nondeterministic choices.

## What the proofs show about the code

- With a live session the runtime check can still refuse an event; `Refusals.CheckRefusesIff` gives the exact
  condition for every event in every reachable state. Besides events that come after the lease has run out and
  do not release it, it refuses: cancelling a request that is still waking beside the session; creating a
  request beside the session for an online host that is not ready; granting a host without a display beside a
  session on a display; readings and subscription updates that contradict the session without ending it. A tick
  is refused in one situation, a waking request that is due under an unexpired session
  (`Sessions.TickRefusedIff`, reached in `Witnesses.OverlapReachable`); a refused tick changes nothing, so the
  next one is refused too.
- A session on a display is not always re-verified. `Watching.WatchKeptIff` says exactly which two steps end its
  watch. One is a late reading of an older epoch that shows the target but carries no signal for it, while the
  session's own reading is awaited (`Witnesses.GapReachable`); a transport that reports a signal for every routed
  host, as the one in `tv-multiview/src/ssap/codec.rs` does, never sends one. The other is a create that opens a
  request beside the session. Once the session's poll is due beside a waking request, ticks idle and nothing else
  is served, renewals included, so the session ends with its current lease (`Progress.OverlapIdles`); if the wake
  time ends before that, ticks are refused in between (`Witnesses.OverlapReachable`).
- A tick that is due does not always move the next deadline on; `Progress.TickProgressIff` says exactly when, and
  `Progress.IdlesUntil` for how long ticks do nothing. The task serves due deadlines before everything else, so
  in that time it takes no request at all (`Coordinator.Coordinator.RunTask`). This happens to a switch that is
  not acknowledged within the command time: until its request runs out even the acknowledgement is not taken
  (`Witnesses.StarvationReachable`). After a shutdown under a session it lasts for ever
  (`Witnesses.ShutdownReachable`); the daemon ends the task then anyway.
- A hand-over between two hosts with a display waits for the first session to end: below epoch saturation no
  request is granted beside a session on a display (`Sessions.NoGrantBesideDisplay`).
- The hub can lose the cancellation it owes the controller for a lease it gave up. `Cleanups.CleanupKeptIff` says
  exactly when, in every run. A pending one is forgotten when the release or denial finds another task running
  (`Cleanups.CleanupForgotten`), and overwritten when another lease fails under its own capture or at the door
  (`Cleanups.CleanupOverwritten`); a running one is aborted when another lease is given up
  (`Cleanups.CleanupAborted`).
- Input is captured only under an owned lease or with a release on its way (`Backing.CaptureBacked`), with one
  exception: the capture task does not forget its active client when its backend ends. From every such state the
  service can give the lease up and the backend start again, and input then goes to the same client without a
  lease, without a permit and with no release coming (`Backing.LossUnbacks`, reached by `Backing.LossReachable`).
- The hub's remote deadline is bounded by the controller's expiry unless its create request arrives again after
  the controller has evicted the id; `Ownership.RecreationBreaksIff` says exactly what that does.
- Without a session only a commit can trip the runtime check, and no `expect` fires in any reachable state.
- Saturating epochs stop being strict at the maximum; the strict claims carry that hypothesis.
- The renew endpoint reports whatever session is live, without comparing ids. `Authority.RenewalAnswersOwn`
  shows that after an accepted renewal it can only be the renewed one.
- The bound of the hub's deadline by the controller's expiry rests on the create endpoint capping lease times
  at the controller's own lease time; it does not need grants to be shorter than leases.
- The hub's "task busy" branches after a finished preparation or commit, and after a reservation, are dead. So
  are its checks that a finished preparation or renewal still finds its lease, that an armed grant has time left,
  and its branches for a lease whose target is the server itself (`Cleanups.RunPast`).
- Coalescing drops relative motion: of consecutive queued motions only the last is delivered.

## Model

| member | source | states |
|---|---|---|
| Domain.FindLast | tv-multiview/src/domain.rs:278-295 | the newest archived position of an id, or none at all |
| Domain.FindCommitted | tv-multiview/src/protocol.rs:470-476 | the newest archived position of an id that is committed, or none at all |
| Domain.ArchiveRequest | tv-multiview/src/domain.rs:297-309 | the loop yields the newest entries of other ids within the limit, then the new entry |
| Domain.RemoveById | tv-multiview/src/domain.rs:298-304 | removes the oldest entry of the id and nothing else |
| Domain.EarlierOf | tv-multiview/src/domain.rs:311-325 | the earlier of the deadlines that are set |
| Protocol.StoreSignals | tv-multiview/src/protocol.rs:1087-1100 | the loop over all hosts stamps exactly the reported signals |
| Invariant.InitialInv | tv-multiview/src/domain.rs:205-262 | the start-up state has the inductive invariant |
| Invariant.ValidateCore | tv-multiview/src/domain.rs:327-390 | given the structural part, the runtime check passes if and only if there is no session or a settled unexpired one |
| Invariant.PlanGood | tv-multiview/src/protocol.rs:164-838 | every event except commit proposes a state with the structural invariant or one that is certain to be refused, raises no invariant error of its own and never panics |
| Invariant.StepSound | tv-multiview/src/protocol.rs:164-838 | from the invariant, every accepted event keeps it, nothing panics, and without a session only a commit can be refused by the runtime check |
| Runs.RunInv | tv-multiview/src/protocol.rs:164-172 | the invariant holds at the end of every run |
| Runs.RuntimeCheckRedundant | tv-multiview/src/protocol.rs:1192-1200 | in every reachable session-free state the final check refuses only commits; no `expect` fires in any reachable state |
| Refusals.CheckRefusesIff | tv-multiview/src/protocol.rs:164-838 | in every reachable state the runtime check refuses an event if and only if the listed guard on state, event and time holds |
| Epochs.StepOrderly | tv-multiview/src/protocol.rs:840-871 | one step never lowers an epoch, fences its commands below saturation, and stamps ordinary effects with the newest epoch or has ownership home |
| Epochs.RunFenced | tv-multiview/src/protocol.rs:1000-1015 | over any run no epoch goes back and all commands are fenced between the first and last switch epoch |
| Epochs.CommandEpochsStrict | tv-multiview/src/protocol.rs:840-871 | of any two input or multiview commands of a run the later has the larger epoch |
| Epochs.SupersededIgnored | tv-multiview/src/protocol.rs:356-385 | acknowledging or failing a superseded command changes nothing and emits nothing |
| Epochs.NewestEpochHeld | tv-multiview/src/protocol.rs:840-871 | requests past waking and owned sessions carry the newest switch epoch, grants the newest grant epoch |
| ManualChoice.ManualChoiceKept | tv-multiview/src/protocol.rs:1029-1060 | from any untouched state, every event sequence that starts no transaction emits nothing and stays untouched |
| Fallback.FallbackNeverStalls | tv-multiview/src/protocol.rs:782-814 | a healthy state that owes a fallback has a deadline, and the tick serving it is accepted, sends exactly one server command under the next epoch and sets the next deadline |
| Fallback.FallbackSettledIff | tv-multiview/src/protocol.rs:1017-1048 | an outstanding fallback is settled if and only if the event shows the server display under the current epoch or a manual display |
| Fallback.FallbackEndsHonestly | tv-multiview/src/protocol.rs:199-202 | over any run a fallback that is gone was settled at some step by such evidence |
| Transactions.StepMoves | tv-multiview/src/protocol.rs:164-838 | every step moves the active request and the session in one of a few named ways, with exact deadlines, epochs and expiries |
| Sessions.CommitExact | tv-multiview/src/protocol.rs:463-545 | a commit moves both owners to a remote host if and only if identities match, grant and lease are unexpired, the peer is ready and a routed target is verified on screen; then to that target |
| Sessions.TickRefusedIff | tv-multiview/src/protocol.rs:733-747 | a tick is refused exactly when a waking request is due under a live unexpired session |
| Sessions.LeaseFresh | tv-multiview/src/protocol.rs:591-621 | both expiry fields of a live session equal the latest commit or renewal time plus the lease time |
| Sessions.ExpiredLeaseReturns | tv-multiview/src/protocol.rs:760-769 | from that time on a tick is never refused and returns keyboard and pointer together |
| Sessions.SessionMatchesHistory | tv-multiview/src/domain.rs:290-309 | history is bounded, one entry per id, none active; its newest entry is the live session's own, still committed |
| Sessions.CancelLiveSession | tv-multiview/src/protocol.rs:546-575 | cancelling the live session is never refused (its not-found error is unreachable) and brings both owners home |
| Sessions.NoGrantBesideDisplay | tv-multiview/src/protocol.rs:840-917 | in every run, below saturation, no request is granted while a session on a display lives |
| Sessions.HandOverWaits | tv-multiview/src/protocol.rs:512-537 | a step that replaces one session by another finds the old one not on a display, below saturation |
| Provenance.RequestProvenance | tv-multiview/src/protocol.rs:356-376 | a routed request past waking has its command, its acknowledgement once verifying, and its verified observation once granted, with no command since |
| Provenance.RemoteOwnershipProven | tv-multiview/src/protocol.rs:386-545 | remote ownership of a routed host has, under one epoch and in order, command, acknowledgement, verified observation and commit, with no other command in between |
| Deadlines.WithinBudgetAlways | tv-multiview/src/protocol.rs:312-354 | when due requests are served first, the active request's deadline stays within the budget of its stage, counted from its opening |
| Deadlines.TickCloses | tv-multiview/src/protocol.rs:733-759 | a tick at a due request without a session is accepted and closes it |
| Deadlines.BoundedTransaction | tv-multiview/src/protocol.rs:898-915 | a request opened without a session is closed by opening plus wake, command, observation and grant times |
| Deadlines.TurnDisciplined | tv-multiview/src/coordinator.rs:283-341 | the steps of one turn, fed-back failures included, serve a due request by a tick first and close it when no session is live |
| Deadlines.TurnInTime | tv-multiview/src/coordinator.rs:283-341 | after each turn a request opened without a session has been open for less than the four budgets |
| Progress.TickProgressIff | tv-multiview/src/protocol.rs:733-822 | in every reachable state a tick is accepted and leaves no deadline due if and only if none of the stuck guards holds |
| Progress.IdleTick | tv-multiview/src/protocol.rs:733-822 | in the idling situations a due tick changes nothing and emits nothing, or is refused |
| Progress.SwitchingIdles | tv-multiview/src/protocol.rs:760-822 | from the command deadline of a switch to its request deadline every tick idles |
| Progress.IdlesUntil | tv-multiview/src/protocol.rs:733-822 | once ticks idle they idle until exactly the time given by the state, or for ever when there is none |
| Progress.OverlapIdles | tv-multiview/src/protocol.rs:770-781 | beside a waking request a session on a display whose poll is due is left alone until exactly its lease ends |
| Progress.ShutdownIdles | tv-multiview/src/protocol.rs:823-834 | a poll left over by a shutdown keeps ticks due and idle for ever |
| Retries.StepLedger | tv-multiview/src/protocol.rs:946-969 | one step only ages archived records, archives the active request, or records a new one |
| Retries.CreateRetryHarmless | tv-multiview/src/protocol.rs:287-299 | an accepted create, redelivered at any later point while its id is retained, succeeds and changes nothing |
| Retries.CommitRetryHarmless | tv-multiview/src/protocol.rs:470-486 | an accepted commit, redelivered likewise, changes nothing and emits nothing |
| Retries.CancelRetryHarmless | tv-multiview/src/protocol.rs:547-575 | an accepted cancel, redelivered likewise, changes nothing and emits nothing |
| Watching.OtherReadingOutcome | tv-multiview/src/protocol.rs:441-457 | while a session's own reading is awaited, a reading of another epoch is accepted exactly in the disarming situation, and then the wait is unbounded |
| Watching.WatchKeptIff | tv-multiview/src/protocol.rs:281-457 | every step keeps a session on a display free of other requests with its verification scheduled or time-limited, if and only if it is neither a disarming reading nor a create that overlaps the session |
| Watching.WatchedThroughout | tv-multiview/src/protocol.rs:770-781 | in every run without such a step a session on a display is watched at all times |
| Watching.FullReadingsWatch | tv-multiview/src/ssap/codec.rs:110-133 | readings that cover every routed host never disarm, so the session is watched in every such run in which no create overlaps it |
| Watching.WatchedTick | tv-multiview/src/protocol.rs:770-800 | a watched session is observed when its poll is due and given up, both owners home, when the reading is overdue |
| Watching.DisarmedTick | tv-multiview/src/protocol.rs:770-800 | once disarmed, a tick before lease expiry changes nothing and emits nothing |
| Watching.WakingTick | tv-multiview/src/protocol.rs:733-800 | while a request wakes beside a live session and no reading is overdue, a tick does nothing, and is refused once the wake time is over |
| Witnesses.GapReachable | tv-multiview/src/protocol.rs:441-457 | eight concrete events from start-up, none put before a due deadline, end in remote ownership with an awaited reading and no time limit |
| Witnesses.OverlapReachable | tv-multiview/src/protocol.rs:733-747 | in a run the task can serve and without any stale reading, a create beside the session leaves it on a display and never asked about: from its poll on ticks idle, then are refused, and only the end of the lease brings the input home |
| Witnesses.StarvationReachable | tv-multiview/src/coordinator.rs:283-298 | three concrete events from start-up reach a switch in which every tick from command deadline to request deadline, and none after, is due and does nothing |
| Witnesses.ShutdownReachable | tv-multiview/src/protocol.rs:823-834 | in a run the task can serve, a shutdown under a session is followed by ticks that are due and idle for ever |
| Coordinator.FailureAccepted | tv-multiview/src/coordinator.rs:442-455 | feeding back a lost effect is never refused, raises at most one safety command, and brings ownership home when the effect was current |
| Coordinator.DispatchTerminates | tv-multiview/src/coordinator.rs:420-457 | the worklist is empty after at most two offers per ordinary and one per other effect |
| Coordinator.DispatchConserved | tv-multiview/src/coordinator.rs:420-457 | every effect is pending, sent to its own queue or dropped, and only a lost ordinary effect adds another |
| Coordinator.DispatchSafe | tv-multiview/src/coordinator.rs:413-458 | for every pattern of full queues: conservation, invariant kept, state untouched unless an ordinary effect was lost, and then both owners at the server |
| Coordinator.DispatchIsRun | tv-multiview/src/coordinator.rs:446-450 | the failures fed back while dispatching extend the reducer's run at the same instant |
| Coordinator.EffectQueue.TrySend | tv-multiview/src/coordinator.rs:124-133 | succeeds exactly below capacity on an open channel, appends then, and leaves the gauge equal to the queue length |
| Coordinator.EffectQueue.Receive | tv-multiview/src/coordinator.rs:203-210 | takes the oldest effect and leaves the gauge equal to the queue length |
| Coordinator.Coordinator.NextRequest | tv-multiview/src/coordinator.rs:280-300 | a due deadline is always served first, then safety requests, then ordinary ones, each queue in order; the task stops when the next channel in line is closed and drained, and waits otherwise |
| Coordinator.Coordinator.Submit | tv-multiview/src/coordinator.rs:421-455 | offers one effect to its queue; the rejected-transition branch is unreachable |
| Coordinator.Coordinator.DispatchEffects | tv-multiview/src/coordinator.rs:413-458 | the loop drains the worklist as the answers of the queues dictate, whatever the consumers do |
| Coordinator.Coordinator.Serve | tv-multiview/src/coordinator.rs:301-341 | a refused event changes nothing; an accepted one extends the run, and a lost ordinary effect ends with both owners at the server |
| Coordinator.Coordinator.Turn | tv-multiview/src/coordinator.rs:280-341 | serves exactly the chosen event, a tick if and only if a deadline is due; its steps are disciplined, a due request without a session is closed, and an idling tick leaves state and both queues alone |
| Coordinator.Coordinator.WakeUp | tv-multiview/src/coordinator.rs:288-300 | a turn after the arrival of requests; an idling tick leaves them all waiting |
| Coordinator.Coordinator.RunTask | tv-multiview/src/coordinator.rs:279-341 | with requests arriving at every wake-up, what the task does is one disciplined run of the reducer in which no transaction opened without a session outlives its budget; once due ticks idle it takes nothing from either queue until idling ends |
| Coordinator.GaugeExact | tv-multiview/src/coordinator.rs:151-174 | however sends and receives interleave, the gauge counts queue plus operations in progress and never underflows |
| EdgeGate.EdgeIntentGate.Candidate | lan-mouse/src/switch.rs:73-93 | carries out the gate's candidate transition |
| EdgeGate.EdgeIntentGate.Retreat | lan-mouse/src/switch.rs:95-110 | carries out the gate's retreat transition |
| EdgeGate.EdgeIntentGate.Remove | lan-mouse/src/switch.rs:112-119 | forgets the intent of that handle only |
| EdgeGate.DoubleCrossing | lan-mouse/src/switch.rs:65-130 | in every call sequence a candidate is confirmed if and only if it is the second approach of its own priming, rearmed by a retreat, undisturbed, within the lifetime since the last retreat |
| EdgeGate.ConfirmedOnce | lan-mouse/src/switch.rs:75-81 | one priming confirms at most once |
| LeaseManager.BundleLeaseManager.Reserve | lan-mouse/src/switch.rs:201-241 | reserves only from local with a ready peer and fresh epoch, else leaves everything alone |
| LeaseManager.BundleLeaseManager.ArmGrant | lan-mouse/src/switch.rs:243-287 | arms only the exact preparation, clamped to the controller's lease; late or unready grants fall back to local |
| LeaseManager.BundleLeaseManager.Commit | lan-mouse/src/switch.rs:289-320 | takes remote ownership only for the armed handle, epoch and peer session before both expiries |
| LeaseManager.BundleLeaseManager.Renew | lan-mouse/src/switch.rs:322-352 | moves both deadlines of the owned request, or falls back to local |
| LeaseManager.BundleLeaseManager.Expire | lan-mouse/src/switch.rs:354-368 | gives up exactly when the deadline function has come due |
| LeaseManager.BundleLeaseManager.Invalidate | lan-mouse/src/switch.rs:370-378 | returns to local and hands back the context |
| LeaseManager.AcceptedLeavesTime | lan-mouse/src/switch.rs:264-351 | every accepted transition leaves time on the same lease: arming the earliest of three expiries, ownership no more, renewal exactly the new one |
| CaptureGate.CaptureGate.Arm | lan-mouse/src/capture.rs:700-720 | puts a permit up only for a newer lease epoch |
| CaptureGate.CaptureGate.Consume | lan-mouse/src/capture.rs:722-733 | hands out an unexpired permit of that handle once |
| CaptureGate.CaptureGate.Disarm | lan-mouse/src/capture.rs:735-742 | withdraws the permit of that lease epoch only |
| CaptureTask.CaptureTask.ReleaseCapture | lan-mouse/src/capture.rs:590-655 | local input returns first; then every held key goes up once, modifiers reset, leave, and one release report |
| CaptureTask.CaptureTask.HandleCaptureEvent | lan-mouse/src/capture.rs:484-588 | capture turns on only by a routed begin, a consumed unexpired permit and the service's yes; nothing sent is taken back, input goes only to the client that was active and acknowledged, and it fails exactly when the backend was asked for the local input and refused |
| CaptureTask.EventIsActs | lan-mouse/src/capture.rs:484-588 | handling one captured event is a path of the two-key system's acts (cross, ask, settle, let go, lose) with the same active client, peer session and gate, ending with a lost backend exactly when the handler fails |
| Hub.FailOk | lan-mouse/src/service.rs:1489-1554 | failing or deferring leaves the lease local, its permit withdrawn, the timer off and the invariant intact |
| Hub.ReactOk | lan-mouse/src/service.rs:1079-1594 | every handler keeps: timer set to the lease deadline, newest epochs, one current task, and that task fits the lease (preparing has its preparation, ownership its commit or renewal, a local lease none) |
| Hub.HubRunOk | lan-mouse/src/service.rs:279-296 | that invariant holds in every run of the handlers |
| Hub.DeadlineReleases | lan-mouse/src/service.rs:1454-1462 | the timer gives the lease up exactly when due, and asks an active capture to release first |
| Hub.PermitMatchesGrant | lan-mouse/src/service.rs:1213-1249 | a newly armed grant always has a permit for the same triple that runs out with it |
| Outcomes.CandidateOutcome | lan-mouse/src/service.rs:748-871 | a candidate reserves a new epoch if and only if the listed guard holds, else starts recovery or changes nothing |
| Outcomes.PreparedOutcome | lan-mouse/src/service.rs:1164-1249 | the current preparation's result arms grant and permit if and only if usable and otherwise closes the lease |
| Outcomes.AuthorizeOutcome | lan-mouse/src/service.rs:1251-1299 | the answer is yes if and only if the guard holds; every no leaves the lease local |
| Outcomes.CommitOutcome | lan-mouse/src/service.rs:587-603 | the same with the dropped answer, which surrenders the lease just taken |
| Outcomes.CommittedOutcome | lan-mouse/src/service.rs:1301-1364 | the confirmed lease is owned until exactly the confirmed time if and only if renewable, else closed |
| Outcomes.RenewedOutcome | lan-mouse/src/service.rs:1366-1412 | the lease is extended to exactly the new time if and only if renewable, else closed |
| Outcomes.PeerOutcome | lan-mouse/src/service.rs:1414-1434 | a peer report surrenders the lease if and only if its own peer is lost, and otherwise changes nothing |
| Outcomes.DeadlineOutcome | lan-mouse/src/service.rs:1454-1462 | the deadline handler surrenders the lease if and only if due, and otherwise changes nothing |
| Outcomes.ReleasedOutcome | lan-mouse/src/service.rs:619-644 | after a release a pending cleanup is started if and only if no other task runs, and without one the lease is closed |
| Outcomes.DeniedOutcome | lan-mouse/src/service.rs:604-618 | after a denial likewise, and only the denied lease is closed |
| Cleanups.OwesIff | lan-mouse/src/service.rs:1464-1594 | one input leaves an owed cancellation owed if and only if it neither completes, overwrites, forgets nor aborts it |
| Cleanups.CleanupKeptIff | lan-mouse/src/service.rs:1464-1594 | in every run a lease that is given up is owed its cancellation, and what is owed stays owed under exactly that condition |
| Cleanups.CleanupEnds | lan-mouse/src/service.rs:1464-1594 | over a whole run a cancellation that is no longer owed was completed or lost at some step, by one of the guards |
| Cleanups.RunPast | lan-mouse/src/service.rs:748-764 | in every run only leases older than the current one are owed a cancellation, and no lease is for the server itself |
| Cleanups.CleanupForgotten | lan-mouse/src/service.rs:1575-1579 | six inputs from start-up: the release finds another task and the first cancellation is gone |
| Cleanups.CleanupOverwritten | lan-mouse/src/service.rs:1530-1554 | seven inputs from start-up: a refused entry takes the place of the pending cancellation |
| Cleanups.CleanupAborted | lan-mouse/src/service.rs:1589-1594 | eight inputs from start-up: the running cancellation is cancelled for another lease |
| Service.SwitchService.HandleCandidate | lan-mouse/src/service.rs:748-871 | keeps the invariant; reserves exactly when idle, local and the peer ready: then a lease of a new epoch never armed before is preparing with its timer set; else at most recovery starts |
| Service.SwitchService.HandlePrepared | lan-mouse/src/service.rs:1164-1249 | keeps the invariant; a stale result changes nothing, the current one ends in an armed grant with a permit of the same triple and expiry exactly when usable, else in a closed lease without permit or timer |
| Service.SwitchService.AuthorizeClientEnter | lan-mouse/src/service.rs:1251-1299 | says yes exactly when that grant is armed with time left, the peer ready and no task running; then the lease is owned until the grant's own deadline, otherwise it is local |
| Service.SwitchService.HandleCommitRequested | lan-mouse/src/service.rs:587-603 | keeps the invariant; yes means remote ownership of that triple recorded as the capture in progress, unless the answer was dropped, and every other outcome leaves the lease local and its permit withdrawn |
| Service.SwitchService.HandleCommitted | lan-mouse/src/service.rs:1301-1364 | keeps the invariant; the current result owns the same lease until exactly the confirmed time under a renewal task, or finishes a return to the server, or closes the lease |
| Service.SwitchService.HandleRenewed | lan-mouse/src/service.rs:1366-1412 | keeps the invariant; the current result extends the same lease to exactly the new time while peer and lease last, or closes it |
| Service.SwitchService.HandlePeerReadinessChange | lan-mouse/src/service.rs:1414-1434 | keeps the invariant; the lease is given up exactly when its peer is gone, unready or on another session, and nothing else ever changes |
| Service.SwitchService.HandleSwitchDeadline | lan-mouse/src/service.rs:1454-1462 | keeps the invariant; the lease is given up exactly when its timer is due, and a call before that changes nothing at all |
| Service.SwitchService.HandleReleased | lan-mouse/src/service.rs:619-644 | keeps the invariant; no capture and no pending cleanup remain; a pending cleanup runs only if no task does, and without one the lease is closed |
| Service.SwitchService.HandleCommitDenied | lan-mouse/src/service.rs:604-618 | keeps the invariant; a pending cleanup is taken likewise, otherwise only the denied lease is closed |
| Service.SwitchService.FailContext | lan-mouse/src/service.rs:1489-1528 | restores the invariant with the lease local, its permit withdrawn and its timer off; active capture is released first, anything else cleaned up at once |
| Service.SwitchService.DeferFailure | lan-mouse/src/service.rs:1530-1554 | restores the invariant with the lease local, its permit withdrawn and its timer off, and leaves the cleanup pending |
| Service.SwitchService.ReleaseGateAfterCapture | lan-mouse/src/service.rs:1556-1573 | keeps the invariant; the lease is local, its timer off and its cleanup running |
| Service.SwitchService.FinishTask | lan-mouse/src/service.rs:1581-1587 | only the current task's own epoch finishes it |
| TwoKey.YesMeansOwned | lan-mouse/src/service.rs:1251-1299 | the service says yes only by moving the lease manager to remote ownership of exactly the permit's triple |
| TwoKey.TwoKeyCapture | lan-mouse/src/capture.rs:533-562 | over any run each activation follows a consumed unexpired permit and then a local commit of the same triple, and lease epochs of activations strictly increase |
| TwoKey.ActiveWasActivated | lan-mouse/src/capture.rs:559-562 | whenever capture is on, such an activation turned it on for that client and session |
| Backing.CaptureBacked | lan-mouse/src/service.rs:1489-1528 | in every run input is captured for a client only while the lease manager owns that client's lease, epoch and peer session, or a release request is on its way, unless the backend was lost under that client |
| Backing.LossUnbacks | lan-mouse/src/capture.rs:291-345 | from every state with a lost backend and an active client some continuation captures input for that client without lease, permit or release |
| Backing.LossReachable | lan-mouse/src/capture.rs:358-366 | a concrete run from start-up loses the backend under an active client |
| Authority.StepKeepsPromise | tv-multiview/src/protocol.rs:898-911 | no event but a new create of the same id shortens what the controller honours, short of releasing it |
| Authority.StepKeepsBounds | tv-multiview/src/protocol.rs:512-537 | no lease reaches further than one lease time, and a session never ends before its archived record says |
| Authority.ReadHonoured | tv-multiview/src/http.rs:534-551 | an expiry shown in a response is honoured at that moment |
| Authority.RenewalAnswersOwn | tv-multiview/src/http.rs:406-425 | a session left by an accepted renewal is the renewed one |
| Ownership.LocalDeadline | lan-mouse/src/switch.rs:904-916 | maps the remaining remote time onto the request's start, or reports a timeout |
| Ownership.ReactOwes | lan-mouse/src/switch.rs:264-351 | a hub deadline is kept, or taken from the response at hand, for the lease it holds |
| Ownership.NextOk | lan-mouse/src/switch.rs:548-731 | every step of hub, controller, clock or network, creates repeated at any time included, keeps the composed invariant |
| Ownership.RemoteOwnershipBounded | lan-mouse/src/switch.rs:904-916 | in every composed run the hub's remote deadline, on the controller's clock, is at most the controller's current grant or session expiry, unless already released or created again after eviction |
| Ownership.RecreationBreaksIff | tv-multiview/src/protocol.rs:281-354 | a create repeated after eviction breaks that bound if and only if it reopens the request without an immediate grant that lasts long enough |
| EventQueue.EventQueue.Push | lan-mouse/input-capture/src/event_queue.rs:53-82 | overflows exactly when closed, overflowed or out of critical room; otherwise coalesces and stays within bounds |
| EventQueue.EventQueue.Poll | lan-mouse/input-capture/src/event_queue.rs:84-101 | reports an overflow once, then events in order, then closed |
| EventQueue.EventQueue.Close | lan-mouse/input-capture/src/event_queue.rs:103-106 | closes without touching queued events |
| EventQueue.ThinsKeeps | lan-mouse/input-capture/src/event_queue.rs:58-70 | coalescing loses no critical event, keeps their order and keeps the last motion of every run |
| EventQueue.LengthBound | lan-mouse/input-capture/src/event_queue.rs:13-15 | without adjacent motions the length is at most twice the critical events plus one |
| EventQueue.Conservation | lan-mouse/input-capture/src/event_queue.rs:53-101 | delivered followed by queued holds exactly the pushed critical events in order and the last motion of every run |
| Emulation.InputEmulation.Consume | lan-mouse/input-emulation/src/lib.rs:157-180 | passes a key or button event on exactly when it changes a switch of a known client |
| Emulation.InputEmulation.Create | lan-mouse/input-emulation/src/lib.rs:188-197 | registers an unknown client with nothing pressed |
| Emulation.InputEmulation.ReleaseInputs | lan-mouse/input-emulation/src/lib.rs:215-262 | releases every held switch of the client and no other, even when the backend fails |
| Emulation.InputEmulation.Destroy | lan-mouse/input-emulation/src/lib.rs:199-206 | leaves nothing of the client pressed and other clients untouched |
| Emulation.InputEmulation.Terminate | lan-mouse/input-emulation/src/lib.rs:208-213 | leaves nothing pressed at all |
| Emulation.InputEmulation.UpdatePressedKeys | lan-mouse/input-emulation/src/lib.rs:278-292 | tracks the key and says whether it changed |
| Emulation.InputEmulation.UpdatePressedButton | lan-mouse/input-emulation/src/lib.rs:264-274 | tracks the button and says whether it changed |
| Emulation.NoDoublePress | lan-mouse/input-emulation/src/lib.rs:163-169 | between two forwarded presses of a switch there is a release |
| Emulation.NoDoubleRelease | lan-mouse/input-emulation/src/lib.rs:163-169 | between two forwarded releases of a switch there is a press |

## Left out

- The reducer's field updates through `&mut` helpers are functions on a draft; order inside one event is kept, in-place update is not.
- `last_error`, `reconnect_total` and `dropped_logs` of the controller state are dropped, and failure reasons are values, not strings; switch counters and the choice of a reason are modelled without a claim about them.
- Clipboard handoff, SSAP transport, HTTP routing, authentication and JSON, DTLS, DNS, native backends, configuration, notifications, logging and metrics.
- Deadlines.BoundedTransaction: assumes that a due request deadline is served by a tick before other events; Coordinator.Coordinator.RunTask shows it of the task's own runs.
- Ownership.RemoteOwnershipBounded: assumes fresh random request ids and lease times capped as the create endpoint does; the clock offset is constant, so a run lies between two configuration reloads of the hub.
- Hub handlers read the clock once, and the counter of switch tasks does not run out.
- Manual-recovery requests of the hub are a task without further effect on the hub's state.
- EventQueue wakers and the mutex, and Emulation's pointer centring and error polling.
- TwoKey models the capture task's event loop on values; its other reports (candidates, readiness, retreats) reach the service at any time instead of in line, and CaptureTask has its two central methods as an object.
- Coordinator: the sleep until the next deadline is a sequence of wake-up times, the clock is read once per turn, and request channels have no capacity limit.
