/** Remote ownership: exactly when it starts, how long it lasts and what the history says of it. */
module Sessions {
  import opened Domain
  import opened Protocol
  import opened Invariant
  import opened Runs
  import opened Epochs
  import opened Transactions

  // ---------------------------------------------------------------- commit

  /** All identities match, grant and lease are unexpired, the peer is ready for both inputs and a
      routed target is on screen under the grant's epoch. */
  predicate CommitAuthorized(s: State, e: Event, now: u64)
    requires e.Commit?
  {
    && s.activeRequest.Some?
    && var request := s.activeRequest.value;
    && request.status == StGrant
    && request.grant.Some?
    && request.target != s.server
    && request.requestId == e.requestId
    && request.requestEpoch == e.requestEpoch
    && request.lease.leaseId == e.leaseId
    && request.lease.leaseEpoch == e.leaseEpoch
    && request.grant.value.grantEpoch == e.grantEpoch
    && now < request.grant.value.expiresAt
    && now < request.lease.expiresAt
    && s.PeerReady(request.target, request.lease.peerSessionEpoch)
    && (s.HasDisplayRoute(request.target) ==>
          TargetDisplayVerified(s, request.target, request.grant.value.switchEpoch))
  }

  /** A session on a host with a display route. */
  predicate OnDisplay(s: State) {
    s.activeSession.Some? && s.HasDisplayRoute(s.activeSession.value.target)
  }

  predicate OwnedBy(s: State, host: Host) {
    s.keyboardOwner == host && s.pointerOwner == host
  }

  lemma NotCommitted(s: State, id: string)
    requires !InHistory(s.history, id)
    ensures FindCommitted(s.history, id) < 0
  {
  }

  lemma TransferChecked(s: State, now: u64, t: Timing)
    requires Inv(s) && s.activeRequest.Some? && s.activeRequest.value.status == StGrant
    requires s.activeRequest.value.target != s.server
    requires t.leaseMs > 0 && now < U64_MAX
    requires s.PeerReady(s.activeRequest.value.target, s.activeRequest.value.lease.peerSessionEpoch)
    ensures var request := s.activeRequest.value;
      Validate(Transfer(s, request, now, t), now).None? <==>
        (s.HasDisplayRoute(request.target) ==> TargetDisplayVerified(s, request.target, s.switchEpoch))
  {
  }

  /** What a commit proposes when every identity matches and the peer is ready. */
  lemma CommitProposes(s: State, e: Event, now: u64, t: Timing)
    requires Inv(s) && e.Commit? && s.activeRequest.Some?
    requires var request := s.activeRequest.value;
      && request.status == StGrant
      && request.requestId == e.requestId && request.requestEpoch == e.requestEpoch
      && request.lease.leaseId == e.leaseId && request.lease.leaseEpoch == e.leaseEpoch
      && request.grant.value.grantEpoch == e.grantEpoch
      && now < request.grant.value.expiresAt && now < request.lease.expiresAt
      && s.PeerReady(request.target, request.lease.peerSessionEpoch)
    ensures Decide(s, e, now, t) == Propose(Draft(Transfer(s, s.activeRequest.value, now, t), []))
  {
    NotCommitted(s, e.requestId);
  }

  lemma AuthorizedCommitMoves(s: State, e: Event, now: u64, t: Timing)
    requires Inv(s) && e.Commit? && CommitAuthorized(s, e, now) && t.leaseMs > 0 && now < U64_MAX
    ensures Apply(s, e, now, t) == Accepted(Transfer(s, s.activeRequest.value, now, t), [])
    ensures OwnedBy(Transfer(s, s.activeRequest.value, now, t), s.activeRequest.value.target)
  {
    CommitProposes(s, e, now, t);
    TransferChecked(s, now, t);
  }

  /** A commit that leaves a remote owner behind was authorized. */
  lemma CommitOnlyAuthorized(s: State, e: Event, now: u64, t: Timing)
    requires Inv(s) && s.activeSession.None? && e.Commit? && t.leaseMs > 0 && now < U64_MAX
    requires Apply(s, e, now, t).Accepted? && !OwnersHome(Apply(s, e, now, t).next)
    ensures CommitAuthorized(s, e, now)
  {
    if FindCommitted(s.history, e.requestId) < 0 && s.activeRequest.Some? {
      var request := s.activeRequest.value;
      if request.status == StGrant && request.target != s.server {
        if s.PeerReady(request.target, request.lease.peerSessionEpoch) {
          TransferChecked(s, now, t);
        } else {
          GoodFallback(s, Draft(s, []), now, t, ReadinessLostBeforeCommit);
        }
      }
    }
  }

  /** Commit exactness: from a reachable session-free state a commit moves both owners to a remote
      host if and only if it is authorized, and then to the request's own target. */
  lemma CommitExact(s: State, e: Event, now: u64, t: Timing)
    requires Reachable(s, t) && s.activeSession.None? && e.Commit? && t.leaseMs > 0 && now < U64_MAX
    ensures var o := Apply(s, e, now, t);
      && ((o.Accepted? && !OwnersHome(o.next)) <==> CommitAuthorized(s, e, now))
      && (o.Accepted? && !OwnersHome(o.next) ==> OwnedBy(o.next, s.activeRequest.value.target) && o.effects == [])
  {
    ReachableInv(s, t);
    if CommitAuthorized(s, e, now) {
      AuthorizedCommitMoves(s, e, now, t);
    } else if Apply(s, e, now, t).Accepted? && !OwnersHome(Apply(s, e, now, t).next) {
      CommitOnlyAuthorized(s, e, now, t);
    }
  }

  // ---------------------------------------------------------------- tick

  /** Past expiry, a tick either releases the session or leaves it settled and unexpired. */
  lemma TickKeepsSession(d: Draft, now: u64, t: Timing)
    requires Inv(d.state)
    ensures AfterExpiry(d, now, t).Propose?
    ensures var r := AfterExpiry(d, now, t).draft.state;
      r.activeSession.None? || (Settled(r) && !r.activeSession.value.ExpiredAt(now))
    ensures d.state.activeSession.Some? && d.state.activeSession.value.ExpiredAt(now) ==>
      OwnersHome(AfterExpiry(d, now, t).draft.state)
  {
    var next := d.state;
    if next.activeSession.Some? && next.activeSession.value.ExpiredAt(now) {
      SessionFailureReleases(d, now, t, ActiveLeaseExpired);
    } else if next.phase == RemoteOwned && next.observationInFlight.None? && Due(next.nextSignalPoll, now) {
      assert Settled(RequestObservation(d, now, t, next.activeSession.value.switchEpoch).state);
    } else if next.observationInFlight.Some? && Due(next.phaseDeadline, now) {
      SessionFailureReleases(d, now, t, VerificationTimeoutReason(next));
      FallbackReleases(d, now, t, VerificationTimeoutReason(next));
    } else if next.phase == Verifying && Due(next.phaseDeadline, now) {
      FallbackReleases(d, now, t, VerificationTimeoutReason(next));
    } else if next.phase == MultiviewChanging && Due(next.phaseDeadline, now) {
      FallbackReleases(d, now, t, MultiviewTimeout);
    }
  }

  lemma TickStepChecked(d: Draft, now: u64, t: Timing)
    requires Inv(d.state)
    ensures AfterExpiry(d, now, t).Propose?
    ensures Validate(AfterExpiry(d, now, t).draft.state, now).None?
    ensures OwnersHome(d.state) ==> OwnersHome(AfterExpiry(d, now, t).draft.state)
  {
    TickKeepsSession(d, now, t);
    GoodAfterExpiry(d.state, d, now, t);
    var r := AfterExpiry(d, now, t).draft.state;
    if Core(r) {
      ValidateCore(r, now);
    }
  }

  /** Tick is refused in exactly one situation: a waking request is due while a session is still live. */
  lemma TickRefusedIff(s: State, now: u64, t: Timing)
    requires Reachable(s, t)
    ensures !Apply(s, Tick, now, t).Accepted? <==> WakeExpiryBlocked(s, now)
    ensures WakeExpiryBlocked(s, now) ==>
      Apply(s, Tick, now, t) == Rejected(Invariant(ManualRecoveryWhileInputActive))
  {
    ReachableInv(s, t);
    TickChecked(s, now, t);
  }

  lemma BlockedDraftRefused(s: State, now: u64)
    requires Inv(s) && WakeExpiryBlocked(s, now)
    ensures Validate(DropWaking(s, s.activeRequest.value, StExpired, RequestDeadline), now)
      == Some(ManualRecoveryWhileInputActive)
  {
  }

  lemma TickPlanChecked(s: State, now: u64, t: Timing)
    requires Inv(s)
    ensures OnTick(s, now, t).Propose?
    ensures Validate(OnTick(s, now, t).draft.state, now) ==
      if WakeExpiryBlocked(s, now) then Some(ManualRecoveryWhileInputActive) else None
    ensures s.activeSession.Some? && s.activeSession.value.ExpiredAt(now) ==>
      OwnersHome(OnTick(s, now, t).draft.state)
  {
    if s.activeSession.Some? && s.activeRequest.Some? && s.activeRequest.value.deadline <= now
       && s.activeRequest.value.status == StWaking {
      TickUnderSession(s, now, t);
      if WakeExpiryBlocked(s, now) {
        BlockedDraftRefused(s, now);
      } else {
        ValidateCore(OnTick(s, now, t).draft.state, now);
      }
    } else {
      var d := ExpireRequest(s, now, t);
      ExpiredInv(s, now, t);
      TickStepChecked(d, now, t);
      TickKeepsSession(d, now, t);
    }
  }

  lemma TickChecked(s: State, now: u64, t: Timing)
    requires Inv(s)
    ensures !Apply(s, Tick, now, t).Accepted? <==> WakeExpiryBlocked(s, now)
    ensures WakeExpiryBlocked(s, now) ==>
      Apply(s, Tick, now, t) == Rejected(Invariant(ManualRecoveryWhileInputActive))
    ensures s.activeSession.Some? && s.activeSession.value.ExpiredAt(now) ==>
      Apply(s, Tick, now, t).Accepted? && OwnersHome(Apply(s, Tick, now, t).next)
  {
    TickPlanChecked(s, now, t);
    TickCarriedOut(s, now, t);
  }

  /** A tick that is not refused carries out what it proposes. */
  lemma TickCarriedOut(s: State, now: u64, t: Timing)
    requires Inv(s)
    ensures OnTick(s, now, t).Propose?
    ensures var d := OnTick(s, now, t).draft;
      Apply(s, Tick, now, t) ==
        if WakeExpiryBlocked(s, now) then Rejected(Invariant(ManualRecoveryWhileInputActive))
        else Accepted(d.state, d.effects)
  {
    TickPlanChecked(s, now, t);
    TickOutcome(s, now, t, OnTick(s, now, t));
  }

  lemma TickOutcome(s: State, now: u64, t: Timing, p: Plan)
    requires p == OnTick(s, now, t) && p.Propose?
    ensures Apply(s, Tick, now, t) == Validated(p.draft, now)
  {
  }

  lemma ExpiredInv(s: State, now: u64, t: Timing)
    requires Inv(s)
    requires s.activeSession.Some? && s.activeRequest.Some? && s.activeRequest.value.deadline <= now ==>
      s.activeRequest.value.status != StWaking
    ensures var d := ExpireRequest(s, now, t);
      Inv(d.state) && (d.state.activeSession == s.activeSession || OwnersHome(d.state))
  {
    ExpireRequestCore(s, now, t);
  }

  // ---------------------------------------------------------------- lease

  /** An accepted renewal, or an accepted commit of the active request. */
  ghost predicate LeaseEvent(step: Step, t: Timing) {
    && Apply(step.pre, step.event, step.now, t).Accepted?
    && (step.event.Renew?
        || (step.event.Commit? && step.pre.activeRequest.Some?
            && step.pre.activeRequest.value.requestId == step.event.requestId))
  }

  /** When the live session was last committed or renewed. */
  ghost function LeaseStamp(run: seq<Step>, t: Timing): Option<u64> {
    if run == [] then None
    else
      var last := run[|run| - 1];
      if last.post.activeSession.None? then None
      else if LeaseEvent(last, t) then Some(last.now)
      else LeaseStamp(run[..|run| - 1], t)
  }

  ghost predicate LeasedUntil(s: State, until: u64) {
    s.activeSession.Some? ==>
      s.activeSession.value.renewedUntil == until && s.activeSession.value.lease.expiresAt == until
  }

  lemma RenewStamps(s: State, e: Event, now: u64, t: Timing)
    requires e.Renew?
    ensures LeasedUntil(
      OnRenew(s, e.requestId, e.leaseId, e.leaseEpoch, e.peerSessionEpoch, now, t).state, SatAdd(now, t.leaseMs))
  {
    SessionFailureReleases(Draft(s, []), now, t, LeaseRenewalRejected);
  }

  lemma CommitStamps(s: State, e: Event, now: u64, t: Timing)
    requires Inv(s) && e.Commit? && s.activeRequest.Some? && s.activeRequest.value.requestId == e.requestId
    ensures var p := OnCommit(s, e.requestId, e.requestEpoch, e.grantEpoch, e.leaseId, e.leaseEpoch, now, t);
      p.Propose? ==> LeasedUntil(p.draft.state, SatAdd(now, t.leaseMs))
  {
    NotCommitted(s, e.requestId);
    FallbackReleases(Draft(s, []), now, t, ReadinessLostBeforeCommit);
  }

  lemma LeaseEventStamps(step: Step, t: Timing)
    requires IsStep(step, t) && Inv(step.pre) && LeaseEvent(step, t)
    ensures LeasedUntil(step.post, SatAdd(step.now, t.leaseMs))
  {
    StepOutcome(step, t);
    if step.event.Renew? {
      RenewStamps(step.pre, step.event, step.now, t);
    } else {
      CommitStamps(step.pre, step.event, step.now, t);
    }
  }

  /** Any other step keeps the session as it was or drops it. */
  lemma OtherStepsKeepLease(step: Step, t: Timing)
    requires IsStep(step, t) && Inv(step.pre) && !LeaseEvent(step, t)
    ensures step.post.activeSession.None? || step.post.activeSession == step.pre.activeSession
  {
    StepOutcome(step, t);
    StepMoves(step, t);
  }

  /** A live session expires exactly one lease after its latest commit or renewal. */
  lemma {:induction false} LeaseFresh(start: State, run: seq<Step>, t: Timing)
    requires IsRun(start, run, t) && Inv(start) && start.activeSession.None?
    ensures var s := End(start, run);
      s.activeSession.Some? ==>
        LeaseStamp(run, t).Some? && LeasedUntil(s, SatAdd(LeaseStamp(run, t).value, t.leaseMs))
  {
    if run != [] {
      var front, last := run[..|run| - 1], run[|run| - 1];
      LeaseFresh(start, front, t);
      RunInv(start, front, t);
      if LeaseEvent(last, t) {
        LeaseEventStamps(last, t);
      } else {
        OtherStepsKeepLease(last, t);
      }
    }
  }

  /** From the moment the lease runs out a tick is never refused and brings both owners home. */
  lemma ExpiredLeaseReturns(start: State, run: seq<Step>, t: Timing, now: u64)
    requires IsRun(start, run, t) && Inv(start) && start.activeSession.None?
    requires End(start, run).activeSession.Some?
    ensures LeaseStamp(run, t).Some?
    ensures SatAdd(LeaseStamp(run, t).value, t.leaseMs) <= now ==>
      var o := Apply(End(start, run), Tick, now, t); o.Accepted? && OwnersHome(o.next)
  {
    LeaseFresh(start, run, t);
    RunInv(start, run, t);
    TickChecked(End(start, run), now, t);
  }

  // ---------------------------------------------------------------- history

  /** The history is bounded with one entry per id, none of them active, and the newest entry is the
      live session's own, still committed. */
  lemma SessionMatchesHistory(s: State, t: Timing)
    requires Reachable(s, t)
    ensures |s.history| <= s.retainedLimit && DistinctIds(s.history)
    ensures s.activeRequest.Some? ==> !InHistory(s.history, s.activeRequest.value.requestId)
    ensures s.activeSession.Some? ==>
      && |s.history| > 0
      && FindLast(s.history, s.activeSession.value.requestId) == |s.history| - 1
      && s.history[|s.history| - 1].status == StCommitted
      && s.history[|s.history| - 1].target == s.activeSession.value.target
  {
    ReachableInv(s, t);
  }

  /** Cancelling the live session is never refused, and brings both owners home. */
  lemma CancelLiveSession(s: State, why: string, now: u64, t: Timing)
    requires Reachable(s, t) && s.activeSession.Some?
    ensures var o := Apply(s, Cancel(s.activeSession.value.requestId, why), now, t);
      o.Accepted? && OwnersHome(o.next) && o.next.activeSession.None? && o.next.activeRequest.None?
  {
    ReachableInv(s, t);
    var id := s.activeSession.value.requestId;
    var i := FindLast(s.history, id);
    assert i == |s.history| - 1;
    assert !CancelSettled(s.history, id);
    MarkCancelledClosable(s, i, Given(why));
    var d := Draft(MarkCancelled(s, i, Given(why)), []);
    GoodFallback(s, d, now, t, Given(why));
    FallbackReleases(d, now, t, Given(why));
    ValidateCore(BeginFallback(d, now, t, Given(why)).state, now);
  }

  // ---------------------------------------------------------------- hand-over

  /** A request that moves the television beside a live session does so under a newer epoch. */
  ghost predicate NewerThanSession(s: State) {
    s.activeSession.Some? && s.activeRequest.Some? && s.activeRequest.value.switchEpoch.Some? ==>
      s.activeSession.value.switchEpoch < s.switchEpoch || s.switchEpoch == U64_MAX
  }

  lemma MoveKeepsNewer(s: State, e: Event, now: u64, t: Timing, d: Draft)
    requires Moves(s, e, now, t, d) && NewerThanSession(s) && s.switchEpoch <= d.state.switchEpoch
    requires s.activeSession.Some? ==> s.activeSession.value.switchEpoch <= s.switchEpoch
    requires d.state.activeRequest.Some? && d.state.activeRequest.value.status == StWaking ==>
      d.state.activeRequest.value.switchEpoch.None?
    requires s.activeRequest.Some? && s.activeRequest.value.status == StSwitching ==>
      s.activeRequest.value.switchEpoch.Some?
    ensures NewerThanSession(d.state)
  {
  }

  lemma {:induction false} RunKeepsNewer(start: State, run: seq<Step>, t: Timing)
    requires IsRun(start, run, t) && Inv(start) && start.activeSession.None?
    ensures NewerThanSession(End(start, run))
  {
    if run != [] {
      var front, last := run[..|run| - 1], run[|run| - 1];
      RunKeepsNewer(start, front, t);
      RunInv(start, front, t);
      StepInv(last, t);
      StepMoves(last, t);
      StepOrderly(last, t);
      MoveKeepsNewer(last.pre, last.event, last.now, t, Draft(last.post, last.effects));
    }
  }

  /** Beside a live session on a display no request is ever granted, below saturation. */
  lemma NoGrantBesideDisplay(start: State, run: seq<Step>, t: Timing)
    requires IsRun(start, run, t) && Inv(start) && start.activeSession.None?
    ensures var s := End(start, run);
      OnDisplay(s) && s.switchEpoch < U64_MAX ==>
        s.activeRequest.None? || s.activeRequest.value.status != StGrant
  {
    RunKeepsNewer(start, run, t);
    RunInv(start, run, t);
  }

  /** A hand-over waits: when a step of a run puts one session in place of another, the old one was
      not on a display, below saturation. */
  lemma HandOverWaits(start: State, front: seq<Step>, last: Step, t: Timing)
    requires IsRun(start, front, t) && Inv(start) && start.activeSession.None?
    requires last.pre == End(start, front) && IsStep(last, t)
    requires last.pre.activeSession.Some? && last.post.activeSession.Some?
    requires last.pre.activeSession.value.requestId != last.post.activeSession.value.requestId
    ensures last.pre.switchEpoch == U64_MAX || !last.pre.HasDisplayRoute(last.pre.activeSession.value.target)
  {
    RunInv(start, front, t);
    StepMoves(last, t);
    NoGrantBesideDisplay(start, front, t);
  }
}
