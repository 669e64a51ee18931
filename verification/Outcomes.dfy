/** What each handler of the hub service comes to, in any state the service can be in. */
module Outcomes {
  import opened Domain
  import opened LeaseManager
  import opened CaptureGate
  import opened Hub

  /** The lease is gone, its timer is off and its controller request is being cancelled. */
  ghost predicate Closed(h: HubState, context: GateContext, r: HubState) {
    && r.manager == h.manager.Released() && r.timer == None
    && r.task == Some(Task(h.nextTask + 1, CleanupTask(context))) && r.releasesSent == h.releasesSent
  }

  /** Fail closed: no lease, no permit, no timer. Under active capture the release comes first. */
  ghost predicate Surrendered(h: HubState, context: GateContext, r: HubState) {
    && !Permits(r.gate, context) && r.capturing == h.capturing
    && if h.capturing == Some((context.handle, context.lease.leaseEpoch)) then
         && r.manager == h.manager.Released() && r.timer == None && r.task == None
         && r.gate.armed == None && r.cleanup == Some(context) && r.releasesSent == h.releasesSent + 1
       else Closed(h, context, r) && r.cleanup == h.cleanup
  }

  /** Fail closed, and leave the cleanup to the capture task's release. */
  ghost predicate Deferred(h: HubState, context: GateContext, r: HubState) {
    && r.manager == h.manager.Released() && r.timer == None && r.task == None
    && !Permits(r.gate, context) && r.cleanup == Some(context) && r.capturing == h.capturing
    && r.releasesSent == h.releasesSent
  }

  predicate ReadyFor(peer: Option<Peer>, sessionEpoch: u64) {
    peer.Some? && peer.value.ready && peer.value.sessionEpoch == sessionEpoch
  }

  // ---------------------------------------------------------------- reserving

  predicate Reservable(
    h: HubState, target: Host, requestId: string, leaseId: string, peer: Option<Peer>, now: u64, ttl: u64,
    server: Host)
  {
    && target != server && h.task.None? && h.manager.state.Local?
    && peer.Some? && peer.value.ready && peer.value.sessionEpoch != 0
    && requestId != "" && leaseId != "" && 0 < ttl
    && now + ttl <= U64_MAX && h.manager.nextLeaseEpoch < U64_MAX
  }

  predicate NeedsRecovery(h: HubState, target: Host, peer: Option<Peer>, server: Host) {
    && target != server && h.task.None?
    && (|| peer.None?
        || (h.manager.state.Local? && (!peer.value.ready || peer.value.sessionEpoch == 0)))
  }

  /** A lease of a new epoch is being prepared, and no permit was ever armed for it. */
  ghost predicate Reserved(h: HubState, lease: BundleLease, context: GateContext, r: HubState) {
    && context.lease == lease && lease.leaseEpoch == h.manager.nextLeaseEpoch + 1 && h.gate.lastEpoch < lease.leaseEpoch
    && r.manager == Manager(Preparing(context), lease.leaseEpoch) && r.timer == Some(lease.expiresAt)
    && r.task == Some(Task(h.nextTask + 1, PrepareTask(context)))
    && r.gate == h.gate && r.capturing == h.capturing && r.cleanup == h.cleanup && r.releasesSent == h.releasesSent
  }

  lemma CandidateOutcome(
    h: HubState, handle: nat, target: Host, requestId: string, leaseId: string, peer: Option<Peer>,
    now: u64, ttl: u64, server: Host, horizon: nat)
    requires HubOk(h)
    ensures var r :=
        React(h, CandidateInput(handle, target, requestId, leaseId, peer, now, ttl), server, horizon);
      if Reservable(h, target, requestId, leaseId, peer, now, ttl, server) then
        var lease := BundleLease(
          requestId, leaseId, h.manager.nextLeaseEpoch + 1, peer.value.sessionEpoch, now + ttl);
        Reserved(h, lease, GateContext(handle, target, lease), r)
      else if NeedsRecovery(h, target, peer, server) then r == h.Begin(RecoveryTask)
      else r == h
  {
  }

  // ---------------------------------------------------------------- arming

  predicate Grantable(context: GateContext, result: Option<Prepared>, peer: Option<Peer>, now: u64) {
    && result.Some? && ReadyFor(peer, context.lease.peerSessionEpoch)
    && now < context.lease.expiresAt && now < result.value.leaseExpires && now < result.value.grant.expiresAt
    && result.value.grant.requestEpoch != 0 && result.value.grant.grantEpoch != 0
  }

  /** The grant is armed until the earliest of the three expiries, and so is the permit; a return to the
      server commits at once. */
  ghost predicate Armed(
    h: HubState, context: GateContext, p: Prepared, server: Host, horizon: nat, r: HubState)
  {
    && r.manager.state.GrantArmed? && r.Holds(context)
    && r.capturing == h.capturing && r.cleanup == h.cleanup && r.releasesSent == h.releasesSent
    && var until := Min(Min(context.lease.expiresAt, p.leaseExpires), p.grant.expiresAt);
    && r.timer == Some(until)
    && if context.target == server then
         r.gate == h.gate && r.task == Some(Task(h.nextTask + 1, CommitTask(r.manager.state.context)))
       else
         && r.task == None
         && if until > horizon then r.gate == h.gate
            else r.gate.armed == Some(Permit(
                   context.handle, context.lease.leaseEpoch, context.lease.peerSessionEpoch, until))
  }

  /** A running preparation always finds its lease, so its result is a grant or a closed lease. */
  lemma PreparedOutcome(
    h: HubState, epoch: nat, context: GateContext, result: Option<Prepared>, peer: Option<Peer>,
    server: Host, now: u64, horizon: nat)
    requires HubOk(h) && Genuine(h, PreparedInput(epoch, context, result, peer, now))
    ensures var r := h.OnPrepared(epoch, context, result, peer, server, now, horizon);
      if !h.Running(epoch) then r == h
      else if Grantable(context, result, peer, now) then Armed(h, context, result.value, server, horizon, r)
      else Surrendered(h, context, r)
  {
  }

  // ---------------------------------------------------------------- entering

  /** The armed grant is this one, has time left, and nothing else is going on. */
  predicate Enterable(
    h: HubState, handle: nat, leaseEpoch: u64, peerEpoch: u64, peer: Option<Peer>, now: u64)
  {
    && h.manager.state.GrantArmed? && h.task.None?
    && h.manager.state.context.handle == handle
    && h.manager.state.context.lease.leaseEpoch == leaseEpoch
    && h.manager.state.context.lease.peerSessionEpoch == peerEpoch
    && ReadyFor(peer, peerEpoch) && now < h.manager.Deadline().value
  }

  /** The lease is owned remotely for no longer than the grant it came from. */
  ghost predicate Entered(h: HubState, r: HubState) {
    && r.manager.state.RemoteOwned? && r.manager.Context() == h.manager.Context()
    && r.timer == h.timer && r.gate == h.gate && r.cleanup == h.cleanup && r.releasesSent == h.releasesSent
    && r.task == Some(Task(h.nextTask + 1, CommitTask(r.manager.state.context)))
  }

  lemma AuthorizeOutcome(
    h: HubState, handle: nat, leaseEpoch: u64, peerEpoch: u64, peer: Option<Peer>, now: u64)
    requires HubOk(h)
    ensures var (r, ok) := h.Authorize(handle, leaseEpoch, peerEpoch, peer, now);
      && ok == Enterable(h, handle, leaseEpoch, peerEpoch, peer, now)
      && if ok then Entered(h, r) && r.capturing == h.capturing
         else if h.manager.state.Local? then r == h
         else Deferred(h, h.manager.state.context, r)
  {
  }

  lemma CommitOutcome(
    h: HubState, handle: nat, leaseEpoch: u64, peerEpoch: u64, peer: Option<Peer>, now: u64, listening: bool)
    requires HubOk(h)
    ensures var (r, ok) := h.CommitRequested(handle, leaseEpoch, peerEpoch, peer, now, listening);
      && ok == Enterable(h, handle, leaseEpoch, peerEpoch, peer, now)
      && if ok && listening then Entered(h, r) && r.capturing == Some((handle, leaseEpoch))
         else if ok then Surrendered(h.(capturing := Some((handle, leaseEpoch))), h.manager.state.context, r)
         else if h.manager.state.Local? then r == h
         else Deferred(h, h.manager.state.context, r)
  {
    AuthorizeOutcome(h, handle, leaseEpoch, peerEpoch, peer, now);
  }

  // ---------------------------------------------------------------- renewing

  predicate Renewable(h: HubState, until: Option<u64>, peer: Option<Peer>, now: u64) {
    && h.manager.state.RemoteOwned? && until.Some? && now < until.value
    && now < h.manager.state.context.lease.expiresAt
    && ReadyFor(peer, h.manager.state.context.lease.peerSessionEpoch)
  }

  /** The same lease, owned until exactly `until`. */
  ghost predicate Extended(h: HubState, until: u64, r: HubState)
    requires h.manager.state.RemoteOwned?
  {
    && r.manager.state.RemoteOwned? && r.Holds(h.manager.state.context) && r.timer == Some(until)
    && r.gate == h.gate && r.capturing == h.capturing && r.cleanup == h.cleanup && r.releasesSent == h.releasesSent
  }

  lemma CommittedOutcome(
    h: HubState, epoch: nat, context: GateContext, until: Option<u64>, peer: Option<Peer>, server: Host, now: u64)
    requires HubOk(h) && Genuine(h, CommittedInput(epoch, context, until, peer, now))
    ensures var r := h.OnCommitted(epoch, context, until, peer, server, now);
      if !h.Running(epoch) then r == h
      else if context.target == server && until.Some? then
        r == h.(manager := h.manager.Released(), timer := None, task := None)
      else if Renewable(h, until, peer, now) then
        && Extended(h, until.value, r)
        && r.task == Some(Task(h.nextTask + 1, RenewalTask(r.manager.state.context)))
      else Surrendered(h, context, r)
  {
  }

  lemma RenewedOutcome(
    h: HubState, epoch: nat, context: GateContext, until: Option<u64>, peer: Option<Peer>, now: u64)
    requires HubOk(h) && Genuine(h, RenewedInput(epoch, context, until, peer, now))
    ensures var r := h.OnRenewed(epoch, context, until, peer, now);
      if !h.Running(epoch) then r == h
      else if Renewable(h, until, peer, now) then Extended(h, until.value, r) && r.task == h.task
      else Surrendered(h, if until.None? then h.manager.state.context else context, r)
  {
  }

  // ---------------------------------------------------------------- losing

  predicate PeerLost(h: HubState, handle: nat, peer: Option<Peer>) {
    && !h.manager.state.Local? && h.manager.state.context.handle == handle
    && !ReadyFor(peer, h.manager.state.context.lease.peerSessionEpoch)
  }

  lemma PeerOutcome(h: HubState, handle: nat, peer: Option<Peer>)
    requires HubOk(h)
    ensures var r := h.OnPeerChanged(handle, peer);
      if PeerLost(h, handle, peer) then Surrendered(h, h.manager.state.context, r) else r == h
  {
  }

  predicate Due(h: HubState, now: u64) {
    h.timer.Some? && h.timer.value <= now
  }

  /** The deadline handler closes the lease exactly when its timer is due, and otherwise does nothing. */
  lemma DeadlineOutcome(h: HubState, now: u64)
    requires HubOk(h)
    ensures Due(h, now) ==> !h.manager.state.Local?
    ensures var r := h.OnDeadline(now);
      if Due(h, now) then Surrendered(h, h.manager.state.context, r) else r == h
  {
  }

  // ---------------------------------------------------------------- letting go

  /** A pending cleanup is taken. It runs only when no other task does, and is otherwise forgotten. */
  ghost predicate CleanupTaken(h: HubState, r: HubState)
    requires h.cleanup.Some?
  {
    && r.cleanup == None && r.manager == h.manager && r.timer == h.timer && r.gate == h.gate
    && r.releasesSent == h.releasesSent
    && r.task == if h.task.None? then Some(Task(h.nextTask + 1, CleanupTask(h.cleanup.value))) else h.task
  }

  lemma ReleasedOutcome(h: HubState)
    requires HubOk(h)
    ensures var r := h.OnReleased();
      && r.capturing == None && r.cleanup == None && r.gate == h.gate
      && if h.cleanup.Some? then CleanupTaken(h, r)
         else if h.manager.state.Local? then r == h.(capturing := None)
         else Closed(h, h.manager.state.context, r)
  {
  }

  predicate Denies(h: HubState, handle: nat, leaseEpoch: u64) {
    && !h.manager.state.Local? && h.manager.state.context.handle == handle
    && h.manager.state.context.lease.leaseEpoch == leaseEpoch
  }

  lemma DeniedOutcome(h: HubState, handle: nat, leaseEpoch: u64)
    requires HubOk(h)
    ensures var r := h.OnCommitDenied(handle, leaseEpoch);
      && r.capturing == (if h.capturing == Some((handle, leaseEpoch)) then None else h.capturing)
      && r.cleanup == None && r.gate == h.gate
      && if h.cleanup.Some? then CleanupTaken(h, r)
         else if Denies(h, handle, leaseEpoch) then Closed(h, h.manager.state.context, r)
         else r == h.(capturing := r.capturing)
  {
  }
}
