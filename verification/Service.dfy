/** The hub service object: its handlers carry out the transitions of `Hub`, keep its invariant, and come to
    what `Outcomes` says. */
module Service {
  import opened Domain
  import opened LeaseManager
  import opened CaptureGate
  import opened Hub
  import opened Outcomes

  class SwitchService {
    const lease: BundleLeaseManager
    const gate: CaptureGate
    const server: Host
    const horizon: nat
    var task: Option<Task>
    var nextTask: nat
    var timer: Option<u64>
    var capturing: Option<(nat, u64)>
    var cleanup: Option<GateContext>
    var releasesSent: nat

    function View(): HubState
      reads this, lease, gate
    {
      HubState(lease.View(), gate.View(), task, nextTask, timer, capturing, cleanup, releasesSent)
    }

    /** The timer is the lease's deadline, epochs are the newest, and the running task fits the lease. */
    ghost predicate Valid()
      reads this, lease, gate
    {
      HubOk(View())
    }

    /** The lease is home or is the one being given up. */
    ghost predicate Failing(context: GateContext)
      reads this, lease, gate
    {
      EpochsOk(View()) && (lease.View().state.Local? || lease.View().Holds(context))
    }

    constructor (server: Host, horizon: nat)
      ensures Valid() && View() == INITIAL_HUB && fresh(lease) && fresh(gate)
      ensures this.server == server && this.horizon == horizon
    {
      this.server, this.horizon := server, horizon;
      lease := new BundleLeaseManager();
      gate := new CaptureGate();
      task, nextTask, timer := None, 0, None;
      capturing, cleanup, releasesSent := None, None, 0;
    }

    method BeginTask(kind: TaskKind) returns (started: bool)
      modifies this
      ensures started == old(task).None?
      ensures View() == if started then old(View()).Begin(kind) else old(View())
    {
      if task.Some? {
        return false;
      }
      nextTask := nextTask + 1;
      task := Some(Task(nextTask, kind));
      return true;
    }

    method FinishTask(epoch: nat) returns (finished: bool)
      modifies this
      ensures finished == old(View()).Running(epoch)
      ensures View() == if finished then old(View()).(task := None) else old(View())
    {
      if task.None? || task.value.epoch != epoch {
        return false;
      }
      task := None;
      return true;
    }

    method ResetTimer()
      modifies this
      ensures View() == old(View()).WithTimer()
    {
      timer := lease.View().Deadline();
    }

    /** Forget the lease everywhere; the caller decides when to clean up. */
    method Drop(context: GateContext)
      modifies this, lease, gate
      ensures View() == old(View()).Dropped(context)
    {
      if lease.View().Holds(context) {
        var _ := lease.Invalidate();
      }
      gate.Disarm(context.lease.leaseEpoch);
      task := None;
      timer := None;
    }

    method FailContext(context: GateContext)
      requires Failing(context)
      modifies this, lease, gate
      ensures Valid() && Surrendered(old(View()), context, View())
      ensures View() == old(View()).Fail(context)
    {
      FailOk(View(), context);
      Drop(context);
      if capturing == Some((context.handle, context.lease.leaseEpoch)) {
        cleanup := Some(context);
        gate.Clear();
        releasesSent := releasesSent + 1;
      } else {
        var _ := BeginTask(CleanupTask(context));
      }
    }

    method DeferFailure(context: GateContext)
      requires Failing(context)
      modifies this, lease, gate
      ensures Valid() && Deferred(old(View()), context, View())
      ensures View() == old(View()).Defer(context)
    {
      FailOk(View(), context);
      Drop(context);
      cleanup := Some(context);
    }

    method FailGate()
      requires EpochsOk(View())
      modifies this, lease, gate
      ensures View() == old(View()).FailGate()
      ensures if old(lease.View().state.Local?) then View() == old(View())
        else Valid() && Surrendered(old(View()), old(lease.View().state).context, View())
    {
      var context := lease.Invalidate();
      if context.Some? {
        FailContext(context.value);
      }
    }

    method ReleaseGateAfterCapture()
      requires Valid()
      modifies this, lease, gate
      ensures Valid() && View() == old(View()).ReleaseGate()
      ensures if old(lease.View().state.Local?) then View() == old(View())
        else Closed(old(View()), old(lease.View().state).context, View())
    {
      var context := lease.Invalidate();
      if context.None? {
        return;
      }
      task := None;
      timer := None;
      var _ := BeginTask(CleanupTask(context.value));
    }

    method CompletePendingCleanup()
      requires Valid()
      modifies this
      ensures Valid() && View() == old(View()).CompleteCleanup()
      ensures if old(cleanup).Some? then CleanupTaken(old(View()), View()) else View() == old(View())
    {
      if cleanup.Some? {
        var context := cleanup.value;
        cleanup := None;
        var _ := BeginTask(CleanupTask(context));
      }
    }

    method HandleCandidate(
      handle: nat, target: Host, requestId: string, leaseId: string, peer: Option<Peer>, now: u64, ttl: u64)
      requires Valid()
      modifies this, lease, gate
      ensures Valid() && View() ==
        React(old(View()), CandidateInput(handle, target, requestId, leaseId, peer, now, ttl), server, horizon)
      ensures
        if Reservable(old(View()), target, requestId, leaseId, peer, now, ttl, server) then
          var lease := BundleLease(
            requestId, leaseId, old(View()).manager.nextLeaseEpoch + 1, peer.value.sessionEpoch, now + ttl);
          Reserved(old(View()), lease, GateContext(handle, target, lease), View())
        else if NeedsRecovery(old(View()), target, peer, server) then View() == old(View()).Begin(RecoveryTask)
        else View() == old(View())
    {
      ReactOk(
        View(), CandidateInput(handle, target, requestId, leaseId, peer, now, ttl), server, horizon);
      CandidateOutcome(View(), handle, target, requestId, leaseId, peer, now, ttl, server, horizon);
      if target == server || task.Some? {
        return;
      }
      if peer.None? {
        var _ := BeginTask(RecoveryTask);
        return;
      }
      var r := lease.Reserve(handle, target, requestId, leaseId, peer.value, now, ttl);
      if r.Err? {
        if r.error == PeerNotReady {
          var _ := BeginTask(RecoveryTask);
        }
        return;
      }
      ResetTimer();
      var started := BeginTask(PrepareTask(r.value));
      // No task is running here, so the busy branch is dead.
      assert started;
    }

    method HandlePrepared(
      epoch: nat, context: GateContext, result: Option<Prepared>, peer: Option<Peer>, now: u64)
      requires Valid() && Genuine(View(), PreparedInput(epoch, context, result, peer, now))
      modifies this, lease, gate
      ensures Valid()
      ensures View() == React(old(View()), PreparedInput(epoch, context, result, peer, now), server, horizon)
      ensures
        if !old(View()).Running(epoch) then View() == old(View())
        else if Grantable(context, result, peer, now) then
          Armed(old(View()), context, result.value, server, horizon, View())
        else Surrendered(old(View()), context, View())
    {
      ReactOk(View(), PreparedInput(epoch, context, result, peer, now), server, horizon);
      PreparedOutcome(View(), epoch, context, result, peer, server, now, horizon);
      var current := FinishTask(epoch);
      if !current || !lease.View().Holds(context) {
        return;
      }
      if result.None? {
        FailGate();
        return;
      }
      if peer.None? {
        FailContext(context);
        return;
      }
      var r := lease.ArmGrant(context, result.value.grant, result.value.leaseExpires, peer.value, now);
      if r.Err? {
        FailContext(context);
        return;
      }
      ResetTimer();
      if context.target == server {
        var started := BeginTask(CommitTask(r.value));
        // The preparation task just finished, so the busy branch is dead.
        assert started;
        return;
      }
      var deadline := lease.View().Deadline();
      // An armed grant has time left, so the branch for a missing or passed deadline is dead.
      assert deadline.Some? && now < deadline.value;
      var _ := gate.Arm(
        r.value.handle, r.value.lease.leaseEpoch, r.value.lease.peerSessionEpoch,
        deadline.value - now, now, horizon);
    }

    method AuthorizeClientEnter(handle: nat, leaseEpoch: u64, peerEpoch: u64, peer: Option<Peer>, now: u64)
      returns (ok: bool)
      requires Valid()
      modifies this, lease, gate
      ensures Valid() && (View(), ok) == old(View()).Authorize(handle, leaseEpoch, peerEpoch, peer, now)
      ensures ok == Enterable(old(View()), handle, leaseEpoch, peerEpoch, peer, now)
      ensures
        if ok then Entered(old(View()), View()) && capturing == old(capturing)
        else if old(lease.View().state.Local?) then View() == old(View())
        else Deferred(old(View()), old(lease.View().state).context, View())
    {
      AuthorizeOk(View(), handle, leaseEpoch, peerEpoch, peer, now);
      AuthorizeOutcome(View(), handle, leaseEpoch, peerEpoch, peer, now);
      if lease.View().Context().None? {
        return false;
      }
      var context := lease.View().Context().value;
      if context.handle != handle || context.lease.leaseEpoch != leaseEpoch
         || context.lease.peerSessionEpoch != peerEpoch || peer.None?
      {
        DeferFailure(context);
        return false;
      }
      var r := lease.Commit(handle, leaseEpoch, peer.value, now);
      if r.Err? {
        DeferFailure(context);
        return false;
      }
      ResetTimer();
      ok := BeginTask(CommitTask(r.value));
      if !ok {
        DeferFailure(r.value);
      }
    }

    /** A dropped answer (`listening` false) fails the lease that was just committed. */
    method HandleCommitRequested(
      handle: nat, leaseEpoch: u64, peerEpoch: u64, peer: Option<Peer>, now: u64, listening: bool)
      returns (ok: bool)
      requires Valid()
      modifies this, lease, gate
      ensures Valid()
      ensures (View(), ok) == old(View()).CommitRequested(handle, leaseEpoch, peerEpoch, peer, now, listening)
      ensures ok == Enterable(old(View()), handle, leaseEpoch, peerEpoch, peer, now)
      ensures
        if ok && listening then Entered(old(View()), View()) && capturing == Some((handle, leaseEpoch))
        else if ok then
          Surrendered(
            old(View()).(capturing := Some((handle, leaseEpoch))), old(lease.View().state).context, View())
        else if old(lease.View().state.Local?) then View() == old(View())
        else Deferred(old(View()), old(lease.View().state).context, View())
    {
      CommitRequestedOk(View(), CommitInput(handle, leaseEpoch, peerEpoch, peer, now, listening));
      CommitOutcome(View(), handle, leaseEpoch, peerEpoch, peer, now, listening);
      ok := AuthorizeClientEnter(handle, leaseEpoch, peerEpoch, peer, now);
      if ok {
        capturing := Some((handle, leaseEpoch));
        var context := lease.View().Context();
        if !listening && context.Some? {
          FailContext(context.value);
        }
      }
    }

    method HandleCommitted(epoch: nat, context: GateContext, until: Option<u64>, peer: Option<Peer>, now: u64)
      requires Valid() && Genuine(View(), CommittedInput(epoch, context, until, peer, now))
      modifies this, lease, gate
      ensures Valid()
      ensures View() == React(old(View()), CommittedInput(epoch, context, until, peer, now), server, horizon)
      ensures
        if !old(View()).Running(epoch) then View() == old(View())
        else if context.target == server && until.Some? then
          View() == old(View()).(manager := old(lease.View()).Released(), timer := None, task := None)
        else if Renewable(old(View()), until, peer, now) then
          && Extended(old(View()), until.value, View())
          && task == Some(Task(old(nextTask) + 1, RenewalTask(lease.View().state.context)))
        else Surrendered(old(View()), context, View())
    {
      ReactOk(View(), CommittedInput(epoch, context, until, peer, now), server, horizon);
      CommittedOutcome(View(), epoch, context, until, peer, server, now);
      var current := FinishTask(epoch);
      if !current || !lease.View().Holds(context) {
        return;
      }
      if until.None? {
        FailGate();
        return;
      }
      if context.target == server {
        var _ := lease.Invalidate();
        timer := None;
        return;
      }
      if peer.None? {
        FailContext(context);
        return;
      }
      var r := lease.Renew(context.lease.requestId, until.value, peer.value, now);
      if r.Err? {
        FailContext(context);
        return;
      }
      ResetTimer();
      var started := BeginTask(RenewalTask(lease.View().Context().value));
      // The commit task just finished, so the busy branch is dead.
      assert started;
    }

    method HandleRenewed(epoch: nat, context: GateContext, until: Option<u64>, peer: Option<Peer>, now: u64)
      requires Valid() && Genuine(View(), RenewedInput(epoch, context, until, peer, now))
      modifies this, lease, gate
      ensures Valid()
      ensures View() == React(old(View()), RenewedInput(epoch, context, until, peer, now), server, horizon)
      ensures
        if !old(View()).Running(epoch) then View() == old(View())
        else if Renewable(old(View()), until, peer, now) then
          Extended(old(View()), until.value, View()) && task == old(task)
        else
          Surrendered(old(View()), if until.None? then old(lease.View().state).context else context, View())
    {
      ReactOk(View(), RenewedInput(epoch, context, until, peer, now), server, horizon);
      RenewedOutcome(View(), epoch, context, until, peer, now);
      if task.None? || task.value.epoch != epoch {
        return;
      }
      // A running renewal always finds its lease, so the branch that only finishes the task is dead.
      assert lease.View().Holds(context);
      if until.None? {
        var _ := FinishTask(epoch);
        FailGate();
        return;
      }
      if peer.None? {
        var _ := FinishTask(epoch);
        FailContext(context);
        return;
      }
      var r := lease.Renew(context.lease.requestId, until.value, peer.value, now);
      if r.Err? {
        var _ := FinishTask(epoch);
        FailContext(context);
        return;
      }
      ResetTimer();
    }

    method HandlePeerReadinessChange(handle: nat, peer: Option<Peer>)
      requires Valid()
      modifies this, lease, gate
      ensures Valid() && View() == React(old(View()), PeerInput(handle, peer), server, horizon)
      ensures
        if PeerLost(old(View()), handle, peer)
        then Surrendered(old(View()), old(lease.View().state).context, View())
        else View() == old(View())
    {
      ReactOk(View(), PeerInput(handle, peer), server, horizon);
      PeerOutcome(View(), handle, peer);
      var context := lease.View().Context();
      if context.None? || context.value.handle != handle {
        return;
      }
      if peer.None? || !peer.value.ready || peer.value.sessionEpoch != context.value.lease.peerSessionEpoch {
        FailContext(context.value);
      }
    }

    method HandleSwitchDeadline(now: u64)
      requires Valid()
      modifies this, lease, gate
      ensures Valid() && View() == React(old(View()), DeadlineInput(now), server, horizon)
      ensures Due(old(View()), now) ==> !old(lease.View().state.Local?)
      ensures
        if Due(old(View()), now) then Surrendered(old(View()), old(lease.View().state).context, View())
        else View() == old(View())
    {
      ReactOk(View(), DeadlineInput(now), server, horizon);
      DeadlineOutcome(View(), now);
      timer := None;
      var expired := lease.Expire(now);
      if expired.Some? {
        FailContext(expired.value);
      } else {
        ResetTimer();
      }
    }

    method HandleReleased()
      requires Valid()
      modifies this, lease, gate
      ensures Valid() && View() == React(old(View()), ReleasedInput, server, horizon)
      ensures capturing == None && cleanup == None && gate.View() == old(gate.View())
      ensures
        if old(cleanup).Some? then CleanupTaken(old(View()), View())
        else if old(lease.View().state.Local?) then View() == old(View()).(capturing := None)
        else Closed(old(View()), old(lease.View().state).context, View())
    {
      ReactOk(View(), ReleasedInput, server, horizon);
      ReleasedOutcome(View());
      capturing := None;
      if cleanup.Some? {
        CompletePendingCleanup();
      } else {
        ReleaseGateAfterCapture();
      }
    }

    method HandleCommitDenied(handle: nat, leaseEpoch: u64)
      requires Valid()
      modifies this, lease, gate
      ensures Valid() && View() == React(old(View()), CommitDeniedInput(handle, leaseEpoch), server, horizon)
      ensures cleanup == None && gate.View() == old(gate.View())
      ensures capturing == if old(capturing) == Some((handle, leaseEpoch)) then None else old(capturing)
      ensures
        if old(cleanup).Some? then CleanupTaken(old(View()), View())
        else if Denies(old(View()), handle, leaseEpoch) then
          Closed(old(View()), old(lease.View().state).context, View())
        else View() == old(View()).(capturing := capturing)
    {
      ReactOk(View(), CommitDeniedInput(handle, leaseEpoch), server, horizon);
      DeniedOutcome(View(), handle, leaseEpoch);
      if capturing == Some((handle, leaseEpoch)) {
        capturing := None;
      }
      var context := lease.View().Context();
      if cleanup.Some? {
        CompletePendingCleanup();
      } else if context.Some? && context.value.handle == handle && context.value.lease.leaseEpoch == leaseEpoch {
        ReleaseGateAfterCapture();
      }
    }
  }
}
