/** The hub service's switch handlers, as transitions of one value. */
module Hub {
  import opened Domain
  import opened LeaseManager
  import opened CaptureGate

  datatype TaskKind =
    | PrepareTask(context: GateContext)
    | CommitTask(context: GateContext)
    | RenewalTask(context: GateContext)
    | CleanupTask(context: GateContext)
    | RecoveryTask

  datatype Task = Task(epoch: nat, kind: TaskKind)

  /** What preparation brought back, already in the hub's clock. */
  datatype Prepared = Prepared(grant: BundleGrant, leaseExpires: u64)

  datatype HubState = HubState(
    manager: Manager, gate: Gate, task: Option<Task>, nextTask: nat, timer: Option<u64>,
    capturing: Option<(nat, u64)>, cleanup: Option<GateContext>, releasesSent: nat)
  {
    predicate Running(epoch: nat) {
      task.Some? && task.value.epoch == epoch
    }

    predicate Holds(context: GateContext) {
      manager.Holds(context)
    }

    /** Only one controller task at a time. */
    function Begin(kind: TaskKind): HubState
      requires task.None?
    {
      this.(nextTask := nextTask + 1, task := Some(Task(nextTask + 1, kind)))
    }

    function WithTimer(): HubState {
      this.(timer := manager.Deadline())
    }

    function StartCleanup(context: GateContext): HubState {
      if task.Some? then this else Begin(CleanupTask(context))
    }

    function Dropped(context: GateContext): HubState {
      this.(
        manager := if Holds(context) then manager.Released() else manager,
        gate := gate.Disarm(context.lease.leaseEpoch),
        task := None,
        timer := None)
    }

    /** Fail closed: a lease under active capture is released there first, anything else is cleaned up now. */
    function Fail(context: GateContext): HubState {
      var dropped := Dropped(context);
      if capturing == Some((context.handle, context.lease.leaseEpoch)) then
        dropped.(cleanup := Some(context), gate := dropped.gate.Clear(), releasesSent := releasesSent + 1)
      else dropped.StartCleanup(context)
    }

    function Defer(context: GateContext): HubState {
      Dropped(context).(cleanup := Some(context))
    }

    function FailGate(): HubState {
      if manager.Context().None? then this
      else this.(manager := manager.Released()).Fail(manager.Context().value)
    }

    function ReleaseGate(): HubState {
      if manager.Context().None? then this
      else
        this.(manager := manager.Released(), task := None, timer := None)
          .StartCleanup(manager.Context().value)
    }

    function CompleteCleanup(): HubState {
      if cleanup.None? then this else this.(cleanup := None).StartCleanup(cleanup.value)
    }

    // ---------------------------------------------------------------- handlers

    /** A confirmed edge candidate reserves the bundle and starts preparing. */
    function Candidate(
      handle: nat, target: Host, requestId: string, leaseId: string, peer: Option<Peer>, now: u64, ttl: u64)
      : HubState
    {
      if task.Some? then this
      else if peer.None? then Begin(RecoveryTask)
      else
        var (next, r) := manager.Reserve(handle, target, requestId, leaseId, peer.value, now, ttl);
        if r.Ok? then this.(manager := next).WithTimer().Begin(PrepareTask(r.value))
        else if r.error == PeerNotReady then Begin(RecoveryTask)
        else this
    }

    function OnPrepared(
      epoch: nat, context: GateContext, result: Option<Prepared>, peer: Option<Peer>,
      server: Host, now: u64, horizon: nat): HubState
    {
      if !Running(epoch) then this
      else
        var h := this.(task := None);
        if !Holds(context) then h
        else if result.None? then h.FailGate()
        else if peer.None? then h.Fail(context)
        else
          var (next, r) :=
            manager.ArmGrant(context, result.value.grant, result.value.leaseExpires, peer.value, now);
          var armed := h.(manager := next);
          if r.Err? then armed.Fail(context)
          else if context.target == server then armed.WithTimer().Begin(CommitTask(r.value))
          else armed.WithTimer().ArmPermit(r.value, now, horizon)
    }

    /** The permit lives exactly as long as the armed grant. */
    function ArmPermit(context: GateContext, now: u64, horizon: nat): HubState {
      var deadline := manager.Deadline();
      if deadline.None? || deadline.value <= now then Fail(context)
      else
        this.(
          gate := gate.Arm(
            context.handle, context.lease.leaseEpoch, context.lease.peerSessionEpoch,
            deadline.value - now, now, horizon).0)
    }

    /** The capture task asks to enter: the second key. */
    function Authorize(handle: nat, leaseEpoch: u64, peerEpoch: u64, peer: Option<Peer>, now: u64)
      : (HubState, bool)
    {
      if manager.Context().None? then (this, false)
      else
        var context := manager.Context().value;
        if context.handle != handle || context.lease.leaseEpoch != leaseEpoch
           || context.lease.peerSessionEpoch != peerEpoch
        then (Defer(context), false)
        else if peer.None? then (Defer(context), false)
        else
          var (next, r) := manager.Commit(handle, leaseEpoch, peer.value, now);
          var committed := this.(manager := next);
          if r.Err? then (committed.Defer(context), false)
          else if task.Some? then (committed.WithTimer().Defer(r.value), false)
          else (committed.WithTimer().Begin(CommitTask(r.value)), true)
    }

    /** Answering the capture task; a dropped answer fails the lease. */
    function CommitRequested(
      handle: nat, leaseEpoch: u64, peerEpoch: u64, peer: Option<Peer>, now: u64, listening: bool)
      : (HubState, bool)
    {
      var (h, ok) := Authorize(handle, leaseEpoch, peerEpoch, peer, now);
      if !ok then (h, false)
      else
        var active := h.(capturing := Some((handle, leaseEpoch)));
        if listening || active.manager.Context().None? then (active, true)
        else (active.Fail(active.manager.Context().value), true)
    }

    function OnCommitted(
      epoch: nat, context: GateContext, result: Option<u64>, peer: Option<Peer>, server: Host, now: u64): HubState
    {
      if !Running(epoch) then this
      else
        var h := this.(task := None);
        if !Holds(context) then h
        else if result.None? then h.FailGate()
        else if context.target == server then h.(manager := manager.Released(), timer := None)
        else if peer.None? then h.Fail(context)
        else
          var (next, r) := manager.Renew(context.lease.requestId, result.value, peer.value, now);
          var renewed := h.(manager := next);
          if r.Err? || next.Context().None? then renewed.Fail(context)
          else renewed.WithTimer().Begin(RenewalTask(next.Context().value))
    }

    function OnRenewed(
      epoch: nat, context: GateContext, result: Option<u64>, peer: Option<Peer>, now: u64): HubState
    {
      if !Running(epoch) then this
      else
        var h := this.(task := None);
        if !Holds(context) then h
        else if result.None? then h.FailGate()
        else if peer.None? then h.Fail(context)
        else
          var (next, r) := manager.Renew(context.lease.requestId, result.value, peer.value, now);
          if r.Err? then h.(manager := next).Fail(context) else this.(manager := next).WithTimer()
    }

    function OnTaskDone(epoch: nat): HubState {
      if Running(epoch) then this.(task := None) else this
    }

    function OnPeerChanged(handle: nat, peer: Option<Peer>): HubState {
      if manager.Context().None? || manager.Context().value.handle != handle then this
      else
        var context := manager.Context().value;
        if peer.None? || !peer.value.ready || peer.value.sessionEpoch != context.lease.peerSessionEpoch
        then Fail(context)
        else this
    }

    function OnDeadline(now: u64): HubState {
      var (next, expired) := manager.Expire(now);
      if expired.Some? then this.(manager := next, timer := None).Fail(expired.value) else WithTimer()
    }

    /** The capture task let the input go (client released, capture disabled). */
    function OnReleased(): HubState {
      var h := this.(capturing := None);
      if cleanup.Some? then h.CompleteCleanup() else h.ReleaseGate()
    }

    function OnCommitDenied(handle: nat, leaseEpoch: u64): HubState {
      var h := if capturing == Some((handle, leaseEpoch)) then this.(capturing := None) else this;
      if cleanup.Some? then h.CompleteCleanup()
      else if manager.Context().Some? && manager.Context().value.handle == handle
              && manager.Context().value.lease.leaseEpoch == leaseEpoch
      then h.ReleaseGate()
      else h
    }
  }

  const INITIAL_HUB := HubState(Manager(Local, 0), Gate(None, 0), None, 0, None, None, None, 0)

  // ---------------------------------------------------------------- inputs and steps

  datatype Input =
    | CandidateInput(
        handle: nat, target: Host, requestId: string, leaseId: string, peer: Option<Peer>, now: u64, ttl: u64)
    | PreparedInput(
        epoch: nat, context: GateContext, grant: Option<Prepared>, peer: Option<Peer>, now: u64)
    | CommitInput(handle: nat, leaseEpoch: u64, peerEpoch: u64, peer: Option<Peer>, now: u64, listening: bool)
    | CommittedInput(epoch: nat, context: GateContext, until: Option<u64>, peer: Option<Peer>, now: u64)
    | RenewedInput(epoch: nat, context: GateContext, until: Option<u64>, peer: Option<Peer>, now: u64)
    | TaskDoneInput(epoch: nat)
    | PeerInput(handle: nat, peer: Option<Peer>)
    | DeadlineInput(now: u64)
    | ReleasedInput
    | CommitDeniedInput(handle: nat, leaseEpoch: u64)
    | ConfigInput

  function React(h: HubState, i: Input, server: Host, horizon: nat): HubState {
    match i
    case CandidateInput(handle, target, requestId, leaseId, peer, now, ttl) =>
      if target == server then h else h.Candidate(handle, target, requestId, leaseId, peer, now, ttl)
    case PreparedInput(epoch, context, grant, peer, now) =>
      h.OnPrepared(epoch, context, grant, peer, server, now, horizon)
    case CommitInput(handle, leaseEpoch, peerEpoch, peer, now, listening) =>
      h.CommitRequested(handle, leaseEpoch, peerEpoch, peer, now, listening).0
    case CommittedInput(epoch, context, until, peer, now) => h.OnCommitted(epoch, context, until, peer, server, now)
    case RenewedInput(epoch, context, until, peer, now) => h.OnRenewed(epoch, context, until, peer, now)
    case TaskDoneInput(epoch) => h.OnTaskDone(epoch)
    case PeerInput(handle, peer) => h.OnPeerChanged(handle, peer)
    case DeadlineInput(now) => h.OnDeadline(now)
    case ReleasedInput => h.OnReleased()
    case CommitDeniedInput(handle, leaseEpoch) => h.OnCommitDenied(handle, leaseEpoch)
    case ConfigInput => h.FailGate()
  }

  /** Results come from the task they name: a running task's own kind and context. */
  predicate Genuine(h: HubState, i: Input) {
    match i
    case PreparedInput(epoch, context, _, _, _) => h.Running(epoch) ==> h.task.value.kind == PrepareTask(context)
    case CommittedInput(epoch, context, _, _, _) => h.Running(epoch) ==> h.task.value.kind == CommitTask(context)
    case RenewedInput(epoch, context, _, _, _) => h.Running(epoch) ==> h.task.value.kind == RenewalTask(context)
    case TaskDoneInput(epoch) => h.Running(epoch) ==> h.task.value.kind.CleanupTask? || h.task.value.kind.RecoveryTask?
    case _ => true
  }

  // ---------------------------------------------------------------- what every handler keeps

  /** The running task fits the lease: preparing and remote ownership each have their own task, and no task
      of a lease outlives it. */
  ghost predicate Paired(h: HubState) {
    var tidying := h.task.None? || h.task.value.kind.CleanupTask? || h.task.value.kind.RecoveryTask?;
    match h.manager.state
    case Local => tidying
    case Preparing(context) => h.task.Some? && h.task.value.kind == PrepareTask(context)
    case GrantArmed(context, _) => tidying || h.task.value.kind == CommitTask(context)
    case RemoteOwned(context, _, _) =>
      && h.task.Some?
      && (|| h.task.value.kind == CommitTask(context)
          || (h.task.value.kind.RenewalTask? && context.SameIdentity(h.task.value.kind.context)))
  }

  ghost predicate EpochsOk(h: HubState) {
    && h.gate.lastEpoch <= h.manager.nextLeaseEpoch
    && (h.gate.armed.Some? ==> h.gate.armed.value.leaseEpoch == h.gate.lastEpoch)
    && (h.manager.Context().Some? ==> h.manager.Context().value.lease.leaseEpoch == h.manager.nextLeaseEpoch)
    && (h.manager.state.Preparing? ==> h.gate.lastEpoch < h.manager.nextLeaseEpoch)
  }

  ghost predicate HubOk(h: HubState) {
    && h.timer == h.manager.Deadline()
    && EpochsOk(h)
    && (h.task.Some? ==> h.task.value.epoch == h.nextTask)
    && Paired(h)
  }

  /** Failing or deferring closes the lease and withdraws its permit, whatever timer and task were left. */
  lemma FailOk(h: HubState, context: GateContext)
    requires EpochsOk(h) && (h.manager.state.Local? || h.Holds(context))
    ensures HubOk(h.Fail(context)) && HubOk(h.Defer(context))
    ensures h.Fail(context).manager.state.Local? && h.Defer(context).manager.state.Local?
    ensures !Permits(h.Fail(context).gate, context) && !Permits(h.Defer(context).gate, context)
  {
  }

  /** A permit for this lease is still up. */
  predicate Permits(gate: Gate, context: GateContext) {
    gate.armed.Some? && gate.armed.value.leaseEpoch == context.lease.leaseEpoch
  }

  lemma PreparedOk(
    h: HubState, epoch: nat, context: GateContext, result: Option<Prepared>, peer: Option<Peer>,
    server: Host, now: u64, horizon: nat)
    requires HubOk(h) && (h.Running(epoch) ==> h.task.value.kind == PrepareTask(context))
    ensures HubOk(h.OnPrepared(epoch, context, result, peer, server, now, horizon))
  {
    if h.Running(epoch) && h.Holds(context) {
      var idle := h.(task := None);
      if result.None? {
        FailOk(idle.(manager := h.manager.Released()), h.manager.Context().value);
      } else if peer.None? {
        FailOk(idle, context);
      } else {
        var (next, r) :=
          h.manager.ArmGrant(context, result.value.grant, result.value.leaseExpires, peer.value, now);
        if r.Err? {
          FailOk(idle.(manager := next), context);
        } else {
          FailOk(idle.(manager := next).WithTimer(), r.value);
        }
      }
    }
  }

  lemma AuthorizeOk(h: HubState, handle: nat, leaseEpoch: u64, peerEpoch: u64, peer: Option<Peer>, now: u64)
    requires HubOk(h)
    ensures var (r, ok) := h.Authorize(handle, leaseEpoch, peerEpoch, peer, now);
      HubOk(r) && (ok ==> r.manager.state.RemoteOwned?)
  {
    if h.manager.Context().Some? {
      var context := h.manager.Context().value;
      FailOk(h, context);
      if peer.Some? {
        var (next, r) := h.manager.Commit(handle, leaseEpoch, peer.value, now);
        if r.Err? {
          FailOk(h.(manager := next), context);
        } else {
          FailOk(h.(manager := next).WithTimer(), r.value);
        }
      }
    }
  }

  lemma CommitRequestedOk(h: HubState, i: Input)
    requires HubOk(h) && i.CommitInput?
    ensures HubOk(h.CommitRequested(i.handle, i.leaseEpoch, i.peerEpoch, i.peer, i.now, i.listening).0)
  {
    AuthorizeOk(h, i.handle, i.leaseEpoch, i.peerEpoch, i.peer, i.now);
    var (r, ok) := h.Authorize(i.handle, i.leaseEpoch, i.peerEpoch, i.peer, i.now);
    if ok {
      FailOk(r.(capturing := Some((i.handle, i.leaseEpoch))), r.manager.Context().value);
    }
  }

  lemma CommittedOk(
    h: HubState, epoch: nat, context: GateContext, until: Option<u64>, peer: Option<Peer>, server: Host, now: u64)
    requires HubOk(h) && (h.Running(epoch) ==> h.task.value.kind == CommitTask(context))
    ensures HubOk(h.OnCommitted(epoch, context, until, peer, server, now))
  {
    if h.Running(epoch) && h.Holds(context) {
      var idle := h.(task := None);
      if until.None? {
        FailOk(idle.(manager := h.manager.Released()), h.manager.Context().value);
      } else if context.target == server {
      } else if peer.None? {
        FailOk(idle, context);
      } else {
        var (next, r) := h.manager.Renew(context.lease.requestId, until.value, peer.value, now);
        if r.Err? {
          FailOk(idle.(manager := next), context);
        }
      }
    }
  }

  lemma RenewedOk(h: HubState, epoch: nat, context: GateContext, until: Option<u64>, peer: Option<Peer>, now: u64)
    requires HubOk(h) && (h.Running(epoch) ==> h.task.value.kind == RenewalTask(context))
    ensures HubOk(h.OnRenewed(epoch, context, until, peer, now))
  {
    if h.Running(epoch) && h.Holds(context) {
      var idle := h.(task := None);
      if until.None? {
        FailOk(idle.(manager := h.manager.Released()), h.manager.Context().value);
      } else if peer.None? {
        FailOk(idle, context);
      } else {
        var (next, r) := h.manager.Renew(context.lease.requestId, until.value, peer.value, now);
        if r.Err? {
          FailOk(idle.(manager := next), context);
        }
      }
    }
  }

  lemma FailingInputsOk(h: HubState, i: Input, server: Host, horizon: nat)
    requires HubOk(h) && (i.PeerInput? || i.DeadlineInput? || i.ConfigInput?)
    ensures HubOk(React(h, i, server, horizon))
  {
    if h.manager.Context().Some? {
      var context := h.manager.Context().value;
      match i
      case PeerInput(_, _) => FailOk(h, context);
      case DeadlineInput(_) => FailOk(h.(manager := h.manager.Released(), timer := None), context);
      case ConfigInput => FailOk(h.(manager := h.manager.Released()), context);
    }
  }

  /** The lease timer is always set to the lease's deadline, permits and leases carry the newest
      epochs, and the running task fits the lease, whatever the handlers are fed. */
  lemma ReactOk(h: HubState, i: Input, server: Host, horizon: nat)
    requires HubOk(h) && Genuine(h, i)
    ensures HubOk(React(h, i, server, horizon))
  {
    match i
    case CandidateInput(_, _, _, _, _, _, _) =>
    case PreparedInput(epoch, context, grant, peer, now) =>
      PreparedOk(h, epoch, context, grant, peer, server, now, horizon);
    case CommitInput(_, _, _, _, _, _) => CommitRequestedOk(h, i);
    case CommittedInput(epoch, context, until, peer, now) => CommittedOk(h, epoch, context, until, peer, server, now);
    case RenewedInput(epoch, context, until, peer, now) => RenewedOk(h, epoch, context, until, peer, now);
    case PeerInput(_, _) => FailingInputsOk(h, i, server, horizon);
    case DeadlineInput(now) => FailingInputsOk(h, i, server, horizon);
    case ConfigInput => FailingInputsOk(h, i, server, horizon);
    case _ =>
  }

  /** The deadline timer gives the lease up exactly when it is due, and never early. */
  lemma DeadlineReleases(h: HubState, now: u64)
    requires HubOk(h) && h.timer.Some?
    ensures h.OnDeadline(now).manager.state.Local? <==> h.timer.value <= now
    ensures h.timer.value <= now && h.capturing == Some((h.manager.state.context.handle, h.manager.nextLeaseEpoch)) ==>
      h.OnDeadline(now).releasesSent == h.releasesSent + 1 && h.OnDeadline(now).cleanup == Some(h.manager.state.context)
  {
  }

  /** Arming a grant always puts up a permit for the same triple that runs out with the lease. */
  lemma PermitMatchesGrant(
    h: HubState, epoch: nat, context: GateContext, result: Option<Prepared>, peer: Option<Peer>,
    server: Host, now: u64, horizon: nat)
    requires HubOk(h) && context.target != server
    ensures var r := h.OnPrepared(epoch, context, result, peer, server, now, horizon);
      h.manager.state.Preparing? && r.manager.state.GrantArmed? && r.manager.Deadline().value <= horizon ==>
        r.gate.armed == Some(Permit(
          context.handle, context.lease.leaseEpoch, context.lease.peerSessionEpoch, r.manager.Deadline().value))
  {
  }

  ghost predicate IsHubRun(states: seq<HubState>, inputs: seq<Input>, server: Host, horizon: nat) {
    && |states| == |inputs| + 1 && states[0] == INITIAL_HUB
    && forall i :: 0 <= i < |inputs| ==> HubNext(states, inputs, i, server, horizon)
  }

  ghost predicate HubNext(states: seq<HubState>, inputs: seq<Input>, i: nat, server: Host, horizon: nat)
    requires i < |inputs| < |states|
  {
    Genuine(states[i], inputs[i]) && states[i + 1] == React(states[i], inputs[i], server, horizon)
  }

  lemma {:induction false} HubRunOk(
    states: seq<HubState>, inputs: seq<Input>, server: Host, horizon: nat, n: nat)
    requires IsHubRun(states, inputs, server, horizon) && n < |states|
    ensures HubOk(states[n])
  {
    if n > 0 {
      HubRunOk(states, inputs, server, horizon, n - 1);
      assert HubNext(states, inputs, n - 1, server, horizon);
      ReactOk(states[n - 1], inputs[n - 1], server, horizon);
    }
  }
}
