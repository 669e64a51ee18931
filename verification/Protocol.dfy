/** The controller's switch protocol: one reducer over nineteen events. */
module Protocol {
  import opened Domain

  datatype Timing = Timing(
    commandMs: u64, observationMs: u64, grantMs: u64, wakeMs: u64, leaseMs: u64, signalPollMs: u64)

  datatype Event =
    | TransportConnecting
    | TransportRegistering
    | TransportSubscribed
    | TransportSynchronized(mode: TvMode, input: Option<Host>, signals: map<Host, bool>)
    | TransportDisconnected(why: string)
    | PeerReadinessUpdated(host: Host, readiness: PeerReadiness)
    | ArmManualRecovery(target: Host)
    | CreateEnter(requestId: string, clientId: string, target: Host, lease: LeaseIdentity)
    | CommandAcknowledged(switchEpoch: u64, target: Host)
    | CommandFailed(switchEpoch: u64, why: string)
    | Observation(switchEpoch: u64, mode: TvMode, input: Option<Host>, signals: map<Host, bool>)
    | Commit(requestId: string, requestEpoch: u64, grantEpoch: u64, leaseId: string, leaseEpoch: u64)
    | Cancel(requestId: string, why: string)
    | Renew(requestId: string, leaseId: string, leaseEpoch: u64, peerSessionEpoch: u64)
    | MultiViewRequested(enabled: bool)
    | MultiViewAcknowledged(switchEpoch: u64, enabled: bool)
    | SubscriptionObserved(mode: TvMode, input: Option<Host>)
    | Tick
    | Shutdown

  /** Events that come in through the controller's interface, not from the television or a timer. */
  predicate FromClient(e: Event) {
    || e.PeerReadinessUpdated? || e.ArmManualRecovery? || e.CreateEnter? || e.Commit? || e.Cancel? || e.Renew?
    || e.MultiViewRequested?
  }

  datatype Effect =
    | SetInput(target: Host, switchEpoch: u64, fallback: bool)
    | Observe(switchEpoch: u64)
    | Wake(target: Host, requestEpoch: u64)
    | SetMultiView(enabled: bool, switchEpoch: u64)

  datatype ProtocolError =
    | Unavailable
    | Busy(activeRequestId: string)
    | RequestIdentityConflict
    | InvalidLease
    | RequestNotFound
    | StaleIdentity
    | InputNotLocal
    | InvalidManualRecoveryTarget
    | Invariant(violation: InvariantViolation)

  /** `Panicked` stands for an `expect` that would fire. */
  datatype Outcome =
    | Accepted(next: State, effects: seq<Effect>)
    | Rejected(error: ProtocolError)
    | Panicked

  /** The working copy of the state and the effects pushed so far. */
  datatype Draft = Draft(state: State, effects: seq<Effect>)

  /** What an event asks for: a draft for the runtime check, the unchanged state, an error or a panic. */
  datatype Plan =
    | Propose(draft: Draft)
    | Unchanged
    | Refuse(error: ProtocolError)
    | Panic

  // ---------------------------------------------------------------- the reducer

  function Apply(s: State, e: Event, now: u64, t: Timing): Outcome {
    match Decide(s, e, now, t)
    case Propose(draft) => Validated(draft, now)
    case Unchanged => Accepted(s, [])
    case Refuse(error) => Rejected(error)
    case Panic => Panicked
  }

  function Decide(s: State, e: Event, now: u64, t: Timing): Plan {
    match e
    case TransportConnecting => Propose(Draft(Transport(s, Connecting, false), []))
    case TransportRegistering => Propose(Draft(Transport(s, Registering, false), []))
    case TransportSubscribed => Propose(Draft(Transport(s, Synchronizing, true), []))
    case TransportSynchronized(mode, input, signals) => Propose(OnSynchronized(s, mode, input, signals, now, t))
    case TransportDisconnected(why) =>
      Propose(BeginFallback(Draft(Transport(s, Disconnected, false), []), now, t, Given(why)))
    case PeerReadinessUpdated(host, readiness) => Propose(OnPeerReadiness(s, host, readiness, now, t))
    case ArmManualRecovery(target) => OnArmManualRecovery(s, target)
    case CreateEnter(id, client, target, lease) => OnCreateEnter(s, id, client, target, lease, now, t)
    case CommandAcknowledged(epoch, target) => OnCommandAcknowledged(s, epoch, target, now, t)
    case CommandFailed(epoch, why) =>
      Propose(if s.switchEpoch == epoch then BeginFallback(Draft(s, []), now, t, Given(why)) else Draft(s, []))
    case Observation(epoch, mode, input, signals) => Propose(OnObservation(s, epoch, mode, input, signals, now, t))
    case Commit(id, requestEpoch, grantEpoch, leaseId, leaseEpoch) =>
      OnCommit(s, id, requestEpoch, grantEpoch, leaseId, leaseEpoch, now, t)
    case Cancel(id, why) => OnCancel(s, id, Given(why), now, t)
    case Renew(id, leaseId, leaseEpoch, peerEpoch) => Propose(OnRenew(s, id, leaseId, leaseEpoch, peerEpoch, now, t))
    case MultiViewRequested(enabled) => OnMultiViewRequested(s, enabled, now, t)
    case MultiViewAcknowledged(epoch, enabled) => Propose(OnMultiViewAcknowledged(s, epoch, enabled, now, t))
    case SubscriptionObserved(mode, input) => Propose(OnSubscription(s, mode, input, now, t))
    case Tick => OnTick(s, now, t)
    case Shutdown => Propose(Draft(OnShutdown(s), []))
  }

  function Validated(d: Draft, now: u64): Outcome {
    match Validate(d.state, now)
    case Some(violation) => Rejected(Invariant(violation))
    case None => Accepted(d.state, d.effects)
  }

  // ---------------------------------------------------------------- one function per event

  function Transport(s: State, ws: WsState, subscribed: bool): State {
    s.(wsState := ws, subscribeActive := subscribed, synchronized := false)
  }

  function OnSynchronized(
    s: State, mode: TvMode, input: Option<Host>, signals: map<Host, bool>, now: u64, t: Timing): Draft
  {
    var linked := s.(wsState := Connected, subscribeActive := true, synchronized := true);
    var next := StoreObservation(linked, s.switchEpoch, now, mode, input, signals);
    if ServerDisplayVerified(next, s.switchEpoch) then Draft(FinishFallback(next), [])
    else if ManualDisplayObserved(next) then Draft(AcceptManualDisplay(next), [])
    else BeginFallback(Draft(next, []), now, t, StartupOrReconnectResync)
  }

  function OnPeerReadiness(s: State, host: Host, readiness: PeerReadiness, now: u64, t: Timing): Draft
  {
    var noted := s.(peers := s.peers[host := readiness]);
    RecheckOwner(RecheckRequest(noted, host, readiness, now, t), host, readiness, now, t)
  }

  function RecheckRequest(s: State, host: Host, readiness: PeerReadiness, now: u64, t: Timing): Draft
  {
    if s.activeRequest.Some? && s.activeRequest.value.target == host then
      var ready := readiness.BundleReady(s.activeRequest.value.lease.peerSessionEpoch);
      if s.phase == Waking && ready then BeginSwitch(Draft(s, []), now, t)
      else if (s.phase == Switching || s.phase == Verifying || s.phase == GrantPending) && !ready then
        BeginFallback(Draft(s, []), now, t, TargetReadinessLost)
      else Draft(s, [])
    else Draft(s, [])
  }

  function RecheckOwner(d: Draft, host: Host, readiness: PeerReadiness, now: u64, t: Timing): Draft
  {
    var s := d.state;
    if s.keyboardOwner == host && host != s.server then
      var epoch := if s.activeSession.Some? then s.activeSession.value.lease.peerSessionEpoch else 0;
      if !readiness.BundleReady(epoch) then
        BeginSessionFailureFallback(d, now, t, ActivePeerReadinessLost)
      else d
    else d
  }

  function OnArmManualRecovery(s: State, target: Host): Plan {
    if target == s.server then Refuse(InvalidManualRecoveryTarget)
    else if !s.Ready() || s.phase != Idle || s.keyboardOwner != s.server || s.pointerOwner != s.server
         || s.activeRequest.Some? || s.activeSession.Some? || !ServerDisplayVerified(s, s.switchEpoch)
    then Refuse(Unavailable)
    else Propose(Draft(s.(manualRecovery := Some(target)), []))
  }

  function OnCreateEnter(
    s: State, id: string, client: string, target: Host, lease: LeaseIdentity, now: u64, t: Timing): Plan
  {
    var existing := s.Request(id);
    if existing.Some? then
      if existing.value.clientId == client && existing.value.target == target
         && existing.value.lease.leaseId == lease.leaseId && existing.value.lease.leaseEpoch == lease.leaseEpoch
      then Unchanged
      else Refuse(RequestIdentityConflict)
    else if s.activeRequest.Some? then Refuse(Busy(s.activeRequest.value.requestId))
    else if !s.Ready() then Refuse(Unavailable)
    else if lease.leaseId == "" || lease.expiresAt <= now then Refuse(InvalidLease)
    else Propose(OpenRequest(s, id, client, target, lease, now, t))
  }

  function OpenRequest(
    s: State, id: string, client: string, target: Host, lease: LeaseIdentity, now: u64, t: Timing): Draft
  {
    var epoch := SatAdd(s.requestEpoch, 1);
    RouteRequest(
      s.(manualRecovery := None, requestEpoch := epoch),
      EnterRequest(
        id, client, target, epoch, lease, StSwitching, None, None, SatAdd(now, t.commandMs), None),
      now, t)
  }

  /** Switch at once, wake the target first, or deny a target that is online but not ready. */
  function RouteRequest(s: State, request: EnterRequest, now: u64, t: Timing): Draft
  {
    if request.target == s.server then
      BeginSwitch(Draft(ReleaseToServer(s).(activeRequest := Some(request)), []), now, t)
    else if !(request.target in s.peers && s.peers[request.target].online) then WakeTarget(s, request, now, t)
    else if !s.peers[request.target].BundleReady(request.lease.peerSessionEpoch) then Draft(Deny(s, request), [])
    else BeginSwitch(Draft(s.(activeRequest := Some(request)), []), now, t)
  }

  function WakeTarget(s: State, request: EnterRequest, now: u64, t: Timing): Draft {
    var deadline := SatAdd(now, t.wakeMs);
    Draft(
      s.(
        phase := Waking,
        phaseDeadline := Some(deadline),
        activeRequest := Some(request.(status := StWaking, deadline := deadline))),
      [Wake(request.target, request.requestEpoch)])
  }

  function Deny(s: State, request: EnterRequest): State
  {
    Archive(
      s.(manualRecovery := Some(request.target)),
      request.(status := StDenied, reason := Some(TargetInputNotReady)))
  }

  function OnCommandAcknowledged(s: State, epoch: u64, target: Host, now: u64, t: Timing): Plan {
    if s.switchEpoch != epoch || s.commandedInput != Some(target) then Unchanged
    else if s.observationInFlight.None? && (s.phase == Switching || s.phase == FallbackCommandPending) then
      Propose(RequestObservation(Draft(StartVerifying(s), []), now, t, epoch))
    else Propose(Draft(s, []))
  }

  function StartVerifying(s: State): State {
    s.(phase := if s.fallbackRequired then FallbackVerifying else Verifying)
  }

  function OnObservation(
    s: State, epoch: u64, mode: TvMode, input: Option<Host>, signals: map<Host, bool>, now: u64, t: Timing): Draft
  {
    AfterObservation(NoteObservation(s, epoch, mode, input, signals, now), epoch, now, t)
  }

  /** The readings are stored and an observation of the same epoch is no longer awaited. */
  function NoteObservation(
    s: State, epoch: u64, mode: TvMode, input: Option<Host>, signals: map<Host, bool>, now: u64): State
  {
    StoreObservation(s, epoch, now, mode, input, signals).(
      observationInFlight := if s.observationInFlight == Some(epoch) then None else s.observationInFlight)
  }

  function AfterObservation(next: State, epoch: u64, now: u64, t: Timing): Draft
  {
    if next.fallbackRequired && next.switchEpoch == epoch then
      if ServerDisplayVerified(next, epoch) then Draft(FinishFallback(next), [])
      else Draft(next.(phase := FallbackVerifying), [])
    else if next.activeRequest.Some? then ObserveRequest(next, epoch, now, t)
    else if next.phase == RemoteOwned then ObserveSession(next, epoch, now, t)
    else if next.phase == MultiviewChanging then CompleteMultiview(next, now, t)
    else Draft(next, [])
  }

  function ObserveSession(s: State, epoch: u64, now: u64, t: Timing): Draft
  {
    match s.activeSession
    case None => Draft(s, [])
    case Some(session) =>
      if session.switchEpoch == epoch && !TargetDisplayVerified(s, session.target, epoch) then
        BeginSessionFailureFallback(Draft(s, []), now, t, ActiveSignalLost)
      else
        Draft(s.(phaseDeadline := None, nextSignalPoll := Some(SatAdd(now, t.signalPollMs))), [])
  }

  function ObserveRequest(s: State, epoch: u64, now: u64, t: Timing): Draft
    requires s.activeRequest.Some?
  {
    var request := s.activeRequest.value;
    var verified := TargetDisplayVerified(s, request.target, epoch);
    if request.switchEpoch != Some(epoch) then Draft(s, [])
    else if s.phase == Verifying && verified then
      if request.target != s.server
         && (!s.PeerReady(request.target, request.lease.peerSessionEpoch) || request.lease.expiresAt <= now)
      then BeginFallback(Draft(s, []), now, t, LeaseOrReadinessLostBeforeGrant)
      else Draft(IssueGrant(s, now, t), [])
    else if s.phase == GrantPending && !verified then
      BeginFallback(Draft(s, []), now, t, TargetObservationFailed)
    else Draft(s, [])
  }

  function OnCommit(
    s: State, id: string, requestEpoch: u64, grantEpoch: u64, leaseId: string, leaseEpoch: u64,
    now: u64, t: Timing): Plan
  {
    var i := FindCommitted(s.history, id);
    if i >= 0 then
      var committed := s.history[i];
      if committed.requestEpoch == requestEpoch && committed.lease.leaseId == leaseId
         && committed.lease.leaseEpoch == leaseEpoch
         && committed.grant.Some? && committed.grant.value.grantEpoch == grantEpoch
      then Propose(Draft(s, []))
      else Refuse(StaleIdentity)
    else if s.activeRequest.None? then Refuse(RequestNotFound)
    else
      var request := s.activeRequest.value;
      if request.grant.None? then Refuse(StaleIdentity)
      else if request.requestId != id || request.requestEpoch != requestEpoch || request.status != StGrant
           || request.lease.leaseId != leaseId || request.lease.leaseEpoch != leaseEpoch
           || request.grant.value.grantEpoch != grantEpoch || request.grant.value.expiresAt <= now
           || request.lease.expiresAt <= now
      then Refuse(StaleIdentity)
      else if request.target != s.server && !s.PeerReady(request.target, request.lease.peerSessionEpoch) then
        Propose(BeginFallback(Draft(s, []), now, t, ReadinessLostBeforeCommit))
      else if request.switchEpoch.None? then Panic
      else Propose(Draft(Transfer(s, request, now, t), []))
  }

  /** Both owners move to the granted target and the request is archived as committed. */
  function Transfer(s: State, request: EnterRequest, now: u64, t: Timing): State
    requires request.switchEpoch.Some?
  {
    var expires := SatAdd(now, t.leaseMs);
    var committed := request.(
      status := StCommitted, reason := None, lease := request.lease.(expiresAt := expires));
    var remote := request.target != s.server;
    Archive(
      s.(
        activeRequest := None,
        keyboardOwner := request.target,
        pointerOwner := request.target,
        fallbackRequired := false,
        fallbackReason := None,
        manualRecovery := None,
        phaseDeadline := None,
        observationInFlight := None,
        activeSession :=
          if remote then
            Some(ActiveSession(
              request.requestId, request.target, request.requestEpoch, request.switchEpoch.value,
              committed.lease, expires))
          else None,
        phase := if remote then RemoteOwned else Idle,
        nextSignalPoll :=
          if remote && s.HasDisplayRoute(request.target) then Some(SatAdd(now, t.signalPollMs)) else None),
      committed)
  }

  predicate CancelSettled(h: seq<EnterRequest>, id: string) {
    exists i :: 0 <= i < |h| && h[i].requestId == id && (h[i].status == StCancelled || h[i].status == StFallback)
  }

  function OnCancel(s: State, id: string, reason: Reason, now: u64, t: Timing): Plan
  {
    if CancelSettled(s.history, id) then Propose(Draft(s, []))
    else if s.activeSession.Some? && s.activeSession.value.requestId == id then
      var i := FindLast(s.history, id);
      if i < 0 then Refuse(RequestNotFound)
      else Propose(BeginFallback(Draft(MarkCancelled(s, i, reason), []), now, t, reason))
    else if s.activeRequest.None? || s.activeRequest.value.requestId != id then Refuse(RequestNotFound)
    else Propose(CancelRequest(s, s.activeRequest.value, reason, now, t))
  }

  function MarkCancelled(s: State, i: nat, reason: Reason): State
    requires i < |s.history|
  {
    s.(history := s.history[i := s.history[i].(status := StCancelled, reason := Some(reason))])
  }

  /** A request that may have moved the TV falls back; one still waking only goes idle. */
  function CancelRequest(s: State, request: EnterRequest, reason: Reason, now: u64, t: Timing): Draft {
    if request.switchEpoch.Some? then
      BeginFallback(Draft(DropRequest(s, request, StCancelled, reason), []), now, t, reason)
    else Draft(DropWaking(s, request, StCancelled, reason), [])
  }

  /** Archive the active request with a final status; a remote target is offered for manual recovery. */
  function DropRequest(s: State, request: EnterRequest, status: RequestStatus, reason: Reason): State
  {
    Archive(
      s.(
        activeRequest := None,
        manualRecovery := if request.target != s.server then Some(request.target) else s.manualRecovery),
      request.(status := status, reason := Some(reason)))
  }

  function DropWaking(s: State, request: EnterRequest, status: RequestStatus, reason: Reason): State {
    DropRequest(s, request, status, reason).(phase := Idle, phaseDeadline := None)
  }

  function OnRenew(
    s: State, id: string, leaseId: string, leaseEpoch: u64, peerEpoch: u64, now: u64, t: Timing): Draft
  {
    if RenewalValid(s, id, leaseId, leaseEpoch, peerEpoch) then
      var expires := SatAdd(now, t.leaseMs);
      var session := s.activeSession.value;
      Draft(
        s.(activeSession := Some(session.(
          renewedUntil := expires, lease := session.lease.(expiresAt := expires)))),
        [])
    else BeginSessionFailureFallback(Draft(s, []), now, t, LeaseRenewalRejected)
  }

  predicate RenewalValid(s: State, id: string, leaseId: string, leaseEpoch: u64, peerEpoch: u64) {
    && s.activeSession.Some?
    && s.activeSession.value.requestId == id
    && s.activeSession.value.lease.leaseId == leaseId
    && s.activeSession.value.lease.leaseEpoch == leaseEpoch
    && s.activeSession.value.lease.peerSessionEpoch == peerEpoch
    && s.PeerReady(s.activeSession.value.target, peerEpoch)
  }

  function OnMultiViewRequested(s: State, enabled: bool, now: u64, t: Timing): Plan {
    if !s.Ready() then Refuse(Unavailable)
    else if s.keyboardOwner != s.server || s.pointerOwner != s.server then Refuse(InputNotLocal)
    else if s.activeRequest.Some? || s.pendingMultiview.Some? then
      Refuse(Busy(if s.activeRequest.Some? then s.activeRequest.value.requestId else "multiview"))
    else
      var epoch := SatAdd(s.switchEpoch, 1);
      Propose(
        Draft(
          s.(
            switchEpoch := epoch,
            pendingMultiview := Some(enabled),
            phase := MultiviewChanging,
            phaseDeadline := Some(SatAdd(now, t.commandMs))),
          [SetMultiView(enabled, epoch)]))
  }

  function OnMultiViewAcknowledged(s: State, epoch: u64, enabled: bool, now: u64, t: Timing): Draft {
    if s.switchEpoch == epoch && s.pendingMultiview == Some(enabled) then
      var d := RequestObservation(Draft(s, []), now, t, epoch);
      d.(state := d.state.(phase := MultiviewChanging))
    else Draft(s, [])
  }

  function OnSubscription(s: State, mode: TvMode, input: Option<Host>, now: u64, t: Timing): Draft
  {
    AfterSubscription(s.(tvMode := mode, observedInput := input), now, t)
  }

  /** The TV shows exactly this host's input, full screen. */
  predicate Shows(s: State, host: Host) {
    s.tvMode == Fullscreen && s.observedInput == Some(host)
  }

  function AfterSubscription(next: State, now: u64, t: Timing): Draft
  {
    var d := Draft(next, []);
    if next.fallbackRequired && next.phase == FallbackVerifying && Shows(next, next.server)
       && next.observationInFlight.None?
    then RequestObservationKeepingDeadline(d, now, t, next.switchEpoch)
    else if next.phase == Verifying && next.activeRequest.Some? && Shows(next, next.activeRequest.value.target)
         && next.observationInFlight.None?
    then RequestObservationKeepingDeadline(d, now, t, next.switchEpoch)
    else if next.phase == GrantPending && next.activeRequest.Some?
         && next.HasDisplayRoute(next.activeRequest.value.target) && !Shows(next, next.activeRequest.value.target)
    then BeginFallback(d, now, t, UnexpectedTvSubscription)
    else if next.activeSession.Some? && next.HasDisplayRoute(next.activeSession.value.target)
         && !Shows(next, next.activeSession.value.target)
    then BeginFallback(d, now, t, UnexpectedTvSubscription)
    else LocalSubscription(next, now, t)
  }

  /** A reading that contradicts no transaction: the manual choice stands, or the server is confirmed. */
  function LocalSubscription(next: State, now: u64, t: Timing): Draft
  {
    if ManualDisplayObserved(next) then Draft(AcceptManualDisplay(next), [])
    else if next.phase == Idle && Shows(next, next.server) then Draft(next.(manualRecovery := None), [])
    else if next.phase == Idle
         && (next.tvMode != Fullscreen || (next.observedInput.Some? && next.observedInput.value != next.server))
    then
      BeginFallback(Draft(next, []), now, t, ManualTvOverride)
    else Draft(next, [])
  }

  predicate Due(deadline: Option<u64>, now: u64) {
    deadline.Some? && deadline.value <= now
  }

  function OnTick(s: State, now: u64, t: Timing): Plan
  {
    AfterExpiry(ExpireRequest(s, now, t), now, t)
  }

  function AfterExpiry(d: Draft, now: u64, t: Timing): Plan
  {
    var next := d.state;
    if next.activeSession.Some? && next.activeSession.value.ExpiredAt(now) then
      Propose(BeginSessionFailureFallback(d, now, t, ActiveLeaseExpired))
    else if next.phase == RemoteOwned && next.observationInFlight.None? && Due(next.nextSignalPoll, now) then
      match next.activeSession
      case None => Panic
      case Some(session) => Propose(RequestObservation(d, now, t, session.switchEpoch))
    else if next.observationInFlight.Some? && Due(next.phaseDeadline, now) then
      Propose(
        if next.activeSession.Some? then BeginSessionFailureFallback(d, now, t, VerificationTimeoutReason(next))
        else BeginFallback(d, now, t, VerificationTimeoutReason(next)))
    else if next.phase == Verifying && Due(next.phaseDeadline, now) then
      Propose(BeginFallback(d, now, t, VerificationTimeoutReason(next)))
    else if ((next.phase == FallbackCommandPending || next.phase == FallbackVerifying)
             && Due(next.phaseDeadline, now))
         || (next.phase == FallbackDeferred && next.DaemonHealthy())
    then Propose(IssueFallbackCommand(d, now, t))
    else if next.phase == MultiviewChanging && Due(next.phaseDeadline, now) then
      Propose(BeginFallback(d, now, t, MultiviewTimeout))
    else Propose(d)
  }

  function ExpireRequest(s: State, now: u64, t: Timing): Draft
  {
    if s.activeRequest.Some? && s.activeRequest.value.deadline <= now then
      var request := s.activeRequest.value;
      if request.status == StWaking then Draft(DropWaking(s, request, StExpired, RequestDeadline), [])
      else
        BeginFallbackWithRestore(
          Draft(DropRequest(s, request, StExpired, RequestDeadline), []), now, t,
          RequestDeadline, DisplayRestoreRequired(s))
    else Draft(s, [])
  }

  function OnShutdown(s: State): State {
    ReleaseToServer(Transport(s, Disconnected, false)).(
      fallbackRequired := true,
      fallbackReason := Some(ShutdownRequested),
      phase := FallbackDeferred,
      activeRequest := None,
      pendingMultiview := None,
      phaseDeadline := None)
  }

  // ---------------------------------------------------------------- shared transitions

  function Archive(s: State, request: EnterRequest): State
  {
    s.(history := Archived(s.history, s.retainedLimit, request))
  }

  function ReleaseToServer(s: State): State {
    s.(keyboardOwner := s.server, pointerOwner := s.server, activeSession := None)
  }

  /** The active request enters the next switch epoch. */
  function SwitchOpened(s: State, now: u64, t: Timing): State
    requires s.activeRequest.Some?
  {
    var epoch := SatAdd(s.switchEpoch, 1);
    s.(
      switchEpoch := epoch,
      activeRequest := Some(s.activeRequest.value.(
        status := StSwitching,
        switchEpoch := Some(epoch),
        deadline := SatAdd(SatAdd(now, t.commandMs), t.observationMs))))
  }

  function BeginSwitch(d: Draft, now: u64, t: Timing): (r: Draft)
    requires d.state.activeRequest.Some?
  {
    var next := SwitchOpened(d.state, now, t);
    var target := d.state.activeRequest.value.target;
    if !d.state.HasDisplayRoute(target) then
      Draft(IssueGrant(next.(commandedInput := None, phaseDeadline := None), now, t), d.effects)
    else
      Draft(
        next.(
          commandedInput := Some(target),
          phase := Switching,
          phaseDeadline := Some(SatAdd(now, t.commandMs))),
        d.effects + [SetInput(target, next.switchEpoch, false)])
  }

  function RequestObservation(d: Draft, now: u64, t: Timing, epoch: u64): Draft {
    Draft(
      d.state.(
        observationInFlight := Some(epoch),
        nextSignalPoll := None,
        phaseDeadline := Some(SatAdd(now, t.observationMs))),
      d.effects + [Observe(epoch)])
  }

  function RequestObservationKeepingDeadline(d: Draft, now: u64, t: Timing, epoch: u64): Draft {
    var asked := RequestObservation(d, now, t, epoch);
    asked.(state := asked.state.(phaseDeadline := d.state.phaseDeadline))
  }

  function IssueGrant(s: State, now: u64, t: Timing): (r: State)
    requires s.activeRequest.Some? && s.activeRequest.value.switchEpoch.Some?
  {
    var request := s.activeRequest.value;
    var grantEpoch := SatAdd(s.grantEpoch, 1);
    var expires := Min(SatAdd(now, t.grantMs), request.lease.expiresAt);
    RecordVerifiedSwitch(
      s.(
        grantEpoch := grantEpoch,
        activeRequest := Some(request.(
          status := StGrant,
          deadline := expires,
          grant := Some(GrantIdentity(grantEpoch, request.switchEpoch.value, expires)))),
        verifiedEpoch := Some(request.switchEpoch.value),
        phase := GrantPending,
        phaseDeadline := Some(expires)),
      request.target)
  }

  function BeginFallback(d: Draft, now: u64, t: Timing, reason: Reason): Draft
  {
    BeginFallbackWithRestore(d, now, t, reason, DisplayRestoreRequired(d.state))
  }

  /** The newest record of `id`, if still committed, becomes a fallback record. */
  function Failed(h: seq<EnterRequest>, id: string, reason: Reason): seq<EnterRequest> {
    var i := FindLast(h, id);
    if i >= 0 && h[i].status == StCommitted then h[i := h[i].(status := StFallback, reason := Some(reason))]
    else h
  }

  /** History once a fallback has closed the live session's record and the active request. */
  function ClosedHistory(s: State, reason: Reason): seq<EnterRequest>
  {
    var h := if s.activeSession.Some? then Failed(s.history, s.activeSession.value.requestId, reason) else s.history;
    if s.activeRequest.Some? then
      Archived(h, s.retainedLimit, s.activeRequest.value.(status := StFallback, reason := Some(reason)))
    else h
  }

  /** The remote display target a failed request offers for manual recovery. */
  function OfferedRecovery(s: State): Option<Host> {
    if s.activeRequest.Some? && s.activeRequest.value.target != s.server
       && s.HasDisplayRoute(s.activeRequest.value.target)
    then Some(s.activeRequest.value.target)
    else s.manualRecovery
  }

  /** Ownership back at the server, the transaction closed and every pending observation forgotten. */
  function Released(s: State, reason: Reason, restore: bool): State
  {
    s.(
      manualRecovery := OfferedRecovery(s),
      keyboardOwner := s.server,
      pointerOwner := s.server,
      activeSession := None,
      fallbackRequired := restore,
      fallbackReason := Some(reason),
      verifiedEpoch := None,
      pendingMultiview := None,
      observationInFlight := None,
      nextSignalPoll := None,
      activeRequest := None,
      history := ClosedHistory(s, reason))
  }

  function BeginFallbackWithRestore(d: Draft, now: u64, t: Timing, reason: Reason, restore: bool): Draft
  {
    var next := Released(d.state, reason, restore);
    var healthy := d.state.DaemonHealthy();
    if restore && healthy then IssueFallbackCommand(Draft(next, d.effects), now, t)
    else
      Draft(
        next.(
          phase := if healthy then Idle else FallbackDeferred,
          phaseDeadline := None,
          fallbackReason := if restore || !healthy then Some(reason) else None),
        d.effects)
  }

  /** A failing session on a routed remote host offers that host for manual recovery. */
  function OfferSessionTarget(s: State): State {
    s.(
      manualRecovery :=
        if s.activeSession.Some? && s.activeSession.value.target != s.server
           && s.HasDisplayRoute(s.activeSession.value.target)
        then Some(s.activeSession.value.target)
        else s.manualRecovery)
  }

  function BeginSessionFailureFallback(d: Draft, now: u64, t: Timing, reason: Reason): Draft
  {
    BeginFallback(Draft(OfferSessionTarget(d.state), d.effects), now, t, reason)
  }

  function IssueFallbackCommand(d: Draft, now: u64, t: Timing): Draft
  {
    var epoch := SatAdd(d.state.switchEpoch, 1);
    Draft(
      d.state.(
        switchEpoch := epoch,
        commandedInput := Some(d.state.server),
        phase := FallbackCommandPending,
        phaseDeadline := Some(SatAdd(now, t.commandMs))),
      d.effects + [SetInput(d.state.server, epoch, true)])
  }

  function FinishFallback(s: State): State {
    RecordVerifiedSwitch(
      ReleaseToServer(s).(
        fallbackRequired := false,
        fallbackReason := None,
        phase := Idle,
        phaseDeadline := None,
        observationInFlight := None,
        nextSignalPoll := None,
        verifiedEpoch := Some(s.switchEpoch)),
      s.server)
  }

  predicate ManualDisplayObserved(s: State) {
    && (s.tvMode != Fullscreen || s.observedInput != Some(s.server))
    && s.keyboardOwner == s.server
    && s.pointerOwner == s.server
    && s.activeRequest.None?
    && s.activeSession.None?
  }

  function AcceptManualDisplay(s: State): State {
    ReleaseToServer(s).(
      commandedInput := None,
      manualRecovery := None,
      fallbackRequired := false,
      fallbackReason := None,
      pendingMultiview := None,
      phase := Idle,
      phaseDeadline := None,
      observationInFlight := None,
      nextSignalPoll := None)
  }

  predicate DisplayRestoreRequired(s: State) {
    || s.fallbackRequired
    || s.pendingMultiview.Some?
    || (s.activeRequest.Some? && s.activeRequest.value.switchEpoch.Some?
        && s.HasDisplayRoute(s.activeRequest.value.target))
    || (s.activeSession.Some? && s.HasDisplayRoute(s.activeSession.value.target))
  }

  function RecordVerifiedSwitch(s: State, target: Host): State {
    s.(switchCount := if s.switchEpoch == 0 then s.switchCount else s.switchCount.Bump(target))
  }

  function StoreObservation(
    s: State, epoch: u64, now: u64, mode: TvMode, input: Option<Host>, signals: map<Host, bool>): State
  {
    s.(tvMode := mode, observedInput := input, inputSignal := StoredSignals(s.inputSignal, epoch, now, signals))
  }

  function StoredSignals(
    old_: map<Host, SignalObservation>, epoch: u64, now: u64, signals: map<Host, bool>): map<Host, SignalObservation>
  {
    old_ + map h | h in signals :: SignalObservation(signals[h], epoch, now)
  }

  /** The loop over all hosts that stores a batch of signal readings. */
  method StoreSignals(before: map<Host, SignalObservation>, epoch: u64, now: u64, signals: map<Host, bool>)
    returns (after: map<Host, SignalObservation>)
    ensures after == StoredSignals(before, epoch, now, signals)
  {
    after := before;
    var hosts := [Controller, Left, Right];
    for i := 0 to |hosts|
      invariant forall h :: h in after <==> h in before || (h in signals && h in hosts[..i])
      invariant forall h :: h in after ==>
        after[h] == if h in signals && h in hosts[..i]
                    then SignalObservation(signals[h], epoch, now) else before[h]
    {
      if hosts[i] in signals {
        after := after[hosts[i] := SignalObservation(signals[hosts[i]], epoch, now)];
      }
    }
    forall h: Host
      ensures h in hosts[..|hosts|]
    {
      var i := if h == Controller then 0 else if h == Left then 1 else 2;
      assert hosts[..|hosts|][i] == h;
    }
  }

  function VerificationFailureReason(s: State, target: Host, epoch: u64): Reason {
    if s.tvMode != Fullscreen then TargetNotFullscreen
    else if s.observedInput != Some(target) then TargetInputNotObserved
    else if target !in s.inputSignal then TargetSignalNotObserved
    else if s.inputSignal[target].switchEpoch != epoch then TargetSignalStale
    else if !s.inputSignal[target].present then TargetSignalAbsent
    else TargetSignalNotObserved
  }

  function VerificationTimeoutReason(s: State): Reason {
    if s.phase != Verifying then ObservationTimeout
    else if s.activeRequest.None? then TargetVerificationTimeout
    else
      var request := s.activeRequest.value;
      VerificationFailureReason(
        s, request.target, if request.switchEpoch.Some? then request.switchEpoch.value else s.switchEpoch)
  }

  predicate ServerDisplayVerified(s: State, epoch: u64) {
    TargetDisplayVerified(s, s.server, epoch)
  }

  function CompleteMultiview(s: State, now: u64, t: Timing): Draft
  {
    match s.pendingMultiview
    case None => Draft(s, [])
    case Some(enabled) =>
      if s.tvMode != (if enabled then Multiview else Fullscreen) then
        BeginFallback(Draft(s, []), now, t, MultiviewObservationMismatch)
      else if enabled then Draft(s.(pendingMultiview := None, phase := Idle, phaseDeadline := None), [])
      else BeginFallback(Draft(s, []), now, t, MultiviewExitServerVerify)
  }
}
