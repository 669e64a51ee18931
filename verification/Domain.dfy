/** Values of the switch controller: hosts, requests, sessions and the protocol state. */
module Domain {

  const U64_MAX: nat := 0xFFFF_FFFF_FFFF_FFFF

  type u64 = n: nat | n <= U64_MAX

  /** `u64::saturating_add`. */
  function SatAdd(a: u64, b: u64): (sum: u64)
    ensures sum == a + b || (sum == U64_MAX && a + b > U64_MAX)
  {
    if a + b <= U64_MAX then a + b else U64_MAX
  }

  function Min(a: u64, b: u64): u64 {
    if a <= b then a else b
  }

  /** How many closed requests are kept; configuration refuses zero. */
  type Limit = n: nat | n > 0 witness 1

  datatype Option<+T> = None | Some(value: T)

  datatype Host = Controller | Right | Left

  const ALL_HOSTS: set<Host> := {Controller, Left, Right}

  datatype TvMode = Unknown | Fullscreen | Multiview

  datatype WsState = Disconnected | Connecting | Registering | Synchronizing | Connected

  datatype Phase =
    | Starting
    | Idle
    | Waking
    | Switching
    | Verifying
    | GrantPending
    | RemoteOwned
    | FallbackCommandPending
    | FallbackVerifying
    | FallbackDeferred
    | MultiviewChanging

  datatype PeerReadiness = PeerReadiness(
    online: bool, keyboardReady: bool, pointerReady: bool, sessionEpoch: u64, observedAt: u64)
  {
    predicate BundleReady(epoch: u64) {
      online && keyboardReady && pointerReady && sessionEpoch == epoch
    }
  }

  datatype LeaseIdentity = LeaseIdentity(
    leaseId: string, leaseEpoch: u64, peerSessionEpoch: u64, expiresAt: u64)

  datatype GrantIdentity = GrantIdentity(grantEpoch: u64, switchEpoch: u64, expiresAt: u64)

  datatype RequestStatus =
    StWaking | StSwitching | StGrant | StCommitted | StDenied | StCancelled | StFallback | StExpired

  /** Why a request or a fallback happened. `Given` carries a caller's own text. */
  datatype Reason =
    | Given(text: string)
    | StartupUnsynchronized
    | StartupOrReconnectResync
    | TargetReadinessLost
    | ActivePeerReadinessLost
    | TargetInputNotReady
    | LeaseOrReadinessLostBeforeGrant
    | TargetObservationFailed
    | ActiveSignalLost
    | ReadinessLostBeforeCommit
    | LeaseRenewalRejected
    | UnexpectedTvSubscription
    | ManualTvOverride
    | RequestDeadline
    | ActiveLeaseExpired
    | MultiviewTimeout
    | MultiviewObservationMismatch
    | MultiviewExitServerVerify
    | ShutdownRequested
    | ObservationTimeout
    | TargetVerificationTimeout
    | TargetNotFullscreen
    | TargetInputNotObserved
    | TargetSignalAbsent
    | TargetSignalStale
    | TargetSignalNotObserved

  datatype EnterRequest = EnterRequest(
    requestId: string,
    clientId: string,
    target: Host,
    requestEpoch: u64,
    lease: LeaseIdentity,
    status: RequestStatus,
    switchEpoch: Option<u64>,
    grant: Option<GrantIdentity>,
    deadline: u64,
    reason: Option<Reason>)

  datatype ActiveSession = ActiveSession(
    requestId: string,
    target: Host,
    requestEpoch: u64,
    switchEpoch: u64,
    lease: LeaseIdentity,
    renewedUntil: u64)
  {
    predicate ExpiredAt(now: u64) {
      renewedUntil <= now || lease.expiresAt <= now
    }
  }

  datatype SignalObservation = SignalObservation(present: bool, switchEpoch: u64, observedAt: u64)

  /** One saturating counter per host, so every lookup by host succeeds. */
  datatype Counters = Counters(controller: u64, right: u64, left: u64) {
    function Bump(host: Host): Counters {
      match host
      case Controller => this.(controller := SatAdd(controller, 1))
      case Right => this.(right := SatAdd(right, 1))
      case Left => this.(left := SatAdd(left, 1))
    }
  }

  datatype State = State(
    server: Host,
    displayHosts: set<Host>,
    wsState: WsState,
    subscribeActive: bool,
    synchronized: bool,
    phase: Phase,
    tvMode: TvMode,
    commandedInput: Option<Host>,
    observedInput: Option<Host>,
    inputSignal: map<Host, SignalObservation>,
    peers: map<Host, PeerReadiness>,
    requestEpoch: u64,
    switchEpoch: u64,
    verifiedEpoch: Option<u64>,
    grantEpoch: u64,
    keyboardOwner: Host,
    pointerOwner: Host,
    activeRequest: Option<EnterRequest>,
    history: seq<EnterRequest>,
    retainedLimit: Limit,
    activeSession: Option<ActiveSession>,
    pendingMultiview: Option<bool>,
    observationInFlight: Option<u64>,
    phaseDeadline: Option<u64>,
    nextSignalPoll: Option<u64>,
    fallbackRequired: bool,
    fallbackReason: Option<Reason>,
    manualRecovery: Option<Host>,
    switchCount: Counters)
  {
    predicate HasDisplayRoute(host: Host) {
      host in displayHosts
    }

    predicate DaemonHealthy() {
      wsState == Connected && subscribeActive && synchronized
    }

    predicate Ready() {
      DaemonHealthy() && !fallbackRequired && phase != FallbackDeferred
    }

    predicate PeerReady(host: Host, epoch: u64) {
      host in peers && peers[host].BundleReady(epoch)
    }

    /** The record kept for a request id: the active request first, then the newest archived one. */
    function Request(id: string): Option<EnterRequest> {
      if activeRequest.Some? && activeRequest.value.requestId == id then activeRequest
      else
        var i := FindLast(history, id);
        if i < 0 then None else Some(history[i])
    }
  }

  function InitialState(server: Host, retainedLimit: Limit, displayHosts: set<Host>): State
    requires server in displayHosts
  {
    State(
      server := server,
      displayHosts := displayHosts,
      wsState := Disconnected,
      subscribeActive := false,
      synchronized := false,
      phase := FallbackDeferred,
      tvMode := Unknown,
      commandedInput := None,
      observedInput := None,
      inputSignal := map h | h in ALL_HOSTS :: SignalObservation(false, 0, 0),
      peers := map h | h in ALL_HOSTS :: PeerReadiness(false, false, false, 0, 0),
      requestEpoch := 0,
      switchEpoch := 0,
      verifiedEpoch := None,
      grantEpoch := 0,
      keyboardOwner := server,
      pointerOwner := server,
      activeRequest := None,
      history := [],
      retainedLimit := retainedLimit,
      activeSession := None,
      pendingMultiview := None,
      observationInFlight := None,
      phaseDeadline := None,
      nextSignalPoll := None,
      fallbackRequired := true,
      fallbackReason := Some(StartupUnsynchronized),
      manualRecovery := None,
      switchCount := Counters(0, 0, 0))
  }

  // ---------------------------------------------------------------- request history

  /** Newest position holding `id`, or -1. */
  function FindLast(h: seq<EnterRequest>, id: string): (i: int)
    ensures -1 <= i < |h|
    ensures i >= 0 ==> h[i].requestId == id
    ensures forall j :: i < j < |h| ==> h[j].requestId != id
  {
    if h == [] then -1
    else if h[|h| - 1].requestId == id then |h| - 1
    else FindLast(h[..|h| - 1], id)
  }

  /** Newest position holding `id` with status Committed, or -1. */
  function FindCommitted(h: seq<EnterRequest>, id: string): (i: int)
    ensures -1 <= i < |h|
    ensures i >= 0 ==> h[i].requestId == id && h[i].status == StCommitted
    ensures forall j :: i < j < |h| ==> !(h[j].requestId == id && h[j].status == StCommitted)
  {
    if h == [] then -1
    else if h[|h| - 1].requestId == id && h[|h| - 1].status == StCommitted then |h| - 1
    else FindCommitted(h[..|h| - 1], id)
  }

  predicate InHistory(h: seq<EnterRequest>, id: string) {
    exists i :: 0 <= i < |h| && h[i].requestId == id
  }

  predicate DistinctIds(h: seq<EnterRequest>) {
    forall i, j :: 0 <= i < j < |h| ==> h[i].requestId != h[j].requestId
  }

  /** `h` without its oldest entry for `id`. */
  function Without(h: seq<EnterRequest>, id: string): (r: seq<EnterRequest>)
    ensures |r| <= |h|
    ensures !InHistory(h, id) ==> r == h
  {
    if h == [] then []
    else if h[0].requestId == id then h[1..]
    else
      assert InHistory(h[1..], id) ==> InHistory(h, id);
      [h[0]] + Without(h[1..], id)
  }

  /** The newest `limit - 1` entries of `h`. */
  function Trimmed(h: seq<EnterRequest>, limit: Limit): seq<EnterRequest>
  {
    if |h| >= limit then h[|h| - limit + 1..] else h
  }

  function Archived(h: seq<EnterRequest>, limit: Limit, request: EnterRequest): seq<EnterRequest>
  {
    Trimmed(Without(h, request.requestId), limit) + [request]
  }

  lemma {:induction false} WithoutRemovesFirst(h: seq<EnterRequest>, id: string, position: nat)
    requires position < |h| && h[position].requestId == id
    requires forall j :: 0 <= j < position ==> h[j].requestId != id
    ensures Without(h, id) == h[..position] + h[position + 1..]
  {
    if position > 0 {
      WithoutRemovesFirst(h[1..], id, position - 1);
      assert [h[0]] + (h[1..][..position - 1] + h[1..][position..]) == h[..position] + h[position + 1..];
    }
  }

  /** The archive loop: drop the old entry of the same id, pop the front to make room, append. */
  method ArchiveRequest(h: seq<EnterRequest>, limit: Limit, request: EnterRequest) returns (r: seq<EnterRequest>)
    ensures r == Archived(h, limit, request)
  {
    var kept := RemoveById(h, request.requestId);
    r := kept;
    ghost var dropped := 0;
    while |r| >= limit
      invariant 0 <= dropped <= |kept| && r == kept[dropped..]
      invariant dropped > 0 ==> |r| + 1 >= limit
    {
      r := r[1..];
      dropped := dropped + 1;
    }
    r := r + [request];
  }

  method RemoveById(h: seq<EnterRequest>, id: string) returns (r: seq<EnterRequest>)
    ensures r == Without(h, id)
  {
    var position := 0;
    while position < |h| && h[position].requestId != id
      invariant 0 <= position <= |h|
      invariant forall j :: 0 <= j < position ==> h[j].requestId != id
    {
      position := position + 1;
    }
    if position < |h| {
      WithoutRemovesFirst(h, id, position);
      r := h[..position] + h[position + 1..];
    } else {
      r := h;
    }
  }

  // ---------------------------------------------------------------- deadlines and validation

  function EarlierOf(a: Option<u64>, b: Option<u64>): (r: Option<u64>)
    ensures r.Some? <==> a.Some? || b.Some?
    ensures r.Some? ==> r == a || r == b
    ensures a.Some? ==> r.value <= a.value
    ensures b.Some? ==> r.value <= b.value
  {
    match (a, b)
    case (None, _) => b
    case (_, None) => a
    case (Some(x), Some(y)) => Some(Min(x, y))
  }

  function NextDeadline(s: State): Option<u64> {
    EarlierOf(
      EarlierOf(s.phaseDeadline, s.nextSignalPoll),
      EarlierOf(
        if s.activeRequest.Some? then Some(s.activeRequest.value.deadline) else None,
        if s.activeSession.Some?
        then Some(Min(s.activeSession.value.renewedUntil, s.activeSession.value.lease.expiresAt))
        else None))
  }

  datatype InvariantViolation =
    | SplitInputOwnership
    | FallbackOwnsRemoteInput
    | ManualRecoveryTargetsServer
    | ManualRecoveryWhileInputActive
    | RemoteOwnerWithoutSession
    | RemoteOwnerSessionMismatch
    | RemoteOwnerLeaseExpired
    | RemoteOwnerNotReady
    | RemoteOwnerWithoutVerifiedDisplay
    | GrantStateWithoutGrant
    | GrantEpochMismatch

  predicate SignalVerified(s: State, host: Host, epoch: u64) {
    host in s.inputSignal && s.inputSignal[host].present && s.inputSignal[host].switchEpoch == epoch
  }

  predicate TargetDisplayVerified(s: State, target: Host, epoch: u64) {
    s.tvMode == Fullscreen && s.observedInput == Some(target) && SignalVerified(s, target, epoch)
  }

  /** The runtime check every accepted transition passes last; None is success. */
  function Validate(s: State, now: u64): Option<InvariantViolation> {
    if s.keyboardOwner != s.pointerOwner then Some(SplitInputOwnership)
    else if s.fallbackRequired && s.keyboardOwner != s.server then Some(FallbackOwnsRemoteInput)
    else if s.manualRecovery == Some(s.server) then Some(ManualRecoveryTargetsServer)
    else if s.manualRecovery.Some?
         && (s.activeRequest.Some? || s.activeSession.Some? || s.keyboardOwner != s.server)
    then Some(ManualRecoveryWhileInputActive)
    else
      var remote := if s.keyboardOwner != s.server then ValidateRemote(s, now) else None;
      if remote.Some? then remote else ValidateGrant(s)
  }

  function ValidateRemote(s: State, now: u64): Option<InvariantViolation> {
    if s.activeSession.None? then Some(RemoteOwnerWithoutSession)
    else
      var session := s.activeSession.value;
      if session.target != s.keyboardOwner then Some(RemoteOwnerSessionMismatch)
      else if session.ExpiredAt(now) then Some(RemoteOwnerLeaseExpired)
      else if !s.PeerReady(session.target, session.lease.peerSessionEpoch) then Some(RemoteOwnerNotReady)
      else if s.HasDisplayRoute(session.target)
           && (s.verifiedEpoch != Some(session.switchEpoch)
               || !TargetDisplayVerified(s, session.target, session.switchEpoch))
      then Some(RemoteOwnerWithoutVerifiedDisplay)
      else None
  }

  function ValidateGrant(s: State): Option<InvariantViolation> {
    if s.activeRequest.Some? && s.activeRequest.value.status == StGrant then
      var request := s.activeRequest.value;
      if request.grant.None? then Some(GrantStateWithoutGrant)
      else if request.switchEpoch != Some(request.grant.value.switchEpoch)
           || s.verifiedEpoch != Some(request.grant.value.switchEpoch)
      then Some(GrantEpochMismatch)
      else None
    else None
  }
}
