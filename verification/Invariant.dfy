/** The inductive invariant of the controller and its preservation by every event. */
module Invariant {
  import opened Domain
  import opened Protocol

  // ---------------------------------------------------------------- the invariant

  predicate Final(status: RequestStatus) {
    status != StWaking && status != StSwitching && status != StGrant
  }

  /** Bounded, one entry per id, every entry closed and every committed entry granted. */
  ghost predicate HistoryOk(h: seq<EnterRequest>, limit: Limit) {
    && |h| <= limit
    && DistinctIds(h)
    && (forall i :: 0 <= i < |h| ==> Final(h[i].status))
    && (forall i :: 0 <= i < |h| && h[i].status == StCommitted ==> h[i].grant.Some?)
  }

  /** What any fallback needs of the state it starts from. */
  ghost predicate Closable(s: State) {
    && s.server in s.displayHosts
    && HistoryOk(s.history, s.retainedLimit)
    && (s.activeRequest.Some? ==> !InHistory(s.history, s.activeRequest.value.requestId))
    && s.manualRecovery != Some(s.server)
  }

  ghost predicate OwnersOk(s: State) {
    && s.keyboardOwner == s.pointerOwner
    && (s.activeSession.Some? <==> s.keyboardOwner != s.server)
    && (s.activeSession.Some? ==> s.activeSession.value.target == s.keyboardOwner)
  }

  ghost predicate FallbackOk(s: State) {
    s.fallbackRequired ==>
      && s.activeRequest.None?
      && s.activeSession.None?
      && s.pendingMultiview.None?
      && s.fallbackReason.Some?
      && (s.phase == FallbackCommandPending || s.phase == FallbackVerifying || s.phase == FallbackDeferred)
  }

  ghost predicate GrantOk(s: State, request: EnterRequest) {
    && request.switchEpoch == Some(s.switchEpoch)
    && s.verifiedEpoch == Some(s.switchEpoch)
    && request.grant.Some?
    && request.grant.value.switchEpoch == s.switchEpoch
    && request.grant.value.grantEpoch == s.grantEpoch
    && request.grant.value.expiresAt <= request.lease.expiresAt
    && request.deadline == request.grant.value.expiresAt
  }

  ghost predicate RequestOk(s: State) {
    s.activeRequest.Some? ==>
      var request := s.activeRequest.value;
      && request.requestEpoch == s.requestEpoch
      && s.manualRecovery.None?
      && s.phase != RemoteOwned
      && match request.status
         case StWaking => request.switchEpoch.None? && request.grant.None? && request.target != s.server
         case StSwitching =>
           request.switchEpoch == Some(s.switchEpoch) && request.grant.None? && s.HasDisplayRoute(request.target)
         case StGrant => GrantOk(s, request)
         case _ => false
  }

  ghost predicate PhaseOk(s: State) {
    match s.phase
    case Starting => false
    case Idle => true
    case Waking => s.activeRequest.Some? && s.activeRequest.value.status == StWaking
    case Switching | Verifying =>
      && s.activeRequest.Some?
      && s.activeRequest.value.status == StSwitching
      && s.commandedInput == Some(s.activeRequest.value.target)
    case GrantPending => s.activeRequest.Some? && s.activeRequest.value.status == StGrant
    case RemoteOwned => s.activeSession.Some? && s.activeSession.value.switchEpoch == s.switchEpoch
    case FallbackCommandPending =>
      && s.fallbackRequired
      && s.phaseDeadline.Some?
      && s.observationInFlight.None?
      && s.commandedInput == Some(s.server)
    case FallbackVerifying => s.fallbackRequired && (s.DaemonHealthy() ==> s.phaseDeadline.Some?)
    case FallbackDeferred =>
      !s.DaemonHealthy() && s.activeRequest.None? && s.activeSession.None? && s.pendingMultiview.None?
    case MultiviewChanging => s.pendingMultiview.Some?
  }

  /** The newest archived entry is the live session's own, still committed. */
  ghost predicate SessionOk(s: State) {
    s.activeSession.Some? ==>
      var session := s.activeSession.value;
      && session.renewedUntil == session.lease.expiresAt
      && session.switchEpoch <= s.switchEpoch
      && |s.history| > 0
      && var last := s.history[|s.history| - 1];
      && last.status == StCommitted
      && last.requestId == session.requestId
      && last.target == session.target
      && last.requestEpoch == session.requestEpoch
      && last.switchEpoch == Some(session.switchEpoch)
      && last.lease.leaseId == session.lease.leaseId
      && last.lease.leaseEpoch == session.lease.leaseEpoch
      && last.lease.peerSessionEpoch == session.lease.peerSessionEpoch
  }

  ghost predicate Core(s: State) {
    Closable(s) && OwnersOk(s) && FallbackOk(s) && RequestOk(s) && PhaseOk(s) && SessionOk(s)
  }

  /** What the runtime check adds for a live session, apart from the clock. */
  ghost predicate Settled(s: State) {
    s.activeSession.Some? ==>
      var session := s.activeSession.value;
      && s.manualRecovery.None?
      && s.PeerReady(session.target, session.lease.peerSessionEpoch)
      && (s.HasDisplayRoute(session.target) ==>
            s.verifiedEpoch == Some(session.switchEpoch)
            && TargetDisplayVerified(s, session.target, session.switchEpoch))
  }

  ghost predicate Inv(s: State) {
    Core(s) && Settled(s)
  }

  /** Given the structural part, the runtime check says exactly: no session, or a settled unexpired one. */
  lemma ValidateCore(s: State, now: u64)
    requires Core(s)
    ensures Validate(s, now).None? <==>
      s.activeSession.None? || (Settled(s) && !s.activeSession.value.ExpiredAt(now))
  {
  }

  lemma InitialInv(server: Host, limit: Limit, hosts: set<Host>)
    requires server in hosts
    ensures Inv(InitialState(server, limit, hosts))
  {
  }

  // ---------------------------------------------------------------- history

  lemma ArchivedOk(h: seq<EnterRequest>, limit: Limit, request: EnterRequest)
    requires HistoryOk(h, limit)
    requires !InHistory(h, request.requestId)
    requires Final(request.status) && (request.status == StCommitted ==> request.grant.Some?)
    ensures HistoryOk(Archived(h, limit, request), limit)
    ensures Archived(h, limit, request) == Trimmed(h, limit) + [request]
    ensures forall id :: InHistory(Archived(h, limit, request), id) ==> id == request.requestId || InHistory(h, id)
  {
  }

  lemma FailedOk(h: seq<EnterRequest>, id: string, reason: Reason, limit: Limit)
    requires HistoryOk(h, limit)
    ensures HistoryOk(Failed(h, id, reason), limit)
    ensures forall x :: InHistory(Failed(h, id, reason), x) <==> InHistory(h, x)
  {
  }

  // ---------------------------------------------------------------- fallback

  lemma ClosedHistoryOk(s: State, reason: Reason)
    requires Closable(s)
    ensures HistoryOk(ClosedHistory(s, reason), s.retainedLimit)
  {
    var h := s.history;
    if s.activeSession.Some? {
      FailedOk(h, s.activeSession.value.requestId, reason, s.retainedLimit);
      h := Failed(h, s.activeSession.value.requestId, reason);
    }
    if s.activeRequest.Some? {
      ArchivedOk(h, s.retainedLimit, s.activeRequest.value.(status := StFallback, reason := Some(reason)));
    }
  }

  /** Every fallback ends with both owners at the server and the whole invariant in place. */
  lemma FallbackOkAfter(d: Draft, now: u64, t: Timing, reason: Reason, restore: bool)
    requires Closable(d.state)
    ensures var r := BeginFallbackWithRestore(d, now, t, reason, restore).state;
      Core(r) && r.activeSession.None? && r.activeRequest.None? && r.keyboardOwner == r.server
  {
    ClosedHistoryOk(d.state, reason);
  }

  // ---------------------------------------------------------------- plans

  /** A draft the runtime check is certain to refuse: recovery armed beside a live session. */
  ghost predicate Refusable(s: State, d: Draft) {
    s.activeSession.Some? && d.state.activeSession.Some? && d.state.manualRecovery.Some?
  }

  /** The draft has the structural invariant and no new session, or is certain to be refused. */
  ghost predicate Good(s: State, d: Draft) {
    || Refusable(s, d)
    || (Core(d.state) && (s.activeSession.None? ==> d.state.activeSession.None?))
  }

  ghost predicate GoodPlan(s: State, p: Plan) {
    match p
    case Propose(draft) => Good(s, draft)
    case Unchanged => true
    case Refuse(error) => !error.Invariant?
    case Panic => false
  }

  lemma GoodFallback(s: State, d: Draft, now: u64, t: Timing, reason: Reason)
    requires Closable(d.state)
    ensures Good(s, BeginFallback(d, now, t, reason))
    ensures Core(BeginFallback(d, now, t, reason).state)
    ensures BeginFallback(d, now, t, reason).state.activeSession.None?
  {
    FallbackOkAfter(d, now, t, reason, DisplayRestoreRequired(d.state));
  }

  lemma GoodSessionFailure(s: State, d: Draft, now: u64, t: Timing, reason: Reason)
    requires Closable(d.state)
    ensures Good(s, BeginSessionFailureFallback(d, now, t, reason))
    ensures Core(BeginSessionFailureFallback(d, now, t, reason).state)
    ensures BeginSessionFailureFallback(d, now, t, reason).state.activeSession.None?
  {
    GoodFallback(s, Draft(OfferSessionTarget(d.state), d.effects), now, t, reason);
  }

  // ---------------------------------------------------------------- one lemma per event

  lemma GoodTransport(s: State, ws: WsState, subscribed: bool)
    requires Inv(s) && ws != Connected
    ensures Good(s, Draft(Transport(s, ws, subscribed), []))
  {
  }

  lemma FinishFallbackCore(s: State)
    requires Closable(s) && OwnersOk(s) && RequestOk(s) && (s.activeRequest.Some? ==> !s.fallbackRequired)
    ensures Core(FinishFallback(s)) && FinishFallback(s).activeSession.None?
  {
  }

  lemma AcceptManualCore(s: State)
    requires Closable(s) && ManualDisplayObserved(s)
    ensures Core(AcceptManualDisplay(s)) && AcceptManualDisplay(s).activeSession.None?
  {
  }

  lemma GoodSynchronized(
    s: State, mode: TvMode, input: Option<Host>, signals: map<Host, bool>, now: u64, t: Timing)
    requires Inv(s)
    ensures Good(s, OnSynchronized(s, mode, input, signals, now, t))
  {
    var linked := s.(wsState := Connected, subscribeActive := true, synchronized := true);
    var next := StoreObservation(linked, s.switchEpoch, now, mode, input, signals);
    if ServerDisplayVerified(next, s.switchEpoch) {
      FinishFallbackCore(next);
      assert Core(FinishFallback(next));
    } else if ManualDisplayObserved(next) {
      AcceptManualCore(next);
      assert Core(AcceptManualDisplay(next));
    } else {
      GoodFallback(s, Draft(next, []), now, t, StartupOrReconnectResync);
    }
  }

  lemma GoodDisconnected(s: State, now: u64, t: Timing, reason: Reason)
    requires Inv(s)
    ensures Good(s, BeginFallback(Draft(Transport(s, Disconnected, false), []), now, t, reason))
  {
    GoodFallback(s, Draft(Transport(s, Disconnected, false), []), now, t, reason);
  }

  /** A state in which the active request may be moved on to a switch or a grant. */
  ghost predicate Advancing(s: State) {
    && Closable(s) && OwnersOk(s) && SessionOk(s)
    && s.activeRequest.Some?
    && !s.fallbackRequired
    && s.manualRecovery.None?
    && s.activeRequest.value.requestEpoch == s.requestEpoch
  }

  lemma IssueGrantCore(s: State, now: u64, t: Timing)
    requires Advancing(s) && s.activeRequest.value.switchEpoch == Some(s.switchEpoch)
    ensures Core(IssueGrant(s, now, t)) && IssueGrant(s, now, t).activeSession == s.activeSession
  {
  }

  lemma BeginSwitchCore(d: Draft, now: u64, t: Timing)
    requires Advancing(d.state) && d.state.activeRequest.value.grant.None?
    ensures Core(BeginSwitch(d, now, t).state)
    ensures BeginSwitch(d, now, t).state.activeSession == d.state.activeSession
  {
    var next := SwitchOpened(d.state, now, t);
    assert Advancing(next);
    if !d.state.HasDisplayRoute(d.state.activeRequest.value.target) {
      IssueGrantCore(next.(commandedInput := None, phaseDeadline := None), now, t);
    } else {
      assert Core(next.(
        commandedInput := Some(d.state.activeRequest.value.target),
        phase := Switching,
        phaseDeadline := Some(SatAdd(now, t.commandMs))));
    }
  }

  lemma RecheckRequestCore(s: State, host: Host, readiness: PeerReadiness, now: u64, t: Timing)
    requires Core(s)
    ensures Core(RecheckRequest(s, host, readiness, now, t).state)
    ensures s.activeSession.None? ==> RecheckRequest(s, host, readiness, now, t).state.activeSession.None?
  {
    if s.activeRequest.Some? && s.activeRequest.value.target == host {
      var ready := readiness.BundleReady(s.activeRequest.value.lease.peerSessionEpoch);
      if s.phase == Waking && ready {
        BeginSwitchCore(Draft(s, []), now, t);
      } else if (s.phase == Switching || s.phase == Verifying || s.phase == GrantPending) && !ready {
        GoodFallback(s, Draft(s, []), now, t, TargetReadinessLost);
      }
    }
  }

  lemma GoodPeerReadiness(s: State, host: Host, readiness: PeerReadiness, now: u64, t: Timing)
    requires Inv(s)
    ensures Good(s, OnPeerReadiness(s, host, readiness, now, t))
  {
    var noted := s.(peers := s.peers[host := readiness]);
    assert Core(noted);
    RecheckRequestCore(noted, host, readiness, now, t);
    GoodRecheckOwner(s, RecheckRequest(noted, host, readiness, now, t), host, readiness, now, t);
  }

  lemma GoodRecheckOwner(s: State, d: Draft, host: Host, readiness: PeerReadiness, now: u64, t: Timing)
    requires Core(d.state)
    requires s.activeSession.None? ==> d.state.activeSession.None?
    ensures Good(s, RecheckOwner(d, host, readiness, now, t))
  {
    GoodSessionFailure(s, d, now, t, ActivePeerReadinessLost);
    assert Core(d.state);
  }

  lemma GoodArm(s: State, target: Host)
    requires Inv(s)
    ensures GoodPlan(s, OnArmManualRecovery(s, target))
  {
  }

  lemma RequestObservationCore(d: Draft, now: u64, t: Timing, epoch: u64)
    requires Core(d.state) && d.state.phase != FallbackCommandPending
    ensures Core(RequestObservation(d, now, t, epoch).state)
  {
  }

  lemma StartVerifyingCore(s: State)
    requires Core(s) && (s.phase == Switching || s.phase == FallbackCommandPending)
    ensures Core(StartVerifying(s))
    ensures StartVerifying(s).phase != FallbackCommandPending
    ensures StartVerifying(s).activeSession == s.activeSession
  {
  }

  lemma GoodAcknowledged(s: State, epoch: u64, target: Host, now: u64, t: Timing)
    requires Inv(s)
    ensures GoodPlan(s, OnCommandAcknowledged(s, epoch, target, now, t))
  {
    if s.observationInFlight.None? && (s.phase == Switching || s.phase == FallbackCommandPending) {
      StartVerifyingCore(s);
      GoodObservationRequest(s, Draft(StartVerifying(s), []), now, t, epoch);
    } else {
      assert Core(s);
    }
  }

  lemma GoodObservationRequest(s: State, d: Draft, now: u64, t: Timing, epoch: u64)
    requires Core(d.state) && d.state.phase != FallbackCommandPending
    requires s.activeSession.None? ==> d.state.activeSession.None?
    ensures Good(s, RequestObservation(d, now, t, epoch))
    ensures Good(s, RequestObservationKeepingDeadline(d, now, t, epoch))
  {
  }

  lemma GoodCommandFailed(s: State, epoch: u64, now: u64, t: Timing, reason: Reason)
    requires Inv(s)
    ensures Good(s, 
      if s.switchEpoch == epoch then BeginFallback(Draft(s, []), now, t, reason) else Draft(s, []))
  {
    GoodFallback(s, Draft(s, []), now, t, reason);
    assert Core(s);
  }

  lemma NotRetained(s: State, id: string)
    requires s.Request(id).None?
    ensures !InHistory(s.history, id)
  {
  }

  lemma GoodDeny(s: State, request: EnterRequest)
    requires Inv(s) && s.activeRequest.None?
    requires !InHistory(s.history, request.requestId) && request.target != s.server
    ensures Good(s, Draft(Deny(s, request), []))
  {
    ArchivedOk(
      s.history, s.retainedLimit, request.(status := StDenied, reason := Some(TargetInputNotReady)));
    if s.activeSession.None? {
      assert Core(Deny(s, request));
    }
  }

  lemma GoodBeginSwitch(s: State, d: Draft, now: u64, t: Timing)
    requires Advancing(d.state) && d.state.activeRequest.value.grant.None?
    requires s.activeSession.None? ==> d.state.activeSession.None?
    ensures Good(s, BeginSwitch(d, now, t))
  {
    BeginSwitchCore(d, now, t);
    assert Core(BeginSwitch(d, now, t).state);
  }

  lemma GoodRouteRequest(s: State, request: EnterRequest, now: u64, t: Timing)
    requires Inv(s) && s.activeRequest.None? && s.Ready() && s.manualRecovery.None?
    requires !InHistory(s.history, request.requestId) && request.requestEpoch == s.requestEpoch
    requires request.grant.None? && request.switchEpoch.None?
    ensures Good(s, RouteRequest(s, request, now, t))
  {
    if request.target == s.server {
      GoodBeginSwitch(s, Draft(ReleaseToServer(s).(activeRequest := Some(request)), []), now, t);
    } else if !(request.target in s.peers && s.peers[request.target].online) {
      assert Core(WakeTarget(s, request, now, t).state);
    } else if !s.peers[request.target].BundleReady(request.lease.peerSessionEpoch) {
      GoodDeny(s, request);
    } else {
      GoodBeginSwitch(s, Draft(s.(activeRequest := Some(request)), []), now, t);
    }
  }

  lemma GoodOpenRequest(
    s: State, id: string, client: string, target: Host, lease: LeaseIdentity, now: u64, t: Timing)
    requires Inv(s) && s.activeRequest.None? && s.Ready() && !InHistory(s.history, id)
    ensures Good(s, OpenRequest(s, id, client, target, lease, now, t))
  {
    var epoch := SatAdd(s.requestEpoch, 1);
    GoodRouteRequest(
      s.(manualRecovery := None, requestEpoch := epoch),
      EnterRequest(
        id, client, target, epoch, lease, StSwitching, None, None, SatAdd(now, t.commandMs), None),
      now, t);
  }

  lemma GoodCreateEnter(
    s: State, id: string, client: string, target: Host, lease: LeaseIdentity, now: u64, t: Timing)
    requires Inv(s)
    ensures GoodPlan(s, OnCreateEnter(s, id, client, target, lease, now, t))
  {
    if s.Request(id).None? && s.activeRequest.None? && s.Ready() {
      NotRetained(s, id);
      GoodOpenRequest(s, id, client, target, lease, now, t);
    }
  }

  lemma GoodObservation(
    s: State, epoch: u64, mode: TvMode, input: Option<Host>, signals: map<Host, bool>, now: u64, t: Timing)
    requires Inv(s)
    ensures Good(s, OnObservation(s, epoch, mode, input, signals, now, t))
  {
    GoodAfterObservation(s, NoteObservation(s, epoch, mode, input, signals, now), epoch, now, t);
  }

  lemma GoodAfterObservation(s: State, next: State, epoch: u64, now: u64, t: Timing)
    requires Core(next)
    requires s.activeSession.None? ==> next.activeSession.None?
    ensures Good(s, AfterObservation(next, epoch, now, t))
  {
    if next.fallbackRequired && next.switchEpoch == epoch {
      if ServerDisplayVerified(next, epoch) {
        FinishFallbackCore(next);
        assert Core(FinishFallback(next));
      } else {
        assert Core(next.(phase := FallbackVerifying));
      }
    } else if next.activeRequest.Some? {
      GoodObserveRequest(s, next, epoch, now, t);
    } else if next.phase == RemoteOwned {
      GoodObserveSession(s, next, epoch, now, t);
    } else if next.phase == MultiviewChanging {
      GoodMultiview(s, next, now, t);
    } else {
      assert Core(next);
    }
  }

  lemma GoodObserveSession(s: State, next: State, epoch: u64, now: u64, t: Timing)
    requires Core(next)
    requires s.activeSession.None? ==> next.activeSession.None?
    ensures Good(s, ObserveSession(next, epoch, now, t))
  {
    GoodSessionFailure(s, Draft(next, []), now, t, ActiveSignalLost);
    assert Core(next);
    var polled := next.(phaseDeadline := None, nextSignalPoll := Some(SatAdd(now, t.signalPollMs)));
    if next.activeSession.Some? {
      assert Core(polled);
    }
  }

  lemma GoodObserveRequest(s: State, next: State, epoch: u64, now: u64, t: Timing)
    requires Core(next) && next.activeRequest.Some?
    requires s.activeSession.None? ==> next.activeSession.None?
    ensures Good(s, ObserveRequest(next, epoch, now, t))
  {
    var request := next.activeRequest.value;
    var verified := TargetDisplayVerified(next, request.target, epoch);
    if request.switchEpoch == Some(epoch) && next.phase == Verifying && verified {
      if request.target != next.server
         && (!next.PeerReady(request.target, request.lease.peerSessionEpoch) || request.lease.expiresAt <= now) {
        GoodFallback(s, Draft(next, []), now, t, LeaseOrReadinessLostBeforeGrant);
      } else {
        IssueGrantCore(next, now, t);
        assert Core(IssueGrant(next, now, t));
      }
    } else if request.switchEpoch == Some(epoch) && next.phase == GrantPending && !verified {
      GoodFallback(s, Draft(next, []), now, t, TargetObservationFailed);
    } else {
      assert Core(next);
    }
  }

  lemma GoodMultiview(s: State, next: State, now: u64, t: Timing)
    requires Core(next) && next.phase == MultiviewChanging
    requires s.activeSession.None? ==> next.activeSession.None?
    ensures Good(s, CompleteMultiview(next, now, t))
  {
    var enabled := next.pendingMultiview.value;
    if next.tvMode != (if enabled then Multiview else Fullscreen) {
      GoodFallback(s, Draft(next, []), now, t, MultiviewObservationMismatch);
    } else if enabled {
      assert Core(next.(pendingMultiview := None, phase := Idle, phaseDeadline := None));
    } else {
      GoodFallback(s, Draft(next, []), now, t, MultiviewExitServerVerify);
    }
  }

  lemma TransferCore(s: State, now: u64, t: Timing)
    requires Inv(s) && s.activeRequest.Some? && s.activeRequest.value.status == StGrant
    ensures Core(Transfer(s, s.activeRequest.value, now, t))
  {
  }

  /** A commit proposes a state with the structural invariant, though the runtime check may refuse it. */
  lemma CommitPlan(
    s: State, id: string, requestEpoch: u64, grantEpoch: u64, leaseId: string, leaseEpoch: u64,
    now: u64, t: Timing)
    requires Inv(s)
    ensures var p := OnCommit(s, id, requestEpoch, grantEpoch, leaseId, leaseEpoch, now, t);
      !p.Panic? && (p.Propose? ==> Core(p.draft.state))
  {
    if s.activeRequest.Some? && s.activeRequest.value.status == StGrant {
      GoodFallback(s, Draft(s, []), now, t, ReadinessLostBeforeCommit);
      TransferCore(s, now, t);
    }
  }

  /** Dropping the active request leaves a state any fallback can start from. */
  lemma DropRequestClosable(s: State, status: RequestStatus, reason: Reason)
    requires Core(s) && s.activeRequest.Some? && (status == StCancelled || status == StExpired)
    ensures Closable(DropRequest(s, s.activeRequest.value, status, reason))
  {
  }

  /** Dropping a waking request keeps the invariant, unless a live session makes it certain to be refused. */
  lemma DropWakingGood(s: State, status: RequestStatus, reason: Reason)
    requires Inv(s) && s.activeRequest.Some? && s.activeRequest.value.status == StWaking
    requires status == StCancelled || status == StExpired
    ensures Good(s, Draft(DropWaking(s, s.activeRequest.value, status, reason), []))
    ensures s.activeSession.None? ==> Core(DropWaking(s, s.activeRequest.value, status, reason))
  {
    DropRequestClosable(s, status, reason);
    if s.activeSession.None? {
      assert Core(DropWaking(s, s.activeRequest.value, status, reason));
    }
  }

  lemma MarkCancelledClosable(s: State, i: nat, reason: Reason)
    requires Closable(s) && i < |s.history|
    ensures Closable(MarkCancelled(s, i, reason))
  {
  }

  lemma GoodCancelRequest(s: State, reason: Reason, now: u64, t: Timing)
    requires Inv(s) && s.activeRequest.Some?
    ensures Good(s, CancelRequest(s, s.activeRequest.value, reason, now, t))
  {
    if s.activeRequest.value.switchEpoch.Some? {
      DropRequestClosable(s, StCancelled, reason);
      GoodFallback(s, Draft(DropRequest(s, s.activeRequest.value, StCancelled, reason), []), now, t, reason);
    } else {
      DropWakingGood(s, StCancelled, reason);
    }
  }

  lemma GoodCancel(s: State, id: string, reason: Reason, now: u64, t: Timing)
    requires Inv(s)
    ensures GoodPlan(s, OnCancel(s, id, reason, now, t))
  {
    if s.activeSession.Some? && s.activeSession.value.requestId == id {
      var i := FindLast(s.history, id);
      if i >= 0 {
        MarkCancelledClosable(s, i, reason);
        GoodFallback(s, Draft(MarkCancelled(s, i, reason), []), now, t, reason);
      }
    } else if s.activeRequest.Some? {
      GoodCancelRequest(s, reason, now, t);
    }
  }

  lemma GoodRenew(
    s: State, id: string, leaseId: string, leaseEpoch: u64, peerEpoch: u64, now: u64, t: Timing)
    requires Inv(s)
    ensures Good(s, OnRenew(s, id, leaseId, leaseEpoch, peerEpoch, now, t))
  {
    if RenewalValid(s, id, leaseId, leaseEpoch, peerEpoch) {
      assert Core(OnRenew(s, id, leaseId, leaseEpoch, peerEpoch, now, t).state);
    } else {
      GoodSessionFailure(s, Draft(s, []), now, t, LeaseRenewalRejected);
    }
  }

  lemma GoodMultiViewRequested(s: State, enabled: bool, now: u64, t: Timing)
    requires Inv(s)
    ensures GoodPlan(s, OnMultiViewRequested(s, enabled, now, t))
  {
  }

  lemma GoodMultiViewAcknowledged(s: State, epoch: u64, enabled: bool, now: u64, t: Timing)
    requires Inv(s)
    ensures Good(s, OnMultiViewAcknowledged(s, epoch, enabled, now, t))
  {
    if s.switchEpoch == epoch && s.pendingMultiview == Some(enabled) {
      RequestObservationCore(Draft(s, []), now, t, epoch);
    }
    assert Core(OnMultiViewAcknowledged(s, epoch, enabled, now, t).state);
  }

  lemma GoodShutdown(s: State)
    requires Inv(s)
    ensures Good(s, Draft(OnShutdown(s), []))
  {
  }

  lemma GoodSubscription(s: State, mode: TvMode, input: Option<Host>, now: u64, t: Timing)
    requires Inv(s)
    ensures Good(s, OnSubscription(s, mode, input, now, t))
  {
    GoodAfterSubscription(s, s.(tvMode := mode, observedInput := input), now, t);
  }

  lemma GoodAfterSubscription(s: State, next: State, now: u64, t: Timing)
    requires Core(next)
    requires s.activeSession.None? ==> next.activeSession.None?
    ensures Good(s, AfterSubscription(next, now, t))
  {
    var d := Draft(next, []);
    if next.phase == FallbackVerifying || next.phase == Verifying {
      GoodObservationRequest(s, d, now, t, next.switchEpoch);
    }
    GoodLocalSubscription(s, next, now, t);
    GoodFallback(s, d, now, t, UnexpectedTvSubscription);
  }

  lemma GoodLocalSubscription(s: State, next: State, now: u64, t: Timing)
    requires Core(next)
    requires s.activeSession.None? ==> next.activeSession.None?
    ensures Good(s, LocalSubscription(next, now, t))
  {
    if ManualDisplayObserved(next) {
      AcceptManualCore(next);
      assert Core(AcceptManualDisplay(next));
    } else if next.phase == Idle && Shows(next, next.server) {
      assert Core(next.(manualRecovery := None));
    } else {
      assert Core(next);
      GoodFallback(s, Draft(next, []), now, t, ManualTvOverride);
    }
  }

  lemma GoodAfterExpiry(s: State, d: Draft, now: u64, t: Timing)
    requires Core(d.state)
    requires s.activeSession.None? ==> d.state.activeSession.None?
    ensures GoodPlan(s, AfterExpiry(d, now, t))
  {
    var next := d.state;
    if next.activeSession.Some? && next.activeSession.value.ExpiredAt(now) {
      GoodSessionFailure(s, d, now, t, ActiveLeaseExpired);
    } else if next.phase == RemoteOwned && next.observationInFlight.None? && Due(next.nextSignalPoll, now) {
      GoodObservationRequest(s, d, now, t, next.activeSession.value.switchEpoch);
    } else if next.observationInFlight.Some? && Due(next.phaseDeadline, now) {
      if next.activeSession.Some? {
        GoodSessionFailure(s, d, now, t, VerificationTimeoutReason(next));
      } else {
        GoodFallback(s, d, now, t, VerificationTimeoutReason(next));
      }
    } else if next.phase == Verifying && Due(next.phaseDeadline, now) {
      GoodFallback(s, d, now, t, VerificationTimeoutReason(next));
    } else if (next.phase == FallbackCommandPending || next.phase == FallbackVerifying)
           && Due(next.phaseDeadline, now) {
      assert Core(IssueFallbackCommand(d, now, t).state);
    } else if next.phase == MultiviewChanging && Due(next.phaseDeadline, now) {
      GoodFallback(s, d, now, t, MultiviewTimeout);
    } else {
      assert Core(d.state);
    }
  }

  /** Expiry leaves the invariant in place, except for a waking request under a live session. */
  lemma ExpireRequestCore(s: State, now: u64, t: Timing)
    requires Inv(s)
    requires s.activeSession.Some? && s.activeRequest.Some? && s.activeRequest.value.deadline <= now ==>
      s.activeRequest.value.status != StWaking
    ensures Core(ExpireRequest(s, now, t).state)
    ensures s.activeSession.None? ==> ExpireRequest(s, now, t).state.activeSession.None?
  {
    if s.activeRequest.Some? && s.activeRequest.value.deadline <= now {
      if s.activeRequest.value.status == StWaking {
        DropWakingGood(s, StExpired, RequestDeadline);
      } else {
        DropRequestClosable(s, StExpired, RequestDeadline);
        FallbackOkAfter(
          Draft(DropRequest(s, s.activeRequest.value, StExpired, RequestDeadline), []), now, t,
          RequestDeadline, DisplayRestoreRequired(s));
      }
    }
  }

  predicate WakeExpiryBlocked(s: State, now: u64) {
    && s.activeSession.Some?
    && !s.activeSession.value.ExpiredAt(now)
    && s.activeRequest.Some?
    && s.activeRequest.value.status == StWaking
    && s.activeRequest.value.deadline <= now
  }

  lemma AfterWakeExpiry(s: State, d: Draft, now: u64, t: Timing)
    requires Closable(d.state) && d.state.phase == Idle && d.state.phaseDeadline.None?
    requires s.activeSession.Some? && d.state.activeSession == s.activeSession && d.state.manualRecovery.Some?
    ensures AfterExpiry(d, now, t).Propose? && Good(s, AfterExpiry(d, now, t).draft)
    ensures s.activeSession.value.ExpiredAt(now) ==>
      Core(AfterExpiry(d, now, t).draft.state) && AfterExpiry(d, now, t).draft.state.activeSession.None?
    ensures !s.activeSession.value.ExpiredAt(now) ==> AfterExpiry(d, now, t).draft == d
  {
    GoodSessionFailure(s, d, now, t, ActiveLeaseExpired);
  }

  /** The one case outside `ExpireRequestCore`: the session expires too, or the draft is refused. */
  lemma TickUnderSession(s: State, now: u64, t: Timing)
    requires Inv(s) && s.activeSession.Some?
    requires s.activeRequest.Some? && s.activeRequest.value.deadline <= now
    requires s.activeRequest.value.status == StWaking
    ensures OnTick(s, now, t).Propose? && Good(s, OnTick(s, now, t).draft)
    ensures !WakeExpiryBlocked(s, now) ==>
      Core(OnTick(s, now, t).draft.state) && OnTick(s, now, t).draft.state.activeSession.None?
    ensures WakeExpiryBlocked(s, now) ==>
      OnTick(s, now, t).draft == Draft(DropWaking(s, s.activeRequest.value, StExpired, RequestDeadline), [])
  {
    var d := Draft(DropWaking(s, s.activeRequest.value, StExpired, RequestDeadline), []);
    assert ExpireRequest(s, now, t) == d;
    DropRequestClosable(s, StExpired, RequestDeadline);
    AfterWakeExpiry(s, d, now, t);
  }

  lemma GoodTick(s: State, now: u64, t: Timing)
    requires Inv(s)
    ensures GoodPlan(s, OnTick(s, now, t))
  {
    if s.activeSession.Some? && s.activeRequest.Some? && s.activeRequest.value.deadline <= now
       && s.activeRequest.value.status == StWaking {
      TickUnderSession(s, now, t);
    } else {
      ExpireRequestCore(s, now, t);
      GoodAfterExpiry(s, ExpireRequest(s, now, t), now, t);
    }
  }

  lemma ClientPlanGood(s: State, e: Event, now: u64, t: Timing)
    requires Inv(s) && !e.Commit? && FromClient(e)
    ensures GoodPlan(s, Decide(s, e, now, t))
  {
    var p := Decide(s, e, now, t);
    match e
    case PeerReadinessUpdated(host, readiness) =>
      assert p == Propose(OnPeerReadiness(s, host, readiness, now, t));
      GoodPeerReadiness(s, host, readiness, now, t);
    case ArmManualRecovery(target) =>
      assert p == OnArmManualRecovery(s, target);
      GoodArm(s, target);
    case CreateEnter(id, client, target, lease) =>
      assert p == OnCreateEnter(s, id, client, target, lease, now, t);
      GoodCreateEnter(s, id, client, target, lease, now, t);
    case Cancel(id, why) =>
      assert p == OnCancel(s, id, Given(why), now, t);
      GoodCancel(s, id, Given(why), now, t);
    case Renew(id, leaseId, leaseEpoch, peerEpoch) =>
      assert p == Propose(OnRenew(s, id, leaseId, leaseEpoch, peerEpoch, now, t));
      GoodRenew(s, id, leaseId, leaseEpoch, peerEpoch, now, t);
    case MultiViewRequested(enabled) =>
      assert p == OnMultiViewRequested(s, enabled, now, t);
      GoodMultiViewRequested(s, enabled, now, t);
  }

  lemma DevicePlanGood(s: State, e: Event, now: u64, t: Timing)
    requires Inv(s) && !e.Commit? && !FromClient(e)
    ensures GoodPlan(s, Decide(s, e, now, t))
  {
    var p := Decide(s, e, now, t);
    match e
    case TransportConnecting => GoodTransport(s, Connecting, false);
    case TransportRegistering => GoodTransport(s, Registering, false);
    case TransportSubscribed => GoodTransport(s, Synchronizing, true);
    case TransportSynchronized(mode, input, signals) =>
      assert p == Propose(OnSynchronized(s, mode, input, signals, now, t));
      GoodSynchronized(s, mode, input, signals, now, t);
    case TransportDisconnected(why) => GoodDisconnected(s, now, t, Given(why));
    case CommandAcknowledged(epoch, target) =>
      assert p == OnCommandAcknowledged(s, epoch, target, now, t);
      GoodAcknowledged(s, epoch, target, now, t);
    case CommandFailed(epoch, why) => GoodCommandFailed(s, epoch, now, t, Given(why));
    case Observation(epoch, mode, input, signals) =>
      assert p == Propose(OnObservation(s, epoch, mode, input, signals, now, t));
      GoodObservation(s, epoch, mode, input, signals, now, t);
    case MultiViewAcknowledged(epoch, enabled) =>
      assert p == Propose(OnMultiViewAcknowledged(s, epoch, enabled, now, t));
      GoodMultiViewAcknowledged(s, epoch, enabled, now, t);
    case SubscriptionObserved(mode, input) =>
      assert p == Propose(OnSubscription(s, mode, input, now, t));
      GoodSubscription(s, mode, input, now, t);
    case Tick =>
      assert p == OnTick(s, now, t);
      GoodTick(s, now, t);
    case Shutdown => GoodShutdown(s);
  }

  lemma PlanGood(s: State, e: Event, now: u64, t: Timing)
    requires Inv(s) && !e.Commit?
    ensures GoodPlan(s, Decide(s, e, now, t))
  {
    if FromClient(e) {
      ClientPlanGood(s, e, now, t);
    } else {
      DevicePlanGood(s, e, now, t);
    }
  }

  /** A good plan is carried out, unless a live session is expired or not settled. */
  lemma GoodPlanOutcome(s: State, p: Plan, now: u64)
    requires Inv(s) && p.Propose? && Good(s, p.draft)
    ensures var o := Validated(p.draft, now);
      && (o.Accepted? ==> Inv(o.next))
      && (s.activeSession.None? ==> o.Accepted?)
  {
  }

  /** Without a session, whatever an event other than a commit proposes is carried out. */
  lemma ProposalCarriedOut(s: State, e: Event, now: u64, t: Timing)
    requires Inv(s) && s.activeSession.None? && !e.Commit? && Decide(s, e, now, t).Propose?
    ensures Apply(s, e, now, t)
      == Accepted(Decide(s, e, now, t).draft.state, Decide(s, e, now, t).draft.effects)
  {
    PlanGood(s, e, now, t);
    GoodPlanOutcome(s, Decide(s, e, now, t), now);
  }

  /** Every event, in every state satisfying the invariant: no panic, the invariant kept, and no
      rejection by the runtime check unless a session is live or the event is a commit. */
  lemma StepSound(s: State, e: Event, now: u64, t: Timing)
    requires Inv(s)
    ensures var o := Apply(s, e, now, t);
      && !o.Panicked?
      && (o.Accepted? ==> Inv(o.next))
      && (s.activeSession.None? && !e.Commit? ==> !(o.Rejected? && o.error.Invariant?))
  {
    var p := Decide(s, e, now, t);
    if e.Commit? {
      CommitPlan(s, e.requestId, e.requestEpoch, e.grantEpoch, e.leaseId, e.leaseEpoch, now, t);
      if p.Propose? {
        ValidateCore(p.draft.state, now);
      }
    } else {
      PlanGood(s, e, now, t);
      if p.Propose? {
        GoodPlanOutcome(s, p, now);
      }
    }
  }
}
