/** How one event may move the active request and the live session. */
module Transactions {
  import opened Domain
  import opened Protocol
  import opened Invariant
  import opened Runs
  import opened Epochs

  predicate NoCommands(effects: seq<Effect>) {
    forall i :: 0 <= i < |effects| ==> !IsCommand(effects[i])
  }

  predicate SameIdentity(a: EnterRequest, b: EnterRequest) {
    && a.requestId == b.requestId
    && a.clientId == b.clientId
    && a.target == b.target
    && a.lease.leaseId == b.lease.leaseId
    && a.lease.leaseEpoch == b.lease.leaseEpoch
  }

  /** The event is the acknowledgement of the current input command. */
  predicate AcksCurrent(s: State, e: Event) {
    e.CommandAcknowledged? && e.switchEpoch == s.switchEpoch && s.commandedInput == Some(e.target)
  }

  /** `r` is what a create event asks for, before any progress. */
  predicate OpenedBy(s: State, e: Event, r: EnterRequest) {
    && e.CreateEnter? && s.activeRequest.None?
    && r.requestId == e.requestId && r.clientId == e.clientId && r.target == e.target && r.lease == e.lease
  }

  // ---------------------------------------------------------------- the active request

  /** The request is untouched: no command goes out, and verification starts only by acknowledgement. */
  ghost predicate Held(s: State, e: Event, d: Draft) {
    && d.state.activeRequest == s.activeRequest
    && NoCommands(d.effects)
    && d.state.switchEpoch == s.switchEpoch
    && (d.state.phase == Verifying ==> s.phase == Verifying || (s.phase == Switching && AcksCurrent(s, e)))
  }

  ghost predicate Woken(s: State, e: Event, now: u64, t: Timing, d: Draft) {
    && d.state.activeRequest.Some?
    && OpenedBy(s, e, d.state.activeRequest.value)
    && d.state.activeRequest.value.status == StWaking
    && d.state.activeRequest.value.deadline == SatAdd(now, t.wakeMs)
  }

  ghost predicate Started(s: State, e: Event, now: u64, t: Timing, d: Draft) {
    && d.state.activeRequest.Some?
    && var r := d.state.activeRequest.value;
    && (OpenedBy(s, e, r)
        || (e.PeerReadinessUpdated? && s.activeRequest.Some? && s.activeRequest.value.status == StWaking
            && SameIdentity(s.activeRequest.value, r) && r.lease == s.activeRequest.value.lease))
    && d.state.switchEpoch == SatAdd(s.switchEpoch, 1)
    && if s.HasDisplayRoute(r.target) then
         && r.status == StSwitching
         && r.deadline == SatAdd(SatAdd(now, t.commandMs), t.observationMs)
         && d.effects == [SetInput(r.target, d.state.switchEpoch, false)]
         && d.state.phase == Switching
       else
         && r.status == StGrant
         && r.deadline == Min(SatAdd(now, t.grantMs), r.lease.expiresAt)
         && d.effects == []
  }

  ghost predicate GrantedBy(s: State, e: Event, now: u64, t: Timing, d: Draft) {
    && d.state.activeRequest.Some? && s.activeRequest.Some?
    && var r, was := d.state.activeRequest.value, s.activeRequest.value;
    && SameIdentity(was, r) && r.lease == was.lease
    && was.status == StSwitching && r.status == StGrant
    && r.deadline == Min(SatAdd(now, t.grantMs), r.lease.expiresAt)
    && s.phase == Verifying
    && e.Observation? && e.switchEpoch == s.switchEpoch
    && d.state.switchEpoch == s.switchEpoch
    && TargetDisplayVerified(d.state, r.target, s.switchEpoch)
    && d.effects == []
    && d.state.phase == GrantPending
  }

  ghost predicate RequestMove(s: State, e: Event, now: u64, t: Timing, d: Draft) {
    || d.state.activeRequest.None?
    || Held(s, e, d)
    || Woken(s, e, now, t, d)
    || Started(s, e, now, t, d)
    || GrantedBy(s, e, now, t, d)
  }

  // ---------------------------------------------------------------- the live session

  function RenewedSession(session: ActiveSession, expires: u64): ActiveSession {
    session.(renewedUntil := expires, lease := session.lease.(expiresAt := expires))
  }

  ghost predicate Renewed(s: State, e: Event, now: u64, t: Timing, d: Draft) {
    && e.Renew? && s.activeSession.Some? && s.activeSession.value.requestId == e.requestId
    && d.state.activeSession == Some(RenewedSession(s.activeSession.value, SatAdd(now, t.leaseMs)))
  }

  ghost predicate Committed(s: State, e: Event, now: u64, t: Timing, d: Draft) {
    && e.Commit? && s.activeRequest.Some?
    && var r := s.activeRequest.value;
    && r.status == StGrant && r.grant.Some? && r.target != s.server
    && r.requestId == e.requestId && r.requestEpoch == e.requestEpoch
    && r.grant.value.grantEpoch == e.grantEpoch
    && now < r.grant.value.expiresAt && now < r.lease.expiresAt
    && var expires := SatAdd(now, t.leaseMs);
    && d.state.activeSession == Some(ActiveSession(
         r.requestId, r.target, r.requestEpoch, s.switchEpoch, r.lease.(expiresAt := expires), expires))
    && d.state.history != [] && d.state.history[|d.state.history| - 1].lease.expiresAt == expires
    && d.state.activeRequest.None?
    && d.effects == []
    && d.state.switchEpoch == s.switchEpoch
  }

  ghost predicate SessionMove(s: State, e: Event, now: u64, t: Timing, d: Draft)
  {
    || d.state.activeSession.None?
    || d.state.activeSession == s.activeSession
    || Renewed(s, e, now, t, d)
    || Committed(s, e, now, t, d)
  }

  // ---------------------------------------------------------------- every event is such a move

  ghost predicate Moves(s: State, e: Event, now: u64, t: Timing, d: Draft)
  {
    RequestMove(s, e, now, t, d) && SessionMove(s, e, now, t, d)
  }

  ghost predicate Released(d: Draft) {
    d.state.activeRequest.None? && d.state.activeSession.None? && OwnersHome(d.state)
  }

  lemma RestoreReleases(d: Draft, now: u64, t: Timing, reason: Reason, restore: bool)
    ensures Released(BeginFallbackWithRestore(d, now, t, reason, restore))
  {
  }

  lemma FallbackReleases(d: Draft, now: u64, t: Timing, reason: Reason)
    ensures Released(BeginFallback(d, now, t, reason))
  {
  }

  lemma SessionFailureReleases(d: Draft, now: u64, t: Timing, reason: Reason)
    ensures Released(BeginSessionFailureFallback(d, now, t, reason))
  {
    FallbackReleases(Draft(OfferSessionTarget(d.state), d.effects), now, t, reason);
  }

  lemma FallbackMoves(s: State, e: Event, now: u64, t: Timing, d: Draft, reason: Reason)
    ensures Moves(s, e, now, t, BeginFallback(d, now, t, reason))
  {
    FallbackReleases(d, now, t, reason);
  }

  lemma SessionFailureMoves(s: State, e: Event, now: u64, t: Timing, d: Draft, reason: Reason)
    ensures Moves(s, e, now, t, BeginSessionFailureFallback(d, now, t, reason))
  {
    FallbackMoves(s, e, now, t, Draft(OfferSessionTarget(d.state), d.effects), reason);
  }

  /** Neither the request nor the session is touched. */
  lemma IdleMoves(s: State, e: Event, now: u64, t: Timing, d: Draft)
    requires d.state.activeRequest == s.activeRequest && d.state.activeSession == s.activeSession
    requires NoCommands(d.effects) && d.state.switchEpoch == s.switchEpoch && d.state.phase == s.phase
    ensures Moves(s, e, now, t, d)
  {
  }

  /** A draft about to switch for `e`: a request just opened by it, or the waking one. */
  ghost predicate Departing(s: State, e: Event, d: Draft) {
    && d.state.activeRequest.Some? && d.effects == []
    && d.state.displayHosts == s.displayHosts && d.state.switchEpoch == s.switchEpoch
    && (d.state.activeSession == s.activeSession || d.state.activeSession.None?)
    && var r := d.state.activeRequest.value;
    && (OpenedBy(s, e, r) || (e.PeerReadinessUpdated? && s.activeRequest == Some(r) && r.status == StWaking))
  }

  lemma SwitchStarts(s: State, e: Event, now: u64, t: Timing, d: Draft)
    requires Departing(s, e, d)
    ensures Moves(s, e, now, t, BeginSwitch(d, now, t))
  {
  }

  lemma SynchronizedMoves(
    s: State, mode: TvMode, input: Option<Host>, signals: map<Host, bool>, now: u64, t: Timing, e: Event)
    requires Inv(s)
    ensures Moves(s, e, now, t, OnSynchronized(s, mode, input, signals, now, t))
  {
    var linked := s.(wsState := Connected, subscribeActive := true, synchronized := true);
    var next := StoreObservation(linked, s.switchEpoch, now, mode, input, signals);
    if !ServerDisplayVerified(next, s.switchEpoch) && !ManualDisplayObserved(next) {
      FallbackMoves(s, e, now, t, Draft(next, []), StartupOrReconnectResync);
    }
  }

  lemma PeerReadinessMoves(s: State, host: Host, readiness: PeerReadiness, now: u64, t: Timing, e: Event)
    requires Inv(s) && e.PeerReadinessUpdated?
    ensures Moves(s, e, now, t, OnPeerReadiness(s, host, readiness, now, t))
  {
    var noted := s.(peers := s.peers[host := readiness]);
    RecheckRequestMoves(s, noted, host, readiness, now, t, e);
    var d := RecheckRequest(noted, host, readiness, now, t);
    SessionFailureMoves(s, e, now, t, d, ActivePeerReadinessLost);
  }

  lemma RecheckRequestMoves(
    s: State, noted: State, host: Host, readiness: PeerReadiness, now: u64, t: Timing, e: Event)
    requires Inv(s) && e.PeerReadinessUpdated?
    requires noted.activeRequest == s.activeRequest && noted.activeSession == s.activeSession
    requires noted.phase == s.phase && noted.displayHosts == s.displayHosts && noted.switchEpoch == s.switchEpoch
    ensures Moves(s, e, now, t, RecheckRequest(noted, host, readiness, now, t))
  {
    if s.phase == Waking {
      SwitchStarts(s, e, now, t, Draft(noted, []));
    } else {
      FallbackMoves(s, e, now, t, Draft(noted, []), TargetReadinessLost);
    }
    IdleMoves(s, e, now, t, Draft(noted, []));
  }

  lemma CreateEnterMoves(
    s: State, id: string, client: string, target: Host, lease: LeaseIdentity, now: u64, t: Timing)
    requires Inv(s)
    ensures var p := OnCreateEnter(s, id, client, target, lease, now, t);
      p.Propose? ==> Moves(s, CreateEnter(id, client, target, lease), now, t, p.draft)
  {
    if s.activeRequest.None? {
      var epoch := SatAdd(s.requestEpoch, 1);
      var request := EnterRequest(
        id, client, target, epoch, lease, StSwitching, None, None, SatAdd(now, t.commandMs), None);
      RouteMoves(
        s, CreateEnter(id, client, target, lease), s.(manualRecovery := None, requestEpoch := epoch), request, now, t);
    }
  }

  lemma RouteMoves(s: State, e: Event, next: State, request: EnterRequest, now: u64, t: Timing)
    requires Inv(s) && OpenedBy(s, e, request)
    requires next.activeRequest.None? && next.activeSession == s.activeSession
    requires next.displayHosts == s.displayHosts && next.switchEpoch == s.switchEpoch
    ensures Moves(s, e, now, t, RouteRequest(next, request, now, t))
  {
    if request.target == next.server {
      SwitchStarts(s, e, now, t, Draft(ReleaseToServer(next).(activeRequest := Some(request)), []));
    } else if !(request.target in next.peers && next.peers[request.target].online) {
      assert Woken(s, e, now, t, WakeTarget(next, request, now, t));
    } else if next.peers[request.target].BundleReady(request.lease.peerSessionEpoch) {
      SwitchStarts(s, e, now, t, Draft(next.(activeRequest := Some(request)), []));
    }
  }

  lemma AcknowledgedMoves(s: State, epoch: u64, target: Host, now: u64, t: Timing)
    requires Inv(s)
    ensures var p := OnCommandAcknowledged(s, epoch, target, now, t);
      p.Propose? ==> Moves(s, CommandAcknowledged(epoch, target), now, t, p.draft)
  {
  }

  lemma ObservationMoves(
    s: State, epoch: u64, mode: TvMode, input: Option<Host>, signals: map<Host, bool>, now: u64, t: Timing)
    requires Inv(s)
    ensures Moves(
      s, Observation(epoch, mode, input, signals), now, t, OnObservation(s, epoch, mode, input, signals, now, t))
  {
    AfterObservationMoves(
      s, Observation(epoch, mode, input, signals), NoteObservation(s, epoch, mode, input, signals, now), epoch, now, t);
  }

  lemma AfterObservationMoves(s: State, e: Event, next: State, epoch: u64, now: u64, t: Timing)
    requires Inv(s) && e.Observation? && e.switchEpoch == epoch
    requires next.activeRequest == s.activeRequest && next.activeSession == s.activeSession
    requires next.phase == s.phase && next.switchEpoch == s.switchEpoch
    requires next.fallbackRequired == s.fallbackRequired && next.server == s.server
    ensures Moves(s, e, now, t, AfterObservation(next, epoch, now, t))
  {
    if next.fallbackRequired && next.switchEpoch == epoch {
    } else if next.activeRequest.Some? {
      ObserveRequestMoves(s, e, next, epoch, now, t);
    } else if next.phase == RemoteOwned {
      SessionFailureMoves(s, e, now, t, Draft(next, []), ActiveSignalLost);
    } else {
      FallbackMoves(s, e, now, t, Draft(next, []), MultiviewObservationMismatch);
      FallbackMoves(s, e, now, t, Draft(next, []), MultiviewExitServerVerify);
    }
  }

  lemma ObserveRequestMoves(s: State, e: Event, next: State, epoch: u64, now: u64, t: Timing)
    requires Inv(s) && e.Observation? && e.switchEpoch == epoch
    requires next.activeRequest == s.activeRequest && next.activeSession == s.activeSession
    requires next.phase == s.phase && next.switchEpoch == s.switchEpoch && next.activeRequest.Some?
    ensures Moves(s, e, now, t, ObserveRequest(next, epoch, now, t))
  {
    var request := next.activeRequest.value;
    var verified := TargetDisplayVerified(next, request.target, epoch);
    if request.switchEpoch == Some(epoch) && next.phase == Verifying && verified {
      GrantMoves(s, e, next, now, t);
      FallbackMoves(s, e, now, t, Draft(next, []), LeaseOrReadinessLostBeforeGrant);
    } else if request.switchEpoch == Some(epoch) && next.phase == GrantPending && !verified {
      FallbackMoves(s, e, now, t, Draft(next, []), TargetObservationFailed);
    } else {
      IdleMoves(s, e, now, t, Draft(next, []));
    }
  }

  lemma GrantMoves(s: State, e: Event, next: State, now: u64, t: Timing)
    requires Inv(s) && e.Observation? && e.switchEpoch == s.switchEpoch
    requires next.activeRequest == s.activeRequest && next.activeSession == s.activeSession
    requires s.phase == Verifying && next.switchEpoch == s.switchEpoch
    requires TargetDisplayVerified(next, s.activeRequest.value.target, s.switchEpoch)
    ensures Moves(s, e, now, t, Draft(IssueGrant(next, now, t), []))
  {
  }

  lemma CommitMoves(
    s: State, id: string, requestEpoch: u64, grantEpoch: u64, leaseId: string, leaseEpoch: u64,
    now: u64, t: Timing)
    requires Inv(s)
    ensures var p := OnCommit(s, id, requestEpoch, grantEpoch, leaseId, leaseEpoch, now, t);
      p.Propose? ==> Moves(s, Commit(id, requestEpoch, grantEpoch, leaseId, leaseEpoch), now, t, p.draft)
  {
    FallbackMoves(
      s, Commit(id, requestEpoch, grantEpoch, leaseId, leaseEpoch), now, t, Draft(s, []), ReadinessLostBeforeCommit);
  }

  lemma CancelMoves(s: State, id: string, reason: Reason, now: u64, t: Timing, e: Event)
    requires Inv(s)
    ensures var p := OnCancel(s, id, reason, now, t); p.Propose? ==> Moves(s, e, now, t, p.draft)
  {
    if CancelSettled(s.history, id) {
      assert OnCancel(s, id, reason, now, t) == Propose(Draft(s, []));
      IdleMoves(s, e, now, t, Draft(s, []));
    } else if s.activeSession.Some? && s.activeSession.value.requestId == id {
      var i := FindLast(s.history, id);
      if i >= 0 {
        FallbackMoves(s, e, now, t, Draft(MarkCancelled(s, i, reason), []), reason);
      }
    } else if s.activeRequest.Some? {
      CancelRequestMoves(s, s.activeRequest.value, reason, now, t, e);
    }
  }

  lemma CancelRequestMoves(s: State, request: EnterRequest, reason: Reason, now: u64, t: Timing, e: Event)
    ensures Moves(s, e, now, t, CancelRequest(s, request, reason, now, t))
  {
    FallbackMoves(s, e, now, t, Draft(DropRequest(s, request, StCancelled, reason), []), reason);
  }

  lemma SubscriptionMoves(s: State, mode: TvMode, input: Option<Host>, now: u64, t: Timing, e: Event)
    requires Inv(s)
    ensures Moves(s, e, now, t, OnSubscription(s, mode, input, now, t))
  {
    AfterSubscriptionMoves(s, s.(tvMode := mode, observedInput := input), now, t, e);
  }

  lemma AfterSubscriptionMoves(s: State, next: State, now: u64, t: Timing, e: Event)
    requires next.activeRequest == s.activeRequest && next.activeSession == s.activeSession
    requires next.phase == s.phase && next.switchEpoch == s.switchEpoch
    ensures Moves(s, e, now, t, AfterSubscription(next, now, t))
  {
    var d := Draft(next, []);
    if next.phase == FallbackVerifying || next.phase == Verifying {
      IdleMoves(s, e, now, t, RequestObservationKeepingDeadline(d, now, t, next.switchEpoch));
    }
    FallbackMoves(s, e, now, t, d, UnexpectedTvSubscription);
    LocalSubscriptionMoves(s, next, now, t, e);
  }

  lemma LocalSubscriptionMoves(s: State, next: State, now: u64, t: Timing, e: Event)
    requires next.activeRequest == s.activeRequest && next.activeSession == s.activeSession
    requires next.phase == s.phase && next.switchEpoch == s.switchEpoch
    ensures Moves(s, e, now, t, LocalSubscription(next, now, t))
  {
    FallbackMoves(s, e, now, t, Draft(next, []), ManualTvOverride);
    IdleMoves(s, e, now, t, Draft(next, []));
    IdleMoves(s, e, now, t, Draft(next.(manualRecovery := None), []));
  }

  /** Expiry closes a due request and keeps the session or releases it. */
  lemma ExpiryMoves(s: State, now: u64, t: Timing)
    ensures var d := ExpireRequest(s, now, t);
      || d == Draft(s, [])
      || (d.state.activeRequest.None? && (d.state.activeSession.None? || d.state.activeSession == s.activeSession))
  {
    if s.activeRequest.Some? && s.activeRequest.value.deadline <= now {
      RestoreReleases(
        Draft(DropRequest(s, s.activeRequest.value, StExpired, RequestDeadline), []), now, t,
        RequestDeadline, DisplayRestoreRequired(s));
    }
  }

  lemma TickMoves(s: State, now: u64, t: Timing, e: Event)
    requires Inv(s)
    ensures var p := OnTick(s, now, t); p.Propose? ==> Moves(s, e, now, t, p.draft)
  {
    var d := ExpireRequest(s, now, t);
    ExpiryMoves(s, now, t);
    if d == Draft(s, []) {
      QuietExpiryMoves(s, now, t, e);
    } else {
      AfterExpiryMoves(s, d, now, t, e);
    }
  }

  /** With nothing to expire, a tick falls back, asks for an observation or leaves everything alone. */
  lemma QuietExpiryMoves(s: State, now: u64, t: Timing, e: Event)
    requires Inv(s)
    ensures var p := AfterExpiry(Draft(s, []), now, t); p.Propose? ==> Moves(s, e, now, t, p.draft)
  {
    var d := Draft(s, []);
    if s.activeSession.Some? && s.activeSession.value.ExpiredAt(now) {
      SessionFailureMoves(s, e, now, t, d, ActiveLeaseExpired);
    } else if s.phase == RemoteOwned && s.observationInFlight.None? && Due(s.nextSignalPoll, now) {
      assert s.activeRequest.None?;
    } else if s.observationInFlight.Some? && Due(s.phaseDeadline, now) {
      SessionFailureMoves(s, e, now, t, d, VerificationTimeoutReason(s));
      FallbackMoves(s, e, now, t, d, VerificationTimeoutReason(s));
    } else if s.phase == Verifying && Due(s.phaseDeadline, now) {
      FallbackMoves(s, e, now, t, d, VerificationTimeoutReason(s));
    } else if s.phase == MultiviewChanging && Due(s.phaseDeadline, now) {
      FallbackMoves(s, e, now, t, d, MultiviewTimeout);
    } else {
      IdleMoves(s, e, now, t, d);
    }
  }

  ghost predicate StaysClosed(d: Draft, r: Draft) {
    && r.state.activeRequest.None?
    && (r.state.activeSession.None? || r.state.activeSession == d.state.activeSession)
  }

  lemma AskingStaysClosed(d: Draft, now: u64, t: Timing, epoch: u64)
    requires d.state.activeRequest.None?
    ensures StaysClosed(d, RequestObservation(d, now, t, epoch)) && StaysClosed(d, IssueFallbackCommand(d, now, t))
  {
  }

  /** Without a request the rest of a tick opens none and keeps the session or releases it. */
  lemma ClosedStays(d: Draft, now: u64, t: Timing)
    requires d.state.activeRequest.None?
    ensures var p := AfterExpiry(d, now, t); p.Propose? ==> StaysClosed(d, p.draft)
  {
    var next := d.state;
    if next.activeSession.Some? && next.activeSession.value.ExpiredAt(now) {
      SessionFailureReleases(d, now, t, ActiveLeaseExpired);
    } else if next.phase == RemoteOwned && next.observationInFlight.None? && Due(next.nextSignalPoll, now) {
      if next.activeSession.Some? {
        AskingStaysClosed(d, now, t, next.activeSession.value.switchEpoch);
      }
    } else if next.observationInFlight.Some? && Due(next.phaseDeadline, now) {
      SessionFailureReleases(d, now, t, VerificationTimeoutReason(next));
      FallbackReleases(d, now, t, VerificationTimeoutReason(next));
    } else if next.phase == Verifying && Due(next.phaseDeadline, now) {
      FallbackReleases(d, now, t, VerificationTimeoutReason(next));
    } else if next.phase == MultiviewChanging && Due(next.phaseDeadline, now) {
      FallbackReleases(d, now, t, MultiviewTimeout);
    } else {
      AskingStaysClosed(d, now, t, 0);
    }
  }

  lemma AfterExpiryMoves(s: State, d: Draft, now: u64, t: Timing, e: Event)
    requires d.state.activeRequest.None? && (d.state.activeSession.None? || d.state.activeSession == s.activeSession)
    ensures var p := AfterExpiry(d, now, t); p.Propose? ==> Moves(s, e, now, t, p.draft)
  {
    ClosedStays(d, now, t);
  }

  lemma ClientMoves(s: State, e: Event, now: u64, t: Timing)
    requires Inv(s) && FromClient(e)
    ensures var p := Decide(s, e, now, t); p.Propose? ==> Moves(s, e, now, t, p.draft)
  {
    match e
    case PeerReadinessUpdated(host, readiness) => PeerReadinessMoves(s, host, readiness, now, t, e);
    case CreateEnter(id, client, target, lease) => CreateEnterMoves(s, id, client, target, lease, now, t);
    case Commit(id, requestEpoch, grantEpoch, leaseId, leaseEpoch) =>
      CommitMoves(s, id, requestEpoch, grantEpoch, leaseId, leaseEpoch, now, t);
    case Cancel(id, why) => CancelMoves(s, id, Given(why), now, t, e);
    case Renew(id, leaseId, leaseEpoch, peerEpoch) => RenewMoves(s, id, leaseId, leaseEpoch, peerEpoch, now, t);
    case _ => PlainMoves(s, e, now, t);
  }

  lemma DeviceMoves(s: State, e: Event, now: u64, t: Timing)
    requires Inv(s) && !FromClient(e)
    ensures var p := Decide(s, e, now, t); p.Propose? ==> Moves(s, e, now, t, p.draft)
  {
    match e
    case TransportSynchronized(mode, input, signals) => SynchronizedMoves(s, mode, input, signals, now, t, e);
    case TransportDisconnected(why) =>
      FallbackMoves(s, e, now, t, Draft(Transport(s, Disconnected, false), []), Given(why));
    case CommandAcknowledged(epoch, target) => AcknowledgedMoves(s, epoch, target, now, t);
    case CommandFailed(epoch, why) => FailedMoves(s, epoch, Given(why), now, t, e);
    case Observation(epoch, mode, input, signals) => ObservationMoves(s, epoch, mode, input, signals, now, t);
    case SubscriptionObserved(mode, input) => SubscriptionMoves(s, mode, input, now, t, e);
    case Tick => TickMoves(s, now, t, e);
    case _ => PlainMoves(s, e, now, t);
  }

  lemma DecideMoves(s: State, e: Event, now: u64, t: Timing)
    requires Inv(s)
    ensures var p := Decide(s, e, now, t); p.Propose? ==> Moves(s, e, now, t, p.draft)
  {
    if FromClient(e) {
      ClientMoves(s, e, now, t);
    } else {
      DeviceMoves(s, e, now, t);
    }
  }

  lemma FailedMoves(s: State, epoch: u64, reason: Reason, now: u64, t: Timing, e: Event)
    ensures Moves(
      s, e, now, t, if s.switchEpoch == epoch then BeginFallback(Draft(s, []), now, t, reason) else Draft(s, []))
  {
    FallbackMoves(s, e, now, t, Draft(s, []), reason);
    IdleMoves(s, e, now, t, Draft(s, []));
  }

  lemma RenewMoves(
    s: State, id: string, leaseId: string, leaseEpoch: u64, peerEpoch: u64, now: u64, t: Timing)
    ensures Moves(
      s, Renew(id, leaseId, leaseEpoch, peerEpoch), now, t, OnRenew(s, id, leaseId, leaseEpoch, peerEpoch, now, t))
  {
    SessionFailureMoves(
      s, Renew(id, leaseId, leaseEpoch, peerEpoch), now, t, Draft(s, []), LeaseRenewalRejected);
  }

  lemma PlainMoves(s: State, e: Event, now: u64, t: Timing)
    requires Inv(s)
    requires
      || e.TransportConnecting? || e.TransportRegistering? || e.TransportSubscribed? || e.ArmManualRecovery?
      || e.MultiViewRequested? || e.MultiViewAcknowledged? || e.Shutdown?
    ensures var p := Decide(s, e, now, t); p.Propose? ==> Moves(s, e, now, t, p.draft)
  {
    var p := Decide(s, e, now, t);
    PlainPlan(s, e, now, t);
    if p.Propose? {
      PlainIsMove(s, e, now, t, p.draft);
    }
  }

  /** Request and session are each left alone or gone. */
  ghost predicate Plain(s: State, d: Draft) {
    && (d.state.activeSession.None? || d.state.activeSession == s.activeSession)
    && (|| d.state.activeRequest.None?
        || (&& d.state.activeRequest == s.activeRequest && NoCommands(d.effects)
            && d.state.switchEpoch == s.switchEpoch && (d.state.phase == Verifying ==> s.phase == Verifying)))
  }

  lemma PlainIsMove(s: State, e: Event, now: u64, t: Timing, d: Draft)
    requires Plain(s, d)
    ensures Moves(s, e, now, t, d)
  {
  }

  lemma PlainPlan(s: State, e: Event, now: u64, t: Timing)
    requires Inv(s)
    requires
      || e.TransportConnecting? || e.TransportRegistering? || e.TransportSubscribed? || e.ArmManualRecovery?
      || e.MultiViewRequested? || e.MultiViewAcknowledged? || e.Shutdown?
    ensures var p := Decide(s, e, now, t); p.Propose? ==> Plain(s, p.draft)
  {
    var p := Decide(s, e, now, t);
    match e
    case TransportConnecting => assert p == Propose(Draft(Transport(s, Connecting, false), []));
    case TransportRegistering => assert p == Propose(Draft(Transport(s, Registering, false), []));
    case TransportSubscribed => assert p == Propose(Draft(Transport(s, Synchronizing, true), []));
    case ArmManualRecovery(target) => assert p == OnArmManualRecovery(s, target);
    case MultiViewRequested(enabled) => assert p == OnMultiViewRequested(s, enabled, now, t);
    case MultiViewAcknowledged(epoch, enabled) =>
      assert p == Propose(OnMultiViewAcknowledged(s, epoch, enabled, now, t));
    case Shutdown => assert p == Propose(Draft(OnShutdown(s), []));
  }

  /** Every step of a run moves request and session in one of these ways. */
  lemma StepMoves(step: Step, t: Timing)
    requires IsStep(step, t) && Inv(step.pre)
    ensures Moves(step.pre, step.event, step.now, t, Draft(step.post, step.effects))
  {
    DecideMoves(step.pre, step.event, step.now, t);
    StepFromPlan(step, t);
    IdleMoves(step.pre, step.event, step.now, t, Draft(step.pre, []));
  }
}
