/** Redelivering a request message is harmless for as long as its id is retained. */
module Retries {
  import opened Domain
  import opened Protocol
  import opened Invariant
  import opened Runs
  import opened Epochs
  import opened Transactions

  // ---------------------------------------------------------------- how records evolve

  /** `b` is the same record as `a`; only a committed one may have become fallback or cancelled. */
  ghost predicate Descends(a: EnterRequest, b: EnterRequest) {
    && SameIdentity(a, b) && a.lease == b.lease
    && (b.status == a.status || (a.status == StCommitted && (b.status == StFallback || b.status == StCancelled)))
  }

  ghost predicate DescendsFrom(h: seq<EnterRequest>, x: EnterRequest) {
    exists i :: 0 <= i < |h| && Descends(h[i], x)
  }

  /** An archived entry is an older entry, the closed active request, or a new request that failed at once. */
  ghost predicate Accounted(s: State, x: EnterRequest) {
    || DescendsFrom(s.history, x)
    || (s.activeRequest.Some? && SameIdentity(s.activeRequest.value, x))
    || (s.Request(x.requestId).None? && x.status != StCommitted)
  }

  ghost predicate HistoryAccounted(s: State, h: seq<EnterRequest>) {
    forall j :: 0 <= j < |h| ==> Accounted(s, h[j])
  }

  ghost predicate LedgerStep(s: State, r: State) {
    && HistoryAccounted(s, r.history)
    && (r.activeRequest.Some? ==>
          || (s.activeRequest.Some? && SameIdentity(s.activeRequest.value, r.activeRequest.value))
          || s.Request(r.activeRequest.value.requestId).None?)
  }

  lemma SameHistoryAccounted(s: State)
    ensures HistoryAccounted(s, s.history)
  {
  }

  lemma ArchivedAccounted(s: State, h: seq<EnterRequest>, limit: Limit, request: EnterRequest)
    requires HistoryAccounted(s, h) && !InHistory(h, request.requestId) && Accounted(s, request)
    ensures HistoryAccounted(s, Archived(h, limit, request))
  {
  }

  /** An active request of a draft that is the old one or a fresh one. */
  ghost predicate ActiveAccounted(s: State, x: State) {
    x.activeRequest.Some? ==>
      || (s.activeRequest.Some? && SameIdentity(s.activeRequest.value, x.activeRequest.value))
      || s.Request(x.activeRequest.value.requestId).None?
  }

  lemma ClosedAccounted(s: State, x: State, reason: Reason)
    requires Closable(x) && HistoryAccounted(s, x.history) && ActiveAccounted(s, x)
    ensures HistoryAccounted(s, ClosedHistory(x, reason))
  {
    var h := x.history;
    if x.activeSession.Some? {
      h := Failed(h, x.activeSession.value.requestId, reason);
    }
    if x.activeRequest.Some? {
      ArchivedAccounted(
        s, h, x.retainedLimit, x.activeRequest.value.(status := StFallback, reason := Some(reason)));
    }
  }

  /** Every fallback is a ledger step of the state its event started from. */
  lemma RestoreLedger(s: State, d: Draft, now: u64, t: Timing, reason: Reason, restore: bool)
    requires Closable(d.state) && HistoryAccounted(s, d.state.history) && ActiveAccounted(s, d.state)
    ensures LedgerStep(s, BeginFallbackWithRestore(d, now, t, reason, restore).state)
  {
    ClosedAccounted(s, d.state, reason);
    RestoreReleases(d, now, t, reason, restore);
    assert BeginFallbackWithRestore(d, now, t, reason, restore).state.history == ClosedHistory(d.state, reason);
  }

  lemma FallbackLedger(s: State, d: Draft, now: u64, t: Timing, reason: Reason)
    requires Closable(d.state) && HistoryAccounted(s, d.state.history) && ActiveAccounted(s, d.state)
    ensures LedgerStep(s, BeginFallback(d, now, t, reason).state)
    ensures LedgerStep(s, BeginSessionFailureFallback(d, now, t, reason).state)
  {
    RestoreLedger(s, d, now, t, reason, DisplayRestoreRequired(d.state));
    var x := OfferSessionTarget(d.state);
    RestoreLedger(s, Draft(x, d.effects), now, t, reason, DisplayRestoreRequired(x));
  }

  /** Nothing archived, and the active request kept, moved on or dropped. */
  lemma PlainLedger(s: State, x: State)
    requires x.history == s.history
    requires x.activeRequest.None? || x.activeRequest == s.activeRequest
    ensures LedgerStep(s, x)
  {
  }

  // ---------------------------------------------------------------- every event is a ledger step

  ghost predicate LedgerPlan(s: State, p: Plan) {
    p.Propose? ==> LedgerStep(s, p.draft.state)
  }

  lemma FallbackFrom(s: State, x: State, now: u64, t: Timing, reason: Reason)
    requires Closable(x) && x.history == s.history && x.activeRequest == s.activeRequest
    ensures LedgerStep(s, BeginFallback(Draft(x, []), now, t, reason).state)
    ensures LedgerStep(s, BeginSessionFailureFallback(Draft(x, []), now, t, reason).state)
  {
    SameHistoryAccounted(s);
    FallbackLedger(s, Draft(x, []), now, t, reason);
  }

  lemma SynchronizedLedger(
    s: State, mode: TvMode, input: Option<Host>, signals: map<Host, bool>, now: u64, t: Timing)
    requires Inv(s)
    ensures LedgerStep(s, OnSynchronized(s, mode, input, signals, now, t).state)
  {
    var linked := s.(wsState := Connected, subscribeActive := true, synchronized := true);
    var next := StoreObservation(linked, s.switchEpoch, now, mode, input, signals);
    if ServerDisplayVerified(next, s.switchEpoch) {
      PlainLedger(s, FinishFallback(next));
    } else if ManualDisplayObserved(next) {
      PlainLedger(s, AcceptManualDisplay(next));
    } else {
      FallbackFrom(s, next, now, t, StartupOrReconnectResync);
    }
  }

  lemma SwitchLedger(s: State, d: Draft, now: u64, t: Timing)
    requires d.state.activeRequest.Some?
    requires d.state.history == s.history && ActiveAccounted(s, d.state)
    ensures LedgerStep(s, BeginSwitch(d, now, t).state)
  {
    SameHistoryAccounted(s);
    SwitchKeepsIdentity(d, now, t);
  }

  lemma SwitchKeepsIdentity(d: Draft, now: u64, t: Timing)
    requires d.state.activeRequest.Some?
    ensures var r := BeginSwitch(d, now, t).state;
      && r.history == d.state.history
      && r.activeRequest.Some? && SameIdentity(d.state.activeRequest.value, r.activeRequest.value)
  {
    var next := SwitchOpened(d.state, now, t);
    if !d.state.HasDisplayRoute(d.state.activeRequest.value.target) {
      GrantKeepsIdentity(next.(commandedInput := None, phaseDeadline := None), now, t);
    }
  }

  lemma GrantKeepsIdentity(s: State, now: u64, t: Timing)
    requires s.activeRequest.Some? && s.activeRequest.value.switchEpoch.Some?
    ensures var r := IssueGrant(s, now, t);
      && r.history == s.history
      && r.activeRequest.Some? && SameIdentity(s.activeRequest.value, r.activeRequest.value)
  {
  }

  lemma PeerReadinessLedger(s: State, host: Host, readiness: PeerReadiness, now: u64, t: Timing)
    requires Inv(s)
    ensures LedgerStep(s, OnPeerReadiness(s, host, readiness, now, t).state)
  {
    var noted := s.(peers := s.peers[host := readiness]);
    RecheckRequestCore(noted, host, readiness, now, t);
    RecheckRequestLedger(s, noted, host, readiness, now, t);
    var d := RecheckRequest(noted, host, readiness, now, t);
    FallbackLedger(s, d, now, t, ActivePeerReadinessLost);
  }

  lemma RecheckRequestLedger(s: State, noted: State, host: Host, readiness: PeerReadiness, now: u64, t: Timing)
    requires Core(noted) && noted.history == s.history && noted.activeRequest == s.activeRequest
    ensures LedgerStep(s, RecheckRequest(noted, host, readiness, now, t).state)
  {
    if s.activeRequest.Some? {
      SwitchLedger(s, Draft(noted, []), now, t);
    }
    FallbackFrom(s, noted, now, t, TargetReadinessLost);
    PlainLedger(s, noted);
  }

  lemma CreateEnterLedger(
    s: State, id: string, client: string, target: Host, lease: LeaseIdentity, now: u64, t: Timing)
    requires Inv(s)
    ensures LedgerPlan(s, OnCreateEnter(s, id, client, target, lease, now, t))
  {
    if s.Request(id).None? && s.activeRequest.None? {
      var epoch := SatAdd(s.requestEpoch, 1);
      RouteLedger(
        s, s.(manualRecovery := None, requestEpoch := epoch),
        EnterRequest(id, client, target, epoch, lease, StSwitching, None, None, SatAdd(now, t.commandMs), None),
        now, t);
    }
  }

  lemma RouteLedger(s: State, next: State, request: EnterRequest, now: u64, t: Timing)
    requires next.history == s.history && next.activeRequest.None?
    requires s.Request(request.requestId).None? && !InHistory(s.history, request.requestId)
    ensures LedgerStep(s, RouteRequest(next, request, now, t).state)
  {
    SameHistoryAccounted(s);
    if request.target == next.server {
      SwitchLedger(s, Draft(ReleaseToServer(next).(activeRequest := Some(request)), []), now, t);
    } else if !(request.target in next.peers && next.peers[request.target].online) {
      assert ActiveAccounted(s, WakeTarget(next, request, now, t).state);
    } else if !next.peers[request.target].BundleReady(request.lease.peerSessionEpoch) {
      DenyLedger(s, next, request);
    } else {
      SwitchLedger(s, Draft(next.(activeRequest := Some(request)), []), now, t);
    }
  }

  lemma DenyLedger(s: State, next: State, request: EnterRequest)
    requires next.history == s.history && !InHistory(s.history, request.requestId)
    requires s.Request(request.requestId).None? && ActiveAccounted(s, next)
    ensures LedgerStep(s, Deny(next, request))
  {
    SameHistoryAccounted(s);
    ArchivedAccounted(
      s, s.history, next.retainedLimit, request.(status := StDenied, reason := Some(TargetInputNotReady)));
  }

  lemma ObservationLedger(
    s: State, epoch: u64, mode: TvMode, input: Option<Host>, signals: map<Host, bool>, now: u64, t: Timing)
    requires Inv(s)
    ensures LedgerStep(s, OnObservation(s, epoch, mode, input, signals, now, t).state)
  {
    AfterObservationLedger(s, NoteObservation(s, epoch, mode, input, signals, now), epoch, now, t);
  }

  lemma AfterObservationLedger(s: State, next: State, epoch: u64, now: u64, t: Timing)
    requires Core(next) && next.history == s.history && next.activeRequest == s.activeRequest
    ensures LedgerStep(s, AfterObservation(next, epoch, now, t).state)
  {
    if next.fallbackRequired && next.switchEpoch == epoch {
      PlainLedger(s, FinishFallback(next));
      PlainLedger(s, next.(phase := FallbackVerifying));
    } else if next.activeRequest.Some? {
      ObserveRequestLedger(s, next, epoch, now, t);
    } else if next.phase == RemoteOwned {
      ObserveSessionLedger(s, next, epoch, now, t);
    } else if next.phase == MultiviewChanging {
      MultiviewLedger(s, next, now, t);
    } else {
      PlainLedger(s, next);
    }
  }

  lemma ObserveRequestLedger(s: State, next: State, epoch: u64, now: u64, t: Timing)
    requires Core(next) && next.history == s.history && next.activeRequest == s.activeRequest
    requires next.activeRequest.Some?
    ensures LedgerStep(s, ObserveRequest(next, epoch, now, t).state)
  {
    var request := next.activeRequest.value;
    var verified := TargetDisplayVerified(next, request.target, epoch);
    if request.switchEpoch == Some(epoch) && next.phase == Verifying && verified {
      SameHistoryAccounted(s);
      GrantKeepsIdentity(next, now, t);
      FallbackFrom(s, next, now, t, LeaseOrReadinessLostBeforeGrant);
    } else if request.switchEpoch == Some(epoch) && next.phase == GrantPending && !verified {
      FallbackFrom(s, next, now, t, TargetObservationFailed);
    } else {
      PlainLedger(s, next);
    }
  }

  lemma ObserveSessionLedger(s: State, next: State, epoch: u64, now: u64, t: Timing)
    requires Core(next) && next.history == s.history && next.activeRequest == s.activeRequest
    ensures LedgerStep(s, ObserveSession(next, epoch, now, t).state)
  {
    PlainLedger(s, next);
    PlainLedger(s, next.(phaseDeadline := None, nextSignalPoll := Some(SatAdd(now, t.signalPollMs))));
    FallbackFrom(s, next, now, t, ActiveSignalLost);
  }

  lemma MultiviewLedger(s: State, next: State, now: u64, t: Timing)
    requires Core(next) && next.history == s.history && next.activeRequest == s.activeRequest
    ensures LedgerStep(s, CompleteMultiview(next, now, t).state)
  {
    PlainLedger(s, next);
    PlainLedger(s, next.(pendingMultiview := None, phase := Idle, phaseDeadline := None));
    FallbackFrom(s, next, now, t, MultiviewObservationMismatch);
    FallbackFrom(s, next, now, t, MultiviewExitServerVerify);
  }

  lemma CommitLedger(
    s: State, id: string, requestEpoch: u64, grantEpoch: u64, leaseId: string, leaseEpoch: u64,
    now: u64, t: Timing)
    requires Inv(s)
    ensures LedgerPlan(s, OnCommit(s, id, requestEpoch, grantEpoch, leaseId, leaseEpoch, now, t))
  {
    if FindCommitted(s.history, id) >= 0 {
      PlainLedger(s, s);
    } else if s.activeRequest.Some? {
      var request := s.activeRequest.value;
      if request.target != s.server && !s.PeerReady(request.target, request.lease.peerSessionEpoch) {
        FallbackFrom(s, s, now, t, ReadinessLostBeforeCommit);
      } else if request.switchEpoch.Some? {
        TransferLedger(s, request, now, t);
      }
    }
  }

  lemma TransferLedger(s: State, request: EnterRequest, now: u64, t: Timing)
    requires Inv(s) && s.activeRequest == Some(request) && request.switchEpoch.Some?
    ensures LedgerStep(s, Transfer(s, request, now, t))
  {
    SameHistoryAccounted(s);
    ArchivedAccounted(
      s, s.history, s.retainedLimit,
      request.(
        status := StCommitted, reason := None,
        lease := request.lease.(expiresAt := SatAdd(now, t.leaseMs))));
  }

  lemma DropLedger(s: State, status: RequestStatus, reason: Reason)
    requires Inv(s) && s.activeRequest.Some?
    ensures LedgerStep(s, DropRequest(s, s.activeRequest.value, status, reason))
    ensures LedgerStep(s, DropWaking(s, s.activeRequest.value, status, reason))
  {
    SameHistoryAccounted(s);
    ArchivedAccounted(
      s, s.history, s.retainedLimit, s.activeRequest.value.(status := status, reason := Some(reason)));
  }

  lemma CancelLedger(s: State, id: string, reason: Reason, now: u64, t: Timing)
    requires Inv(s)
    ensures LedgerPlan(s, OnCancel(s, id, reason, now, t))
  {
    if CancelSettled(s.history, id) {
      assert OnCancel(s, id, reason, now, t) == Propose(Draft(s, []));
      PlainLedger(s, s);
    } else if s.activeSession.Some? && s.activeSession.value.requestId == id {
      var i := FindLast(s.history, id);
      assert i == |s.history| - 1;
      MarkCancelledClosable(s, i, reason);
      FallbackLedger(s, Draft(MarkCancelled(s, i, reason), []), now, t, reason);
    } else if s.activeRequest.Some? {
      CancelRequestLedger(s, reason, now, t);
    }
  }

  lemma CancelRequestLedger(s: State, reason: Reason, now: u64, t: Timing)
    requires Inv(s) && s.activeRequest.Some?
    ensures LedgerStep(s, CancelRequest(s, s.activeRequest.value, reason, now, t).state)
  {
    DropLedger(s, StCancelled, reason);
    DropRequestClosable(s, StCancelled, reason);
    FallbackLedger(s, Draft(DropRequest(s, s.activeRequest.value, StCancelled, reason), []), now, t, reason);
  }

  lemma SubscriptionLedger(s: State, next: State, now: u64, t: Timing)
    requires Core(next) && next.history == s.history && next.activeRequest == s.activeRequest
    ensures LedgerStep(s, AfterSubscription(next, now, t).state)
  {
    PlainLedger(s, RequestObservationKeepingDeadline(Draft(next, []), now, t, next.switchEpoch).state);
    FallbackFrom(s, next, now, t, UnexpectedTvSubscription);
    LocalSubscriptionLedger(s, next, now, t);
  }

  lemma LocalSubscriptionLedger(s: State, next: State, now: u64, t: Timing)
    requires Core(next) && next.history == s.history && next.activeRequest == s.activeRequest
    ensures LedgerStep(s, LocalSubscription(next, now, t).state)
  {
    PlainLedger(s, next);
    PlainLedger(s, AcceptManualDisplay(next));
    PlainLedger(s, next.(manualRecovery := None));
    FallbackFrom(s, next, now, t, ManualTvOverride);
  }

  lemma ExpiryLedger(s: State, now: u64, t: Timing)
    requires Inv(s)
    ensures LedgerStep(s, ExpireRequest(s, now, t).state) && Closable(ExpireRequest(s, now, t).state)
  {
    PlainLedger(s, s);
    if s.activeRequest.Some? && s.activeRequest.value.deadline <= now {
      DropLedger(s, StExpired, RequestDeadline);
      DropRequestClosable(s, StExpired, RequestDeadline);
      var d := Draft(DropRequest(s, s.activeRequest.value, StExpired, RequestDeadline), []);
      RestoreLedger(s, d, now, t, RequestDeadline, DisplayRestoreRequired(s));
      FallbackOkAfter(d, now, t, RequestDeadline, DisplayRestoreRequired(s));
    }
  }

  lemma AfterExpiryLedger(s: State, d: Draft, now: u64, t: Timing)
    requires LedgerStep(s, d.state) && Closable(d.state)
    ensures LedgerPlan(s, AfterExpiry(d, now, t))
  {
    var next := d.state;
    if next.activeSession.Some? && next.activeSession.value.ExpiredAt(now) {
      FallbackLedger(s, d, now, t, ActiveLeaseExpired);
    } else if next.phase == RemoteOwned && next.observationInFlight.None? && Due(next.nextSignalPoll, now) {
      if next.activeSession.Some? {
        SameLedger(s, next, RequestObservation(d, now, t, next.activeSession.value.switchEpoch).state);
      }
    } else if (next.observationInFlight.Some? || next.phase == Verifying) && Due(next.phaseDeadline, now) {
      FallbackLedger(s, d, now, t, VerificationTimeoutReason(next));
    } else if next.phase == MultiviewChanging && Due(next.phaseDeadline, now) {
      FallbackLedger(s, d, now, t, MultiviewTimeout);
    } else {
      SameLedger(s, next, IssueFallbackCommand(d, now, t).state);
    }
  }

  lemma SameLedger(s: State, x: State, y: State)
    requires LedgerStep(s, x) && y.history == x.history && y.activeRequest == x.activeRequest
    ensures LedgerStep(s, y)
  {
  }

  lemma TickLedger(s: State, now: u64, t: Timing)
    requires Inv(s)
    ensures LedgerPlan(s, OnTick(s, now, t))
  {
    ExpiryLedger(s, now, t);
    AfterExpiryLedger(s, ExpireRequest(s, now, t), now, t);
  }

  lemma PlainEventsLedger(s: State, e: Event, now: u64, t: Timing)
    requires Inv(s)
    requires
      || e.TransportConnecting? || e.TransportRegistering? || e.TransportSubscribed? || e.ArmManualRecovery?
      || e.CommandAcknowledged? || e.MultiViewRequested? || e.MultiViewAcknowledged? || e.Shutdown?
    ensures LedgerPlan(s, Decide(s, e, now, t))
  {
    var p := Decide(s, e, now, t);
    PlainEventsQuiet(s, e, now, t);
    if p.Propose? {
      PlainLedger(s, p.draft.state);
    }
  }

  lemma PlainEventsQuiet(s: State, e: Event, now: u64, t: Timing)
    requires
      || e.TransportConnecting? || e.TransportRegistering? || e.TransportSubscribed? || e.ArmManualRecovery?
      || e.CommandAcknowledged? || e.MultiViewRequested? || e.MultiViewAcknowledged? || e.Shutdown?
    ensures var p := Decide(s, e, now, t);
      p.Propose? ==>
        && p.draft.state.history == s.history
        && (p.draft.state.activeRequest.None? || p.draft.state.activeRequest == s.activeRequest)
  {
  }

  lemma FailedLedger(s: State, epoch: u64, reason: Reason, now: u64, t: Timing)
    requires Inv(s)
    ensures LedgerStep(
      s, (if s.switchEpoch == epoch then BeginFallback(Draft(s, []), now, t, reason) else Draft(s, [])).state)
  {
    FallbackFrom(s, s, now, t, reason);
    PlainLedger(s, s);
  }

  lemma RenewLedger(
    s: State, id: string, leaseId: string, leaseEpoch: u64, peerEpoch: u64, now: u64, t: Timing)
    requires Inv(s)
    ensures LedgerStep(s, OnRenew(s, id, leaseId, leaseEpoch, peerEpoch, now, t).state)
  {
    if RenewalValid(s, id, leaseId, leaseEpoch, peerEpoch) {
      PlainLedger(s, OnRenew(s, id, leaseId, leaseEpoch, peerEpoch, now, t).state);
    } else {
      FallbackFrom(s, s, now, t, LeaseRenewalRejected);
    }
  }

  lemma ClientLedger(s: State, e: Event, now: u64, t: Timing)
    requires Inv(s) && FromClient(e)
    ensures LedgerPlan(s, Decide(s, e, now, t))
  {
    var p := Decide(s, e, now, t);
    match e
    case PeerReadinessUpdated(host, readiness) =>
      assert p == Propose(OnPeerReadiness(s, host, readiness, now, t));
      PeerReadinessLedger(s, host, readiness, now, t);
    case CreateEnter(id, client, target, lease) =>
      assert p == OnCreateEnter(s, id, client, target, lease, now, t);
      CreateEnterLedger(s, id, client, target, lease, now, t);
    case Commit(id, requestEpoch, grantEpoch, leaseId, leaseEpoch) =>
      assert p == OnCommit(s, id, requestEpoch, grantEpoch, leaseId, leaseEpoch, now, t);
      CommitLedger(s, id, requestEpoch, grantEpoch, leaseId, leaseEpoch, now, t);
    case Cancel(id, why) =>
      assert p == OnCancel(s, id, Given(why), now, t);
      CancelLedger(s, id, Given(why), now, t);
    case Renew(id, leaseId, leaseEpoch, peerEpoch) =>
      assert p == Propose(OnRenew(s, id, leaseId, leaseEpoch, peerEpoch, now, t));
      RenewLedger(s, id, leaseId, leaseEpoch, peerEpoch, now, t);
    case _ => PlainEventsLedger(s, e, now, t);
  }

  lemma DeviceLedger(s: State, e: Event, now: u64, t: Timing)
    requires Inv(s) && !FromClient(e) && !e.Tick? && !e.TransportDisconnected? && !e.CommandFailed?
    ensures LedgerPlan(s, Decide(s, e, now, t))
  {
    var p := Decide(s, e, now, t);
    match e
    case TransportSynchronized(mode, input, signals) =>
      assert p == Propose(OnSynchronized(s, mode, input, signals, now, t));
      SynchronizedLedger(s, mode, input, signals, now, t);
    case Observation(epoch, mode, input, signals) =>
      assert p == Propose(OnObservation(s, epoch, mode, input, signals, now, t));
      ObservationLedger(s, epoch, mode, input, signals, now, t);
    case SubscriptionObserved(mode, input) =>
      assert p == Propose(OnSubscription(s, mode, input, now, t));
      SubscriptionLedger(s, s.(tvMode := mode, observedInput := input), now, t);
    case _ => PlainEventsLedger(s, e, now, t);
  }

  lemma LossLedger(s: State, e: Event, now: u64, t: Timing)
    requires Inv(s) && (e.TransportDisconnected? || e.CommandFailed?)
    ensures LedgerPlan(s, Decide(s, e, now, t))
  {
    var p := Decide(s, e, now, t);
    if e.TransportDisconnected? {
      assert p == Propose(BeginFallback(Draft(Transport(s, Disconnected, false), []), now, t, Given(e.why)));
      FallbackFrom(s, Transport(s, Disconnected, false), now, t, Given(e.why));
    } else {
      assert p == Propose(
        if s.switchEpoch == e.switchEpoch then BeginFallback(Draft(s, []), now, t, Given(e.why)) else Draft(s, []));
      FailedLedger(s, e.switchEpoch, Given(e.why), now, t);
    }
  }

  lemma DecideLedger(s: State, e: Event, now: u64, t: Timing)
    requires Inv(s)
    ensures LedgerPlan(s, Decide(s, e, now, t))
  {
    if FromClient(e) {
      ClientLedger(s, e, now, t);
    } else if e.Tick? {
      assert Decide(s, e, now, t) == OnTick(s, now, t);
      TickLedger(s, now, t);
    } else if e.TransportDisconnected? || e.CommandFailed? {
      LossLedger(s, e, now, t);
    } else {
      DeviceLedger(s, e, now, t);
    }
  }

  lemma StepLedger(step: Step, t: Timing)
    requires IsStep(step, t) && Inv(step.pre)
    ensures LedgerStep(step.pre, step.post)
  {
    DecideLedger(step.pre, step.event, step.now, t);
    StepFromPlan(step, t);
    PlainLedger(step.pre, step.pre);
  }

  // ---------------------------------------------------------------- retained records

  /** While an id is retained its record never changes identity. */
  lemma IdentityKept(s: State, r: State, id: string)
    requires Inv(s) && Inv(r) && LedgerStep(s, r)
    requires s.Request(id).Some? && r.Request(id).Some?
    ensures SameIdentity(s.Request(id).value, r.Request(id).value)
  {
  }

  /** A closed request is never active again while it is retained. */
  lemma ClosedStaysClosed(s: State, r: State, id: string)
    requires Closable(s) && LedgerStep(s, r) && InHistory(s.history, id)
    ensures !(r.activeRequest.Some? && r.activeRequest.value.requestId == id)
  {
  }

  /** A cancelled or fallen-back record stays so while it is retained. */
  lemma SettledStaysSettled(s: State, r: State, id: string)
    requires Closable(s) && LedgerStep(s, r) && CancelSettled(s.history, id) && InHistory(r.history, id)
    ensures CancelSettled(r.history, id)
  {
  }

  // ---------------------------------------------------------------- redelivery

  /** The id has a record in every state from the first step on. */
  ghost predicate RetainedThroughout(run: seq<Step>, id: string) {
    forall i :: 0 <= i < |run| ==> run[i].post.Request(id).Some?
  }

  ghost predicate RecordMatches(s: State, e: Event)
    requires e.CreateEnter?
  {
    && s.Request(e.requestId).Some?
    && var r := s.Request(e.requestId).value;
    r.clientId == e.clientId && r.target == e.target
    && r.lease.leaseId == e.lease.leaseId && r.lease.leaseEpoch == e.lease.leaseEpoch
  }

  lemma RouteMatches(next: State, request: EnterRequest, now: u64, t: Timing)
    requires next.activeRequest.None? && !InHistory(next.history, request.requestId)
    ensures var r := RouteRequest(next, request, now, t).state.Request(request.requestId);
      r.Some? && SameIdentity(request, r.value)
  {
    if request.target == next.server {
      SwitchKeepsIdentity(Draft(ReleaseToServer(next).(activeRequest := Some(request)), []), now, t);
    } else if !(request.target in next.peers && next.peers[request.target].online) {
    } else if !next.peers[request.target].BundleReady(request.lease.peerSessionEpoch) {
      DenyMatches(next, request);
    } else {
      SwitchKeepsIdentity(Draft(next.(activeRequest := Some(request)), []), now, t);
    }
  }

  lemma DenyMatches(next: State, request: EnterRequest)
    requires next.activeRequest.None? && !InHistory(next.history, request.requestId)
    ensures var r := Deny(next, request).Request(request.requestId); r.Some? && SameIdentity(request, r.value)
  {
  }

  lemma CreateMatches(step: Step, t: Timing)
    requires IsStep(step, t) && step.event.CreateEnter? && Apply(step.pre, step.event, step.now, t).Accepted?
    ensures RecordMatches(step.post, step.event)
  {
    StepOutcome(step, t);
    var s, e := step.pre, step.event;
    if s.Request(e.requestId).None? {
      var epoch := SatAdd(s.requestEpoch, 1);
      RouteMatches(
        s.(manualRecovery := None, requestEpoch := epoch),
        EnterRequest(
          e.requestId, e.clientId, e.target, epoch, e.lease, StSwitching, None, None,
          SatAdd(step.now, t.commandMs), None),
        step.now, t);
    }
  }

  lemma {:induction false} RecordMatchesThroughout(start: State, run: seq<Step>, t: Timing, e: Event)
    requires IsRun(start, run, t) && Inv(start) && e.CreateEnter? && RecordMatches(start, e)
    requires RetainedThroughout(run, e.requestId)
    ensures RecordMatches(End(start, run), e)
  {
    if run != [] {
      var front, last := run[..|run| - 1], run[|run| - 1];
      RecordMatchesThroughout(start, front, t, e);
      RunInv(start, front, t);
      StepInv(last, t);
      StepLedger(last, t);
      IdentityKept(last.pre, last.post, e.requestId);
    }
  }

  /** A create request, once accepted, can be redelivered at any later point while its id is
      retained: it succeeds, changes nothing and emits nothing. */
  lemma CreateRetryHarmless(first: Step, run: seq<Step>, t: Timing, now: u64)
    requires IsStep(first, t) && Inv(first.pre) && first.event.CreateEnter?
    requires Apply(first.pre, first.event, first.now, t).Accepted?
    requires IsRun(first.post, run, t) && RetainedThroughout(run, first.event.requestId)
    ensures Apply(End(first.post, run), first.event, now, t) == Accepted(End(first.post, run), [])
  {
    CreateMatches(first, t);
    StepInv(first, t);
    RecordMatchesThroughout(first.post, run, t, first.event);
  }

  lemma RetainedIsArchived(s: State, id: string)
    requires s.Request(id).Some? && !(s.activeRequest.Some? && s.activeRequest.value.requestId == id)
    ensures InHistory(s.history, id)
  {
  }

  lemma {:induction false} ArchivedThroughout(start: State, run: seq<Step>, t: Timing, id: string)
    requires IsRun(start, run, t) && Inv(start) && InHistory(start.history, id)
    requires RetainedThroughout(run, id)
    ensures InHistory(End(start, run).history, id)
  {
    if run != [] {
      var front, last := run[..|run| - 1], run[|run| - 1];
      ArchivedThroughout(start, front, t, id);
      RunInv(start, front, t);
      StepLedger(last, t);
      ClosedStaysClosed(last.pre, last.post, id);
      RetainedIsArchived(last.post, id);
    }
  }

  /** Committing an archived request never changes anything. */
  lemma ClosedCommitIgnored(s: State, e: Event, now: u64, t: Timing)
    requires Inv(s) && e.Commit? && InHistory(s.history, e.requestId)
    ensures LeavesAlone(s, Apply(s, e, now, t))
  {
  }

  /** A commit that is not a retry leaves no active request behind. */
  lemma CommitReleases(s: State, e: Event, now: u64, t: Timing)
    requires e.Commit? && FindCommitted(s.history, e.requestId) < 0
    ensures var p := Decide(s, e, now, t); p.Propose? ==> p.draft.state.activeRequest.None?
  {
    RestoreReleases(Draft(s, []), now, t, ReadinessLostBeforeCommit, DisplayRestoreRequired(s));
  }

  lemma CommitArchives(step: Step, t: Timing)
    requires IsStep(step, t) && Inv(step.pre) && step.event.Commit?
    requires Apply(step.pre, step.event, step.now, t).Accepted? && step.post.Request(step.event.requestId).Some?
    ensures InHistory(step.post.history, step.event.requestId)
  {
    var s, id := step.pre, step.event.requestId;
    StepOutcome(step, t);
    var i := FindCommitted(s.history, id);
    if i >= 0 {
      assert s.history[i].requestId == id;
    } else {
      CommitReleases(s, step.event, step.now, t);
      RetainedIsArchived(step.post, id);
    }
  }

  /** A commit, once accepted, is ignored whenever it is redelivered while its id is retained. */
  lemma CommitRetryHarmless(first: Step, run: seq<Step>, t: Timing, now: u64)
    requires IsStep(first, t) && Inv(first.pre) && first.event.Commit?
    requires Apply(first.pre, first.event, first.now, t).Accepted?
    requires first.post.Request(first.event.requestId).Some?
    requires IsRun(first.post, run, t) && RetainedThroughout(run, first.event.requestId)
    ensures LeavesAlone(End(first.post, run), Apply(End(first.post, run), first.event, now, t))
  {
    CommitArchives(first, t);
    StepInv(first, t);
    ArchivedThroughout(first.post, run, t, first.event.requestId);
    RunInv(first.post, run, t);
    ClosedCommitIgnored(End(first.post, run), first.event, now, t);
  }

  lemma {:induction false} SettledThroughout(start: State, run: seq<Step>, t: Timing, id: string)
    requires IsRun(start, run, t) && Inv(start) && CancelSettled(start.history, id)
    requires RetainedThroughout(run, id)
    ensures CancelSettled(End(start, run).history, id)
  {
    if run != [] {
      var front, last := run[..|run| - 1], run[|run| - 1];
      SettledThroughout(start, front, t, id);
      RunInv(start, front, t);
      StepLedger(last, t);
      ClosedStaysClosed(last.pre, last.post, id);
      RetainedIsArchived(last.post, id);
      SettledStaysSettled(last.pre, last.post, id);
    }
  }

  lemma FallbackKeepsSettled(x: State, now: u64, t: Timing, reason: Reason, id: string)
    requires Closable(x) && CancelSettled(x.history, id)
    requires BeginFallback(Draft(x, []), now, t, reason).state.Request(id).Some?
    ensures CancelSettled(BeginFallback(Draft(x, []), now, t, reason).state.history, id)
  {
    var r := BeginFallback(Draft(x, []), now, t, reason).state;
    FallbackFrom(x, x, now, t, reason);
    FallbackReleases(Draft(x, []), now, t, reason);
    RetainedIsArchived(r, id);
    SettledStaysSettled(x, r, id);
  }

  lemma DroppedSettled(s: State, request: EnterRequest, reason: Reason)
    ensures CancelSettled(DropRequest(s, request, StCancelled, reason).history, request.requestId)
  {
    var h := DropRequest(s, request, StCancelled, reason).history;
    assert h[|h| - 1].requestId == request.requestId && h[|h| - 1].status == StCancelled;
  }

  lemma CancelSettles(s: State, e: Event, now: u64, t: Timing)
    requires Inv(s) && e.Cancel?
    ensures var p := Decide(s, e, now, t);
      p.Propose? && p.draft.state.Request(e.requestId).Some? ==> CancelSettled(p.draft.state.history, e.requestId)
  {
    var id, reason := e.requestId, Given(e.why);
    var p := Decide(s, e, now, t);
    if CancelSettled(s.history, id) {
      assert p == Propose(Draft(s, []));
    } else if p.Propose? && p.draft.state.Request(id).Some? {
      if s.activeSession.Some? && s.activeSession.value.requestId == id {
        var i := FindLast(s.history, id);
        var marked := MarkCancelled(s, i, reason);
        MarkCancelledClosable(s, i, reason);
        assert marked.history[i].requestId == id && marked.history[i].status == StCancelled;
        FallbackKeepsSettled(marked, now, t, reason, id);
      } else {
        CancelRequestSettles(s, reason, now, t);
      }
    }
  }

  lemma CancelRequestSettles(s: State, reason: Reason, now: u64, t: Timing)
    requires Inv(s) && s.activeRequest.Some?
    requires CancelRequest(s, s.activeRequest.value, reason, now, t).state
      .Request(s.activeRequest.value.requestId).Some?
    ensures CancelSettled(
      CancelRequest(s, s.activeRequest.value, reason, now, t).state.history, s.activeRequest.value.requestId)
  {
    var request := s.activeRequest.value;
    DroppedSettled(s, request, reason);
    if request.switchEpoch.Some? {
      DropRequestClosable(s, StCancelled, reason);
      FallbackKeepsSettled(DropRequest(s, request, StCancelled, reason), now, t, reason, request.requestId);
    }
  }

  lemma CancelStepSettles(step: Step, t: Timing)
    requires IsStep(step, t) && Inv(step.pre) && step.event.Cancel?
    requires Apply(step.pre, step.event, step.now, t).Accepted? && step.post.Request(step.event.requestId).Some?
    ensures CancelSettled(step.post.history, step.event.requestId)
  {
    CancelSettles(step.pre, step.event, step.now, t);
    StepOutcome(step, t);
  }

  lemma SettledCancelIgnored(s: State, e: Event, now: u64, t: Timing)
    requires e.Cancel? && CancelSettled(s.history, e.requestId)
    ensures LeavesAlone(s, Apply(s, e, now, t))
  {
  }

  /** A cancel, once accepted, is ignored whenever it is redelivered while its id is retained. */
  lemma CancelRetryHarmless(first: Step, run: seq<Step>, t: Timing, now: u64)
    requires IsStep(first, t) && Inv(first.pre) && first.event.Cancel?
    requires Apply(first.pre, first.event, first.now, t).Accepted?
    requires first.post.Request(first.event.requestId).Some?
    requires IsRun(first.post, run, t) && RetainedThroughout(run, first.event.requestId)
    ensures LeavesAlone(End(first.post, run), Apply(End(first.post, run), first.event, now, t))
  {
    CancelStepSettles(first, t);
    StepInv(first, t);
    SettledThroughout(first.post, run, t, first.event.requestId);
    SettledCancelIgnored(End(first.post, run), first.event, now, t);
  }
}
