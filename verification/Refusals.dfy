/** Exactly when the runtime check refuses an event, in every state the controller can reach. */
module Refusals {
  import opened Domain
  import opened Protocol
  import opened Invariant
  import opened Runs
  import opened Transactions
  import opened Sessions

  // ---------------------------------------------------------------- the guards

  /** A session has run out that no tick has released yet. */
  predicate Lapsed(s: State, now: u64) {
    s.activeSession.Some? && s.activeSession.value.ExpiredAt(now)
  }

  /** Granting a host without a display now would take the verified epoch from a session on a display. */
  predicate Unseats(s: State, target: Host) {
    && OnDisplay(s) && !s.HasDisplayRoute(target)
    && s.activeSession.value.switchEpoch != SatAdd(s.switchEpoch, 1)
  }

  predicate IsOnline(s: State, host: Host) {
    host in s.peers && s.peers[host].online
  }

  /** The create request is new, in order and finds the controller ready. */
  predicate Opens(s: State, id: string, lease: LeaseIdentity, now: u64) {
    s.Request(id).None? && s.activeRequest.None? && s.Ready() && lease.leaseId != "" && now < lease.expiresAt
  }

  /** The peer's report ends the request or the session that depends on it. */
  predicate ReportEnds(s: State, host: Host, readiness: PeerReadiness) {
    || (&& s.activeRequest.Some? && s.activeRequest.value.target == host
        && (s.phase == Switching || s.phase == Verifying || s.phase == GrantPending)
        && !readiness.BundleReady(s.activeRequest.value.lease.peerSessionEpoch))
    || (&& s.activeSession.Some? && s.activeSession.value.target == host
        && !readiness.BundleReady(s.activeSession.value.lease.peerSessionEpoch))
  }

  /** The peer's report moves a waking request on. */
  predicate ReportStarts(s: State, host: Host, readiness: PeerReadiness) {
    && s.activeRequest.Some? && s.activeRequest.value.target == host && s.phase == Waking
    && readiness.BundleReady(s.activeRequest.value.lease.peerSessionEpoch)
  }

  /** With this reading stored, `host` is on screen with a present signal of epoch `want`. */
  predicate Reads(s: State, e: Event, host: Host, want: u64)
    requires e.Observation?
  {
    && e.mode == Fullscreen && e.input == Some(host)
    && if host in e.signals then e.signals[host] && e.switchEpoch == want else SignalVerified(s, host, want)
  }

  /** The reading answers the active request's own switch. */
  predicate Answers(s: State, e: Event)
    requires e.Observation?
  {
    s.activeRequest.Some? && s.activeRequest.value.switchEpoch == Some(e.switchEpoch)
  }

  predicate GrantLost(s: State, now: u64)
    requires s.activeRequest.Some?
  {
    && s.activeRequest.value.target != s.server
    && (!s.PeerReady(s.activeRequest.value.target, s.activeRequest.value.lease.peerSessionEpoch)
        || s.activeRequest.value.lease.expiresAt <= now)
  }

  /** The reading grants the active request. */
  predicate ReadingGrants(s: State, e: Event, now: u64)
    requires e.Observation?
  {
    Answers(s, e) && s.phase == Verifying && Reads(s, e, s.activeRequest.value.target, e.switchEpoch)
    && !GrantLost(s, now)
  }

  /** The reading makes the controller fall back. */
  predicate ReadingEnds(s: State, e: Event, now: u64)
    requires e.Observation?
  {
    if s.activeRequest.Some? then
      && Answers(s, e)
      && var seen := Reads(s, e, s.activeRequest.value.target, e.switchEpoch);
      (s.phase == Verifying && seen && GrantLost(s, now)) || (s.phase == GrantPending && !seen)
    else if s.phase == RemoteOwned then
      && s.activeSession.Some? && s.activeSession.value.switchEpoch == e.switchEpoch
      && !Reads(s, e, s.activeSession.value.target, e.switchEpoch)
    else
      && s.phase == MultiviewChanging && s.pendingMultiview.Some?
      && (e.mode == (if s.pendingMultiview.value then Multiview else Fullscreen) ==> !s.pendingMultiview.value)
  }

  predicate Displays(mode: TvMode, input: Option<Host>, host: Host) {
    mode == Fullscreen && input == Some(host)
  }

  /** The subscription update is what the verifying request waits for. */
  predicate NoticeAnswers(s: State, mode: TvMode, input: Option<Host>) {
    && s.phase == Verifying && s.activeRequest.Some? && Displays(mode, input, s.activeRequest.value.target)
    && s.observationInFlight.None?
  }

  predicate NoticeEnds(s: State, mode: TvMode, input: Option<Host>) {
    !NoticeAnswers(s, mode, input) && (
      || (s.phase == GrantPending && s.activeRequest.Some? && s.HasDisplayRoute(s.activeRequest.value.target)
          && !Displays(mode, input, s.activeRequest.value.target))
      || (OnDisplay(s) && !Displays(mode, input, s.activeSession.value.target))
      || (s.phase == Idle && (mode != Fullscreen || (input.Some? && input.value != s.server))))
  }

  /** A commit that is a known retry. */
  predicate IsRetry(s: State, e: Event)
    requires e.Commit?
  {
    var i := FindCommitted(s.history, e.requestId);
    && i >= 0
    && var committed := s.history[i];
    && committed.requestEpoch == e.requestEpoch && committed.lease.leaseId == e.leaseId
    && committed.lease.leaseEpoch == e.leaseEpoch
    && committed.grant.Some? && committed.grant.value.grantEpoch == e.grantEpoch
  }

  /** A commit that matches the granted request in time, with its peer ready. */
  predicate Matches(s: State, e: Event, now: u64)
    requires e.Commit?
  {
    && FindCommitted(s.history, e.requestId) < 0 && s.activeRequest.Some?
    && var request := s.activeRequest.value;
    && request.status == StGrant && request.grant.Some?
    && request.requestId == e.requestId && request.requestEpoch == e.requestEpoch
    && request.lease.leaseId == e.leaseId && request.lease.leaseEpoch == e.leaseEpoch
    && request.grant.value.grantEpoch == e.grantEpoch
    && now < request.grant.value.expiresAt && now < request.lease.expiresAt
    && (request.target == s.server || s.PeerReady(request.target, request.lease.peerSessionEpoch))
  }

  /** The situations in which the runtime check refuses the event. */
  predicate CheckRefuses(s: State, e: Event, now: u64, t: Timing) {
    match e
    case TransportConnecting => Lapsed(s, now)
    case TransportRegistering => Lapsed(s, now)
    case TransportSubscribed => Lapsed(s, now)
    case PeerReadinessUpdated(host, readiness) =>
      && !ReportEnds(s, host, readiness)
      && (Lapsed(s, now) || (ReportStarts(s, host, readiness) && Unseats(s, host)))
    case CreateEnter(id, _, target, lease) =>
      && Opens(s, id, lease, now) && target != s.server && s.activeSession.Some?
      && (|| Lapsed(s, now)
          || (IsOnline(s, target)
              && (!s.peers[target].BundleReady(lease.peerSessionEpoch) || Unseats(s, target))))
    case CommandAcknowledged(epoch, target) =>
      s.switchEpoch == epoch && s.commandedInput == Some(target) && Lapsed(s, now)
    case CommandFailed(epoch, _) => s.switchEpoch != epoch && Lapsed(s, now)
    case Observation(_, _, _, _) =>
      && s.activeSession.Some? && !ReadingEnds(s, e, now)
      && var session := s.activeSession.value;
      (|| Lapsed(s, now)
       || (s.HasDisplayRoute(session.target)
           && (|| !Reads(s, e, session.target, session.switchEpoch)
               || (ReadingGrants(s, e, now) && e.switchEpoch != session.switchEpoch))))
    case Commit(_, _, _, _, _) =>
      || (IsRetry(s, e) && Lapsed(s, now))
      || (&& Matches(s, e, now) && s.activeRequest.value.target != s.server
          && (|| SatAdd(now, t.leaseMs) <= now
              || (s.HasDisplayRoute(s.activeRequest.value.target)
                  && !TargetDisplayVerified(s, s.activeRequest.value.target, s.switchEpoch))))
    case Cancel(id, _) =>
      if CancelSettled(s.history, id) then Lapsed(s, now)
      else
        && s.activeSession.Some? && s.activeSession.value.requestId != id
        && s.activeRequest.Some? && s.activeRequest.value.requestId == id && s.activeRequest.value.status == StWaking
    case Renew(id, leaseId, leaseEpoch, peerEpoch) =>
      RenewalValid(s, id, leaseId, leaseEpoch, peerEpoch) && SatAdd(now, t.leaseMs) <= now
    case MultiViewAcknowledged(_, _) => Lapsed(s, now)
    case SubscriptionObserved(mode, input) =>
      && s.activeSession.Some? && !NoticeEnds(s, mode, input)
      && (Lapsed(s, now) || (OnDisplay(s) && !Displays(mode, input, s.activeSession.value.target)))
    case Tick => WakeExpiryBlocked(s, now)
    case _ => false
  }

  // ---------------------------------------------------------------- one draft

  ghost predicate Refused(p: Plan, now: u64) {
    p.Propose? && Validate(p.draft.state, now).Some?
  }

  /** A draft that keeps the session is refused when the session has lapsed or is no longer settled. */
  lemma Verdict(s: State, d: Draft, now: u64)
    requires Inv(s) && Good(s, d)
    requires d.state.activeSession.None? || d.state.activeSession == s.activeSession
    ensures Validate(d.state, now).Some? <==> d.state.activeSession.Some? && (Lapsed(s, now) || !Settled(d.state))
  {
    if Core(d.state) {
      ValidateCore(d.state, now);
    }
  }

  // ---------------------------------------------------------------- every event

  lemma ReportRefused(s: State, host: Host, readiness: PeerReadiness, now: u64, t: Timing)
    requires Inv(s)
    ensures Validate(OnPeerReadiness(s, host, readiness, now, t).state, now).Some? <==>
      CheckRefuses(s, PeerReadinessUpdated(host, readiness), now, t)
  {
    GoodPeerReadiness(s, host, readiness, now, t);
    ReportShape(s, host, readiness, now, t);
    Verdict(s, OnPeerReadiness(s, host, readiness, now, t), now);
  }

  /** Everything a session depends on is as before, except the verified epoch. */
  ghost predicate SameSession(s: State, r: State) {
    && r.activeSession == s.activeSession && r.keyboardOwner == s.keyboardOwner && r.server == s.server
    && r.manualRecovery == s.manualRecovery && r.peers == s.peers && r.displayHosts == s.displayHosts
    && r.tvMode == s.tvMode && r.observedInput == s.observedInput && r.inputSignal == s.inputSignal
  }

  lemma SwitchShape(d: Draft, now: u64, t: Timing)
    requires d.state.activeRequest.Some?
    ensures var r := BeginSwitch(d, now, t).state;
      && SameSession(d.state, r)
      && r.verifiedEpoch ==
         if d.state.HasDisplayRoute(d.state.activeRequest.value.target) then d.state.verifiedEpoch
         else Some(SatAdd(d.state.switchEpoch, 1))
  {
  }

  /** A switch or grant for `target` leaves the session settled unless it unseats it. */
  lemma SwitchSettles(s: State, r: State, target: Host)
    requires Settled(s) && SameSession(s, r)
    requires r.verifiedEpoch == if s.HasDisplayRoute(target) then s.verifiedEpoch else Some(SatAdd(s.switchEpoch, 1))
    ensures Settled(r) <==> !Unseats(s, target)
  {
  }

  lemma OwnerShape(d: Draft, host: Host, readiness: PeerReadiness, now: u64, t: Timing)
    ensures var r := RecheckOwner(d, host, readiness, now, t);
      if d.state.keyboardOwner == host && host != d.state.server && d.state.activeSession.Some?
         && !readiness.BundleReady(d.state.activeSession.value.lease.peerSessionEpoch)
      then r.state.activeSession.None?
      else d.state.activeSession.Some? || d.state.keyboardOwner == d.state.server ==> r == d
  {
    SessionFailureReleases(d, now, t, ActivePeerReadinessLost);
  }

  lemma RequestShape(s: State, host: Host, readiness: PeerReadiness, now: u64, t: Timing)
    requires OwnersOk(s) && Settled(s)
    ensures var noted := s.(peers := s.peers[host := readiness]);
      var r := RecheckRequest(noted, host, readiness, now, t).state;
      if ReportStarts(s, host, readiness) then
        && SameSession(noted, r)
        && r.verifiedEpoch == if s.HasDisplayRoute(host) then s.verifiedEpoch else Some(SatAdd(s.switchEpoch, 1))
      else r == noted || (ReportEnds(s, host, readiness) && r.activeSession.None? && r.keyboardOwner == r.server)
  {
    var noted := s.(peers := s.peers[host := readiness]);
    if ReportStarts(s, host, readiness) {
      SwitchShape(Draft(noted, []), now, t);
    } else {
      FallbackReleases(Draft(noted, []), now, t, TargetReadinessLost);
    }
  }

  lemma NotedSettled(s: State, host: Host, readiness: PeerReadiness)
    requires Settled(s) && !ReportEnds(s, host, readiness)
    ensures Settled(s.(peers := s.peers[host := readiness]))
  {
  }

  lemma ReportShape(s: State, host: Host, readiness: PeerReadiness, now: u64, t: Timing)
    requires OwnersOk(s) && Settled(s)
    ensures var r := OnPeerReadiness(s, host, readiness, now, t).state;
      if ReportEnds(s, host, readiness) then r.activeSession.None?
      else
        && r.activeSession == s.activeSession
        && (Settled(r) <==> !(ReportStarts(s, host, readiness) && Unseats(s, host)))
  {
    var noted := s.(peers := s.peers[host := readiness]);
    var d := RecheckRequest(noted, host, readiness, now, t);
    RequestShape(s, host, readiness, now, t);
    OwnerShape(d, host, readiness, now, t);
    if !ReportEnds(s, host, readiness) {
      assert OnPeerReadiness(s, host, readiness, now, t) == d;
      NotedSettled(s, host, readiness);
      if ReportStarts(s, host, readiness) {
        SwitchSettles(noted, d.state, host);
      }
    }
  }

  lemma CreateRefused(
    s: State, id: string, client: string, target: Host, lease: LeaseIdentity, now: u64, t: Timing)
    requires Inv(s)
    ensures Refused(OnCreateEnter(s, id, client, target, lease, now, t), now) <==>
      CheckRefuses(s, CreateEnter(id, client, target, lease), now, t)
  {
    if Opens(s, id, lease, now) {
      GoodCreateEnter(s, id, client, target, lease, now, t);
      OpenShape(s, id, client, target, lease, now, t);
      Verdict(s, OpenRequest(s, id, client, target, lease, now, t), now);
    }
  }

  lemma OpenShape(s: State, id: string, client: string, target: Host, lease: LeaseIdentity, now: u64, t: Timing)
    requires Settled(s)
    ensures var r := OpenRequest(s, id, client, target, lease, now, t).state;
      if target == s.server then r.activeSession.None?
      else r.activeSession == s.activeSession && (s.activeSession.Some? ==>
        (Settled(r) <==> !(IsOnline(s, target)
                           && (!s.peers[target].BundleReady(lease.peerSessionEpoch) || Unseats(s, target)))))
  {
    var epoch := SatAdd(s.requestEpoch, 1);
    var next := s.(manualRecovery := None, requestEpoch := epoch);
    var request := EnterRequest(
      id, client, target, epoch, lease, StSwitching, None, None, SatAdd(now, t.commandMs), None);
    RouteShape(next, request, now, t);
  }

  lemma RouteShape(next: State, request: EnterRequest, now: u64, t: Timing)
    requires Settled(next) && next.manualRecovery.None?
    ensures var r := RouteRequest(next, request, now, t).state;
      if request.target == next.server then r.activeSession.None?
      else r.activeSession == next.activeSession && (next.activeSession.Some? ==>
        (Settled(r) <==> !(IsOnline(next, request.target)
                           && (|| !next.peers[request.target].BundleReady(request.lease.peerSessionEpoch)
                               || Unseats(next, request.target)))))
  {
    if request.target == next.server {
      SwitchShape(Draft(ReleaseToServer(next).(activeRequest := Some(request)), []), now, t);
    } else if !IsOnline(next, request.target) {
      assert SameSession(next, WakeTarget(next, request, now, t).state);
    } else if next.peers[request.target].BundleReady(request.lease.peerSessionEpoch) {
      var d := Draft(next.(activeRequest := Some(request)), []);
      SwitchShape(d, now, t);
      SwitchSettles(next, BeginSwitch(d, now, t).state, request.target);
    }
  }

  lemma SimpleRefused(s: State, d: Draft, now: u64)
    requires Inv(s) && Good(s, d)
    requires d.state.activeSession.None? || (SameSession(s, d.state) && d.state.verifiedEpoch == s.verifiedEpoch)
    ensures Validate(d.state, now).Some? <==> d.state.activeSession.Some? && Lapsed(s, now)
  {
    Verdict(s, d, now);
  }

  lemma AcknowledgedShape(s: State, epoch: u64, target: Host, now: u64, t: Timing)
    ensures var p := OnCommandAcknowledged(s, epoch, target, now, t);
      && (p.Propose? <==> s.switchEpoch == epoch && s.commandedInput == Some(target))
      && (p.Propose? ==> SameSession(s, p.draft.state) && p.draft.state.verifiedEpoch == s.verifiedEpoch)
  {
  }

  lemma AcknowledgedRefused(s: State, epoch: u64, target: Host, now: u64, t: Timing)
    requires Inv(s)
    ensures Refused(OnCommandAcknowledged(s, epoch, target, now, t), now) <==>
      s.switchEpoch == epoch && s.commandedInput == Some(target) && Lapsed(s, now)
  {
    var p := OnCommandAcknowledged(s, epoch, target, now, t);
    AcknowledgedShape(s, epoch, target, now, t);
    if p.Propose? {
      GoodAcknowledged(s, epoch, target, now, t);
      SimpleRefused(s, p.draft, now);
    }
  }

  lemma FailedRefused(s: State, epoch: u64, why: string, now: u64, t: Timing)
    requires Inv(s)
    ensures
      var d := if s.switchEpoch == epoch then BeginFallback(Draft(s, []), now, t, Given(why)) else Draft(s, []);
      Validate(d.state, now).Some? <==> s.switchEpoch != epoch && Lapsed(s, now)
  {
    GoodCommandFailed(s, epoch, now, t, Given(why));
    FallbackReleases(Draft(s, []), now, t, Given(why));
    SimpleRefused(
      s, if s.switchEpoch == epoch then BeginFallback(Draft(s, []), now, t, Given(why)) else Draft(s, []), now);
  }

  lemma CancelRefused(s: State, id: string, why: string, now: u64, t: Timing)
    requires Inv(s)
    ensures Refused(OnCancel(s, id, Given(why), now, t), now) <==> CheckRefuses(s, Cancel(id, why), now, t)
  {
    var reason := Given(why);
    GoodCancel(s, id, reason, now, t);
    if CancelSettled(s.history, id) {
      assert OnCancel(s, id, reason, now, t) == Propose(Draft(s, []));
      SimpleRefused(s, Draft(s, []), now);
    } else if s.activeSession.Some? && s.activeSession.value.requestId == id {
      var i := FindLast(s.history, id);
      if i >= 0 {
        FallbackReleases(Draft(MarkCancelled(s, i, reason), []), now, t, reason);
        SimpleRefused(s, BeginFallback(Draft(MarkCancelled(s, i, reason), []), now, t, reason), now);
      }
    } else if s.activeRequest.Some? && s.activeRequest.value.requestId == id {
      CancelRequestRefused(s, reason, now, t);
    }
  }

  lemma CancelRequestRefused(s: State, reason: Reason, now: u64, t: Timing)
    requires Inv(s) && s.activeRequest.Some?
    ensures Validate(CancelRequest(s, s.activeRequest.value, reason, now, t).state, now).Some? <==>
      s.activeSession.Some? && s.activeRequest.value.status == StWaking
  {
    var request := s.activeRequest.value;
    var d := CancelRequest(s, request, reason, now, t);
    GoodCancelRequest(s, reason, now, t);
    if request.switchEpoch.Some? {
      FallbackReleases(Draft(DropRequest(s, request, StCancelled, reason), []), now, t, reason);
    }
    Verdict(s, d, now);
  }

  // ---------------------------------------------------------------- readings

  lemma ReadsMeans(s: State, e: Event, host: Host, want: u64, now: u64)
    requires e.Observation?
    ensures var next := NoteObservation(s, e.switchEpoch, e.mode, e.input, e.signals, now);
      TargetDisplayVerified(next, host, want) <==> Reads(s, e, host, want)
  {
  }

  /** What a reading leaves of the session: nothing, or the session with its display as read. */
  ghost predicate ReadingLeaves(s: State, e: Event, now: u64, r: State)
    requires e.Observation? && s.activeSession.Some?
  {
    if ReadingEnds(s, e, now) then r.activeSession.None?
    else
      && SameSession(NoteObservation(s, e.switchEpoch, e.mode, e.input, e.signals, now), r)
      && r.verifiedEpoch == if ReadingGrants(s, e, now) then Some(e.switchEpoch) else s.verifiedEpoch
  }

  lemma GrantShape(s: State, now: u64, t: Timing)
    requires s.activeRequest.Some? && s.activeRequest.value.switchEpoch.Some?
    ensures var r := IssueGrant(s, now, t);
      SameSession(s, r) && r.verifiedEpoch == s.activeRequest.value.switchEpoch
  {
  }

  lemma ObserveRequestShape(next: State, epoch: u64, now: u64, t: Timing)
    requires next.activeRequest.Some?
    ensures var r := ObserveRequest(next, epoch, now, t).state;
      var answers := next.activeRequest.value.switchEpoch == Some(epoch);
      var seen := TargetDisplayVerified(next, next.activeRequest.value.target, epoch);
      if answers && ((next.phase == Verifying && seen && GrantLost(next, now)) || (next.phase == GrantPending && !seen))
      then r.activeSession.None?
      else
        && SameSession(next, r)
        && r.verifiedEpoch == if answers && next.phase == Verifying && seen then Some(epoch) else next.verifiedEpoch
  {
    if next.activeRequest.value.switchEpoch == Some(epoch) {
      if next.phase == Verifying {
        FallbackReleases(Draft(next, []), now, t, LeaseOrReadinessLostBeforeGrant);
        GrantShape(next, now, t);
      } else if next.phase == GrantPending {
        FallbackReleases(Draft(next, []), now, t, TargetObservationFailed);
      }
    }
  }

  lemma RequestReadingShape(s: State, e: Event, now: u64, t: Timing)
    requires e.Observation? && s.activeRequest.Some? && s.activeSession.Some?
    ensures ReadingLeaves(
      s, e, now, ObserveRequest(
        NoteObservation(s, e.switchEpoch, e.mode, e.input, e.signals, now), e.switchEpoch, now, t).state)
  {
    ReadsMeans(s, e, s.activeRequest.value.target, e.switchEpoch, now);
    ObserveRequestShape(
      NoteObservation(s, e.switchEpoch, e.mode, e.input, e.signals, now), e.switchEpoch, now, t);
  }

  lemma SessionReadingShape(s: State, e: Event, now: u64, t: Timing)
    requires e.Observation? && s.activeRequest.None? && s.activeSession.Some? && s.phase == RemoteOwned
    ensures ReadingLeaves(
      s, e, now, ObserveSession(
        NoteObservation(s, e.switchEpoch, e.mode, e.input, e.signals, now), e.switchEpoch, now, t).state)
  {
    var next := NoteObservation(s, e.switchEpoch, e.mode, e.input, e.signals, now);
    ReadsMeans(s, e, s.activeSession.value.target, e.switchEpoch, now);
    if ReadingEnds(s, e, now) {
      SessionFailureReleases(Draft(next, []), now, t, ActiveSignalLost);
    }
  }

  lemma MultiviewReadingShape(s: State, e: Event, now: u64, t: Timing)
    requires e.Observation? && s.activeRequest.None? && s.activeSession.Some?
    requires s.phase == MultiviewChanging && s.pendingMultiview.Some?
    ensures ReadingLeaves(
      s, e, now, CompleteMultiview(
        NoteObservation(s, e.switchEpoch, e.mode, e.input, e.signals, now), now, t).state)
  {
    var next := NoteObservation(s, e.switchEpoch, e.mode, e.input, e.signals, now);
    FallbackReleases(Draft(next, []), now, t, MultiviewObservationMismatch);
    FallbackReleases(Draft(next, []), now, t, MultiviewExitServerVerify);
  }

  lemma ReadingShape(s: State, e: Event, now: u64, t: Timing)
    requires Inv(s) && e.Observation? && s.activeSession.Some?
    ensures ReadingLeaves(
      s, e, now, OnObservation(s, e.switchEpoch, e.mode, e.input, e.signals, now, t).state)
  {
    if s.activeRequest.Some? {
      RequestReadingShape(s, e, now, t);
    } else if s.phase == RemoteOwned {
      SessionReadingShape(s, e, now, t);
    } else if s.phase == MultiviewChanging {
      MultiviewReadingShape(s, e, now, t);
    }
  }

  lemma ReadingSettles(s: State, e: Event, now: u64, r: State)
    requires e.Observation? && s.activeSession.Some? && Settled(s)
    requires !ReadingEnds(s, e, now) && ReadingLeaves(s, e, now, r)
    ensures var session := s.activeSession.value;
      Settled(r) <==>
        (s.HasDisplayRoute(session.target) ==>
          && Reads(s, e, session.target, session.switchEpoch)
          && (ReadingGrants(s, e, now) ==> e.switchEpoch == session.switchEpoch))
  {
    ReadsMeans(s, e, s.activeSession.value.target, s.activeSession.value.switchEpoch, now);
  }

  lemma ReadingRefused(s: State, e: Event, now: u64, t: Timing)
    requires Inv(s) && e.Observation?
    ensures var d := OnObservation(s, e.switchEpoch, e.mode, e.input, e.signals, now, t);
      Validate(d.state, now).Some? <==> CheckRefuses(s, e, now, t)
  {
    var d := OnObservation(s, e.switchEpoch, e.mode, e.input, e.signals, now, t);
    GoodObservation(s, e.switchEpoch, e.mode, e.input, e.signals, now, t);
    if s.activeSession.Some? {
      ReadingShape(s, e, now, t);
      if !ReadingEnds(s, e, now) {
        ReadingSettles(s, e, now, d.state);
      }
    }
    Verdict(s, d, now);
  }

  // ---------------------------------------------------------------- subscriptions, commit, renewal

  lemma LocalShape(next: State, now: u64, t: Timing)
    requires next.keyboardOwner != next.server
    ensures var r := LocalSubscription(next, now, t).state;
      if next.phase == Idle && (next.tvMode != Fullscreen
                                || (next.observedInput.Some? && next.observedInput.value != next.server))
      then r.activeSession.None?
      else SameSession(next, r.(manualRecovery := next.manualRecovery)) && r.verifiedEpoch == next.verifiedEpoch
           && (r.manualRecovery == next.manualRecovery || r.manualRecovery.None?)
  {
    if next.phase == Idle {
      FallbackReleases(Draft(next, []), now, t, ManualTvOverride);
    }
  }

  ghost predicate NoticeOnly(next: State, ends: bool, r: State) {
    if ends then r.activeSession.None?
    else
      && SameSession(next, r.(manualRecovery := next.manualRecovery)) && r.verifiedEpoch == next.verifiedEpoch
      && (r.manualRecovery == next.manualRecovery || r.manualRecovery.None?)
  }

  lemma NoticeShape(s: State, mode: TvMode, input: Option<Host>, now: u64, t: Timing)
    requires s.keyboardOwner != s.server && s.activeSession.Some? && !s.fallbackRequired
    ensures var next := s.(tvMode := mode, observedInput := input);
      NoticeOnly(next, NoticeEnds(s, mode, input), AfterSubscription(next, now, t).state)
  {
    var next := s.(tvMode := mode, observedInput := input);
    if !NoticeAnswers(s, mode, input) {
      FallbackReleases(Draft(next, []), now, t, UnexpectedTvSubscription);
      LocalShape(next, now, t);
    }
  }

  lemma NoticeRefused(s: State, mode: TvMode, input: Option<Host>, now: u64, t: Timing)
    requires Inv(s)
    ensures Validate(OnSubscription(s, mode, input, now, t).state, now).Some? <==>
      CheckRefuses(s, SubscriptionObserved(mode, input), now, t)
  {
    GoodSubscription(s, mode, input, now, t);
    if s.activeSession.Some? {
      NoticeShape(s, mode, input, now, t);
      NoticeVerdict(s, mode, input, OnSubscription(s, mode, input, now, t), now, t);
    } else {
      Verdict(s, OnSubscription(s, mode, input, now, t), now);
    }
  }

  lemma NoticeVerdict(s: State, mode: TvMode, input: Option<Host>, d: Draft, now: u64, t: Timing)
    requires Inv(s) && s.activeSession.Some? && Good(s, d)
    requires NoticeOnly(s.(tvMode := mode, observedInput := input), NoticeEnds(s, mode, input), d.state)
    ensures Validate(d.state, now).Some? <==> CheckRefuses(s, SubscriptionObserved(mode, input), now, t)
  {
    Verdict(s, d, now);
  }

  lemma TransferRefused(s: State, now: u64, t: Timing)
    requires Inv(s) && s.activeRequest.Some? && s.activeRequest.value.status == StGrant
    requires s.activeRequest.value.target == s.server
      || s.PeerReady(s.activeRequest.value.target, s.activeRequest.value.lease.peerSessionEpoch)
    ensures var request := s.activeRequest.value;
      Validate(Transfer(s, request, now, t), now).Some? <==>
        && request.target != s.server
        && (|| SatAdd(now, t.leaseMs) <= now
            || (s.HasDisplayRoute(request.target) && !TargetDisplayVerified(s, request.target, s.switchEpoch)))
  {
    TransferCore(s, now, t);
    ValidateCore(Transfer(s, s.activeRequest.value, now, t), now);
  }

  lemma CommitRefused(s: State, e: Event, now: u64, t: Timing)
    requires Inv(s) && e.Commit?
    ensures var p := OnCommit(s, e.requestId, e.requestEpoch, e.grantEpoch, e.leaseId, e.leaseEpoch, now, t);
      Refused(p, now) <==> CheckRefuses(s, e, now, t)
  {
    if FindCommitted(s.history, e.requestId) >= 0 {
      SimpleRefused(s, Draft(s, []), now);
    } else if s.activeRequest.Some? && s.activeRequest.value.grant.Some? {
      if Matches(s, e, now) {
        TransferRefused(s, now, t);
      } else {
        GoodFallback(s, Draft(s, []), now, t, ReadinessLostBeforeCommit);
        SimpleRefused(s, BeginFallback(Draft(s, []), now, t, ReadinessLostBeforeCommit), now);
      }
    }
  }

  lemma RenewRefused(s: State, e: Event, now: u64, t: Timing)
    requires Inv(s) && e.Renew?
    ensures Validate(OnRenew(s, e.requestId, e.leaseId, e.leaseEpoch, e.peerSessionEpoch, now, t).state, now).Some?
      <==> RenewalValid(s, e.requestId, e.leaseId, e.leaseEpoch, e.peerSessionEpoch) && SatAdd(now, t.leaseMs) <= now
  {
    var d := OnRenew(s, e.requestId, e.leaseId, e.leaseEpoch, e.peerSessionEpoch, now, t);
    if RenewalValid(s, e.requestId, e.leaseId, e.leaseEpoch, e.peerSessionEpoch) {
      assert Core(d.state);
      ValidateCore(d.state, now);
    } else {
      GoodSessionFailure(s, Draft(s, []), now, t, LeaseRenewalRejected);
      SimpleRefused(s, d, now);
    }
  }

  // ---------------------------------------------------------------- all events together

  lemma MultiviewAckRefused(s: State, epoch: u64, enabled: bool, now: u64, t: Timing)
    requires Inv(s)
    ensures Validate(OnMultiViewAcknowledged(s, epoch, enabled, now, t).state, now).Some? <==> Lapsed(s, now)
  {
    GoodMultiViewAcknowledged(s, epoch, enabled, now, t);
    SimpleRefused(s, OnMultiViewAcknowledged(s, epoch, enabled, now, t), now);
  }

  lemma TransportRefused(s: State, ws: WsState, subscribed: bool, now: u64)
    requires Inv(s) && ws != Connected
    ensures Validate(Transport(s, ws, subscribed), now).Some? <==> Lapsed(s, now)
  {
    GoodTransport(s, ws, subscribed);
    SimpleRefused(s, Draft(Transport(s, ws, subscribed), []), now);
  }

  /** Losing or regaining the television always brings ownership home and is never refused. */
  lemma HomeNotRefused(s: State, e: Event, now: u64, t: Timing)
    requires Inv(s) && (e.TransportSynchronized? || e.TransportDisconnected? || e.Shutdown?)
    ensures !Refused(Decide(s, e, now, t), now)
  {
    match e
    case TransportSynchronized(mode, input, signals) =>
      GoodSynchronized(s, mode, input, signals, now, t);
      var linked := s.(wsState := Connected, subscribeActive := true, synchronized := true);
      var next := StoreObservation(linked, s.switchEpoch, now, mode, input, signals);
      FallbackReleases(Draft(next, []), now, t, StartupOrReconnectResync);
      Verdict(s, OnSynchronized(s, mode, input, signals, now, t), now);
    case TransportDisconnected(why) =>
      var d := Draft(Transport(s, Disconnected, false), []);
      GoodDisconnected(s, now, t, Given(why));
      FallbackReleases(d, now, t, Given(why));
      Verdict(s, BeginFallback(d, now, t, Given(why)), now);
    case Shutdown =>
      GoodShutdown(s);
      Verdict(s, Draft(OnShutdown(s), []), now);
  }

  lemma ClientRefused(s: State, e: Event, now: u64, t: Timing)
    requires Inv(s) && FromClient(e)
    ensures Refused(Decide(s, e, now, t), now) <==> CheckRefuses(s, e, now, t)
  {
    var p := Decide(s, e, now, t);
    match e
    case PeerReadinessUpdated(host, readiness) =>
      assert p == Propose(OnPeerReadiness(s, host, readiness, now, t));
      ReportRefused(s, host, readiness, now, t);
    case CreateEnter(id, client, target, lease) =>
      assert p == OnCreateEnter(s, id, client, target, lease, now, t);
      CreateRefused(s, id, client, target, lease, now, t);
    case Commit(id, requestEpoch, grantEpoch, leaseId, leaseEpoch) =>
      assert p == OnCommit(s, id, requestEpoch, grantEpoch, leaseId, leaseEpoch, now, t);
      CommitRefused(s, e, now, t);
    case Cancel(id, why) =>
      assert p == OnCancel(s, id, Given(why), now, t);
      CancelRefused(s, id, why, now, t);
    case Renew(id, leaseId, leaseEpoch, peerEpoch) =>
      assert p == Propose(OnRenew(s, id, leaseId, leaseEpoch, peerEpoch, now, t));
      RenewRefused(s, e, now, t);
    case ArmManualRecovery(target) =>
      GoodArm(s, target);
      if OnArmManualRecovery(s, target).Propose? {
        Verdict(s, OnArmManualRecovery(s, target).draft, now);
      }
    case MultiViewRequested(enabled) =>
      GoodMultiViewRequested(s, enabled, now, t);
      if OnMultiViewRequested(s, enabled, now, t).Propose? {
        Verdict(s, OnMultiViewRequested(s, enabled, now, t).draft, now);
      }
  }

  lemma DeviceRefused(s: State, e: Event, now: u64, t: Timing)
    requires Inv(s) && !FromClient(e)
    ensures Refused(Decide(s, e, now, t), now) <==> CheckRefuses(s, e, now, t)
  {
    match e
    case TransportConnecting => TransportRefused(s, Connecting, false, now);
    case TransportRegistering => TransportRefused(s, Registering, false, now);
    case TransportSubscribed => TransportRefused(s, Synchronizing, true, now);
    case TransportSynchronized(_, _, _) => HomeNotRefused(s, e, now, t);
    case TransportDisconnected(_) => HomeNotRefused(s, e, now, t);
    case Shutdown => HomeNotRefused(s, e, now, t);
    case CommandAcknowledged(epoch, target) => AcknowledgedRefused(s, epoch, target, now, t);
    case CommandFailed(epoch, why) => FailedRefused(s, epoch, why, now, t);
    case Observation(_, _, _, _) => ReadingRefused(s, e, now, t);
    case MultiViewAcknowledged(epoch, enabled) => MultiviewAckRefused(s, epoch, enabled, now, t);
    case SubscriptionObserved(mode, input) => NoticeRefused(s, mode, input, now, t);
    case Tick => TickPlanChecked(s, now, t);
  }

  lemma PlanErrors(s: State, e: Event, now: u64, t: Timing)
    ensures var p := Decide(s, e, now, t); p.Refuse? ==> !p.error.Invariant?
  {
  }

  lemma RefusalIsPlans(s: State, e: Event, now: u64, t: Timing)
    ensures var o := Apply(s, e, now, t);
      (o.Rejected? && o.error.Invariant?) <==> Refused(Decide(s, e, now, t), now)
  {
    PlanErrors(s, e, now, t);
  }

  lemma PlanRefusedIff(s: State, e: Event, now: u64, t: Timing)
    requires Inv(s)
    ensures Refused(Decide(s, e, now, t), now) <==> CheckRefuses(s, e, now, t)
  {
    if FromClient(e) {
      ClientRefused(s, e, now, t);
    } else {
      DeviceRefused(s, e, now, t);
    }
  }

  /** In every reachable state, with or without a session, the runtime check refuses an event if and
      only if one of the listed situations holds. */
  lemma CheckRefusesIff(s: State, e: Event, now: u64, t: Timing)
    requires Reachable(s, t)
    ensures var o := Apply(s, e, now, t);
      (o.Rejected? && o.error.Invariant?) <==> CheckRefuses(s, e, now, t)
  {
    ReachableInv(s, t);
    RefusalIsPlans(s, e, now, t);
    PlanRefusedIff(s, e, now, t);
  }
}
