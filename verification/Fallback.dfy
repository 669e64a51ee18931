/** Fallback to the server display: it keeps retrying, and it ends only on evidence. */
module Fallback {
  import opened Domain
  import opened Protocol
  import opened Invariant
  import opened Runs

  // ---------------------------------------------------------------- it never stalls

  /** A healthy controller that still owes a fallback has a deadline, and the tick that serves it
      reissues the command under the next epoch and sets the next deadline. */
  lemma FallbackNeverStalls(s: State, now: u64, t: Timing)
    requires Reachable(s, t) && s.DaemonHealthy() && s.fallbackRequired
    ensures s.phaseDeadline.Some?
    ensures s.phaseDeadline.value <= now ==>
      var o := Apply(s, Tick, now, t);
      var epoch := SatAdd(s.switchEpoch, 1);
      && o.Accepted?
      && o.effects == [SetInput(s.server, epoch, true)]
      && o.next.switchEpoch == epoch
      && o.next.DaemonHealthy() && o.next.fallbackRequired
      && o.next.phase == FallbackCommandPending
      && o.next.phaseDeadline == Some(SatAdd(now, t.commandMs))
  {
    ReachableInv(s, t);
    if s.phaseDeadline.value <= now {
      TickRetries(s, now, t);
      ProposalCarriedOut(s, Tick, now, t);
    }
  }

  lemma TickRetries(s: State, now: u64, t: Timing)
    requires Inv(s) && s.DaemonHealthy() && s.fallbackRequired && Due(s.phaseDeadline, now)
    ensures var p := OnTick(s, now, t);
      && p.Propose?
      && p.draft.effects == [SetInput(s.server, SatAdd(s.switchEpoch, 1), true)]
      && p.draft.state.switchEpoch == SatAdd(s.switchEpoch, 1)
      && p.draft.state.DaemonHealthy() && p.draft.state.fallbackRequired
      && p.draft.state.phase == FallbackCommandPending
      && p.draft.state.phaseDeadline == Some(SatAdd(now, t.commandMs))
      && p.draft.state.activeSession.None?
  {
  }

  // ---------------------------------------------------------------- it ends honestly

  /** The server signal as it will read once `signals` are stored under `epoch`. */
  predicate ServerSignal(s: State, epoch: u64, signals: map<Host, bool>) {
    if s.server in signals then signals[s.server] else SignalVerified(s, s.server, epoch)
  }

  /** The readings, stored under `epoch`, show the server full screen with a present signal. */
  predicate ShowsServer(s: State, epoch: u64, mode: TvMode, input: Option<Host>, signals: map<Host, bool>) {
    mode == Fullscreen && input == Some(s.server) && ServerSignal(s, epoch, signals)
  }

  predicate ShowsOther(s: State, mode: TvMode, input: Option<Host>) {
    mode != Fullscreen || input != Some(s.server)
  }

  /** The only evidence that settles an outstanding fallback. */
  predicate Resolves(s: State, e: Event) {
    match e
    case TransportSynchronized(mode, input, signals) =>
      ShowsServer(s, s.switchEpoch, mode, input, signals) || ShowsOther(s, mode, input)
    case Observation(epoch, mode, input, signals) =>
      epoch == s.switchEpoch && ShowsServer(s, epoch, mode, input, signals)
    case SubscriptionObserved(mode, input) => ShowsOther(s, mode, input)
    case _ => false
  }

  lemma StoredServerSignal(s: State, epoch: u64, now: u64, mode: TvMode, input: Option<Host>, signals: map<Host, bool>)
    ensures ServerDisplayVerified(StoreObservation(s, epoch, now, mode, input, signals), epoch)
      <==> ShowsServer(s, epoch, mode, input, signals)
  {
  }

  /** What a settled fallback leaves behind: the server verified under the current epoch, or a manual display. */
  predicate SettledDisplay(s: State) {
    || (s.verifiedEpoch == Some(s.switchEpoch) && ServerDisplayVerified(s, s.switchEpoch))
    || ShowsOther(s, s.tvMode, s.observedInput)
  }

  lemma FallbackStays(d: Draft, now: u64, t: Timing, reason: Reason)
    requires d.state.fallbackRequired
    ensures BeginFallback(d, now, t, reason).state.fallbackRequired
    ensures BeginSessionFailureFallback(d, now, t, reason).state.fallbackRequired
  {
    RestoreStays(d, now, t, reason);
    RestoreStays(Draft(OfferSessionTarget(d.state), d.effects), now, t, reason);
  }

  lemma RestoreStays(d: Draft, now: u64, t: Timing, reason: Reason)
    ensures BeginFallbackWithRestore(d, now, t, reason, true).state.fallbackRequired
  {
  }

  lemma SynchronizedResolves(
    s: State, mode: TvMode, input: Option<Host>, signals: map<Host, bool>, now: u64, t: Timing)
    requires Inv(s) && s.fallbackRequired
    ensures var d := OnSynchronized(s, mode, input, signals, now, t);
      && (!d.state.fallbackRequired <==> Resolves(s, TransportSynchronized(mode, input, signals)))
      && (!d.state.fallbackRequired ==> SettledDisplay(d.state))
  {
    var linked := s.(wsState := Connected, subscribeActive := true, synchronized := true);
    StoredServerSignal(linked, s.switchEpoch, now, mode, input, signals);
    var next := StoreObservation(linked, s.switchEpoch, now, mode, input, signals);
    FallbackStays(Draft(next, []), now, t, StartupOrReconnectResync);
  }

  lemma ObservationResolves(
    s: State, epoch: u64, mode: TvMode, input: Option<Host>, signals: map<Host, bool>, now: u64, t: Timing)
    requires Inv(s) && s.fallbackRequired
    ensures var d := OnObservation(s, epoch, mode, input, signals, now, t);
      && (!d.state.fallbackRequired <==> Resolves(s, Observation(epoch, mode, input, signals)))
      && (!d.state.fallbackRequired ==> SettledDisplay(d.state))
  {
    StoredServerSignal(s, epoch, now, mode, input, signals);
  }

  lemma SubscriptionResolves(s: State, mode: TvMode, input: Option<Host>, now: u64, t: Timing)
    requires Inv(s) && s.fallbackRequired
    ensures var d := OnSubscription(s, mode, input, now, t);
      && (!d.state.fallbackRequired <==> Resolves(s, SubscriptionObserved(mode, input)))
      && (!d.state.fallbackRequired ==> SettledDisplay(d.state))
  {
  }

  lemma TickStays(s: State, now: u64, t: Timing)
    requires Inv(s) && s.fallbackRequired
    ensures var p := OnTick(s, now, t); p.Propose? && p.draft.state.fallbackRequired
  {
  }

  lemma OthersStay(s: State, e: Event, now: u64, t: Timing)
    requires Inv(s) && s.fallbackRequired
    requires !e.TransportSynchronized? && !e.Observation? && !e.SubscriptionObserved? && !e.Tick?
    ensures var p := Decide(s, e, now, t); p.Propose? ==> p.draft.state.fallbackRequired
  {
    match e
    case TransportDisconnected(why) =>
      FallbackStays(Draft(Transport(s, Disconnected, false), []), now, t, Given(why));
    case PeerReadinessUpdated(host, readiness) =>
      assert RecheckRequest(s.(peers := s.peers[host := readiness]), host, readiness, now, t)
          == Draft(s.(peers := s.peers[host := readiness]), []);
    case CommandFailed(epoch, why) => FallbackStays(Draft(s, []), now, t, Given(why));
    case Renew(id, leaseId, leaseEpoch, peerEpoch) => FallbackStays(Draft(s, []), now, t, LeaseRenewalRejected);
    case _ =>
  }

  ghost predicate Settles(s: State, e: Event, p: Plan) {
    && (p.Propose? && !p.draft.state.fallbackRequired <==> Resolves(s, e))
    && (p.Propose? && !p.draft.state.fallbackRequired ==> SettledDisplay(p.draft.state))
  }

  lemma EvidenceSettles(s: State, e: Event, now: u64, t: Timing)
    requires Inv(s) && s.fallbackRequired && (e.TransportSynchronized? || e.Observation? || e.SubscriptionObserved?)
    ensures Settles(s, e, Decide(s, e, now, t))
  {
    match e
    case TransportSynchronized(mode, input, signals) => SynchronizedResolves(s, mode, input, signals, now, t);
    case Observation(epoch, mode, input, signals) => ObservationResolves(s, epoch, mode, input, signals, now, t);
    case SubscriptionObserved(mode, input) => SubscriptionResolves(s, mode, input, now, t);
  }

  lemma PlanSettles(s: State, e: Event, now: u64, t: Timing)
    requires Inv(s) && s.fallbackRequired
    ensures Settles(s, e, Decide(s, e, now, t))
  {
    if e.TransportSynchronized? || e.Observation? || e.SubscriptionObserved? {
      EvidenceSettles(s, e, now, t);
    } else if e.Tick? {
      TickStays(s, now, t);
    } else {
      OthersStay(s, e, now, t);
    }
  }

  /** A fallback is settled by exactly this evidence, never by a commit or any other event. */
  lemma FallbackSettledIff(s: State, e: Event, now: u64, t: Timing)
    requires Reachable(s, t) && s.fallbackRequired
    ensures var o := Apply(s, e, now, t);
      && ((o.Accepted? && !o.next.fallbackRequired) <==> Resolves(s, e))
      && (o.Accepted? && !o.next.fallbackRequired ==> SettledDisplay(o.next))
  {
    ReachableInv(s, t);
    PlanSettles(s, e, now, t);
    if !e.Commit? && Decide(s, e, now, t).Propose? {
      ProposalCarriedOut(s, e, now, t);
    } else {
      assert !Resolves(s, e);
    }
  }

  ghost predicate SettlesHonestly(step: Step) {
    && step.pre.fallbackRequired && !step.post.fallbackRequired
    && Resolves(step.pre, step.event)
    && SettledDisplay(step.post)
  }

  /** Over a whole run: an outstanding fallback that is gone at the end was settled at some step by
      such evidence. */
  lemma {:induction false} FallbackEndsHonestly(start: State, run: seq<Step>, t: Timing)
    requires IsRun(start, run, t) && Inv(start)
    requires start.fallbackRequired && !End(start, run).fallbackRequired
    ensures exists i :: 0 <= i < |run| && SettlesHonestly(run[i])
  {
    var front, last := run[..|run| - 1], run[|run| - 1];
    if End(start, front).fallbackRequired {
      RunInv(start, front, t);
      PlanSettles(last.pre, last.event, last.now, t);
      StepFromPlan(last, t);
    } else {
      FallbackEndsHonestly(start, front, t);
      var i :| 0 <= i < |front| && SettlesHonestly(front[i]);
      assert run[i] == front[i];
    }
  }
}
