/** Epoch fencing: commands carry strictly increasing epochs, so superseded ones are recognisable. */
module Epochs {
  import opened Domain
  import opened Protocol
  import opened Invariant
  import opened Runs

  predicate IsCommand(e: Effect) {
    e.SetInput? || e.SetMultiView?
  }

  /** Command epochs rise strictly, starting above `lo` and ending at most at `hi`. */
  ghost predicate Fenced(lo: u64, effects: seq<Effect>, hi: u64)
    decreases |effects|
  {
    if effects == [] then lo <= hi
    else if IsCommand(effects[0]) then
      lo < effects[0].switchEpoch && Fenced(effects[0].switchEpoch, effects[1..], hi)
    else Fenced(lo, effects[1..], hi)
  }

  lemma {:induction false} FencedConcat(lo: u64, xs: seq<Effect>, mid: u64, ys: seq<Effect>, hi: u64)
    requires Fenced(lo, xs, mid) && Fenced(mid, ys, hi)
    ensures Fenced(lo, xs + ys, hi)
    decreases |xs|
  {
    if xs == [] {
      FencedWiden(lo, mid, ys, hi);
      assert xs + ys == ys;
    } else {
      var next := if IsCommand(xs[0]) then xs[0].switchEpoch else lo;
      FencedConcat(next, xs[1..], mid, ys, hi);
      assert (xs + ys)[1..] == xs[1..] + ys;
    }
  }

  lemma {:induction false} FencedWiden(lo: u64, mid: u64, ys: seq<Effect>, hi: u64)
    requires lo <= mid && Fenced(mid, ys, hi)
    ensures Fenced(lo, ys, hi)
    decreases |ys|
  {
    if ys != [] && !IsCommand(ys[0]) {
      FencedWiden(lo, mid, ys[1..], hi);
    }
  }

  lemma {:induction false} FencedBounds(lo: u64, effects: seq<Effect>, hi: u64, i: nat)
    requires Fenced(lo, effects, hi) && i < |effects| && IsCommand(effects[i])
    ensures lo < effects[i].switchEpoch <= hi
    ensures Fenced(effects[i].switchEpoch, effects[i + 1..], hi)
    decreases |effects|
  {
    var next := if IsCommand(effects[0]) then effects[0].switchEpoch else lo;
    if i > 0 {
      FencedBounds(next, effects[1..], hi, i - 1);
      assert effects[1..][i..] == effects[i + 1..];
    } else {
      FencedOrder(next, effects[1..], hi);
    }
  }

  lemma {:induction false} FencedOrder(lo: u64, effects: seq<Effect>, hi: u64)
    requires Fenced(lo, effects, hi)
    ensures lo <= hi
    decreases |effects|
  {
    if effects != [] {
      FencedOrder(if IsCommand(effects[0]) then effects[0].switchEpoch else lo, effects[1..], hi);
    }
  }

  /** Any two commands of a fenced list: the later one has the larger epoch. */
  lemma FencedStrict(lo: u64, effects: seq<Effect>, hi: u64, i: nat, j: nat)
    requires Fenced(lo, effects, hi) && i < j < |effects|
    requires IsCommand(effects[i]) && IsCommand(effects[j])
    ensures effects[i].switchEpoch < effects[j].switchEpoch
  {
    FencedBounds(lo, effects, hi, i);
    FencedBounds(effects[i].switchEpoch, effects[i + 1..], hi, j - i - 1);
  }

  // ---------------------------------------------------------------- one step

  /** The draft came after `s`: same configuration, no epoch went back, commands fenced below saturation. */
  ghost predicate Later(s: State, d: Draft) {
    && d.state.server == s.server
    && d.state.displayHosts == s.displayHosts
    && d.state.retainedLimit == s.retainedLimit
    && s.requestEpoch <= d.state.requestEpoch
    && s.grantEpoch <= d.state.grantEpoch
    && s.switchEpoch <= d.state.switchEpoch
    && (d.state.switchEpoch < U64_MAX ==> Fenced(s.switchEpoch, d.effects, d.state.switchEpoch))
  }

  lemma LaterCommand(s: State, d: Draft, r: Draft, command: Effect)
    requires Later(s, d)
    requires r.state.server == s.server && r.state.displayHosts == s.displayHosts
    requires r.state.retainedLimit == s.retainedLimit
    requires d.state.requestEpoch <= r.state.requestEpoch && d.state.grantEpoch <= r.state.grantEpoch
    requires r.state.switchEpoch == SatAdd(d.state.switchEpoch, 1)
    requires IsCommand(command) && command.switchEpoch == r.state.switchEpoch
    requires r.effects == d.effects + [command]
    ensures Later(s, r)
  {
    if r.state.switchEpoch < U64_MAX {
      var hi := r.state.switchEpoch;
      assert Fenced(hi, [command][1..], hi);
      assert Fenced(d.state.switchEpoch, [command], hi);
      FencedConcat(s.switchEpoch, d.effects, d.state.switchEpoch, [command], hi);
    }
  }

  lemma LaterFallback(s: State, d: Draft, now: u64, t: Timing, reason: Reason, restore: bool)
    requires Later(s, d)
    ensures Later(s, BeginFallbackWithRestore(d, now, t, reason, restore))
  {
    if restore && d.state.DaemonHealthy() {
      var r := BeginFallbackWithRestore(d, now, t, reason, restore);
      LaterCommand(s, d, r, SetInput(s.server, r.state.switchEpoch, true));
    }
  }

  lemma LaterBeginFallback(s: State, d: Draft, now: u64, t: Timing, reason: Reason)
    requires Later(s, d)
    ensures Later(s, BeginFallback(d, now, t, reason))
    ensures Later(s, BeginSessionFailureFallback(d, now, t, reason))
  {
    LaterFallback(s, d, now, t, reason, DisplayRestoreRequired(d.state));
    var offered := OfferSessionTarget(d.state);
    assert Later(s, Draft(offered, d.effects));
    LaterFallback(s, Draft(offered, d.effects), now, t, reason, DisplayRestoreRequired(offered));
  }

  lemma LaterBeginSwitch(s: State, d: Draft, now: u64, t: Timing)
    requires Later(s, d) && d.state.activeRequest.Some? && d.effects == []
    ensures Later(s, BeginSwitch(d, now, t))
    ensures Answerable(BeginSwitch(d, now, t))
  {
    var next := SwitchOpened(d.state, now, t);
    var target := d.state.activeRequest.value.target;
    if d.state.HasDisplayRoute(target) {
      LaterCommand(s, d, BeginSwitch(d, now, t), SetInput(target, next.switchEpoch, false));
    } else {
      assert Later(s, Draft(next, []));
    }
  }

  predicate IsOrdinary(e: Effect) {
    !e.Wake? && !(e.SetInput? && e.fallback)
  }

  predicate OwnersHome(s: State) {
    s.keyboardOwner == s.server && s.pointerOwner == s.server
  }

  /** An ordinary effect is stamped with the current switch epoch, unless ownership is already home. */
  ghost predicate Answerable(d: Draft) {
    OwnersHome(d.state)
    || forall i :: 0 <= i < |d.effects| && IsOrdinary(d.effects[i]) ==> d.effects[i].switchEpoch == d.state.switchEpoch
  }

  ghost predicate Orderly(s: State, d: Draft) {
    Later(s, d) && Answerable(d)
  }

  ghost predicate OrderlyPlan(s: State, p: Plan) {
    p.Propose? ==> Orderly(s, p.draft)
  }

  lemma OrderlyFallback(s: State, d: Draft, now: u64, t: Timing, reason: Reason)
    requires Later(s, d)
    ensures Orderly(s, BeginFallback(d, now, t, reason))
    ensures Orderly(s, BeginSessionFailureFallback(d, now, t, reason))
  {
    LaterBeginFallback(s, d, now, t, reason);
  }

  // ---------------------------------------------------------------- every event

  lemma OrderlySynchronized(
    s: State, mode: TvMode, input: Option<Host>, signals: map<Host, bool>, now: u64, t: Timing)
    ensures Orderly(s, OnSynchronized(s, mode, input, signals, now, t))
  {
    var linked := s.(wsState := Connected, subscribeActive := true, synchronized := true);
    var next := StoreObservation(linked, s.switchEpoch, now, mode, input, signals);
    if !ServerDisplayVerified(next, s.switchEpoch) && !ManualDisplayObserved(next) {
      OrderlyFallback(s, Draft(next, []), now, t, StartupOrReconnectResync);
    }
  }

  lemma OrderlyPeerReadiness(s: State, host: Host, readiness: PeerReadiness, now: u64, t: Timing)
    ensures Orderly(s, OnPeerReadiness(s, host, readiness, now, t))
  {
    var noted := s.(peers := s.peers[host := readiness]);
    assert Later(s, Draft(noted, []));
    LaterRecheckRequest(s, noted, host, readiness, now, t);
    OrderlyRecheckOwner(s, RecheckRequest(noted, host, readiness, now, t), host, readiness, now, t);
  }

  lemma LaterRecheckRequest(s: State, noted: State, host: Host, readiness: PeerReadiness, now: u64, t: Timing)
    requires Later(s, Draft(noted, []))
    ensures Later(s, RecheckRequest(noted, host, readiness, now, t))
    ensures Answerable(RecheckRequest(noted, host, readiness, now, t))
  {
    if noted.activeRequest.Some? {
      LaterBeginSwitch(s, Draft(noted, []), now, t);
    }
    LaterBeginFallback(s, Draft(noted, []), now, t, TargetReadinessLost);
  }

  lemma OrderlyRecheckOwner(s: State, d: Draft, host: Host, readiness: PeerReadiness, now: u64, t: Timing)
    requires Later(s, d) && Answerable(d)
    ensures Orderly(s, RecheckOwner(d, host, readiness, now, t))
  {
    OrderlyFallback(s, d, now, t, ActivePeerReadinessLost);
  }

  lemma OrderlyCreateEnter(
    s: State, id: string, client: string, target: Host, lease: LeaseIdentity, now: u64, t: Timing)
    ensures OrderlyPlan(s, OnCreateEnter(s, id, client, target, lease, now, t))
  {
    var epoch := SatAdd(s.requestEpoch, 1);
    var request := EnterRequest(
      id, client, target, epoch, lease, StSwitching, None, None, SatAdd(now, t.commandMs), None);
    OrderlyRouteRequest(s, s.(manualRecovery := None, requestEpoch := epoch), request, now, t);
  }

  lemma OrderlyRouteRequest(s: State, next: State, request: EnterRequest, now: u64, t: Timing)
    requires Later(s, Draft(next, []))
    ensures Orderly(s, RouteRequest(next, request, now, t))
  {
    if request.target == next.server {
      LaterBeginSwitch(s, Draft(ReleaseToServer(next).(activeRequest := Some(request)), []), now, t);
    } else if !(request.target in next.peers && next.peers[request.target].online) {
      var wake := Wake(request.target, request.requestEpoch);
      assert [wake][1..] == [];
      assert Fenced(s.switchEpoch, [wake], next.switchEpoch);
    } else if next.peers[request.target].BundleReady(request.lease.peerSessionEpoch) {
      LaterBeginSwitch(s, Draft(next.(activeRequest := Some(request)), []), now, t);
    }
  }

  lemma OrderlyAcknowledged(s: State, epoch: u64, target: Host, now: u64, t: Timing)
    ensures OrderlyPlan(s, OnCommandAcknowledged(s, epoch, target, now, t))
  {
  }

  lemma OrderlyObservation(
    s: State, epoch: u64, mode: TvMode, input: Option<Host>, signals: map<Host, bool>, now: u64, t: Timing)
    ensures Orderly(s, OnObservation(s, epoch, mode, input, signals, now, t))
  {
    OrderlyAfterObservation(s, NoteObservation(s, epoch, mode, input, signals, now), epoch, now, t);
  }

  lemma OrderlyAfterObservation(s: State, next: State, epoch: u64, now: u64, t: Timing)
    requires Later(s, Draft(next, []))
    ensures Orderly(s, AfterObservation(next, epoch, now, t))
  {
    if next.fallbackRequired && next.switchEpoch == epoch {
    } else if next.activeRequest.Some? {
      OrderlyObserveRequest(s, next, epoch, now, t);
    } else if next.phase == RemoteOwned {
      OrderlyObserveSession(s, next, epoch, now, t);
    } else {
      OrderlyMultiview(s, next, now, t);
    }
  }

  lemma OrderlyObserveSession(s: State, next: State, epoch: u64, now: u64, t: Timing)
    requires Later(s, Draft(next, []))
    ensures Orderly(s, ObserveSession(next, epoch, now, t))
  {
    OrderlyFallback(s, Draft(next, []), now, t, ActiveSignalLost);
  }

  lemma OrderlyMultiview(s: State, next: State, now: u64, t: Timing)
    requires Later(s, Draft(next, []))
    ensures Orderly(s, CompleteMultiview(next, now, t))
  {
    OrderlyFallback(s, Draft(next, []), now, t, MultiviewObservationMismatch);
    OrderlyFallback(s, Draft(next, []), now, t, MultiviewExitServerVerify);
  }

  lemma OrderlyObserveRequest(s: State, next: State, epoch: u64, now: u64, t: Timing)
    requires Later(s, Draft(next, [])) && next.activeRequest.Some?
    ensures Orderly(s, ObserveRequest(next, epoch, now, t))
  {
    OrderlyFallback(s, Draft(next, []), now, t, LeaseOrReadinessLostBeforeGrant);
    OrderlyFallback(s, Draft(next, []), now, t, TargetObservationFailed);
  }

  lemma OrderlyCommit(
    s: State, id: string, requestEpoch: u64, grantEpoch: u64, leaseId: string, leaseEpoch: u64,
    now: u64, t: Timing)
    ensures OrderlyPlan(s, OnCommit(s, id, requestEpoch, grantEpoch, leaseId, leaseEpoch, now, t))
  {
    var i := FindCommitted(s.history, id);
    if i < 0 && s.activeRequest.Some? && s.activeRequest.value.grant.Some? {
      OrderlyFallback(s, Draft(s, []), now, t, ReadinessLostBeforeCommit);
    }
  }

  lemma OrderlyCancel(s: State, id: string, reason: Reason, now: u64, t: Timing)
    ensures OrderlyPlan(s, OnCancel(s, id, reason, now, t))
  {
    if CancelSettled(s.history, id) {
      assert OnCancel(s, id, reason, now, t) == Propose(Draft(s, []));
    } else if s.activeSession.Some? && s.activeSession.value.requestId == id {
      var i := FindLast(s.history, id);
      if i >= 0 {
        OrderlyFallback(s, Draft(MarkCancelled(s, i, reason), []), now, t, reason);
      }
    } else if s.activeRequest.Some? {
      OrderlyCancelRequest(s, s.activeRequest.value, reason, now, t);
    }
  }

  lemma OrderlyCancelRequest(s: State, request: EnterRequest, reason: Reason, now: u64, t: Timing)
    ensures Orderly(s, CancelRequest(s, request, reason, now, t))
  {
    OrderlyFallback(s, Draft(DropRequest(s, request, StCancelled, reason), []), now, t, reason);
  }

  lemma OrderlyRenew(
    s: State, id: string, leaseId: string, leaseEpoch: u64, peerEpoch: u64, now: u64, t: Timing)
    ensures Orderly(s, OnRenew(s, id, leaseId, leaseEpoch, peerEpoch, now, t))
  {
    OrderlyFallback(s, Draft(s, []), now, t, LeaseRenewalRejected);
  }

  lemma OrderlyMultiViewAcknowledged(s: State, epoch: u64, enabled: bool, now: u64, t: Timing)
    ensures Orderly(s, OnMultiViewAcknowledged(s, epoch, enabled, now, t))
  {
  }

  lemma OrderlySubscription(s: State, mode: TvMode, input: Option<Host>, now: u64, t: Timing)
    ensures Orderly(s, OnSubscription(s, mode, input, now, t))
  {
    OrderlyAfterSubscription(s, s.(tvMode := mode, observedInput := input), now, t);
  }

  lemma OrderlyAfterSubscription(s: State, next: State, now: u64, t: Timing)
    requires Later(s, Draft(next, []))
    ensures Orderly(s, AfterSubscription(next, now, t))
  {
    OrderlyFallback(s, Draft(next, []), now, t, UnexpectedTvSubscription);
    OrderlyLocalSubscription(s, next, now, t);
  }

  lemma OrderlyLocalSubscription(s: State, next: State, now: u64, t: Timing)
    requires Later(s, Draft(next, []))
    ensures Orderly(s, LocalSubscription(next, now, t))
  {
    OrderlyFallback(s, Draft(next, []), now, t, ManualTvOverride);
  }

  lemma LaterExpireRequest(s: State, now: u64, t: Timing)
    ensures Later(s, ExpireRequest(s, now, t))
    ensures ExpireRequest(s, now, t).effects == [] || OwnersHome(ExpireRequest(s, now, t).state)
  {
    if s.activeRequest.Some? && s.activeRequest.value.deadline <= now {
      LaterFallback(
        s, Draft(DropRequest(s, s.activeRequest.value, StExpired, RequestDeadline), []), now, t,
        RequestDeadline, DisplayRestoreRequired(s));
    }
  }

  lemma OrderlyAfterExpiry(s: State, d: Draft, now: u64, t: Timing)
    requires Later(s, d) && (d.effects == [] || OwnersHome(d.state))
    requires PhaseOk(d.state) && OwnersOk(d.state) && FallbackOk(d.state)
    ensures OrderlyPlan(s, AfterExpiry(d, now, t))
  {
    var next := d.state;
    if next.activeSession.Some? && next.activeSession.value.ExpiredAt(now) {
      OrderlyFallback(s, d, now, t, ActiveLeaseExpired);
    } else if next.phase == RemoteOwned && next.observationInFlight.None? && Due(next.nextSignalPoll, now) {
    } else if (next.observationInFlight.Some? || next.phase == Verifying) && Due(next.phaseDeadline, now) {
      OrderlyFallback(s, d, now, t, VerificationTimeoutReason(next));
    } else if (next.phase == FallbackCommandPending || next.phase == FallbackVerifying)
           && Due(next.phaseDeadline, now) {
      var r := IssueFallbackCommand(d, now, t);
      LaterCommand(s, d, r, SetInput(s.server, r.state.switchEpoch, true));
    } else {
      OrderlyFallback(s, d, now, t, MultiviewTimeout);
    }
  }

  lemma OrderlyTick(s: State, now: u64, t: Timing)
    requires Inv(s)
    ensures OrderlyPlan(s, OnTick(s, now, t))
  {
    LaterExpireRequest(s, now, t);
    if s.activeSession.Some? && s.activeRequest.Some? && s.activeRequest.value.deadline <= now
       && s.activeRequest.value.status == StWaking {
      var d := ExpireRequest(s, now, t);
      OrderlyAfterExpiry(s, d, now, t);
    } else {
      ExpireRequestCore(s, now, t);
      OrderlyAfterExpiry(s, ExpireRequest(s, now, t), now, t);
    }
  }

  lemma ClientOrderly(s: State, e: Event, now: u64, t: Timing)
    requires Inv(s) && FromClient(e)
    ensures OrderlyPlan(s, Decide(s, e, now, t))
  {
    match e
    case PeerReadinessUpdated(host, readiness) => OrderlyPeerReadiness(s, host, readiness, now, t);
    case CreateEnter(id, client, target, lease) => OrderlyCreateEnter(s, id, client, target, lease, now, t);
    case Commit(id, requestEpoch, grantEpoch, leaseId, leaseEpoch) =>
      OrderlyCommit(s, id, requestEpoch, grantEpoch, leaseId, leaseEpoch, now, t);
    case Cancel(id, why) => OrderlyCancel(s, id, Given(why), now, t);
    case Renew(id, leaseId, leaseEpoch, peerEpoch) => OrderlyRenew(s, id, leaseId, leaseEpoch, peerEpoch, now, t);
    case MultiViewRequested(enabled) =>
    case _ =>
  }

  lemma DeviceOrderly(s: State, e: Event, now: u64, t: Timing)
    requires Inv(s) && !FromClient(e)
    ensures OrderlyPlan(s, Decide(s, e, now, t))
  {
    match e
    case TransportSynchronized(mode, input, signals) => OrderlySynchronized(s, mode, input, signals, now, t);
    case TransportDisconnected(why) =>
      OrderlyFallback(s, Draft(Transport(s, Disconnected, false), []), now, t, Given(why));
    case CommandAcknowledged(epoch, target) => OrderlyAcknowledged(s, epoch, target, now, t);
    case CommandFailed(epoch, why) => OrderlyFallback(s, Draft(s, []), now, t, Given(why));
    case Observation(epoch, mode, input, signals) => OrderlyObservation(s, epoch, mode, input, signals, now, t);
    case MultiViewAcknowledged(epoch, enabled) => OrderlyMultiViewAcknowledged(s, epoch, enabled, now, t);
    case SubscriptionObserved(mode, input) => OrderlySubscription(s, mode, input, now, t);
    case Tick => OrderlyTick(s, now, t);
    case _ =>
  }

  lemma DecideOrderly(s: State, e: Event, now: u64, t: Timing)
    requires Inv(s)
    ensures OrderlyPlan(s, Decide(s, e, now, t))
  {
    if FromClient(e) {
      ClientOrderly(s, e, now, t);
    } else {
      DeviceOrderly(s, e, now, t);
    }
  }

  // ---------------------------------------------------------------- whole runs

  lemma StepOrderly(step: Step, t: Timing)
    requires IsStep(step, t) && Inv(step.pre)
    ensures Orderly(step.pre, Draft(step.post, step.effects))
  {
    DecideOrderly(step.pre, step.event, step.now, t);
    StepFromPlan(step, t);
    assert Orderly(step.pre, Draft(step.pre, []));
  }

  function RunEffects(run: seq<Step>): seq<Effect> {
    if run == [] then [] else RunEffects(run[..|run| - 1]) + run[|run| - 1].effects
  }

  /** Over any run: no epoch goes back, and below saturation all commands are fenced. */
  lemma {:induction false} RunFenced(start: State, run: seq<Step>, t: Timing)
    requires IsRun(start, run, t) && Inv(start)
    ensures start.requestEpoch <= End(start, run).requestEpoch
    ensures start.grantEpoch <= End(start, run).grantEpoch
    ensures start.switchEpoch <= End(start, run).switchEpoch
    ensures End(start, run).server == start.server && End(start, run).displayHosts == start.displayHosts
    ensures End(start, run).switchEpoch < U64_MAX ==>
      Fenced(start.switchEpoch, RunEffects(run), End(start, run).switchEpoch)
  {
    if run != [] {
      var front, last := run[..|run| - 1], run[|run| - 1];
      RunFenced(start, front, t);
      RunInv(start, front, t);
      StepOrderly(last, t);
      if last.post.switchEpoch < U64_MAX {
        FencedConcat(
          start.switchEpoch, RunEffects(front), last.pre.switchEpoch, last.effects, last.post.switchEpoch);
      }
    }
  }

  /** Any two input or multiview commands of a run: the later one has the larger epoch. */
  lemma CommandEpochsStrict(start: State, run: seq<Step>, t: Timing, i: nat, j: nat)
    requires IsRun(start, run, t) && Inv(start) && End(start, run).switchEpoch < U64_MAX
    requires i < j < |RunEffects(run)|
    requires IsCommand(RunEffects(run)[i]) && IsCommand(RunEffects(run)[j])
    ensures RunEffects(run)[i].switchEpoch < RunEffects(run)[j].switchEpoch <= End(start, run).switchEpoch
  {
    RunFenced(start, run, t);
    FencedStrict(start.switchEpoch, RunEffects(run), End(start, run).switchEpoch, i, j);
    FencedBounds(start.switchEpoch, RunEffects(run), End(start, run).switchEpoch, j);
  }

  ghost predicate LeavesAlone(s: State, o: Outcome) {
    o.Rejected? || o == Accepted(s, [])
  }

  /** Once a later command was issued, acknowledging or failing the earlier one changes nothing. */
  lemma SupersededIgnored(start: State, run: seq<Step>, t: Timing, i: nat, j: nat, e: Event, now: u64)
    requires IsRun(start, run, t) && Inv(start) && End(start, run).switchEpoch < U64_MAX
    requires i < j < |RunEffects(run)|
    requires IsCommand(RunEffects(run)[i]) && IsCommand(RunEffects(run)[j])
    requires e.CommandAcknowledged? || e.CommandFailed? || e.MultiViewAcknowledged?
    requires e.switchEpoch == RunEffects(run)[i].switchEpoch
    ensures LeavesAlone(End(start, run), Apply(End(start, run), e, now, t))
    ensures e.CommandAcknowledged? ==> Apply(End(start, run), e, now, t) == Accepted(End(start, run), [])
  {
    CommandEpochsStrict(start, run, t, i, j);
  }

  /** A request past waking and an owned session always carry the newest switch epoch. */
  lemma NewestEpochHeld(s: State, t: Timing)
    requires Reachable(s, t)
    ensures s.activeRequest.Some? && s.activeRequest.value.status != StWaking ==>
      s.activeRequest.value.switchEpoch == Some(s.switchEpoch) && s.activeRequest.value.requestEpoch == s.requestEpoch
    ensures s.activeRequest.Some? && s.activeRequest.value.grant.Some? ==>
      s.activeRequest.value.grant.value.grantEpoch == s.grantEpoch
    ensures s.phase == RemoteOwned ==> s.activeSession.Some? && s.activeSession.value.switchEpoch == s.switchEpoch
  {
    ReachableInv(s, t);
  }
}
