/** A remote session on a display is verified again and again, except where the code stops asking. */
module Watching {
  import opened Domain
  import opened Protocol
  import opened Invariant
  import opened Runs
  import opened Epochs
  import opened Transactions
  import opened Sessions
  import opened Refusals

  /** The next verification of the session is scheduled. */
  predicate Scheduled(s: State) {
    s.phase == RemoteOwned && s.observationInFlight.None? && s.nextSignalPoll.Some?
  }

  /** The next verification of the session is under way, with a time limit. */
  predicate Awaited(s: State) {
    && (s.phase == RemoteOwned || s.phase == MultiviewChanging)
    && s.observationInFlight == Some(s.switchEpoch) && s.phaseDeadline.Some?
  }

  /** A session on a display has its next verification ahead of it. */
  predicate Watched(s: State) {
    OnDisplay(s) ==> s.activeRequest.None? && (Scheduled(s) || Awaited(s))
  }

  /** The awaited reading is not the one that came. */
  predicate OtherReading(s: State, e: Event) {
    && OnDisplay(s) && s.phase == RemoteOwned
    && e.Observation? && s.observationInFlight.Some? && s.observationInFlight != Some(e.switchEpoch)
  }

  /** A reading from another epoch that still shows the session's target, without its signal, while
      the session's own reading is awaited: it cancels the time limit. */
  predicate Disarms(s: State, e: Event, now: u64) {
    && OtherReading(s, e) && !Lapsed(s, now)
    && Displays(e.mode, e.input, s.activeSession.value.target) && s.activeSession.value.target !in e.signals
  }

  /** A create that opens a request beside the session: the remote phase ends, and with it all polling. */
  predicate Overlaps(s: State, e: Event, now: u64) {
    && OnDisplay(s) && !Lapsed(s, now)
    && e.CreateEnter? && Opens(s, e.requestId, e.lease, now) && e.target != s.server
    && (IsOnline(s, e.target) ==>
          s.peers[e.target].BundleReady(e.lease.peerSessionEpoch) && !Unseats(s, e.target))
  }

  predicate StopsWatch(s: State, e: Event, now: u64) {
    Disarms(s, e, now) || Overlaps(s, e, now)
  }

  // ---------------------------------------------------------------- sessions that are not on a display

  /** Only a commit puts a session on a display. */
  lemma NotOnDisplayKept(step: Step, t: Timing)
    requires IsStep(step, t) && Inv(step.pre) && !OnDisplay(step.pre) && !step.event.Commit?
    ensures !OnDisplay(step.post)
  {
    StepMoves(step, t);
    StepOrderly(step, t);
  }

  lemma CommitWatched(s: State, e: Event, now: u64, t: Timing)
    requires Watched(s) && e.Commit?
    ensures var p := OnCommit(s, e.requestId, e.requestEpoch, e.grantEpoch, e.leaseId, e.leaseEpoch, now, t);
      p.Propose? ==> Watched(p.draft.state)
  {
    if FindCommitted(s.history, e.requestId) < 0 && s.activeRequest.Some? {
      FallbackReleases(Draft(s, []), now, t, ReadinessLostBeforeCommit);
      if s.activeRequest.value.switchEpoch.Some? {
        assert Watched(Transfer(s, s.activeRequest.value, now, t));
      }
    }
  }

  // ---------------------------------------------------------------- readings

  /** A reading of another epoch is accepted in exactly one situation, and then nothing bounds the wait
      for the session's own reading any more. */
  lemma OtherReadingOutcome(s: State, e: Event, now: u64, t: Timing)
    requires Inv(s) && Watched(s) && OtherReading(s, e)
    ensures Apply(s, e, now, t).Accepted? <==> Disarms(s, e, now)
    ensures Apply(s, e, now, t).Accepted? ==> !Watched(Apply(s, e, now, t).next)
  {
    ReadingRefused(s, e, now, t);
    var next := NoteObservation(s, e.switchEpoch, e.mode, e.input, e.signals, now);
    var r := next.(phaseDeadline := None, nextSignalPoll := Some(SatAdd(now, t.signalPollMs)));
    assert OnObservation(s, e.switchEpoch, e.mode, e.input, e.signals, now, t) == Draft(r, []);
  }

  /** Any other reading that is accepted ends the session or leaves it watched. */
  lemma OwnReadingWatched(s: State, e: Event, now: u64, t: Timing)
    requires Inv(s) && OnDisplay(s) && Watched(s) && e.Observation? && !OtherReading(s, e)
    ensures var r := OnObservation(s, e.switchEpoch, e.mode, e.input, e.signals, now, t).state;
      Validate(r, now).None? ==> Watched(r)
  {
    ReadingRefused(s, e, now, t);
    ReadingShape(s, e, now, t);
  }

  // ---------------------------------------------------------------- creates

  lemma OverlapsMeans(s: State, e: Event, now: u64, t: Timing)
    requires OnDisplay(s) && e.CreateEnter?
    ensures Overlaps(s, e, now) <==>
      Opens(s, e.requestId, e.lease, now) && e.target != s.server && !CheckRefuses(s, e, now, t)
  {
  }

  /** A create opens a request beside the session exactly when it overlaps, and then ends the watch. */
  lemma CreateWatchIff(s: State, e: Event, now: u64, t: Timing)
    requires Inv(s) && OnDisplay(s) && Watched(s) && e.CreateEnter?
    ensures var p := OnCreateEnter(s, e.requestId, e.clientId, e.target, e.lease, now, t);
      && (p.Propose? && Validate(p.draft.state, now).None? ==>
            (Watched(p.draft.state) <==> !Overlaps(s, e, now)))
      && (Overlaps(s, e, now) ==> p.Propose? && Validate(p.draft.state, now).None?)
  {
    CreateRefused(s, e.requestId, e.clientId, e.target, e.lease, now, t);
    OverlapsMeans(s, e, now, t);
    if Opens(s, e.requestId, e.lease, now) {
      OpenShape(s, e.requestId, e.clientId, e.target, e.lease, now, t);
      if e.target != s.server
         && (IsOnline(s, e.target) ==> s.peers[e.target].BundleReady(e.lease.peerSessionEpoch)) {
        OpenedIsActive(s, e, now, t);
      }
    }
  }

  /** A request opened beside a session is active, unless it is denied. */
  lemma OpenedIsActive(s: State, e: Event, now: u64, t: Timing)
    requires e.CreateEnter? && e.target != s.server
    requires IsOnline(s, e.target) ==> s.peers[e.target].BundleReady(e.lease.peerSessionEpoch)
    ensures OpenRequest(s, e.requestId, e.clientId, e.target, e.lease, now, t).state.activeRequest.Some?
    ensures OpenRequest(s, e.requestId, e.clientId, e.target, e.lease, now, t).state.displayHosts == s.displayHosts
  {
  }

  // ---------------------------------------------------------------- every other event

  lemma RenewWatched(s: State, e: Event, now: u64, t: Timing)
    requires Watched(s) && e.Renew?
    ensures Watched(OnRenew(s, e.requestId, e.leaseId, e.leaseEpoch, e.peerSessionEpoch, now, t).state)
  {
    SessionFailureReleases(Draft(s, []), now, t, LeaseRenewalRejected);
  }

  lemma CancelWatched(s: State, id: string, reason: Reason, now: u64, t: Timing)
    requires OnDisplay(s) && Watched(s)
    ensures var p := OnCancel(s, id, reason, now, t); p.Propose? ==> Watched(p.draft.state)
  {
    if CancelSettled(s.history, id) {
      assert OnCancel(s, id, reason, now, t) == Propose(Draft(s, []));
    } else if s.activeSession.value.requestId == id {
      var i := FindLast(s.history, id);
      if i >= 0 {
        FallbackReleases(Draft(MarkCancelled(s, i, reason), []), now, t, reason);
      }
    }
  }

  lemma ReportWatched(s: State, host: Host, readiness: PeerReadiness, now: u64, t: Timing)
    requires OnDisplay(s) && Watched(s)
    ensures Watched(OnPeerReadiness(s, host, readiness, now, t).state)
  {
    var noted := s.(peers := s.peers[host := readiness]);
    assert RecheckRequest(noted, host, readiness, now, t) == Draft(noted, []);
    SessionFailureReleases(Draft(noted, []), now, t, ActivePeerReadinessLost);
  }

  lemma NoticeWatched(s: State, mode: TvMode, input: Option<Host>, now: u64, t: Timing)
    requires OnDisplay(s) && Watched(s) && OwnersOk(s)
    ensures Watched(OnSubscription(s, mode, input, now, t).state)
  {
    var next := s.(tvMode := mode, observedInput := input);
    if Shows(next, s.activeSession.value.target) {
      assert AfterSubscription(next, now, t) == LocalSubscription(next, now, t);
    } else {
      FallbackReleases(Draft(next, []), now, t, UnexpectedTvSubscription);
    }
  }

  lemma TickWatched(s: State, now: u64, t: Timing)
    requires OnDisplay(s) && Watched(s)
    requires s.phase == RemoteOwned ==> s.activeSession.value.switchEpoch == s.switchEpoch
    ensures var p := OnTick(s, now, t); p.Propose? ==> Watched(p.draft.state)
  {
    var d := Draft(s, []);
    assert ExpireRequest(s, now, t) == d;
    if s.activeSession.value.ExpiredAt(now) {
      SessionFailureReleases(d, now, t, ActiveLeaseExpired);
    } else if s.observationInFlight.Some? && Due(s.phaseDeadline, now) {
      SessionFailureReleases(d, now, t, VerificationTimeoutReason(s));
    } else if s.observationInFlight.Some? {
      assert AfterExpiry(d, now, t) == Propose(d);
    }
  }

  lemma SynchronizedEnds(
    s: State, mode: TvMode, input: Option<Host>, signals: map<Host, bool>, now: u64, t: Timing)
    requires OnDisplay(s)
    ensures OnSynchronized(s, mode, input, signals, now, t).state.activeSession.None?
  {
    var linked := s.(wsState := Connected, subscribeActive := true, synchronized := true);
    var next := StoreObservation(linked, s.switchEpoch, now, mode, input, signals);
    FallbackReleases(Draft(next, []), now, t, StartupOrReconnectResync);
  }

  lemma ClientWatched(s: State, e: Event, now: u64, t: Timing)
    requires Inv(s) && OnDisplay(s) && Watched(s) && FromClient(e) && !e.CreateEnter?
    ensures var p := Decide(s, e, now, t); p.Propose? ==> Watched(p.draft.state)
  {
    match e
    case PeerReadinessUpdated(host, readiness) => ReportWatched(s, host, readiness, now, t);
    case Cancel(id, why) => CancelWatched(s, id, Given(why), now, t);
    case Commit(_, _, _, _, _) => CommitWatched(s, e, now, t);
    case Renew(_, _, _, _) => RenewWatched(s, e, now, t);
    case _ =>
  }

  lemma PlainWatched(s: State, e: Event, now: u64, t: Timing)
    requires Inv(s) && OnDisplay(s) && Watched(s)
    requires
      || e.TransportConnecting? || e.TransportRegistering? || e.TransportSubscribed?
      || e.CommandAcknowledged? || e.MultiViewAcknowledged? || e.Shutdown?
    ensures var p := Decide(s, e, now, t); p.Propose? ==> Watched(p.draft.state)
  {
  }

  lemma DeviceWatched(s: State, e: Event, now: u64, t: Timing)
    requires Inv(s) && OnDisplay(s) && Watched(s) && !FromClient(e) && !e.Observation?
    ensures var p := Decide(s, e, now, t); p.Propose? ==> Watched(p.draft.state)
  {
    match e
    case TransportDisconnected(why) =>
      FallbackReleases(Draft(Transport(s, Disconnected, false), []), now, t, Given(why));
    case TransportSynchronized(mode, input, signals) => SynchronizedEnds(s, mode, input, signals, now, t);
    case CommandFailed(epoch, why) => FallbackReleases(Draft(s, []), now, t, Given(why));
    case SubscriptionObserved(mode, input) => NoticeWatched(s, mode, input, now, t);
    case Tick => TickWatched(s, now, t);
    case _ => PlainWatched(s, e, now, t);
  }

  // ---------------------------------------------------------------- the watch, exactly

  lemma CreatedWatchIff(step: Step, t: Timing)
    requires IsStep(step, t) && Inv(step.pre) && OnDisplay(step.pre) && Watched(step.pre) && step.event.CreateEnter?
    ensures Watched(step.post) <==> !StopsWatch(step.pre, step.event, step.now)
  {
    StepOutcome(step, t);
    StepFromPlan(step, t);
    CreateWatchIff(step.pre, step.event, step.now, t);
  }

  lemma OtherReadingWatchIff(step: Step, t: Timing)
    requires IsStep(step, t) && Inv(step.pre) && OnDisplay(step.pre) && Watched(step.pre)
    requires OtherReading(step.pre, step.event)
    ensures Watched(step.post) <==> !StopsWatch(step.pre, step.event, step.now)
  {
    StepOutcome(step, t);
    OtherReadingOutcome(step.pre, step.event, step.now, t);
  }

  lemma OnDisplayWatchIff(step: Step, t: Timing)
    requires IsStep(step, t) && Inv(step.pre) && OnDisplay(step.pre) && Watched(step.pre)
    ensures Watched(step.post) <==> !StopsWatch(step.pre, step.event, step.now)
  {
    var s, e, now := step.pre, step.event, step.now;
    if OtherReading(s, e) {
      OtherReadingWatchIff(step, t);
    } else if e.CreateEnter? {
      CreatedWatchIff(step, t);
    } else {
      StepFromPlan(step, t);
      if e.Observation? {
        OwnReadingWatched(s, e, now, t);
      } else if FromClient(e) {
        ClientWatched(s, e, now, t);
      } else {
        DeviceWatched(s, e, now, t);
      }
    }
  }

  /** The watch over a session on a display is kept by every step, if and only if it is neither a
      disarming reading nor a create that overlaps the session. */
  lemma WatchKeptIff(step: Step, t: Timing)
    requires IsStep(step, t) && Inv(step.pre) && Watched(step.pre)
    ensures Watched(step.post) <==> !StopsWatch(step.pre, step.event, step.now)
  {
    if OnDisplay(step.pre) {
      OnDisplayWatchIff(step, t);
    } else if step.event.Commit? {
      StepFromPlan(step, t);
      CommitWatched(step.pre, step.event, step.now, t);
    } else {
      NotOnDisplayKept(step, t);
    }
  }

  ghost predicate NoStop(run: seq<Step>) {
    forall i :: 0 <= i < |run| ==> !StopsWatch(run[i].pre, run[i].event, run[i].now)
  }

  /** In every run without such a step, a session on a display is watched at all times. */
  lemma {:induction false} WatchedThroughout(start: State, run: seq<Step>, t: Timing)
    requires IsRun(start, run, t) && Inv(start) && Watched(start) && NoStop(run)
    ensures Watched(End(start, run))
  {
    if run != [] {
      var front, last := run[..|run| - 1], run[|run| - 1];
      assert forall i :: 0 <= i < |front| ==> front[i] == run[i];
      WatchedThroughout(start, front, t);
      RunInv(start, front, t);
      WatchKeptIff(last, t);
    }
  }

  /** Every reading reports a signal for every routed host, as the television transport does. */
  ghost predicate FullReadings(run: seq<Step>, routed: set<Host>) {
    forall i :: 0 <= i < |run| ==> (run[i].event.Observation? ==> routed <= run[i].event.signals.Keys)
  }

  ghost predicate NoOverlap(run: seq<Step>) {
    forall i :: 0 <= i < |run| ==> !Overlaps(run[i].pre, run[i].event, run[i].now)
  }

  /** With full readings the first gap never opens: a session on a display is watched in every run in
      which no create overlaps a session. */
  lemma {:induction false} FullReadingsWatch(start: State, run: seq<Step>, t: Timing)
    requires IsRun(start, run, t) && Inv(start) && Watched(start)
    requires FullReadings(run, start.displayHosts) && NoOverlap(run)
    ensures Watched(End(start, run))
  {
    if run != [] {
      var front, last := run[..|run| - 1], run[|run| - 1];
      assert forall i :: 0 <= i < |front| ==> front[i] == run[i];
      FullReadingsWatch(start, front, t);
      RunInv(start, front, t);
      RunFenced(start, front, t);
      WatchKeptIff(last, t);
    }
  }

  // ---------------------------------------------------------------- what the watch is worth

  /** A watched session is asked about when its poll is due, and given up when the answer is overdue. */
  lemma WatchedTick(s: State, now: u64, t: Timing)
    requires Inv(s) && OnDisplay(s) && Watched(s) && !Lapsed(s, now)
    ensures Apply(s, Tick, now, t).Accepted?
    ensures Scheduled(s) && s.nextSignalPoll.value <= now ==>
      Apply(s, Tick, now, t).effects == [Observe(s.switchEpoch)]
    ensures Awaited(s) && s.phaseDeadline.value <= now ==> OwnersHome(Apply(s, Tick, now, t).next)
  {
    TickChecked(s, now, t);
    assert ExpireRequest(s, now, t) == Draft(s, []);
    if s.observationInFlight.Some? {
      SessionFailureReleases(Draft(s, []), now, t, VerificationTimeoutReason(s));
    }
  }

  /** Once disarmed, no tick before the lease runs out asks again or gives up. */
  lemma DisarmedTick(s: State, now: u64, t: Timing)
    requires Inv(s) && OnDisplay(s) && s.phase == RemoteOwned && !Lapsed(s, now)
    requires s.observationInFlight.Some? && s.phaseDeadline.None?
    ensures Apply(s, Tick, now, t) == Accepted(s, [])
  {
    TickChecked(s, now, t);
    assert OnTick(s, now, t) == Propose(Draft(s, []));
  }

  /** While a request is waking beside a live session and no reading is overdue, no tick does anything:
      it is accepted without effect, or refused once the wake time is over. */
  lemma WakingTick(s: State, now: u64, t: Timing)
    requires Inv(s) && s.activeSession.Some? && !Lapsed(s, now) && s.phase == Waking
    requires s.observationInFlight.None? || !Due(s.phaseDeadline, now)
    ensures Apply(s, Tick, now, t) ==
      if s.activeRequest.value.deadline <= now then Rejected(Invariant(ManualRecoveryWhileInputActive))
      else Accepted(s, [])
  {
    TickChecked(s, now, t);
    if s.activeRequest.value.deadline > now {
      assert OnTick(s, now, t) == Propose(Draft(s, []));
    }
  }
}
