/** When a due tick moves the next deadline on, and when the task keeps choosing ticks in vain. */
module Progress {
  import opened Domain
  import opened Protocol
  import opened Invariant
  import opened Runs
  import opened Epochs
  import opened Sessions
  import opened Refusals
  import opened Deadlines

  /** The coordinator would choose a tick. */
  predicate TickDue(s: State, now: u64) {
    NextDeadline(s).Some? && NextDeadline(s).value <= now
  }

  lemma TickDueMeans(s: State, now: u64)
    ensures TickDue(s, now) <==>
      || Due(s.phaseDeadline, now) || Due(s.nextSignalPoll, now) || Lapsed(s, now)
      || RequestDue(s, now)
  {
  }

  /** A waking request has run out of time. */
  predicate WakeOver(s: State, now: u64) {
    RequestDue(s, now) && s.activeRequest.value.status == StWaking
  }

  /** The tick falls back and drops every deadline. */
  predicate TickFallsBack(s: State, now: u64) {
    || Lapsed(s, now)
    || (RequestDue(s, now) && !WakeOver(s, now))
    || (&& Due(s.phaseDeadline, now) && !WakeOver(s, now)
        && (s.observationInFlight.Some? || s.phase == Verifying || s.phase == MultiviewChanging))
  }

  predicate TickPolls(s: State, now: u64) {
    s.phase == RemoteOwned && s.observationInFlight.None? && Due(s.nextSignalPoll, now)
  }

  predicate TickRetriesFallback(s: State, now: u64) {
    (s.phase == FallbackCommandPending || s.phase == FallbackVerifying) && Due(s.phaseDeadline, now)
  }

  /** The tick leaves a deadline behind that is already due: it is refused, or it serves neither the
      signal poll nor the phase deadline that is due. */
  predicate TickStuck(s: State, now: u64) {
    || WakeExpiryBlocked(s, now)
    || (&& !TickFallsBack(s, now) && !TickPolls(s, now)
        && (|| Due(s.nextSignalPoll, now)
            || (Due(s.phaseDeadline, now) && !WakeOver(s, now) && !TickRetriesFallback(s, now))))
  }

  // ---------------------------------------------------------------- what a tick leaves behind

  /** A fallback leaves at most one deadline, and that one ahead. */
  lemma FallbackClears(d: Draft, now: u64, t: Timing, reason: Reason, restore: bool)
    requires t.commandMs > 0 && now < U64_MAX
    ensures !TickDue(BeginFallbackWithRestore(d, now, t, reason, restore).state, now)
  {
  }

  lemma BothClear(d: Draft, now: u64, t: Timing, reason: Reason)
    requires t.commandMs > 0 && now < U64_MAX
    ensures !TickDue(BeginFallback(d, now, t, reason).state, now)
    ensures !TickDue(BeginSessionFailureFallback(d, now, t, reason).state, now)
  {
    FallbackClears(d, now, t, reason, DisplayRestoreRequired(d.state));
    var x := OfferSessionTarget(d.state);
    FallbackClears(Draft(x, d.effects), now, t, reason, DisplayRestoreRequired(x));
  }

  /** What the tick's second half needs to know of the phase. */
  ghost predicate Phased(s: State) {
    && (s.phase == RemoteOwned ==> s.activeSession.Some? && s.activeRequest.None?)
    && (s.phase == FallbackCommandPending || s.phase == FallbackVerifying ==>
          s.activeRequest.None? && s.activeSession.None?)
    && (s.phase == FallbackDeferred ==> !s.DaemonHealthy())
  }

  lemma AfterExpiryProgress(d: Draft, now: u64, t: Timing)
    requires Phased(d.state) && !RequestDue(d.state, now)
    requires t.commandMs > 0 && t.observationMs > 0 && now < U64_MAX
    ensures var p := AfterExpiry(d, now, t);
      && p.Propose?
      && (TickDue(p.draft.state, now) <==>
            && !TickFallsBack(d.state, now) && !TickPolls(d.state, now)
            && (Due(d.state.nextSignalPoll, now)
                || (Due(d.state.phaseDeadline, now) && !TickRetriesFallback(d.state, now))))
  {
    var next := d.state;
    TickDueMeans(next, now);
    if Lapsed(next, now) {
      BothClear(d, now, t, ActiveLeaseExpired);
    } else if TickPolls(next, now) {
      TickDueMeans(RequestObservation(d, now, t, next.activeSession.value.switchEpoch).state, now);
    } else if next.observationInFlight.Some? && Due(next.phaseDeadline, now) {
      BothClear(d, now, t, VerificationTimeoutReason(next));
    } else if next.phase == Verifying && Due(next.phaseDeadline, now) {
      BothClear(d, now, t, VerificationTimeoutReason(next));
    } else if TickRetriesFallback(next, now) {
      TickDueMeans(IssueFallbackCommand(d, now, t).state, now);
    } else if next.phase == MultiviewChanging && Due(next.phaseDeadline, now) {
      BothClear(d, now, t, MultiviewTimeout);
    }
  }

  lemma FallbackPhased(d: Draft, now: u64, t: Timing, reason: Reason, restore: bool)
    ensures Phased(BeginFallbackWithRestore(d, now, t, reason, restore).state)
    ensures BeginFallbackWithRestore(d, now, t, reason, restore).state.activeRequest.None?
  {
  }

  /** Leaving aside the blocked wake-up, what a tick proposes leaves a due deadline exactly when it is stuck. */
  lemma TickLeavesDueIff(s: State, now: u64, t: Timing)
    requires Inv(s) && !WakeExpiryBlocked(s, now)
    requires t.commandMs > 0 && t.observationMs > 0 && now < U64_MAX
    ensures OnTick(s, now, t).Propose?
    ensures TickDue(OnTick(s, now, t).draft.state, now) <==> TickStuck(s, now)
  {
    if !RequestDue(s, now) {
      AfterExpiryProgress(Draft(s, []), now, t);
    } else if WakeOver(s, now) {
      var d := Draft(DropWaking(s, s.activeRequest.value, StExpired, RequestDeadline), []);
      assert d.state.phase == Idle && d.state.phaseDeadline.None? && d.state.activeRequest.None?;
      assert d.state.nextSignalPoll == s.nextSignalPoll && d.state.activeSession == s.activeSession;
      AfterExpiryProgress(d, now, t);
    } else {
      var dropped := Draft(DropRequest(s, s.activeRequest.value, StExpired, RequestDeadline), []);
      var d := BeginFallbackWithRestore(dropped, now, t, RequestDeadline, DisplayRestoreRequired(s));
      FallbackClears(dropped, now, t, RequestDeadline, DisplayRestoreRequired(s));
      FallbackPhased(dropped, now, t, RequestDeadline, DisplayRestoreRequired(s));
      TickDueMeans(d.state, now);
      AfterExpiryProgress(d, now, t);
    }
  }

  /** In every reachable state with a due deadline, a tick moves the next deadline ahead or removes it
      if and only if it is not stuck. */
  lemma TickProgressIff(s: State, now: u64, t: Timing)
    requires Reachable(s, t) && t.commandMs > 0 && t.observationMs > 0 && now < U64_MAX
    ensures var o := Apply(s, Tick, now, t);
      (o.Accepted? && !TickDue(o.next, now)) <==> !TickStuck(s, now)
  {
    ReachableInv(s, t);
    TickCarriedOut(s, now, t);
    if !WakeExpiryBlocked(s, now) {
      TickLeavesDueIff(s, now, t);
    }
  }

  // ---------------------------------------------------------------- ticks in vain

  /** The tick is due and does nothing at all. */
  predicate TickIdles(s: State, now: u64) {
    && TickDue(s, now) && TickStuck(s, now)
    && (WakeExpiryBlocked(s, now) || (!WakeOver(s, now) && !TickRetriesFallback(s, now)))
  }

  lemma IdleTick(s: State, now: u64, t: Timing)
    requires Inv(s) && TickIdles(s, now)
    ensures LeavesAlone(s, Apply(s, Tick, now, t))
  {
    TickPlanChecked(s, now, t);
    if !WakeExpiryBlocked(s, now) {
      assert ExpireRequest(s, now, t) == Draft(s, []);
      assert AfterExpiry(Draft(s, []), now, t) == Propose(Draft(s, []));
    }
  }

  /** From the command deadline of a switch until its request runs out, every tick idles: the code has
      no branch for it. */
  lemma SwitchingIdles(s: State, now: u64)
    requires Inv(s) && s.phase == Switching && s.activeSession.None? && s.observationInFlight.None?
    requires Due(s.phaseDeadline, now) && now < s.activeRequest.value.deadline
    ensures TickIdles(s, now)
  {
    TickDueMeans(s, now);
  }

  /** Every step at a due deadline is a tick, as the task arranges it. */
  ghost predicate Prompt(run: seq<Step>) {
    forall i :: 0 <= i < |run| ==> PromptStep(run[i])
  }

  predicate PromptStep(step: Step) {
    TickDue(step.pre, step.now) ==> step.event.Tick?
  }

  // ---------------------------------------------------------------- how long

  function SessionEnd(s: State): Option<u64> {
    if s.activeSession.Some? then
      Some(Min(s.activeSession.value.renewedUntil, s.activeSession.value.lease.expiresAt))
    else None
  }

  predicate WakesBesideSession(s: State) {
    s.activeSession.Some? && s.activeRequest.Some? && s.activeRequest.value.status == StWaking
  }

  /** A tick has a branch for the phase deadline. */
  predicate PhaseServed(s: State) {
    || s.observationInFlight.Some? || s.phase == Verifying || s.phase == MultiviewChanging
    || s.phase == FallbackCommandPending || s.phase == FallbackVerifying
  }

  /** When idling ends: with the session, with a request that is not waking beside one, or with a deadline that
      a tick does serve; or never. */
  function IdleEnd(s: State, now: u64): Option<u64> {
    if WakeExpiryBlocked(s, now) then SessionEnd(s)
    else
      EarlierOf(
        EarlierOf(
          SessionEnd(s),
          if s.activeRequest.Some? && !WakesBesideSession(s) then Some(s.activeRequest.value.deadline) else None),
        EarlierOf(
          if s.phase == RemoteOwned && s.observationInFlight.None? then s.nextSignalPoll else None,
          if !PhaseServed(s) || s.phaseDeadline.None? then None
          else if WakesBesideSession(s) && s.activeRequest.value.deadline <= s.phaseDeadline.value then None
          else s.phaseDeadline))
  }

  predicate Before(now: u64, end: Option<u64>) {
    end.Some? ==> now < end.value
  }

  /** Once ticks idle, they idle until exactly then. */
  lemma IdlesUntil(s: State, now: u64, later: u64)
    requires Inv(s) && TickIdles(s, now) && now <= later
    ensures Before(now, IdleEnd(s, now))
    ensures Before(later, IdleEnd(s, now)) ==> TickIdles(s, later)
    ensures IdleEnd(s, now) == Some(later) ==> !TickIdles(s, later)
  {
    TickDueMeans(s, now);
    TickDueMeans(s, later);
  }

  /** Beside a request that wakes another host, a session on a display whose poll is due is left to itself until
      its lease ends: no tick does anything, and no renewal is taken. */
  lemma OverlapIdles(s: State, now: u64)
    requires Inv(s) && OnDisplay(s) && s.phase == Waking && s.observationInFlight.None?
    requires Due(s.nextSignalPoll, now) && !Lapsed(s, now)
    ensures TickIdles(s, now) && IdleEnd(s, now) == SessionEnd(s)
  {
    TickDueMeans(s, now);
  }

  /** After a shutdown under a session, an outstanding poll keeps ticks due and idle for ever. */
  lemma ShutdownIdles(s: State, now: u64)
    requires Inv(s) && Due(s.nextSignalPoll, now)
    ensures TickIdles(OnShutdown(s), now) && IdleEnd(OnShutdown(s), now).None?
  {
    TickDueMeans(OnShutdown(s), now);
  }
}
