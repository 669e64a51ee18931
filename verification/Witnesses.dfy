/** Concrete runs from start-up: remote ownership, and the situations in which the code gets stuck. */
module Witnesses {
  import opened Domain
  import opened Protocol
  import opened Invariant
  import opened Runs
  import opened Epochs
  import opened Progress
  import opened Sessions
  import opened Watching

  const T := Timing(100, 100, 100, 500, 900, 100)

  const LEASE := LeaseIdentity("lease", 1, 7, 200)

  const START := InitialState(Controller, 8, ALL_HOSTS)

  /** Synchronized on the server's own input. */
  const SYNCED := START.(
    wsState := Connected, subscribeActive := true, synchronized := true, phase := Idle,
    tvMode := Fullscreen, observedInput := Some(Controller), verifiedEpoch := Some(0),
    inputSignal := START.inputSignal[Controller := SignalObservation(true, 0, 1)],
    fallbackRequired := false, fallbackReason := None)

  const READY := SYNCED.(peers := SYNCED.peers[Right := PeerReadiness(true, true, true, 7, 2)])

  const REQUEST :=
    EnterRequest("request", "hub", Right, 1, LEASE, StSwitching, Some(1), None, 203, None)

  const SWITCHING := READY.(
    requestEpoch := 1, switchEpoch := 1, phase := Switching, phaseDeadline := Some(103),
    commandedInput := Some(Right), activeRequest := Some(REQUEST))

  const VERIFYING := SWITCHING.(
    phase := Verifying, observationInFlight := Some(1), phaseDeadline := Some(104))

  const GRANTED := VERIFYING.(
    observationInFlight := None, observedInput := Some(Right),
    inputSignal := VERIFYING.inputSignal[Right := SignalObservation(true, 1, 5)],
    grantEpoch := 1, verifiedEpoch := Some(1), phase := GrantPending, phaseDeadline := Some(105),
    switchCount := Counters(0, 1, 0),
    activeRequest := Some(REQUEST.(status := StGrant, deadline := 105, grant := Some(GrantIdentity(1, 1, 105)))))

  const OWNED := GRANTED.(
    activeRequest := None, phase := RemoteOwned, phaseDeadline := None, nextSignalPoll := Some(106),
    keyboardOwner := Right, pointerOwner := Right,
    activeSession := Some(ActiveSession("request", Right, 1, 1, LEASE.(expiresAt := 906), 906)),
    history := [REQUEST.(
      status := StCommitted, deadline := 105, grant := Some(GrantIdentity(1, 1, 105)),
      lease := LEASE.(expiresAt := 906))])

  const POLLED := OWNED.(
    observationInFlight := Some(1), nextSignalPoll := None, phaseDeadline := Some(206))

  const UNWATCHED := POLLED.(phaseDeadline := None, nextSignalPoll := Some(207))

  const SYNC := Step(START, TransportSynchronized(Fullscreen, Some(Controller), map[Controller := true]), 1, SYNCED, [])

  const READINESS := Step(SYNCED, PeerReadinessUpdated(Right, PeerReadiness(true, true, true, 7, 2)), 2, READY, [])

  const CREATE := Step(READY, CreateEnter("request", "hub", Right, LEASE), 3, SWITCHING, [SetInput(Right, 1, false)])

  const ACKNOWLEDGE := Step(SWITCHING, CommandAcknowledged(1, Right), 4, VERIFYING, [Observe(1)])

  const OBSERVE := Step(VERIFYING, Observation(1, Fullscreen, Some(Right), map[Right := true]), 5, GRANTED, [])

  const COMMIT := Step(GRANTED, Commit("request", 1, 1, "lease", 1), 6, OWNED, [])

  const POLL := Step(OWNED, Tick, 106, POLLED, [Observe(1)])

  const STALE := Step(POLLED, Observation(0, Fullscreen, Some(Right), map[]), 107, UNWATCHED, [])

  const RUN: seq<Step> := [SYNC, READINESS, CREATE, ACKNOWLEDGE, OBSERVE, COMMIT, POLL, STALE]

  lemma SyncedStep()
    ensures IsStep(SYNC, T)
  {
    assert StoredSignals(START.inputSignal, 0, 1, map[Controller := true]) == SYNCED.inputSignal;
  }

  lemma ReadyStep()
    ensures IsStep(READINESS, T)
  {
  }

  lemma SwitchingStep()
    ensures IsStep(CREATE, T)
  {
  }

  lemma VerifyingStep()
    ensures IsStep(ACKNOWLEDGE, T)
  {
  }

  lemma GrantedDraft()
    ensures OnObservation(VERIFYING, 1, Fullscreen, Some(Right), map[Right := true], 5, T) == Draft(GRANTED, [])
  {
    assert StoredSignals(VERIFYING.inputSignal, 1, 5, map[Right := true]) == GRANTED.inputSignal;
  }

  lemma GrantedStep()
    ensures IsStep(OBSERVE, T)
  {
    GrantedDraft();
    ProposedIsStep(OBSERVE, T);
  }

  lemma OwnedStep()
    ensures IsStep(COMMIT, T)
  {
  }

  lemma PolledStep()
    ensures IsStep(POLL, T)
  {
  }

  lemma UnwatchedDraft()
    ensures OnObservation(POLLED, 0, Fullscreen, Some(Right), map[], 107, T) == Draft(UNWATCHED, [])
  {
    assert StoredSignals(POLLED.inputSignal, 0, 107, map[]) == POLLED.inputSignal;
  }

  lemma UnwatchedStep()
    ensures IsStep(STALE, T)
  {
    UnwatchedDraft();
    ProposedIsStep(STALE, T);
  }

  lemma StepOf(i: nat)
    requires i < 8
    ensures Continues(START, RUN, i, T) && PromptStep(RUN[i])
  {
    match i
    case 0 => SyncedStep();
    case 1 => ReadyStep();
    case 2 => SwitchingStep();
    case 3 => VerifyingStep();
    case 4 => GrantedStep();
    case 5 => OwnedStep();
    case 6 => PolledStep();
    case 7 => UnwatchedStep();
  }

  /** A run from start-up that the task can serve: it never puts an event before a due deadline. */
  ghost predicate Served(run: seq<Step>) {
    Initial(START) && IsRun(START, run, T) && Prompt(run)
  }

  lemma ServedRun(run: seq<Step>)
    requires forall i: nat :: i < |run| ==> Continues(START, run, i, T) && PromptStep(run[i])
    ensures Served(run) && Inv(End(START, run))
  {
    ContinuedIsRun(START, run, T);
    assert START == InitialState(Controller, 8, ALL_HOSTS);
    InitialInv(Controller, 8, ALL_HOSTS);
    RunInv(START, run, T);
  }

  /** The gap is reachable: eight events from start-up leave a session on a display with a reading
      under way and no time limit on it. */
  lemma GapReachable()
    ensures Served(RUN)
    ensures OnDisplay(End(START, RUN)) && !Watched(End(START, RUN))
  {
    forall i: nat | i < |RUN|
      ensures Continues(START, RUN, i, T) && PromptStep(RUN[i])
    {
      StepOf(i);
    }
    ServedRun(RUN);
  }

  // ---------------------------------------------------------------- a request beside the session

  const SECOND_LEASE := LeaseIdentity("second lease", 2, 3, 600)

  /** A second request wakes an offline host while the session lives on. */
  const WAKING := OWNED.(
    requestEpoch := 2, phase := Waking, phaseDeadline := Some(507),
    activeRequest := Some(
      EnterRequest("second", "hub", Left, 2, SECOND_LEASE, StWaking, None, None, 507, None)))

  const OVERLAP := Step(OWNED, CreateEnter("second", "hub", Left, SECOND_LEASE), 7, WAKING, [Wake(Left, 2)])

  const OWNED_RUN: seq<Step> := [SYNC, READINESS, CREATE, ACKNOWLEDGE, OBSERVE, COMMIT]

  const OVERLAP_RUN: seq<Step> := OWNED_RUN + [OVERLAP]

  lemma WakingStep()
    ensures IsStep(OVERLAP, T)
  {
  }

  lemma OwnedThen(last: Step)
    requires IsStep(last, T) && last.pre == OWNED && last.now == 7 && last.event != Tick
    ensures Served(OWNED_RUN + [last]) && Inv(last.post)
  {
    var run := OWNED_RUN + [last];
    forall i: nat | i < |run|
      ensures Continues(START, run, i, T) && PromptStep(run[i])
    {
      if i < 6 {
        assert run[i] == RUN[i];
        StepOf(i);
      }
    }
    ServedRun(run);
  }

  /** Without any stale reading: a second client's create leaves a session on a display whose poll is due from
      106 on and never sent. Ticks do nothing until the wake time is over and are refused from then on, nothing
      else is taken, and only the end of the lease brings the input home. */
  lemma OverlapReachable(now: u64)
    requires 106 <= now
    ensures Served(OVERLAP_RUN)
    ensures var s := End(START, OVERLAP_RUN);
      && OnDisplay(s) && !Watched(s) && (TickIdles(s, now) <==> now < 906)
      && (now < 507 ==> Apply(s, Tick, now, T) == Accepted(s, []))
      && (507 <= now < 906 ==> Apply(s, Tick, now, T) == Rejected(Invariant(ManualRecoveryWhileInputActive)))
      && (906 <= now ==> Apply(s, Tick, now, T).Accepted? && OwnersHome(Apply(s, Tick, now, T).next))
  {
    WakingStep();
    OwnedThen(OVERLAP);
    if now < 906 {
      OverlapIdles(WAKING, now);
      WakingTick(WAKING, now, T);
    } else {
      TickChecked(WAKING, now, T);
    }
  }

  // ---------------------------------------------------------------- a shutdown under a session

  const SHUT := OnShutdown(OWNED)

  const SHUTDOWN := Step(OWNED, Shutdown, 7, SHUT, [])

  const SHUTDOWN_RUN: seq<Step> := OWNED_RUN + [SHUTDOWN]

  lemma ShutdownStep()
    ensures IsStep(SHUTDOWN, T)
  {
  }

  /** After a shutdown the task is never free again: its outstanding poll keeps ticks due and idle for ever. */
  lemma ShutdownReachable(now: u64)
    requires 106 <= now
    ensures Served(SHUTDOWN_RUN) && TickIdles(End(START, SHUTDOWN_RUN), now)
    ensures IdleEnd(End(START, SHUTDOWN_RUN), now).None?
  {
    ShutdownStep();
    OwnedThen(SHUTDOWN);
    OwnedInv();
    ShutdownIdles(OWNED, now);
  }

  lemma OwnedInv()
    ensures Inv(OWNED)
  {
    forall i: nat | i < |OWNED_RUN|
      ensures Continues(START, OWNED_RUN, i, T) && PromptStep(OWNED_RUN[i])
    {
      assert OWNED_RUN[i] == RUN[i];
      StepOf(i);
    }
    ServedRun(OWNED_RUN);
  }

  // ---------------------------------------------------------------- a switch that is not acknowledged in time

  const SWITCH_RUN: seq<Step> := [SYNC, READINESS, CREATE]

  /** A television that takes longer than the command time to acknowledge a switch: from then until the
      request runs out every tick is due and does nothing, so nothing else is ever chosen. */
  lemma StarvationReachable(now: u64)
    requires 103 <= now
    ensures Served(SWITCH_RUN)
    ensures TickIdles(End(START, SWITCH_RUN), now) <==> now < 203
    ensures now < 203 ==> LeavesAlone(End(START, SWITCH_RUN), Apply(End(START, SWITCH_RUN), Tick, now, T))
  {
    forall i: nat | i < |SWITCH_RUN|
      ensures Continues(START, SWITCH_RUN, i, T) && PromptStep(SWITCH_RUN[i])
    {
      assert SWITCH_RUN[i] == RUN[i];
      StepOf(i);
    }
    ServedRun(SWITCH_RUN);
    if now < 203 {
      SwitchingIdles(SWITCHING, now);
      IdleTick(SWITCHING, now, T);
    }
  }
}
