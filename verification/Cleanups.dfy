/** What becomes of a controller request whose lease the hub has given up: it is to be cancelled there, now
    or once the capture task lets go, and sometimes it is not. */
module Cleanups {
  import opened Domain
  import opened LeaseManager
  import opened CaptureGate
  import opened Hub
  import opened Outcomes

  predicate Pending(h: HubState, c: GateContext) {
    h.cleanup == Some(c)
  }

  predicate Cancelling(h: HubState, c: GateContext) {
    h.task.Some? && h.task.value.kind == CleanupTask(c)
  }

  /** The cancellation of `c` is waiting or under way. */
  predicate Owes(h: HubState, c: GateContext) {
    Pending(h, c) || Cancelling(h, c)
  }

  // ---------------------------------------------------------------- the guards

  /** The input fails the current lease. */
  predicate GivesUp(h: HubState, i: Input, server: Host) {
    match i
    case PreparedInput(epoch, context, grant, peer, now) => h.Running(epoch) && !Grantable(context, grant, peer, now)
    case CommittedInput(epoch, context, until, peer, now) =>
      h.Running(epoch) && !(context.target == server && until.Some?) && !Renewable(h, until, peer, now)
    case RenewedInput(epoch, _, until, peer, now) => h.Running(epoch) && !Renewable(h, until, peer, now)
    case PeerInput(handle, peer) => PeerLost(h, handle, peer)
    case DeadlineInput(now) => Due(h, now)
    case ConfigInput => !h.manager.state.Local?
    case _ => false
  }

  /** The capture task's question finds a lease and is refused, or its answer is not heard. */
  predicate Rebuffs(h: HubState, i: Input) {
    && i.CommitInput? && !h.manager.state.Local?
    && !(i.listening && Enterable(h, i.handle, i.leaseEpoch, i.peerEpoch, i.peer, i.now))
  }

  /** The current lease is the one under active capture. */
  predicate Captured(h: HubState) {
    && !h.manager.state.Local?
    && h.capturing == Some((h.manager.state.context.handle, h.manager.state.context.lease.leaseEpoch))
  }

  predicate CaptureEnds(i: Input) {
    i.ReleasedInput? || i.CommitDeniedInput?
  }

  /** Another lease takes the place of the pending one, or the release finds another task running. */
  predicate LosesPending(h: HubState, i: Input, c: GateContext, server: Host) {
    || Rebuffs(h, i)
    || (GivesUp(h, i, server) && Captured(h))
    || (CaptureEnds(i) && h.task.Some? && !Cancelling(h, c))
  }

  /** The task is cancelled for the sake of another lease. */
  predicate LosesRunning(h: HubState, i: Input, server: Host) {
    || Rebuffs(h, i)
    || GivesUp(h, i, server)
    || (i.ReleasedInput? && h.cleanup.None? && !h.manager.state.Local?)
    || (i.CommitDeniedInput? && h.cleanup.None? && Denies(h, i.handle, i.leaseEpoch))
  }

  /** The cancellation is done. */
  predicate Completes(h: HubState, i: Input, c: GateContext) {
    i.TaskDoneInput? && h.Running(i.epoch) && Cancelling(h, c)
  }

  predicate Keeps(h: HubState, i: Input, c: GateContext, server: Host) {
    || (Pending(h, c) && !LosesPending(h, i, c, server))
    || (Cancelling(h, c) && !LosesRunning(h, i, server) && !Completes(h, i, c))
  }

  // ---------------------------------------------------------------- one input

  /** The lease that `GivesUp` is about, as the input names it. */
  function Failed(h: HubState, i: Input): GateContext
    requires !h.manager.state.Local?
  {
    match i
    case PreparedInput(_, context, _, _, _) => context
    case CommittedInput(_, context, _, _, _) => context
    case RenewedInput(_, context, until, _, _) => if until.None? then h.manager.state.context else context
    case _ => h.manager.state.context
  }

  lemma GivenUp(h: HubState, i: Input, server: Host, horizon: nat)
    requires HubOk(h) && Genuine(h, i) && GivesUp(h, i, server)
    ensures !h.manager.state.Local? && h.Holds(Failed(h, i))
    ensures Surrendered(h, Failed(h, i), React(h, i, server, horizon))
  {
    match i
    case PreparedInput(epoch, context, grant, peer, now) =>
      PreparedOutcome(h, epoch, context, grant, peer, server, now, horizon);
    case CommittedInput(epoch, context, until, peer, now) =>
      CommittedOutcome(h, epoch, context, until, peer, server, now);
    case RenewedInput(epoch, context, until, peer, now) => RenewedOutcome(h, epoch, context, until, peer, now);
    case PeerInput(handle, peer) => PeerOutcome(h, handle, peer);
    case DeadlineInput(now) => DeadlineOutcome(h, now);
    case ConfigInput =>
  }

  /** A refused question leaves the lease's cleanup pending; an unheard answer asks for a release as well. */
  lemma Rebuffed(h: HubState, i: Input, server: Host, horizon: nat)
    requires HubOk(h) && Rebuffs(h, i)
    ensures var r, context := React(h, i, server, horizon), h.manager.state.context;
      && r.manager == h.manager.Released() && r.task == None && r.cleanup == Some(context)
      && (r.releasesSent == h.releasesSent + 1 || (r.releasesSent == h.releasesSent && r.capturing == h.capturing))
  {
    CommitOutcome(h, i.handle, i.leaseEpoch, i.peerEpoch, i.peer, i.now, i.listening);
  }

  /** Any other input leaves pending cleanups alone, and only its own completion ends a running one. */
  lemma Undisturbed(h: HubState, i: Input, c: GateContext, server: Host, horizon: nat)
    requires HubOk(h) && Genuine(h, i) && !GivesUp(h, i, server) && !Rebuffs(h, i) && !CaptureEnds(i)
    ensures var r := React(h, i, server, horizon);
      && r.cleanup == h.cleanup && r.releasesSent == h.releasesSent
      && (Cancelling(r, c) <==> Cancelling(h, c) && !Completes(h, i, c))
  {
    match i
    case CandidateInput(handle, target, requestId, leaseId, peer, now, ttl) =>
      CandidateOutcome(h, handle, target, requestId, leaseId, peer, now, ttl, server, horizon);
    case PreparedInput(epoch, context, grant, peer, now) =>
      PreparedOutcome(h, epoch, context, grant, peer, server, now, horizon);
    case CommitInput(handle, leaseEpoch, peerEpoch, peer, now, listening) =>
      CommitOutcome(h, handle, leaseEpoch, peerEpoch, peer, now, listening);
    case CommittedInput(epoch, context, until, peer, now) =>
      CommittedOutcome(h, epoch, context, until, peer, server, now);
    case RenewedInput(epoch, context, until, peer, now) => RenewedOutcome(h, epoch, context, until, peer, now);
    case PeerInput(handle, peer) => PeerOutcome(h, handle, peer);
    case DeadlineInput(now) => DeadlineOutcome(h, now);
    case _ =>
  }

  /** What is owed is still owed after an input, if and only if the input neither completes it nor loses it. */
  lemma OwesIff(h: HubState, i: Input, c: GateContext, server: Host, horizon: nat)
    requires HubOk(h) && Genuine(h, i) && Owes(h, c) && !h.Holds(c)
    ensures Owes(React(h, i, server, horizon), c) <==> Keeps(h, i, c, server)
  {
    if GivesUp(h, i, server) {
      GivenUp(h, i, server, horizon);
    } else if Rebuffs(h, i) {
      Rebuffed(h, i, server, horizon);
    } else if i.ReleasedInput? {
      ReleasedOutcome(h);
    } else if i.CommitDeniedInput? {
      DeniedOutcome(h, i.handle, i.leaseEpoch);
    } else {
      Undisturbed(h, i, c, server, horizon);
    }
  }

  /** A lease for another host that is no longer held is owed its cancellation. */
  lemma GivenUpIsOwed(h: HubState, i: Input, server: Host, horizon: nat)
    requires HubOk(h) && Genuine(h, i) && !h.manager.state.Local?
    requires h.manager.state.context.target != server
    ensures var r := React(h, i, server, horizon);
      || r.Holds(h.manager.state.context)
      || exists c: GateContext :: c.SameIdentity(h.manager.state.context) && Owes(r, c)
  {
    var r, current := React(h, i, server, horizon), h.manager.state.context;
    if GivesUp(h, i, server) {
      GivenUp(h, i, server, horizon);
      assert Failed(h, i).SameIdentity(current) && Owes(r, Failed(h, i));
    } else if Rebuffs(h, i) {
      Rebuffed(h, i, server, horizon);
      assert current.SameIdentity(current) && Owes(r, current);
    } else if i.ReleasedInput? {
      ReleasedOutcome(h);
      assert current.SameIdentity(current) && (r.Holds(current) || Owes(r, current));
    } else if i.CommitDeniedInput? {
      DeniedOutcome(h, i.handle, i.leaseEpoch);
      assert current.SameIdentity(current) && (r.Holds(current) || Owes(r, current));
    } else {
      Kept(h, i, server, horizon);
    }
  }

  lemma Kept(h: HubState, i: Input, server: Host, horizon: nat)
    requires HubOk(h) && Genuine(h, i) && !GivesUp(h, i, server) && !Rebuffs(h, i) && !CaptureEnds(i)
    requires !h.manager.state.Local? && h.manager.state.context.target != server
    ensures React(h, i, server, horizon).Holds(h.manager.state.context)
  {
    match i
    case CandidateInput(handle, target, requestId, leaseId, peer, now, ttl) =>
      CandidateOutcome(h, handle, target, requestId, leaseId, peer, now, ttl, server, horizon);
    case PreparedInput(epoch, context, grant, peer, now) =>
      PreparedOutcome(h, epoch, context, grant, peer, server, now, horizon);
    case CommitInput(handle, leaseEpoch, peerEpoch, peer, now, listening) =>
      CommitOutcome(h, handle, leaseEpoch, peerEpoch, peer, now, listening);
    case CommittedInput(epoch, context, until, peer, now) =>
      CommittedOutcome(h, epoch, context, until, peer, server, now);
    case RenewedInput(epoch, context, until, peer, now) => RenewedOutcome(h, epoch, context, until, peer, now);
    case PeerInput(handle, peer) => PeerOutcome(h, handle, peer);
    case DeadlineInput(now) => DeadlineOutcome(h, now);
    case _ =>
  }

  // ---------------------------------------------------------------- whole runs

  /** The lease was given up before any current one was reserved. */
  predicate Past(h: HubState, c: GateContext) {
    && c.lease.leaseEpoch <= h.manager.nextLeaseEpoch
    && (h.manager.Context().Some? ==> c.lease.leaseEpoch < h.manager.nextLeaseEpoch)
  }

  /** Only leases of the past are owed a cancellation, and no lease is for the server itself. */
  ghost predicate OwedPast(h: HubState, server: Host) {
    && (forall c :: Owes(h, c) ==> Past(h, c))
    && (h.manager.Context().Some? ==> h.manager.Context().value.target != server)
  }

  lemma ReactPast(h: HubState, i: Input, server: Host, horizon: nat)
    requires HubOk(h) && Genuine(h, i) && OwedPast(h, server)
    ensures OwedPast(React(h, i, server, horizon), server)
  {
    var r := React(h, i, server, horizon);
    if GivesUp(h, i, server) {
      GivenUp(h, i, server, horizon);
      forall c | Owes(r, c)
        ensures Past(r, c)
      {
        assert Owes(h, c) || c == Failed(h, i);
      }
    } else if Rebuffs(h, i) {
      Rebuffed(h, i, server, horizon);
    } else if CaptureEnds(i) {
      EndsPast(h, i, server, horizon);
    } else {
      forall c | Owes(r, c)
        ensures Owes(h, c)
      {
        Undisturbed(h, i, c, server, horizon);
      }
      NextLease(h, i, server, horizon);
    }
  }

  lemma EndsPast(h: HubState, i: Input, server: Host, horizon: nat)
    requires HubOk(h) && OwedPast(h, server) && CaptureEnds(i)
    ensures OwedPast(React(h, i, server, horizon), server)
  {
    var r := React(h, i, server, horizon);
    if i.ReleasedInput? {
      ReleasedOutcome(h);
    } else {
      DeniedOutcome(h, i.handle, i.leaseEpoch);
    }
    forall c | Owes(r, c)
      ensures Past(r, c)
    {
      assert Owes(h, c) || h.manager.Context() == Some(c);
    }
  }

  /** Unless it is given up, the lease stays what it is, or a candidate reserves one of the next epoch. */
  lemma NextLease(h: HubState, i: Input, server: Host, horizon: nat)
    requires HubOk(h) && Genuine(h, i) && !GivesUp(h, i, server) && !Rebuffs(h, i) && !CaptureEnds(i)
    requires h.manager.Context().Some? ==> h.manager.Context().value.target != server
    ensures var r := React(h, i, server, horizon).manager;
      if h.manager.Context().Some? then
        r.Holds(h.manager.Context().value) && r.nextLeaseEpoch == h.manager.nextLeaseEpoch
      else if r.Context().Some? then
        r.Context().value.target != server && r.nextLeaseEpoch == h.manager.nextLeaseEpoch + 1
      else r == h.manager
  {
    ReactOk(h, i, server, horizon);
    if h.manager.Context().Some? {
      Kept(h, i, server, horizon);
    }
  }

  lemma {:induction false} RunPast(states: seq<HubState>, inputs: seq<Input>, server: Host, horizon: nat, n: nat)
    requires IsHubRun(states, inputs, server, horizon) && n < |states|
    ensures OwedPast(states[n], server)
  {
    if n > 0 {
      RunPast(states, inputs, server, horizon, n - 1);
      HubRunOk(states, inputs, server, horizon, n - 1);
      assert HubNext(states, inputs, n - 1, server, horizon);
      ReactPast(states[n - 1], inputs[n - 1], server, horizon);
    }
  }

  /** In every run, every lease that is given up is owed its cancellation, and what is owed stays owed by an
      input if and only if the input neither completes nor loses it. */
  lemma CleanupKeptIff(states: seq<HubState>, inputs: seq<Input>, server: Host, horizon: nat, n: nat, c: GateContext)
    requires IsHubRun(states, inputs, server, horizon) && n < |inputs|
    ensures states[n].Holds(c) && !states[n + 1].Holds(c) ==>
      exists d: GateContext :: d.SameIdentity(c) && Owes(states[n + 1], d)
    ensures Owes(states[n], c) ==> (Owes(states[n + 1], c) <==> Keeps(states[n], inputs[n], c, server))
  {
    RunPast(states, inputs, server, horizon, n);
    HubRunOk(states, inputs, server, horizon, n);
    assert HubNext(states, inputs, n, server, horizon);
    if states[n].Holds(c) {
      GivenUpIsOwed(states[n], inputs[n], server, horizon);
      if d: GateContext :| d.SameIdentity(states[n].manager.state.context) && Owes(states[n + 1], d) {
        assert d.SameIdentity(c);
      }
    }
    if Owes(states[n], c) {
      OwesIff(states[n], inputs[n], c, server, horizon);
    }
  }

  /** Over a whole run: a cancellation that is no longer owed was completed or lost at some step. */
  lemma {:induction false} CleanupEnds(
    states: seq<HubState>, inputs: seq<Input>, server: Host, horizon: nat, m: nat, n: nat, c: GateContext)
    requires IsHubRun(states, inputs, server, horizon) && m <= n < |states|
    requires Owes(states[m], c) && !Owes(states[n], c)
    ensures exists k :: m <= k < n && Owes(states[k], c) && !Keeps(states[k], inputs[k], c, server)
  {
    CleanupKeptIff(states, inputs, server, horizon, n - 1, c);
    if !Owes(states[n - 1], c) {
      CleanupEnds(states, inputs, server, horizon, m, n - 1, c);
    }
  }

  // ---------------------------------------------------------------- three ways to lose one

  const PEER := Some(Peer(true, 1))
  const GRANT := BundleGrant(1, 1, 100)
  const FIRST := GateContext(1, Left, BundleLease("a", "first", 1, 1, 100))
  const SECOND := GateContext(2, Left, BundleLease("b", "second", 2, 1, 103))

  /** A lease is entered, its peer disappears, and another candidate comes before the capture task lets go. */
  const OPENING: seq<Input> := [
    CandidateInput(1, Left, "a", "first", PEER, 0, 100),
    PreparedInput(1, FIRST, Some(Prepared(GRANT, 100)), PEER, 1),
    CommitInput(1, 1, 1, PEER, 2, true),
    PeerInput(1, None),
    CandidateInput(2, Left, "b", "second", PEER, 3, 100)
  ]
  const PREPARED := PreparedInput(3, SECOND, Some(Prepared(GRANT, 100)), PEER, 4)
  const FORGETTING: seq<Input> := OPENING + [ReleasedInput]
  const OVERWRITING: seq<Input> := OPENING + [PREPARED, CommitInput(2, 2, 1, None, 5, true)]
  const ABORTING: seq<Input> := OPENING + [PREPARED, ReleasedInput, PeerInput(2, None)]

  const ARMED := HubState(
    Manager(GrantArmed(FIRST, GRANT), 1), Gate(Some(Permit(1, 1, 1, 100)), 1), None, 1, Some(100), None, None, 0)
  const LOST := HubState(Manager(Local, 1), Gate(None, 1), None, 2, None, Some((1, 1)), Some(FIRST), 1)
  const RESERVED := HubState(
    Manager(Preparing(SECOND), 2), Gate(None, 1), Some(Task(3, PrepareTask(SECOND))), 3, Some(103),
    Some((1, 1)), Some(FIRST), 1)
  const REARMED := HubState(
    Manager(GrantArmed(SECOND.Until(100), GRANT), 2), Gate(Some(Permit(2, 2, 1, 100)), 2), None, 3, Some(100),
    Some((1, 1)), Some(FIRST), 1)

  /** The first five inputs, in states that are named. */
  ghost predicate Opened(states: seq<HubState>, server: Host, horizon: nat) {
    && |states| == 6 && IsHubRun(states, OPENING, server, horizon)
    && states[5] == RESERVED && Owes(RESERVED, FIRST)
  }

  lemma Arming(server: Host, horizon: nat) returns (s: HubState)
    requires server != Left && 100 <= horizon
    ensures s == React(INITIAL_HUB, OPENING[0], server, horizon) && Genuine(s, OPENING[1])
    ensures React(s, OPENING[1], server, horizon) == ARMED
  {
    s := React(INITIAL_HUB, OPENING[0], server, horizon);
    assert s == HubState(
      Manager(Preparing(FIRST), 1), Gate(None, 0), Some(Task(1, PrepareTask(FIRST))), 1, Some(100), None, None, 0);
  }

  lemma Losing(server: Host, horizon: nat) returns (s: HubState)
    ensures s == React(ARMED, OPENING[2], server, horizon) && React(s, OPENING[3], server, horizon) == LOST
  {
    s := React(ARMED, OPENING[2], server, horizon);
    assert s == ARMED.(
      manager := Manager(GateState.RemoteOwned(FIRST, GRANT, 100), 1), nextTask := 2,
      task := Some(Task(2, CommitTask(FIRST))), capturing := Some((1, 1)));
  }

  lemma OpeningRun(server: Host, horizon: nat) returns (states: seq<HubState>)
    requires server != Left && 100 <= horizon
    ensures Opened(states, server, horizon)
  {
    var s1 := Arming(server, horizon);
    var s3 := Losing(server, horizon);
    assert React(LOST, OPENING[4], server, horizon) == RESERVED;
    states := [INITIAL_HUB, s1, ARMED, s3, LOST, RESERVED];
  }

  lemma RunThen(states: seq<HubState>, inputs: seq<Input>, i: Input, r: HubState, server: Host, horizon: nat)
    requires IsHubRun(states, inputs, server, horizon) && Genuine(states[|inputs|], i)
    requires r == React(states[|inputs|], i, server, horizon)
    ensures IsHubRun(states + [r], inputs + [i], server, horizon)
  {
    forall k | 0 <= k < |inputs| + 1
      ensures HubNext(states + [r], inputs + [i], k, server, horizon)
    {
      assert k < |inputs| ==> HubNext(states, inputs, k, server, horizon);
    }
  }

  /** Forgotten: the release finds the second preparation running, and nothing is left of the first cleanup. */
  lemma CleanupForgotten(server: Host, horizon: nat) returns (states: seq<HubState>)
    requires server != Left && 100 <= horizon
    ensures IsHubRun(states, FORGETTING, server, horizon)
    ensures Owes(states[5], FIRST) && LosesPending(states[5], FORGETTING[5], FIRST, server) && !Owes(states[6], FIRST)
  {
    var begun := OpeningRun(server, horizon);
    var r := React(RESERVED, ReleasedInput, server, horizon);
    RunThen(begun, OPENING, ReleasedInput, r, server, horizon);
    states := begun + [r];
  }

  lemma Rearming(server: Host, horizon: nat) returns (states: seq<HubState>)
    requires server != Left && 100 <= horizon
    ensures |states| == 7 && IsHubRun(states, OPENING + [PREPARED], server, horizon) && states[6] == REARMED
  {
    var begun := OpeningRun(server, horizon);
    assert React(RESERVED, PREPARED, server, horizon) == REARMED;
    RunThen(begun, OPENING, PREPARED, REARMED, server, horizon);
    states := begun + [REARMED];
  }

  /** Overwritten: the second lease is refused at the door and takes the first one's place. */
  lemma CleanupOverwritten(server: Host, horizon: nat) returns (states: seq<HubState>)
    requires server != Left && 100 <= horizon
    ensures IsHubRun(states, OVERWRITING, server, horizon)
    ensures Owes(states[6], FIRST) && Rebuffs(states[6], OVERWRITING[6]) && !Owes(states[7], FIRST)
  {
    var rearmed := Rearming(server, horizon);
    var refused := CommitInput(2, 2, 1, None, 5, true);
    var r := React(REARMED, refused, server, horizon);
    RunThen(rearmed, OPENING + [PREPARED], refused, r, server, horizon);
    assert OPENING + [PREPARED] + [refused] == OVERWRITING;
    states := rearmed + [r];
  }

  /** Aborted: the cleanup starts at the release, and is cancelled when the second lease fails. */
  lemma CleanupAborted(server: Host, horizon: nat) returns (states: seq<HubState>)
    requires server != Left && 100 <= horizon
    ensures IsHubRun(states, ABORTING, server, horizon)
    ensures Cancelling(states[7], FIRST) && LosesRunning(states[7], ABORTING[7], server) && !Owes(states[8], FIRST)
  {
    var rearmed := Rearming(server, horizon);
    var started := REARMED.(
      capturing := None, cleanup := None, nextTask := 4, task := Some(Task(4, CleanupTask(FIRST))));
    assert React(REARMED, ReleasedInput, server, horizon) == started;
    RunThen(rearmed, OPENING + [PREPARED], ReleasedInput, started, server, horizon);
    var gone := PeerInput(2, None);
    var r := React(started, gone, server, horizon);
    RunThen(rearmed + [started], OPENING + [PREPARED] + [ReleasedInput], gone, r, server, horizon);
    assert OPENING + [PREPARED] + [ReleasedInput] + [gone] == ABORTING;
    states := rearmed + [started] + [r];
  }
}
