/** Whenever input is captured for a client, the lease manager owns that client's lease or a release is on its
    way; the one exception is a capture backend that was lost under an active client and started again. */
module Backing {
  import opened Domain
  import opened LeaseManager
  import opened CaptureGate
  import opened Hub
  import opened Outcomes
  import opened Cleanups
  import opened TwoKey

  predicate ReleaseComing(s: System) {
    Release in s.requests
  }

  /** Capture is on: the backend runs and a client is active. */
  predicate Capturing(s: System) {
    s.on && s.active.Some?
  }

  /** The lease manager owns exactly this lease. */
  predicate Owns(h: HubState, handle: nat, lease: Option<u64>, peer: Option<u64>) {
    && h.manager.state.RemoteOwned? && h.manager.state.context.handle == handle
    && lease == Some(h.manager.state.context.lease.leaseEpoch)
    && peer == Some(h.manager.state.context.lease.peerSessionEpoch)
  }

  predicate Backed(s: System) {
    Capturing(s) ==> ReleaseComing(s) || Owns(s.hub, s.active.value, s.lease, s.activePeer)
  }

  // ---------------------------------------------------------------- the invariant

  /** Owned, and on record as the capture in progress. */
  predicate Held(h: HubState, handle: nat, lease: Option<u64>, peer: Option<u64>) {
    Owns(h, handle, lease, peer) && Captured(h)
  }

  /** An active client whose lease is held is waited for by nobody: all reports before it have been taken. */
  ghost predicate ActiveHeld(s: System) {
    Capturing(s) && !s.stale ==>
      || ReleaseComing(s)
      || (Held(s.hub, s.active.value, s.lease, s.activePeer) && s.reports == [] && s.waiting.None?)
  }

  ghost predicate AnswerHeld(s: System) {
    s.waiting.Some? && s.answer == Some(true) ==>
      || ReleaseComing(s)
      || (&& s.reports == []
          && var p := s.waiting.value;
          Held(s.hub, p.handle, Some(p.leaseEpoch), Some(p.peerSessionEpoch)))
  }

  ghost predicate BackingOk(s: System, server: Host) {
    && KeysOk(s) && HubOk(s.hub) && OwedPast(s.hub, server)
    && (!s.on ==> s.waiting.None? && (s.active.Some? ==> s.stale))
    && ActiveHeld(s) && AnswerHeld(s)
  }

  // ---------------------------------------------------------------- the service's side

  /** A lease that is owned and not given up stays owned, under the same capture. */
  lemma StaysOwned(h: HubState, i: Input, server: Host, horizon: nat)
    requires HubOk(h) && Genuine(h, i) && !GivesUp(h, i, server) && !i.CommitInput? && !CaptureEnds(i)
    requires h.manager.state.RemoteOwned? && h.manager.state.context.target != server
    ensures var r := React(h, i, server, horizon);
      r.manager.state.RemoteOwned? && r.Holds(h.manager.state.context) && r.capturing == h.capturing
  {
    match i
    case CandidateInput(handle, target, requestId, leaseId, peer, now, ttl) =>
      CandidateOutcome(h, handle, target, requestId, leaseId, peer, now, ttl, server, horizon);
    case PreparedInput(epoch, context, grant, peer, now) =>
      PreparedOutcome(h, epoch, context, grant, peer, server, now, horizon);
    case CommittedInput(epoch, context, until, peer, now) =>
      CommittedOutcome(h, epoch, context, until, peer, server, now);
    case RenewedInput(epoch, context, until, peer, now) => RenewedOutcome(h, epoch, context, until, peer, now);
    case PeerInput(handle, peer) => PeerOutcome(h, handle, peer);
    case DeadlineInput(now) => DeadlineOutcome(h, now);
    case _ =>
  }

  /** A held lease stays held, or the service asks the capture task to release. */
  lemma HeldOrReleased(
    h: HubState, i: Input, handle: nat, lease: Option<u64>, peer: Option<u64>, server: Host, horizon: nat)
    requires HubOk(h) && Genuine(h, i) && OwedPast(h, server) && !i.CommitInput? && !CaptureEnds(i)
    requires Held(h, handle, lease, peer)
    ensures var r := React(h, i, server, horizon);
      r.releasesSent > h.releasesSent || Held(r, handle, lease, peer)
  {
    if GivesUp(h, i, server) {
      GivenUp(h, i, server, horizon);
    } else {
      StaysOwned(h, i, server, horizon);
    }
  }

  lemma ServeKeeps(s: System, i: Input, server: Host, horizon: nat)
    requires BackingOk(s, server) && Enabled(s, Serve(i))
    ensures BackingOk(After(s, Serve(i), server, horizon), server)
  {
    var h, r := s.hub, After(s, Serve(i), server, horizon);
    ActKeeps(s, Serve(i), server, horizon);
    ReactOk(h, i, server, horizon);
    ReactPast(h, i, server, horizon);
    if Capturing(s) && Held(h, s.active.value, s.lease, s.activePeer) {
      HeldOrReleased(h, i, s.active.value, s.lease, s.activePeer, server, horizon);
    }
    if s.waiting.Some? {
      var p := s.waiting.value;
      if Held(h, p.handle, Some(p.leaseEpoch), Some(p.peerSessionEpoch)) {
        HeldOrReleased(h, i, p.handle, Some(p.leaseEpoch), Some(p.peerSessionEpoch), server, horizon);
      }
    }
  }

  /** A report that is still in line means that no held lease is at stake. */
  lemma TakeKeeps(s: System, server: Host, horizon: nat)
    requires BackingOk(s, server) && s.reports != []
    ensures BackingOk(After(s, TakeReport, server, horizon), server)
  {
    var i := ReportInput(s.reports[0]);
    ActKeeps(s, TakeReport, server, horizon);
    ReactOk(s.hub, i, server, horizon);
    ReactPast(s.hub, i, server, horizon);
  }

  lemma AskKeepsBacking(s: System, act: Act, server: Host, horizon: nat)
    requires BackingOk(s, server) && act.Ask? && Enabled(s, act)
    ensures BackingOk(After(s, act, server, horizon), server)
  {
    var p := s.waiting.value;
    var i := CommitInput(p.handle, p.leaseEpoch, p.peerSessionEpoch, act.peer, act.now, act.listening);
    ActKeeps(s, act, server, horizon);
    ReactOk(s.hub, i, server, horizon);
    ReactPast(s.hub, i, server, horizon);
    CommitOutcome(s.hub, p.handle, p.leaseEpoch, p.peerSessionEpoch, act.peer, act.now, act.listening);
  }

  // ---------------------------------------------------------------- the capture task's side

  /** Beside a held lease there is no permit to consume: it would be newer than the lease. */
  lemma NoPermitBesideHeld(s: System, server: Host)
    requires BackingOk(s, server) && s.waiting.None? && s.active.Some?
    requires Held(s.hub, s.active.value, s.lease, s.activePeer)
    ensures s.hub.gate.armed.None?
  {
    var i: nat :| ActivatedAt(s.log, i, s.active.value, s.lease, s.activePeer);
    assert s.log[i].leaseEpoch <= Spent(s);
  }

  lemma GateHubOk(h: HubState, r: HubState, server: Host)
    requires HubOk(h) && OwedPast(h, server) && r == h.(gate := r.gate)
    requires r.gate == h.gate || r.gate == h.gate.Clear()
    ensures HubOk(r) && OwedPast(r, server)
  {
    forall c | Owes(r, c)
      ensures Past(r, c)
    {
      assert Owes(h, c);
    }
  }

  lemma CrossKeepsBacking(s: System, handle: nat, at: nat, released: bool, server: Host)
    requires BackingOk(s, server) && Enabled(s, Cross(handle, at, released))
    ensures BackingOk(Crossed(s, handle, at, released), server)
  {
    var r := Crossed(s, handle, at, released);
    CrossKeeps(s, handle, at, released);
    GateHubOk(s.hub, r.hub, server);
    if s.active.Some? && Held(s.hub, s.active.value, s.lease, s.activePeer) {
      NoPermitBesideHeld(s, server);
    }
  }

  lemma SettleKeepsBacking(s: System, released: bool, server: Host)
    requires BackingOk(s, server) && s.waiting.Some?
    ensures BackingOk(Settled(s, released), server)
  {
    SettleKeeps(s, released);
  }

  lemma ObeyKeepsBacking(s: System, released: bool, server: Host)
    requires BackingOk(s, server) && Enabled(s, ReadRequest(released))
    ensures BackingOk(Obeyed(s, released), server)
  {
    ObeyKeeps(s, released);
    GateHubOk(s.hub, Obeyed(s, released).hub, server);
  }

  lemma TaskKeeps(s: System, act: Act, server: Host, horizon: nat)
    requires BackingOk(s, server) && Enabled(s, act)
    requires act.LetGo? || act.Lose? || act.Enable? || act.RequestRelease? || act.RequestDestroy?
    ensures BackingOk(After(s, act, server, horizon), server)
  {
    var r := After(s, act, server, horizon);
    ActKeeps(s, act, server, horizon);
    GateHubOk(s.hub, r.hub, server);
  }

  lemma ActKeepsBacking(s: System, act: Act, server: Host, horizon: nat)
    requires BackingOk(s, server) && Enabled(s, act)
    ensures BackingOk(After(s, act, server, horizon), server)
  {
    match act
    case Cross(handle, at, released) => CrossKeepsBacking(s, handle, at, released, server);
    case Ask(_, _, _) => AskKeepsBacking(s, act, server, horizon);
    case Settle(released) => SettleKeepsBacking(s, released, server);
    case ReadRequest(released) => ObeyKeepsBacking(s, released, server);
    case TakeReport => TakeKeeps(s, server, horizon);
    case Serve(input) => ServeKeeps(s, input, server, horizon);
    case _ => TaskKeeps(s, act, server, horizon);
  }

  lemma {:induction false} RunKeepsBacking(states: seq<System>, server: Host, horizon: nat, n: nat)
    requires IsRun(states, server, horizon) && n < |states|
    ensures BackingOk(states[n], server)
  {
    if n > 0 {
      RunKeepsBacking(states, server, horizon, n - 1);
      assert Next(states[n - 1], states[n], server, horizon);
      var act :| Enabled(states[n - 1], act) && states[n] == After(states[n - 1], act, server, horizon);
      ActKeepsBacking(states[n - 1], act, server, horizon);
    }
  }

  /** In every run: input is captured for a client only while the lease manager owns that client's lease, of
      the same lease epoch and peer session, or a release request is on its way to the capture task; unless
      the backend was lost under that client. */
  lemma CaptureBacked(states: seq<System>, server: Host, horizon: nat, n: nat)
    requires IsRun(states, server, horizon) && n < |states| && !states[n].stale
    ensures Backed(states[n])
  {
    RunKeepsBacking(states, server, horizon, n);
  }

  // ---------------------------------------------------------------- the exception

  /** Without a backend, requests are read and have no effect on the active client. */
  lemma {:induction false} ReadPath(s: System, server: Host, horizon: nat) returns (acts: seq<Act>, r: System)
    requires !s.on && s.waiting.None?
    ensures Path(s, acts, r, server, horizon)
    ensures r == s.(hub := s.hub.(gate := r.hub.gate), requests := [])
    decreases |s.requests|
  {
    if s.requests == [] {
      acts, r := [], s;
    } else {
      var rest;
      rest, r := ReadPath(Obeyed(s, true), server, horizon);
      acts := [ReadRequest(true)] + rest;
      assert acts[1..] == rest;
    }
  }

  lemma {:induction false} PathKeepsBacking(s: System, acts: seq<Act>, r: System, server: Host, horizon: nat)
    requires BackingOk(s, server) && Path(s, acts, r, server, horizon)
    ensures BackingOk(r, server)
    decreases |acts|
  {
    if acts != [] {
      ActKeepsBacking(s, acts[0], server, horizon);
      PathKeepsBacking(After(s, acts[0], server, horizon), acts[1..], r, server, horizon);
    }
  }

  /** The exception is real wherever it can arise: from every state of a run in which the backend was lost under
      an active client, the service gives the lease up, the backend starts again, and input is captured for the
      same client with no lease and no release on its way. */
  lemma LossUnbacks(states: seq<System>, server: Host, horizon: nat, n: nat) returns (acts: seq<Act>, r: System)
    requires IsRun(states, server, horizon) && n < |states| && !states[n].on && states[n].active.Some?
    ensures Path(states[n], acts, r, server, horizon)
    ensures r.active == states[n].active && Capturing(r) && !Backed(r) && r.hub.manager.state.Local?
  {
    var s := states[n];
    RunKeepsBacking(states, server, horizon, n);
    var taking := DrainPath(s, server, horizon);
    var drained := Drained(s, server, horizon);
    PathKeepsBacking(s, taking, drained, server, horizon);
    var late := Serve(DeadlineInput(U64_MAX));
    var expired := After(drained, late, server, horizon);
    DeadlineOutcome(drained.hub, U64_MAX);
    PathThen(s, taking, drained, late, server, horizon);
    var reading, read := ReadPath(expired, server, horizon);
    PathJoin(s, taking + [late], expired, reading, read, server, horizon);
    PathThen(s, taking + [late] + reading, read, Enable, server, horizon);
    acts, r := taking + [late] + reading + [Enable], After(read, Enable, server, horizon);
  }

  lemma RunOn(states: seq<System>, act: Act, r: System, server: Host, horizon: nat)
    requires IsRun(states, server, horizon) && Enabled(states[|states| - 1], act)
    requires r == After(states[|states| - 1], act, server, horizon)
    ensures IsRun(states + [r], server, horizon)
  {
    var longer := states + [r];
    forall i | 0 <= i < |longer| - 1
      ensures Next(longer[i], longer[i + 1], server, horizon)
    {
      assert i < |states| - 1 ==> Next(states[i], states[i + 1], server, horizon);
    }
  }

  lemma ArmedRun(server: Host, horizon: nat) returns (states: seq<System>)
    requires server != Left && 100 <= horizon
    ensures IsRun(states, server, horizon) && states[|states| - 1] == INITIAL_SYSTEM.(on := true, hub := ARMED)
  {
    var reserved := Arming(server, horizon);
    var s1 := INITIAL_SYSTEM.(on := true);
    states := [INITIAL_SYSTEM];
    RunOn(states, Enable, s1, server, horizon);
    states := states + [s1];
    RunOn(states, Serve(OPENING[0]), s1.(hub := reserved), server, horizon);
    states := states + [s1.(hub := reserved)];
    RunOn(states, Serve(OPENING[1]), s1.(hub := ARMED), server, horizon);
    states := states + [s1.(hub := ARMED)];
  }

  /** And it does arise: a client enters, and the backend ends under it. */
  lemma LossReachable(server: Host, horizon: nat) returns (states: seq<System>)
    requires server != Left && 100 <= horizon
    ensures IsRun(states, server, horizon)
    ensures var last := states[|states| - 1]; !last.on && last.active == Some(1)
  {
    states := ArmedRun(server, horizon);
    var crossed := Crossed(states[|states| - 1], 1, 2, true);
    RunOn(states, Cross(1, 2, true), crossed, server, horizon);
    var asked := Entering(crossed);
    RunOn(states + [crossed], Ask(PEER, 2, true), asked, server, horizon);
    var settled := Settled(asked, true);
    RunOn(states + [crossed] + [asked], Settle(true), settled, server, horizon);
    RunOn(states + [crossed] + [asked] + [settled], Lose, Lost(settled), server, horizon);
    states := states + [crossed] + [asked] + [settled] + [Lost(settled)];
  }

  lemma Entering(s: System) returns (r: System)
    requires s.hub == ARMED.(gate := ARMED.gate.Clear()) && s.waiting == Some(Permit(1, 1, 1, 100)) && s.active.None?
    ensures r == Asked(s, PEER, 2, true) && r.answer == Some(true)
    ensures r.waiting == s.waiting && r.active.None? && r.on == s.on
  {
    r := Asked(s, PEER, 2, true);
  }
}
