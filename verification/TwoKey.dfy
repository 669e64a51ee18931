/** Input capture turns on only with two keys: the capture gate's permit and the lease manager's commit. */
module TwoKey {
  import opened Domain
  import opened LeaseManager
  import opened CaptureGate
  import opened Hub

  /** What happened so far, in order. */
  datatype Mark =
    | Consumed(permit: Permit, at: nat)
    | Owned(handle: nat, leaseEpoch: u64, peerSessionEpoch: u64)
    | Activated(handle: nat, leaseEpoch: u64, peerSessionEpoch: u64)

  /** What the capture task tells the service, which takes one report after the other. */
  datatype TaskReport = ReleasedReport(handle: nat) | DeniedReport(handle: nat, leaseEpoch: u64) | DisabledReport

  /** What the service asks of the capture task, in order. */
  datatype Request = Release | Destroy(handle: nat)

  /** The hub service and its capture task, which waits for an answer after consuming a permit.
      `on` says that the capture backend runs. Two fields only keep score: `lease`, the lease epoch under which
      the active client was activated, and `stale`, that the backend was lost since. */
  datatype System = System(
    hub: HubState, on: bool, active: Option<nat>, activePeer: Option<u64>, lease: Option<u64>, stale: bool,
    waiting: Option<Permit>, answer: Option<bool>,
    reports: seq<TaskReport>, requests: seq<Request>, log: seq<Mark>)

  const INITIAL_SYSTEM := System(INITIAL_HUB, false, None, None, None, false, None, None, [], [], [])

  /** `released` says whether the backend gave the local input back when the act asks it to. */
  datatype Act =
    | Cross(handle: nat, at: nat, released: bool)
    | Ask(peer: Option<Peer>, now: u64, listening: bool)
    | Settle(released: bool)
    | LetGo(released: bool)
    | ReadRequest(released: bool)
    | Lose
    | Enable
    | TakeReport
    | RequestRelease
    | RequestDestroy(handle: nat)
    | Serve(input: Input)

  /** While the capture task waits it does nothing else, and its question is last in the line of its reports. */
  predicate Enabled(s: System, act: Act) {
    match act
    case Cross(handle, _, _) => s.on && s.waiting.None? && s.active != Some(handle)
    case Ask(_, _, _) => s.waiting.Some? && s.answer.None? && s.reports == []
    case Settle(_) => s.waiting.Some?
    case LetGo(_) => s.on && s.waiting.None?
    case ReadRequest(_) => s.waiting.None? && s.requests != []
    case Lose => s.on && s.waiting.None?
    case Enable => !s.on
    case TakeReport => s.reports != []
    case RequestRelease => true
    case RequestDestroy(_) => true
    case Serve(input) =>
      !input.CommitInput? && !input.ReleasedInput? && !input.CommitDeniedInput? && Genuine(s.hub, input)
  }

  function After(s: System, act: Act, server: Host, horizon: nat): System
    requires Enabled(s, act)
  {
    match act
    case Cross(handle, at, released) => Crossed(s, handle, at, released)
    case Ask(peer, now, listening) => Asked(s, peer, now, listening)
    case Settle(released) => Settled(s, released)
    case LetGo(released) => Freed(s, released)
    case ReadRequest(released) => Obeyed(s, released)
    case Lose => Lost(s)
    case Enable => s.(on := true)
    case TakeReport => Taken(s, server, horizon)
    case RequestRelease => s.(hub := s.hub.(gate := s.hub.gate.Clear()), requests := s.requests + [Release])
    case RequestDestroy(handle) => s.(requests := s.requests + [Destroy(handle)])
    case Serve(input) => Served(s, React(s.hub, input, server, horizon))
  }

  function Crossed(s: System, handle: nat, at: nat, released: bool): System {
    var (gate, permit) := s.hub.gate.Consume(handle, at);
    var crossed := s.(hub := s.hub.(gate := gate), waiting := permit, answer := None);
    if permit.Some? then crossed.(log := s.log + [Consumed(permit.value, at)])
    else if released then crossed
    else Lost(crossed)
  }

  /** The backend is gone; the active client is not forgotten. */
  function Lost(s: System): System {
    s.(on := false, stale := s.active.Some?, reports := s.reports + [DisabledReport])
  }

  /** The active client is forgotten first. It is reported when the local input is back. */
  function Freed(s: System, released: bool): System {
    var freed := s.(active := None, lease := None, stale := false);
    if !released then Lost(freed)
    else if s.active.None? then freed
    else freed.(activePeer := None, reports := s.reports + [ReleasedReport(s.active.value)])
  }

  /** A release request is obeyed while the backend runs; without it only the gate is cleared. */
  function Obeyed(s: System, released: bool): System
    requires s.requests != []
  {
    var read := s.(requests := s.requests[1..]);
    match s.requests[0]
    case Release =>
      var cleared := read.(hub := s.hub.(gate := s.hub.gate.Clear()));
      if s.on then Freed(cleared, released) else cleared
    case Destroy(handle) => read.(hub := s.hub.(gate := s.hub.gate.Remove(handle)))
  }

  /** The service's own requests to release go to the end of the line. */
  function Served(s: System, hub: HubState): System {
    s.(hub := hub, requests := if hub.releasesSent > s.hub.releasesSent then s.requests + [Release] else s.requests)
  }

  function ReportInput(report: TaskReport): Input {
    match report
    case DeniedReport(handle, leaseEpoch) => CommitDeniedInput(handle, leaseEpoch)
    case _ => ReleasedInput
  }

  function Taken(s: System, server: Host, horizon: nat): System
    requires s.reports != []
  {
    Served(s.(reports := s.reports[1..]), React(s.hub, ReportInput(s.reports[0]), server, horizon))
  }

  /** The capture task goes on with its answer, or without one when the service dropped it. */
  function Settled(s: System, released: bool): System
    requires s.waiting.Some?
  {
    var permit := s.waiting.value;
    var settled := s.(waiting := None, answer := None);
    if s.answer == Some(true) then
      settled.(
        active := Some(permit.handle),
        activePeer := Some(permit.peerSessionEpoch),
        lease := Some(permit.leaseEpoch),
        stale := false,
        log := s.log + [Activated(permit.handle, permit.leaseEpoch, permit.peerSessionEpoch)])
    else if released then settled.(reports := s.reports + [DeniedReport(permit.handle, permit.leaseEpoch)])
    else Lost(settled)
  }

  /** The service answers; the lease manager's own move to remote ownership is recorded. */
  function Asked(s: System, peer: Option<Peer>, now: u64, listening: bool): System
    requires s.waiting.Some?
  {
    var p := s.waiting.value;
    var moved := s.hub.Authorize(p.handle, p.leaseEpoch, p.peerSessionEpoch, peer, now).0.manager.state;
    var (hub, ok) := s.hub.CommitRequested(p.handle, p.leaseEpoch, p.peerSessionEpoch, peer, now, listening);
    Served(s, hub).(
      answer := Some(ok && listening),
      log :=
        if moved.RemoteOwned? && !s.hub.manager.state.RemoteOwned? then
          s.log + [Owned(moved.context.handle, moved.context.lease.leaseEpoch, moved.context.lease.peerSessionEpoch)]
        else s.log)
  }

  ghost predicate IsRun(states: seq<System>, server: Host, horizon: nat) {
    && states != [] && states[0] == INITIAL_SYSTEM
    && forall i :: 0 <= i < |states| - 1 ==> Next(states[i], states[i + 1], server, horizon)
  }

  ghost predicate Next(a: System, b: System, server: Host, horizon: nat) {
    exists act :: Enabled(a, act) && b == After(a, act, server, horizon)
  }

  /** The acts lead from `s` to `r`, one after the other. */
  predicate Path(s: System, acts: seq<Act>, r: System, server: Host, horizon: nat)
    decreases |acts|
  {
    if acts == [] then r == s
    else Enabled(s, acts[0]) && Path(After(s, acts[0], server, horizon), acts[1..], r, server, horizon)
  }

  // ---------------------------------------------------------------- both keys were turned

  predicate Triple(p: Permit, m: Mark)
    requires !m.Consumed?
  {
    p.handle == m.handle && p.leaseEpoch == m.leaseEpoch && p.peerSessionEpoch == m.peerSessionEpoch
  }

  /** An unexpired permit was consumed at `j`. */
  ghost predicate ConsumedAt(log: seq<Mark>, j: nat, p: Permit) {
    j < |log| && log[j].Consumed? && log[j].permit == p && log[j].at < p.expiresAt
  }

  ghost predicate BothKeys(log: seq<Mark>, n: nat, p: Permit) {
    exists j: nat, k: nat :: j < k < n && ConsumedAt(log, j, p) && k < |log| && log[k].Owned? && Triple(p, log[k])
  }

  /** The activation at `i` comes after both keys for its own lease epoch and peer session. */
  ghost predicate Earned(log: seq<Mark>, i: nat)
    requires i < |log|
  {
    log[i].Activated? ==> exists p: Permit :: Triple(p, log[i]) && BothKeys(log, i, p)
  }

  ghost predicate AllEarned(log: seq<Mark>) {
    forall i :: 0 <= i < |log| ==> Earned(log, i)
  }

  /** Activations carry strictly increasing lease epochs, all up to `bound`. */
  ghost predicate Rising(log: seq<Mark>, bound: int) {
    && (forall i :: 0 <= i < |log| && log[i].Activated? ==> log[i].leaseEpoch <= bound)
    && (forall i, j :: 0 <= i < j < |log| && log[i].Activated? && log[j].Activated? ==>
          log[i].leaseEpoch < log[j].leaseEpoch)
  }

  ghost predicate ActivatedAt(log: seq<Mark>, i: nat, handle: nat, lease: Option<u64>, peer: Option<u64>) {
    && i < |log| && log[i].Activated? && log[i].handle == handle
    && lease == Some(log[i].leaseEpoch) && peer == Some(log[i].peerSessionEpoch)
  }

  ghost predicate KeysOk(s: System) {
    && (s.active.Some? ==> exists i: nat :: ActivatedAt(s.log, i, s.active.value, s.lease, s.activePeer))
    && AllEarned(s.log)
    && (s.hub.gate.armed.Some? ==> s.hub.gate.armed.value.leaseEpoch == s.hub.gate.lastEpoch)
    && Rising(s.log, Spent(s))
    && (s.waiting.Some? ==>
          && s.waiting.value.leaseEpoch <= s.hub.gate.lastEpoch
          && (s.hub.gate.armed.Some? ==> s.waiting.value.leaseEpoch < s.hub.gate.lastEpoch)
          && (exists j: nat :: ConsumedAt(s.log, j, s.waiting.value))
          && (s.answer == Some(true) ==> BothKeys(s.log, |s.log|, s.waiting.value)))
  }

  /** Lease epochs up to here can no longer be activated for the first time. */
  function Spent(s: System): int {
    if s.waiting.Some? then s.waiting.value.leaseEpoch - 1
    else if s.hub.gate.armed.Some? then s.hub.gate.lastEpoch - 1
    else s.hub.gate.lastEpoch
  }

  // ---------------------------------------------------------------- every act keeps it

  /** Arming is the only way a handler puts a permit up, and each permit has a newer lease epoch. */
  ghost predicate GateMoved(g: Gate, r: Gate) {
    || r == g
    || (r.armed.None? && r.lastEpoch == g.lastEpoch)
    || (r.armed.Some? && r.armed.value.leaseEpoch == r.lastEpoch && g.lastEpoch < r.lastEpoch)
  }

  lemma PreparedGateMoved(
    h: HubState, epoch: nat, context: GateContext, result: Option<Prepared>, peer: Option<Peer>,
    server: Host, now: u64, horizon: nat)
    ensures GateMoved(h.gate, h.OnPrepared(epoch, context, result, peer, server, now, horizon).gate)
  {
  }

  lemma ReactGateMoved(h: HubState, i: Input, server: Host, horizon: nat)
    requires !i.CommitInput?
    ensures GateMoved(h.gate, React(h, i, server, horizon).gate)
  {
    match i
    case PreparedInput(epoch, context, grant, peer, now) =>
      PreparedGateMoved(h, epoch, context, grant, peer, server, now, horizon);
    case _ =>
  }

  /** The service says yes only by moving the lease manager to remote ownership of the permit's triple. */
  lemma YesMeansOwned(h: HubState, p: Permit, peer: Option<Peer>, now: u64, listening: bool)
    ensures var (r, ok) := h.CommitRequested(p.handle, p.leaseEpoch, p.peerSessionEpoch, peer, now, listening);
      r.gate == h.gate || (r.gate.armed.None? && r.gate.lastEpoch == h.gate.lastEpoch)
    ensures h.CommitRequested(p.handle, p.leaseEpoch, p.peerSessionEpoch, peer, now, listening).1 ==>
      var moved := h.Authorize(p.handle, p.leaseEpoch, p.peerSessionEpoch, peer, now).0.manager.state;
      && h.manager.state.GrantArmed? && moved.RemoteOwned?
      && now < h.manager.state.grant.expiresAt
      && moved.context.handle == p.handle && moved.context.lease.leaseEpoch == p.leaseEpoch
      && moved.context.lease.peerSessionEpoch == p.peerSessionEpoch
  {
  }

  lemma ExtendLog(s: System, log: seq<Mark>)
    requires AllEarned(s.log) && s.log <= log && |log| <= |s.log| + 1
    requires |log| > |s.log| ==> Earned(log, |s.log|)
    ensures AllEarned(log)
    ensures forall j: nat, p: Permit :: ConsumedAt(s.log, j, p) ==> ConsumedAt(log, j, p)
    ensures forall i: nat, h: nat, lease: Option<u64>, peer: Option<u64> ::
      ActivatedAt(s.log, i, h, lease, peer) ==> ActivatedAt(log, i, h, lease, peer)
    ensures forall n: nat, p: Permit :: n <= |s.log| && BothKeys(s.log, n, p) ==> BothKeys(log, n, p)
  {
    forall n: nat, p: Permit | n <= |s.log| && BothKeys(s.log, n, p)
      ensures BothKeys(log, n, p)
    {
      var j: nat, k: nat :|
        j < k < n && ConsumedAt(s.log, j, p) && k < |s.log| && s.log[k].Owned? && Triple(p, s.log[k]);
      assert ConsumedAt(log, j, p) && log[k].Owned? && Triple(p, log[k]);
    }
    forall i | 0 <= i < |log|
      ensures Earned(log, i)
    {
      if i < |s.log| {
        assert Earned(s.log, i);
      }
    }
  }

  /** Nothing but the gate and the end of a capture matters. */
  lemma GateKeeps(s: System, r: System)
    requires KeysOk(s) && r.log == s.log && r.waiting == s.waiting && r.answer == s.answer
    requires r.active.None? || (r.active == s.active && r.lease == s.lease && r.activePeer == s.activePeer)
    requires GateMoved(s.hub.gate, r.hub.gate)
    ensures KeysOk(r)
  {
  }

  lemma CrossKeeps(s: System, handle: nat, at: nat, released: bool)
    requires KeysOk(s) && s.waiting.None?
    ensures KeysOk(Crossed(s, handle, at, released))
  {
    var r := Crossed(s, handle, at, released);
    if r.waiting.None? {
      GateKeeps(s.(answer := None), r);
    } else {
      ExtendLog(s, r.log);
      assert ConsumedAt(r.log, |s.log|, r.waiting.value);
    }
  }

  lemma FreeKeeps(s: System, released: bool)
    requires KeysOk(s)
    ensures KeysOk(Freed(s, released))
  {
    GateKeeps(s, Freed(s, released));
  }

  lemma ObeyKeeps(s: System, released: bool)
    requires KeysOk(s) && s.requests != []
    ensures KeysOk(Obeyed(s, released))
  {
    ObeyMoves(s, released);
    GateKeeps(s, Obeyed(s, released));
  }

  lemma ObeyMoves(s: System, released: bool)
    requires s.requests != []
    ensures var r := Obeyed(s, released);
      && GateMoved(s.hub.gate, r.hub.gate) && r.log == s.log && r.waiting == s.waiting && r.answer == s.answer
      && (r.active.None? || (r.active == s.active && r.lease == s.lease && r.activePeer == s.activePeer))
  {
  }

  lemma ActKeeps(s: System, act: Act, server: Host, horizon: nat)
    requires KeysOk(s) && Enabled(s, act)
    ensures KeysOk(After(s, act, server, horizon))
  {
    match act
    case Cross(handle, at, released) => CrossKeeps(s, handle, at, released);
    case Ask(peer, now, listening) => AskKeeps(s, peer, now, listening);
    case Settle(released) => SettleKeeps(s, released);
    case LetGo(released) => FreeKeeps(s, released);
    case ReadRequest(released) => ObeyKeeps(s, released);
    case TakeReport =>
      ReactGateMoved(s.hub, ReportInput(s.reports[0]), server, horizon);
      GateKeeps(s, After(s, act, server, horizon));
    case Serve(input) =>
      ReactGateMoved(s.hub, input, server, horizon);
      GateKeeps(s, After(s, act, server, horizon));
    case _ => GateKeeps(s, After(s, act, server, horizon));
  }

  lemma AskKeeps(s: System, peer: Option<Peer>, now: u64, listening: bool)
    requires KeysOk(s) && s.waiting.Some? && s.answer.None?
    ensures KeysOk(Asked(s, peer, now, listening))
  {
    var p, r := s.waiting.value, Asked(s, peer, now, listening);
    YesMeansOwned(s.hub, p, peer, now, listening);
    ExtendLog(s, r.log);
    var j: nat :| ConsumedAt(s.log, j, p);
    assert ConsumedAt(r.log, j, p);
    if r.answer == Some(true) {
      assert r.log[|s.log|].Owned? && Triple(p, r.log[|s.log|]);
    }
  }

  lemma SettleKeeps(s: System, released: bool)
    requires KeysOk(s) && s.waiting.Some?
    ensures KeysOk(Settled(s, released))
  {
    var p, n, r := s.waiting.value, |s.log|, Settled(s, released);
    if s.answer == Some(true) {
      var j: nat, k: nat :| j < k < n && ConsumedAt(s.log, j, p) && s.log[k].Owned? && Triple(p, s.log[k]);
      assert ConsumedAt(r.log, j, p) && r.log[k].Owned? && Triple(p, r.log[k]);
      assert Triple(p, r.log[n]) && BothKeys(r.log, n, p);
      ExtendLog(s, r.log);
      assert ActivatedAt(r.log, n, p.handle, Some(p.leaseEpoch), Some(p.peerSessionEpoch));
    }
  }

  lemma {:induction false} RunKeeps(states: seq<System>, server: Host, horizon: nat, n: nat)
    requires IsRun(states, server, horizon) && n < |states|
    ensures KeysOk(states[n])
  {
    if n > 0 {
      RunKeeps(states, server, horizon, n - 1);
      assert Next(states[n - 1], states[n], server, horizon);
      var act :| Enabled(states[n - 1], act) && states[n] == After(states[n - 1], act, server, horizon);
      ActKeeps(states[n - 1], act, server, horizon);
    }
  }

  lemma {:induction false} PathKeeps(s: System, acts: seq<Act>, r: System, server: Host, horizon: nat)
    requires KeysOk(s) && Path(s, acts, r, server, horizon)
    ensures KeysOk(r)
    decreases |acts|
  {
    if acts != [] {
      ActKeeps(s, acts[0], server, horizon);
      PathKeeps(After(s, acts[0], server, horizon), acts[1..], r, server, horizon);
    }
  }

  lemma {:induction false} PathJoin(
    s: System, first: seq<Act>, m: System, second: seq<Act>, r: System, server: Host, horizon: nat)
    requires Path(s, first, m, server, horizon) && Path(m, second, r, server, horizon)
    ensures Path(s, first + second, r, server, horizon)
    decreases |first|
  {
    var all := first + second;
    if first == [] {
      assert all == second;
    } else {
      var next, rest := After(s, first[0], server, horizon), first[1..];
      PathJoin(next, rest, m, second, r, server, horizon);
      assert all[0] == first[0] && all[1..] == rest + second;
    }
  }

  lemma PathThen(s: System, acts: seq<Act>, r: System, act: Act, server: Host, horizon: nat)
    requires Path(s, acts, r, server, horizon) && Enabled(r, act)
    ensures Path(s, acts + [act], After(r, act, server, horizon), server, horizon)
  {
    assert Path(r, [act], After(r, act, server, horizon), server, horizon);
    PathJoin(s, acts, r, [act], After(r, act, server, horizon), server, horizon);
  }

  /** All reports taken, one after the other. */
  function Drained(s: System, server: Host, horizon: nat): (r: System)
    ensures r == s.(hub := r.hub, reports := [], requests := r.requests)
    decreases |s.reports|
  {
    if s.reports == [] then s else Drained(Taken(s, server, horizon), server, horizon)
  }

  lemma {:induction false} DrainPath(s: System, server: Host, horizon: nat) returns (acts: seq<Act>)
    ensures var r := Drained(s, server, horizon);
      Path(s, acts, r, server, horizon) && r.hub.gate == s.hub.gate
    decreases |s.reports|
  {
    if s.reports == [] {
      acts := [];
    } else {
      var rest := DrainPath(Taken(s, server, horizon), server, horizon);
      acts := [TakeReport] + rest;
      assert acts[1..] == rest;
    }
  }

  /** Two-key capture, over any run: every activation comes after an unexpired permit was consumed and
      then the lease manager took ownership, for the same handle, lease epoch and peer session; and
      activations have strictly increasing lease epochs, so none activates twice. */
  lemma TwoKeyCapture(states: seq<System>, server: Host, horizon: nat, n: nat, i: nat)
    requires IsRun(states, server, horizon) && n < |states| && i < |states[n].log| && states[n].log[i].Activated?
    ensures exists p: Permit :: Triple(p, states[n].log[i]) && BothKeys(states[n].log, i, p)
    ensures forall j :: 0 <= j < i && states[n].log[j].Activated? ==>
      states[n].log[j].leaseEpoch < states[n].log[i].leaseEpoch
  {
    RunKeeps(states, server, horizon, n);
    assert Earned(states[n].log, i);
  }

  /** Whenever capture is on, it was turned on by such an activation, for that client and peer session. */
  lemma ActiveWasActivated(states: seq<System>, server: Host, horizon: nat, n: nat)
    requires IsRun(states, server, horizon) && n < |states| && states[n].active.Some?
    ensures var s := states[n]; exists i: nat :: ActivatedAt(s.log, i, s.active.value, s.lease, s.activePeer)
  {
    RunKeeps(states, server, horizon, n);
  }
}
