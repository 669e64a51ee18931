/** The hub's capture task: who is being fed input, and how a client is let go. */
module CaptureTask {
  import opened Domain
  import opened CaptureGate
  import opened LeaseManager
  import opened TwoKey

  datatype Captured = EdgeRetreated | Begin | Input(payload: nat)

  datatype Message = Enter | Forward(payload: nat) | KeyUp(key: nat) | ModifiersReset | Leave

  datatype Report =
    | Begun(handle: nat)
    | Retreated(handle: nat)
    | Candidate(handle: nat)
    | Denied(handle: nat, leaseEpoch: u64)
    | ClientReleased(handle: nat)

  /** What the world answers while one event is handled. */
  datatype World = World(
    now: nat, bindPressed: bool, enterOnly: bool, defaultHere: bool,
    authorized: bool, released: bool, connected: bool, held: set<nat>)

  function KeyUps(handle: nat, keys: seq<nat>): seq<(nat, Message)> {
    seq(|keys|, i requires 0 <= i < |keys| => (handle, KeyUp(keys[i])))
  }

  /** Every held key goes up, once each, before the modifiers are reset and the client is left. */
  ghost predicate Farewell(before: seq<(nat, Message)>, after: seq<(nat, Message)>, handle: nat, held: set<nat>) {
    exists keys: seq<nat> ::
      && |keys| == |held| && (forall k :: k in keys <==> k in held)
      && after == before + KeyUps(handle, keys) + [(handle, ModifiersReset), (handle, Leave)]
  }

  predicate Routed(event: Captured, w: World) {
    !event.EdgeRetreated? && !w.bindPressed && !w.enterOnly
  }

  /** Who is fed input, over which peer session, and the gate the task consults. */
  datatype Feed = Feed(active: Option<nat>, peer: Option<u64>, gate: Gate) {
    /** The event reaches for a client that is not being fed. */
    predicate Crosses(handle: nat, event: Captured, w: World) {
      Routed(event, w) && event.Begin? && active != Some(handle)
    }

    function Dropped(released: bool): Feed {
      Feed(None, if released && active.Some? then None else peer, gate)
    }

    function Crossed(handle: nat, w: World): Feed {
      var (rest, permit) := gate.Consume(handle, w.now);
      if permit.Some? && w.authorized then Feed(Some(handle), Some(permit.value.peerSessionEpoch), rest)
      else this.(gate := rest)
    }

    function Handled(handle: nat, event: Captured, w: World): Feed {
      if event.EdgeRetreated? then if active == Some(handle) then Dropped(w.released) else this
      else if w.bindPressed then Dropped(w.released)
      else if w.enterOnly then this
      else
        var reached := if Crosses(handle, event, w) then Crossed(handle, w) else this;
        if reached.active == Some(handle) && !w.connected then reached.Dropped(w.released) else reached
    }

    /** The handler asks the backend to give the local input back. */
    predicate GivesBack(handle: nat, event: Captured, w: World) {
      if event.EdgeRetreated? then active == Some(handle)
      else if w.bindPressed then true
      else if w.enterOnly then !w.defaultHere
      else
        var reached := if Crosses(handle, event, w) then Crossed(handle, w) else this;
        reached.active != Some(handle) || !w.connected
    }
  }

  function FeedOf(s: System): Feed {
    Feed(s.active, s.activePeer, s.hub.gate)
  }

  /** What the service looked at when it answered: the peer it saw, and when. */
  type Reply = (Option<Peer>, u64)

  /** The service's answer to the permit this crossing consumes, once it has taken all earlier reports; a
      dropped question is a no. */
  predicate Answers(s: System, handle: nat, w: World, reply: Option<Reply>, server: Host, horizon: nat) {
    var crossed := TwoKey.Crossed(s, handle, w.now, w.released);
    crossed.waiting.Some? ==>
      w.authorized ==
        (reply.Some?
         && Asked(Drained(crossed, server, horizon), reply.value.0, reply.value.1, true).answer == Some(true))
  }

  /** One captured event is a path of the two-key system's own acts: crossing, asking and settling, letting go.
      The backend outlives it exactly when it gave the local input back whenever it was asked to. */
  lemma EventIsActs(
    s: System, handle: nat, event: Captured, w: World, reply: Option<Reply>, server: Host, horizon: nat)
    returns (acts: seq<Act>, r: System)
    requires s.on && s.waiting.None?
    requires FeedOf(s).Crosses(handle, event, w) ==> Answers(s, handle, w, reply, server, horizon)
    ensures Path(s, acts, r, server, horizon) && r.waiting.None?
    ensures FeedOf(r) == FeedOf(s).Handled(handle, event, w)
    ensures r.on == (w.released || !FeedOf(s).GivesBack(handle, event, w))
    ensures KeysOk(s) ==> KeysOk(r)
  {
    acts, r := [], s;
    if FeedOf(s).Crosses(handle, event, w) {
      acts, r := CrossingIsActs(s, handle, w, reply, server, horizon);
    }
    var act := Ending(FeedOf(s), FeedOf(r), handle, event, w);
    if act.Some? && r.on {
      PathThen(s, acts, r, act.value, server, horizon);
      acts, r := acts + [act.value], After(r, act.value, server, horizon);
    }
    if KeysOk(s) {
      PathKeeps(s, acts, r, server, horizon);
    }
  }

  /** What the task does last: it lets the active client go, or only loses its backend. */
  function Ending(feed: Feed, reached: Feed, handle: nat, event: Captured, w: World): Option<Act> {
    var ends :=
      if event.EdgeRetreated? then feed.active == Some(handle)
      else w.bindPressed || (!w.enterOnly && reached.active == Some(handle) && !w.connected);
    if ends then Some(LetGo(w.released))
    else if feed.GivesBack(handle, event, w) && !w.released then Some(Lose)
    else None
  }

  lemma CrossingIsActs(
    s: System, handle: nat, w: World, reply: Option<Reply>, server: Host, horizon: nat)
    returns (acts: seq<Act>, r: System)
    requires s.on && s.waiting.None? && s.active != Some(handle) && Answers(s, handle, w, reply, server, horizon)
    ensures Path(s, acts, r, server, horizon) && r.waiting.None?
    ensures FeedOf(r) == FeedOf(s).Crossed(handle, w)
    ensures r.on == (w.released || r.active == Some(handle))
  {
    var cross := Cross(handle, w.now, w.released);
    var crossed := After(s, cross, server, horizon);
    assert Path(s, [], s, server, horizon);
    PathThen(s, [], s, cross, server, horizon);
    acts, r := [cross], crossed;
    if crossed.waiting.Some? {
      var rest;
      rest, r := AnswerIsActs(crossed, reply, w.authorized, w.released, server, horizon);
      PathJoin(s, acts, crossed, rest, r, server, horizon);
      acts := acts + rest;
    }
  }

  /** The service takes the earlier reports, answers or not, and the task goes on. */
  lemma AnswerIsActs(
    s: System, reply: Option<Reply>, yes: bool, released: bool, server: Host, horizon: nat)
    returns (acts: seq<Act>, r: System)
    requires s.on && s.waiting.Some? && s.answer.None? && s.hub.gate.armed.None?
    requires yes ==
      (reply.Some? && Asked(Drained(s, server, horizon), reply.value.0, reply.value.1, true).answer == Some(true))
    ensures Path(s, acts, r, server, horizon) && r.waiting.None?
    ensures FeedOf(r) == FeedOf(s).(
        active := if yes then Some(s.waiting.value.handle) else s.active,
        peer := if yes then Some(s.waiting.value.peerSessionEpoch) else s.activePeer)
    ensures r.on == (yes || released)
  {
    var drained := Drained(s, server, horizon);
    acts := DrainPath(s, server, horizon);
    r := drained;
    if reply.Some? {
      var ask := Ask(reply.value.0, reply.value.1, true);
      AskKeepsGate(drained, reply.value.0, reply.value.1);
      PathThen(s, acts, drained, ask, server, horizon);
      acts, r := acts + [ask], Asked(drained, reply.value.0, reply.value.1, true);
    }
    PathThen(s, acts, r, Settle(released), server, horizon);
    acts, r := acts + [Settle(released)], Settled(r, released);
  }

  /** With its permit spent, the service's answer finds nothing to withdraw. */
  lemma AskKeepsGate(s: System, peer: Option<Peer>, now: u64)
    requires s.waiting.Some? && s.hub.gate.armed.None?
    ensures var r := Asked(s, peer, now, true);
      r.hub.gate == s.hub.gate && r.on == s.on && r.waiting == s.waiting && r.reports == s.reports
      && r.active == s.active && r.activePeer == s.activePeer
  {
  }

  class CaptureTask {
    const gate: CaptureGate
    var active: Option<nat>
    var activePeer: Option<u64>
    var sending: bool
    var sent: seq<(nat, Message)>
    var reports: seq<Report>

    function View(): Feed
      reads this, gate
    {
      Feed(active, activePeer, gate.View())
    }

    constructor (gate: CaptureGate)
      ensures this.gate == gate && active == None && activePeer == None && !sending && sent == [] && reports == []
    {
      this.gate := gate;
      active, activePeer, sending, sent, reports := None, None, false, [], [];
    }

    /** Local input comes back before anything is sent; a client that was active is told last. */
    method ReleaseCapture(released: bool, held: set<nat>) returns (ok: bool)
      modifies this
      ensures ok == released && active == None && sending == old(sending)
      ensures !ok || old(active).None? ==> sent == old(sent) && reports == old(reports) && activePeer == old(activePeer)
      ensures ok && old(active).Some? ==>
        && activePeer == None && reports == old(reports) + [ClientReleased(old(active).value)]
        && Farewell(old(sent), sent, old(active).value, held)
    {
      var client := active;
      active := None;
      if !released {
        return false;
      }
      if client.Some? {
        activePeer := None;
        var keys, rest := [], held;
        while rest != {}
          invariant rest <= held && |keys| + |rest| == |held|
          invariant forall k :: k in keys <==> k in held && k !in rest
          invariant sent == old(sent) + KeyUps(client.value, keys)
          modifies this`sent
          decreases rest
        {
          var key :| key in rest;
          sent := sent + [(client.value, KeyUp(key))];
          keys, rest := keys + [key], rest - {key};
          assert sent == old(sent) + KeyUps(client.value, keys);
        }
        sent := sent + [(client.value, ModifiersReset), (client.value, Leave)];
        reports := reports + [ClientReleased(client.value)];
      }
      return true;
    }

    /** Only a Begin on an outgoing edge, an unexpired permit for that handle and the service's yes turn
        capture on; a permit is spent by asking. Input reaches the active client and no one else. */
    method HandleCaptureEvent(handle: nat, event: Captured, w: World) returns (ok: bool)
      modifies this, gate
      ensures active == Some(handle) && old(active) != Some(handle) ==>
        && Routed(event, w) && event.Begin? && w.authorized
        && old(gate.View()).Consume(handle, w.now).1.Some?
        && activePeer == Some(old(gate.View()).Consume(handle, w.now).1.value.peerSessionEpoch)
      ensures View() == old(View()).Handled(handle, event, w)
      ensures ok == (w.released || !old(View()).GivesBack(handle, event, w))
      ensures old(sent) <= sent
      ensures forall i :: |old(sent)| <= i < |sent| && sent[i].1.Forward? ==>
        sent[i].0 == handle && old(active) == Some(handle) && event == Input(sent[i].1.payload) && old(sending)
      ensures (old(View()).Crosses(handle, event, w) && w.released
               && old(gate.View()).Consume(handle, w.now).1.None?) ==>
        active == old(active) && reports == old(reports) + [Begun(handle), Candidate(handle)]
    {
      if event.EdgeRetreated? {
        if active == Some(handle) {
          ok := ReleaseCapture(w.released, w.held);
        } else {
          reports := reports + [Retreated(handle)];
          ok := true;
        }
        return;
      }
      if w.bindPressed {
        ok := ReleaseCapture(w.released, w.held);
        return;
      }
      if event.Begin? {
        reports := reports + [Begun(handle)];
      }
      if w.enterOnly {
        return w.defaultHere || w.released;
      }
      if event.Begin? && active != Some(handle) {
        var permit := gate.Consume(handle, w.now);
        if permit.None? || !w.authorized {
          if w.released {
            reports := reports +
              [if permit.None? then Candidate(handle) else Denied(handle, permit.value.leaseEpoch)];
          }
          return w.released;
        }
        sending := false;
        active := Some(handle);
        activePeer := Some(permit.value.peerSessionEpoch);
      }
      if active != Some(handle) {
        return w.released;
      }
      if !w.connected {
        ok := ReleaseCapture(w.released, w.held);
        return;
      }
      sent := sent + [(handle, if event.Input? && sending then Forward(event.payload) else Enter)];
      return true;
    }
  }
}
