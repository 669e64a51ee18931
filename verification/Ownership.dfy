/** Hub and controller together: two clocks with any offset, messages with any delay, loss or reordering. */
module Ownership {
  import opened Domain
  import opened Protocol
  import opened Invariant
  import Runs
  import opened Refusals
  import opened Authority
  import opened Hub

  // ---------------------------------------------------------------- the hub's side

  /** The request and hub-clock deadline the hub lives by once it holds a grant. */
  function Owed(h: HubState): Option<(string, u64)> {
    if h.manager.state.GrantArmed? || h.manager.state.RemoteOwned? then
      Some((h.manager.state.context.lease.requestId, h.manager.Deadline().value))
    else None
  }

  /** A deadline is either kept or taken from the response the input carries. */
  ghost predicate OwedFrom(h: HubState, i: Input, r: HubState) {
    || Owed(r).None?
    || Owed(r) == Owed(h)
    || (&& i.PreparedInput? && i.grant.Some? && h.manager.Holds(i.context)
        && Owed(r).value.0 == i.context.lease.requestId
        && Owed(r).value.1 <= i.grant.value.grant.expiresAt)
    || (&& (i.CommittedInput? || i.RenewedInput?) && i.until.Some? && h.manager.Holds(i.context)
        && Owed(r).value == (i.context.lease.requestId, i.until.value))
  }

  /** The hub's lease is the one it had, if any. */
  ghost predicate SameLease(h: HubState, r: HubState) {
    r.manager.Context().Some? ==>
      && h.manager.Context().Some?
      && r.manager.Context().value.lease.requestId == h.manager.Context().value.lease.requestId
  }

  lemma PreparedOwes(h: HubState, i: Input, server: Host, horizon: nat)
    requires i.PreparedInput?
    ensures OwedFrom(h, i, h.OnPrepared(i.epoch, i.context, i.grant, i.peer, server, i.now, horizon))
    ensures SameLease(h, h.OnPrepared(i.epoch, i.context, i.grant, i.peer, server, i.now, horizon))
  {
  }

  lemma CommitOwes(h: HubState, i: Input)
    requires i.CommitInput?
    ensures OwedFrom(h, i, h.CommitRequested(i.handle, i.leaseEpoch, i.peerEpoch, i.peer, i.now, i.listening).0)
    ensures SameLease(h, h.CommitRequested(i.handle, i.leaseEpoch, i.peerEpoch, i.peer, i.now, i.listening).0)
  {
  }

  lemma CommittedOwes(h: HubState, i: Input, server: Host)
    requires i.CommittedInput?
    ensures OwedFrom(h, i, h.OnCommitted(i.epoch, i.context, i.until, i.peer, server, i.now))
    ensures SameLease(h, h.OnCommitted(i.epoch, i.context, i.until, i.peer, server, i.now))
  {
  }

  lemma RenewedOwes(h: HubState, i: Input)
    requires i.RenewedInput?
    ensures OwedFrom(h, i, h.OnRenewed(i.epoch, i.context, i.until, i.peer, i.now))
    ensures SameLease(h, h.OnRenewed(i.epoch, i.context, i.until, i.peer, i.now))
  {
  }

  lemma ReactOwes(h: HubState, i: Input, server: Host, horizon: nat)
    ensures OwedFrom(h, i, React(h, i, server, horizon))
    ensures var r := React(h, i, server, horizon);
      SameLease(h, r) || (i.CandidateInput? && r.manager.Context().value.lease.requestId == i.requestId)
  {
    match i
    case PreparedInput(_, _, _, _, _) => PreparedOwes(h, i, server, horizon);
    case CommitInput(_, _, _, _, _, _) => CommitOwes(h, i);
    case CommittedInput(_, _, _, _, _) => CommittedOwes(h, i, server);
    case RenewedInput(_, _, _, _, _) => RenewedOwes(h, i);
    case _ =>
  }

  /** A remote deadline in the hub's clock, counted from when the hub sent its request. */
  function LocalDeadline(startedAt: u64, serverNow: u64, remote: u64): (r: Option<u64>)
    ensures r.Some? <==> serverNow < remote && startedAt + remote - serverNow <= U64_MAX
    ensures r.Some? ==> startedAt < r.value && r.value - startedAt == remote - serverNow
  {
    if remote <= serverNow || startedAt + (remote - serverNow) > U64_MAX then None
    else Some(startedAt + (remote - serverNow))
  }

  // ---------------------------------------------------------------- the composed system

  /** An expiry the controller has put into a response body. */
  datatype Shown =
    | GrantShown(id: string, expires: u64)
    | LeaseShown(id: string, expires: u64)
    | RenewalShown(id: string, expires: u64)

  datatype Query = Query(id: string, startedAt: u64)

  /** The response as it leaves, stamped with the controller's clock. */
  datatype Reply = Reply(shown: Shown, startedAt: u64, serverNow: u64)

  /** `offset` is the hub's clock minus the controller's. `created` holds the ids of all create events, and
      `recreated` those of the hub's whose create came again after the controller had evicted them. */
  datatype World = World(
    ctrl: State, clock: u64, offset: int, hub: HubState, hubIds: set<string>, created: set<string>,
    recreated: set<string>, queries: set<Query>, shown: set<Shown>, replies: set<Reply>)

  ghost predicate Start(w: World) {
    && Runs.Initial(w.ctrl) && w.hub == INITIAL_HUB
    && w.hubIds == {} && w.created == {} && w.recreated == {} && w.queries == {} && w.shown == {} && w.replies == {}
  }

  /** A random id nobody has used before. */
  ghost predicate Fresh(w: World, id: string) {
    && id !in w.hubIds && id !in w.created && !Known(w.ctrl, id)
    && forall x :: x in w.shown ==> x.id != id
  }

  /** The result comes from a reply of the right kind for the same request. */
  ghost predicate Answered(w: World, r: Reply, id: string, local: u64) {
    r in w.replies && r.shown.id == id && LocalDeadline(r.startedAt, r.serverNow, r.shown.expires) == Some(local)
  }

  ghost predicate Allowed(w: World, i: Input) {
    match i
    case CandidateInput(_, _, id, _, _, now, _) => now == w.clock + w.offset && Fresh(w, id)
    case PreparedInput(_, context, grant, _, now) =>
      && now == w.clock + w.offset
      && (grant.Some? ==>
            exists r: Reply ::
              r.shown.GrantShown? && Answered(w, r, context.lease.requestId, grant.value.grant.expiresAt))
    case CommitInput(_, _, _, _, now, _) => now == w.clock + w.offset
    case CommittedInput(_, context, until, _, now) =>
      && now == w.clock + w.offset
      && (until.Some? ==>
            exists r: Reply :: r.shown.LeaseShown? && Answered(w, r, context.lease.requestId, until.value))
    case RenewedInput(_, context, until, _, now) =>
      && now == w.clock + w.offset
      && (until.Some? ==>
            exists r: Reply :: r.shown.RenewalShown? && Answered(w, r, context.lease.requestId, until.value))
    case DeadlineInput(now) => now == w.clock + w.offset
    case _ => true
  }

  ghost predicate Advance(w: World, v: World) {
    w.clock <= v.clock && v == w.(clock := v.clock)
  }

  ghost predicate HubActs(w: World, v: World, i: Input, server: Host, horizon: nat) {
    && Allowed(w, i)
    && v == w.(
         hub := React(w.hub, i, server, horizon),
         hubIds := if i.CandidateInput? then w.hubIds + {i.requestId} else w.hubIds)
  }

  ghost predicate HubSends(w: World, v: World, q: Query) {
    q.id in w.hubIds && q.startedAt == w.clock + w.offset && v == w.(queries := w.queries + {q})
  }

  /** Any event may reach the controller, a hub's create request also more than once. */
  ghost predicate ControllerActs(w: World, v: World, e: Event, effects: seq<Effect>, t: Timing) {
    && Runs.IsStep(Runs.Step(w.ctrl, e, w.clock, v.ctrl, effects), t)
    && LeaseCapped(e, w.clock, t)
    && v == w.(
         ctrl := v.ctrl,
         created := if e.CreateEnter? then w.created + {e.requestId} else w.created,
         recreated := if Recreates(w, e) then w.recreated + {e.requestId} else w.recreated,
         shown := w.shown + RenewalAnswer(w.ctrl, e, w.clock, t))
  }

  predicate Recreates(w: World, e: Event) {
    e.CreateEnter? && e.requestId in w.hubIds && e.requestId in w.created && w.ctrl.Request(e.requestId).None?
  }

  /** The renew endpoint reports whatever session is live after the event. */
  function RenewalAnswer(s: State, e: Event, now: u64, t: Timing): set<Shown> {
    var o := Apply(s, e, now, t);
    if e.Renew? && o.Accepted? && o.next.activeSession.Some? then
      {RenewalShown(e.requestId, o.next.activeSession.value.renewedUntil)}
    else {}
  }

  /** A response body is read off the current state; it may be sent much later. */
  ghost predicate ControllerShows(w: World, v: World, id: string) {
    && w.ctrl.Request(id).Some?
    && var r := w.ctrl.Request(id).value;
    || (r.status == StGrant && r.grant.Some?
        && v == w.(shown := w.shown + {GrantShown(id, r.grant.value.expiresAt)}))
    || (r.status == StCommitted && v == w.(shown := w.shown + {LeaseShown(id, r.lease.expiresAt)}))
  }

  ghost predicate ControllerReplies(w: World, v: World, x: Shown, q: Query) {
    && x in w.shown && q in w.queries && x.id == q.id
    && v == w.(replies := w.replies + {Reply(x, q.startedAt, w.clock)})
  }

  ghost predicate Next(w: World, v: World, t: Timing, server: Host, horizon: nat) {
    || Advance(w, v)
    || (exists i :: HubActs(w, v, i, server, horizon))
    || (exists q :: HubSends(w, v, q))
    || (exists e, effects :: ControllerActs(w, v, e, effects, t))
    || (exists id :: ControllerShows(w, v, id))
    || (exists x, q :: ControllerReplies(w, v, x, q))
  }

  ghost predicate IsRun(worlds: seq<World>, t: Timing, server: Host, horizon: nat) {
    && worlds != [] && Start(worlds[0])
    && forall i :: 0 <= i < |worlds| - 1 ==> Follows(worlds, i, t, server, horizon)
  }

  ghost predicate Follows(worlds: seq<World>, i: nat, t: Timing, server: Host, horizon: nat)
    requires i + 1 < |worlds|
  {
    Next(worlds[i], worlds[i + 1], t, server, horizon)
  }

  // ---------------------------------------------------------------- the invariant

  ghost predicate MessagesOk(w: World) {
    && (forall q :: q in w.queries ==> q.startedAt - w.offset <= w.clock)
    && (forall r :: r in w.replies ==> r.shown in w.shown && r.startedAt - w.offset <= r.serverNow)
  }

  ghost predicate ShownOk(w: World) {
    forall x :: x in w.shown && x.id in w.hubIds && x.id !in w.recreated ==>
      x.id in w.created && Honoured(w.ctrl, x.id, x.expires)
  }

  ghost predicate KnownOk(w: World) {
    forall id :: id in w.hubIds && Known(w.ctrl, id) ==> id in w.created
  }

  /** Whatever the hub lives by, the controller still honours or has already released. */
  ghost predicate HubHonoured(w: World) {
    && (w.hub.manager.Context().Some? ==> w.hub.manager.Context().value.lease.requestId in w.hubIds)
    && (Owed(w.hub).Some? && Owed(w.hub).value.0 !in w.recreated ==>
          && Owed(w.hub).value.0 in w.created
          && Honoured(w.ctrl, Owed(w.hub).value.0, Owed(w.hub).value.1 - w.offset))
  }

  ghost predicate WorldOk(w: World, t: Timing) {
    Inv(w.ctrl) && Bounded(w.ctrl, w.clock, t) && MessagesOk(w) && ShownOk(w) && KnownOk(w) && HubHonoured(w)
  }

  lemma ControllerActsOk(w: World, v: World, e: Event, effects: seq<Effect>, t: Timing)
    requires WorldOk(w, t) && ControllerActs(w, v, e, effects, t)
    ensures WorldOk(v, t)
  {
    var step := Runs.Step(w.ctrl, e, w.clock, v.ctrl, effects);
    Runs.StepInv(step, t);
    StepKeepsBounds(step, t);
    assert ShownOk(v) by { ActsShown(w, v, step, t); }
    assert KnownOk(v) by { ActsKnown(w, v, step, t); }
    if Owed(w.hub).Some? && Owed(w.hub).value.0 !in v.recreated {
      ActsKeepPromise(w, v, step, t, Owed(w.hub).value.0, Owed(w.hub).value.1 - w.offset);
    }
  }

  /** A create for a retained id changes nothing. */
  lemma RetainedCreateIdles(step: Runs.Step, t: Timing)
    requires Runs.IsStep(step, t) && step.event.CreateEnter? && step.pre.Request(step.event.requestId).Some?
    ensures step.post == step.pre
  {
    Runs.StepOutcome(step, t);
  }

  lemma ActsKeepPromise(w: World, v: World, step: Runs.Step, t: Timing, id: string, until: int)
    requires WorldOk(w, t) && ControllerActs(w, v, step.event, step.effects, t)
    requires step == Runs.Step(w.ctrl, step.event, w.clock, v.ctrl, step.effects)
    requires id in w.hubIds && id in w.created && id !in v.recreated && Honoured(w.ctrl, id, until)
    ensures Honoured(v.ctrl, id, until)
  {
    if step.event.CreateEnter? && step.event.requestId == id {
      RetainedCreateIdles(step, t);
    } else {
      StepKeepsPromise(step, t, id, until);
    }
  }

  lemma ActsShown(w: World, v: World, step: Runs.Step, t: Timing)
    requires WorldOk(w, t) && ControllerActs(w, v, step.event, step.effects, t)
    requires step == Runs.Step(w.ctrl, step.event, w.clock, v.ctrl, step.effects)
    ensures ShownOk(v)
  {
    forall x | x in v.shown && x.id in v.hubIds && x.id !in v.recreated
      ensures x.id in v.created && Honoured(v.ctrl, x.id, x.expires)
    {
      if x in w.shown {
        ActsKeepPromise(w, v, step, t, x.id, x.expires);
      } else {
        RenewalShownOk(w, v, step, t);
      }
    }
  }

  lemma RenewalShownOk(w: World, v: World, step: Runs.Step, t: Timing)
    requires WorldOk(w, t) && Runs.IsStep(step, t) && step.pre == w.ctrl && step.post == v.ctrl
    requires step.now == w.clock && v.hubIds == w.hubIds && w.created <= v.created
    ensures forall x :: x in RenewalAnswer(w.ctrl, step.event, w.clock, t) && x.id in w.hubIds ==>
      x.id in v.created && Honoured(v.ctrl, x.id, x.expires)
  {
    var answer := RenewalAnswer(w.ctrl, step.event, w.clock, t);
    if answer != {} {
      var id := step.event.requestId;
      RenewalAnswersOwn(w.ctrl, step.event, w.clock, t);
      Runs.StepOutcome(step, t);
      StepKnown(step, t, id);
      assert Honoured(v.ctrl, id, v.ctrl.activeSession.value.renewedUntil);
    }
  }

  lemma ActsKnown(w: World, v: World, step: Runs.Step, t: Timing)
    requires WorldOk(w, t) && ControllerActs(w, v, step.event, step.effects, t)
    requires step == Runs.Step(w.ctrl, step.event, w.clock, v.ctrl, step.effects)
    ensures KnownOk(v)
  {
    forall id | id in v.hubIds && Known(v.ctrl, id)
      ensures id in v.created
    {
      StepKnown(step, t, id);
    }
  }

  lemma ControllerShowsOk(w: World, v: World, id: string, t: Timing)
    requires WorldOk(w, t) && ControllerShows(w, v, id)
    ensures WorldOk(v, t)
  {
  }

  lemma HubActsOk(w: World, v: World, i: Input, t: Timing, server: Host, horizon: nat)
    requires WorldOk(w, t) && HubActs(w, v, i, server, horizon)
    ensures WorldOk(v, t)
  {
    ReactOwes(w.hub, i, server, horizon);
  }

  lemma QuietOk(w: World, v: World, t: Timing)
    requires WorldOk(w, t)
    requires Advance(w, v) || (exists q :: HubSends(w, v, q)) || (exists x, q :: ControllerReplies(w, v, x, q))
    ensures WorldOk(v, t)
  {
  }

  lemma NextOk(w: World, v: World, t: Timing, server: Host, horizon: nat)
    requires WorldOk(w, t) && Next(w, v, t, server, horizon)
    ensures WorldOk(v, t)
  {
    if i :| HubActs(w, v, i, server, horizon) {
      HubActsOk(w, v, i, t, server, horizon);
    } else if e, effects :| ControllerActs(w, v, e, effects, t) {
      ControllerActsOk(w, v, e, effects, t);
    } else if id :| ControllerShows(w, v, id) {
      ControllerShowsOk(w, v, id, t);
    } else {
      QuietOk(w, v, t);
    }
  }

  lemma {:induction false} RunOk(worlds: seq<World>, t: Timing, server: Host, horizon: nat, n: nat)
    requires IsRun(worlds, t, server, horizon) && n < |worlds|
    ensures WorldOk(worlds[n], t)
  {
    if n == 0 {
    } else {
      RunOk(worlds, t, server, horizon, n - 1);
      assert Follows(worlds, n - 1, t, server, horizon);
      NextOk(worlds[n - 1], worlds[n], t, server, horizon);
    }
  }

  /** The hub's remote deadline, read on the controller's clock, is no later than the controller's current grant
      or session expiry for that request, unless the controller has already released it. */
  ghost predicate HubBounded(w: World)
    requires w.hub.manager.state.RemoteOwned?
  {
    Honoured(
      w.ctrl, w.hub.manager.state.context.lease.requestId, w.hub.manager.Deadline().value - w.offset)
  }

  /** In every run, while the hub owns the input remotely, its deadline is bounded; unless its own create request
      reached the controller again after the id was evicted. */
  lemma RemoteOwnershipBounded(worlds: seq<World>, t: Timing, server: Host, horizon: nat, n: nat)
    requires IsRun(worlds, t, server, horizon) && n < |worlds|
    requires worlds[n].hub.manager.state.RemoteOwned?
    requires worlds[n].hub.manager.state.context.lease.requestId !in worlds[n].recreated
    ensures HubBounded(worlds[n])
  {
    RunOk(worlds, t, server, horizon, n);
  }

  // ---------------------------------------------------------------- the exception

  /** The target is asked to wake up first. */
  predicate Wakes(s: State, target: Host) {
    target != s.server && !IsOnline(s, target)
  }

  /** The create opens a request again. */
  predicate Reopens(s: State, e: Event, now: u64, t: Timing)
    requires e.CreateEnter?
  {
    && Opens(s, e.requestId, e.lease, now) && !CheckRefuses(s, e, now, t)
    && (e.target != s.server && IsOnline(s, e.target) ==> s.peers[e.target].BundleReady(e.lease.peerSessionEpoch))
  }

  /** Exactly what such a create does to the bound: it breaks it, unless nothing is opened, or a host without a
      display is granted at once and for long enough. */
  lemma RecreationBreaksIff(w: World, v: World, e: Event, effects: seq<Effect>, t: Timing)
    requires WorldOk(w, t) && ControllerActs(w, v, e, effects, t) && Recreates(w, e)
    requires w.hub.manager.state.RemoteOwned? && w.hub.manager.state.context.lease.requestId == e.requestId
    ensures HubBounded(v) <==>
      || !Reopens(w.ctrl, e, w.clock, t)
      || (&& !Wakes(w.ctrl, e.target) && !w.ctrl.HasDisplayRoute(e.target)
          && w.hub.manager.Deadline().value - w.offset <= Min(SatAdd(w.clock, t.grantMs), e.lease.expiresAt))
  {
    CreateOutcome(Runs.Step(w.ctrl, e, w.clock, v.ctrl, effects), t);
  }

  /** After a create for an id that is not retained: nothing of it is active, or a request that is granted
      exactly when its host is at hand and has no display. */
  ghost predicate Created(s: State, e: Event, now: u64, t: Timing, r: State)
    requires e.CreateEnter?
  {
    && !InSession(r, e.requestId)
    && if !Reopens(s, e, now, t) then !IsActive(r, e.requestId)
       else
         && IsActive(r, e.requestId)
         && Expiry(r, e.requestId) ==
              if Wakes(s, e.target) || s.HasDisplayRoute(e.target) then None
              else Some(Min(SatAdd(now, t.grantMs), e.lease.expiresAt))
  }

  lemma CreateOutcome(step: Runs.Step, t: Timing)
    requires Runs.IsStep(step, t) && Inv(step.pre) && step.event.CreateEnter?
    requires step.pre.Request(step.event.requestId).None?
    ensures Created(step.pre, step.event, step.now, t, step.post)
  {
    var s, e, now := step.pre, step.event, step.now;
    NotInSession(s, e.requestId);
    if !Opens(s, e.requestId, e.lease, now) {
      Runs.StepOutcome(step, t);
    } else if CheckRefuses(s, e, now, t) {
      Runs.StepOutcome(step, t);
      RefusalIsPlans(s, e, now, t);
      PlanRefusedIff(s, e, now, t);
    } else {
      OpenedStep(step, t);
      OpenOutcome(s, e, now, t);
    }
  }

  lemma OpenedStep(step: Runs.Step, t: Timing)
    requires Runs.IsStep(step, t) && Inv(step.pre) && step.event.CreateEnter?
    requires Opens(step.pre, step.event.requestId, step.event.lease, step.now)
    requires !CheckRefuses(step.pre, step.event, step.now, t)
    ensures var e := step.event;
      step.post == OpenRequest(step.pre, e.requestId, e.clientId, e.target, e.lease, step.now, t).state
  {
    PlanRefusedIff(step.pre, step.event, step.now, t);
    Runs.StepOutcome(step, t);
  }

  lemma NotInSession(s: State, id: string)
    requires Inv(s) && s.Request(id).None?
    ensures !InSession(s, id) && !IsActive(s, id)
  {
  }

  lemma OpenOutcome(s: State, e: Event, now: u64, t: Timing)
    requires e.CreateEnter? && s.activeRequest.None? && !InSession(s, e.requestId)
    ensures var d := OpenRequest(s, e.requestId, e.clientId, e.target, e.lease, now, t).state;
      && !InSession(d, e.requestId)
      && if e.target != s.server && IsOnline(s, e.target) && !s.peers[e.target].BundleReady(e.lease.peerSessionEpoch)
         then !IsActive(d, e.requestId)
         else
           && IsActive(d, e.requestId)
           && Expiry(d, e.requestId) ==
                if Wakes(s, e.target) || s.HasDisplayRoute(e.target) then None
                else Some(Min(SatAdd(now, t.grantMs), e.lease.expiresAt))
  {
    var epoch := SatAdd(s.requestEpoch, 1);
    var request := EnterRequest(
      e.requestId, e.clientId, e.target, epoch, e.lease, StSwitching, None, None, SatAdd(now, t.commandMs), None);
    var opening := s.(manualRecovery := None, requestEpoch := epoch);
    assert OpenRequest(s, e.requestId, e.clientId, e.target, e.lease, now, t) == RouteRequest(opening, request, now, t);
    if e.target == s.server {
      SwitchOutcome(Draft(ReleaseToServer(opening).(activeRequest := Some(request)), []), now, t);
    } else if IsOnline(s, e.target) && s.peers[e.target].BundleReady(e.lease.peerSessionEpoch) {
      SwitchOutcome(Draft(opening.(activeRequest := Some(request)), []), now, t);
    }
  }

  lemma SwitchOutcome(d: Draft, now: u64, t: Timing)
    requires d.state.activeRequest.Some? && d.state.activeRequest.value.grant.None?
    ensures var r, was := BeginSwitch(d, now, t).state, d.state.activeRequest.value;
      && r.activeSession == d.state.activeSession
      && r.activeRequest.Some? && r.activeRequest.value.requestId == was.requestId
      && if d.state.HasDisplayRoute(was.target) then r.activeRequest.value.grant.None?
         else
           && r.activeRequest.value.grant.Some?
           && r.activeRequest.value.grant.value.expiresAt == Min(SatAdd(now, t.grantMs), was.lease.expiresAt)
  {
    var next := SwitchOpened(d.state, now, t);
    assert next.activeSession == d.state.activeSession;
    assert next.activeRequest.value.grant.None?;
    assert next.activeRequest.value.requestId == d.state.activeRequest.value.requestId;
  }
}
