/** The hub's bundle lease: one reservation at a time, from preparation to remote ownership. */
module LeaseManager {
  import opened Domain

  datatype BundleLease = BundleLease(
    requestId: string, leaseId: string, leaseEpoch: u64, peerSessionEpoch: u64, expiresAt: u64)

  datatype BundleGrant = BundleGrant(requestEpoch: u64, grantEpoch: u64, expiresAt: u64)

  datatype GateContext = GateContext(handle: nat, target: Host, lease: BundleLease) {
    predicate SameIdentity(other: GateContext) {
      && handle == other.handle
      && target == other.target
      && lease.requestId == other.lease.requestId
      && lease.leaseId == other.lease.leaseId
      && lease.leaseEpoch == other.lease.leaseEpoch
      && lease.peerSessionEpoch == other.lease.peerSessionEpoch
    }

    function Until(expires: u64): GateContext {
      this.(lease := lease.(expiresAt := expires))
    }
  }

  datatype GateState =
    | Local
    | Preparing(context: GateContext)
    | GrantArmed(context: GateContext, grant: BundleGrant)
    | RemoteOwned(context: GateContext, grant: BundleGrant, renewedUntil: u64)

  datatype GateError = Busy | PeerNotReady | InvalidIdentity | StaleIdentity | Expired | InvalidState

  datatype GateResult<T> = Ok(value: T) | Err(error: GateError)

  /** What the hub knows of the peer when it asks. */
  datatype Peer = Peer(ready: bool, sessionEpoch: u64)

  datatype Manager = Manager(state: GateState, nextLeaseEpoch: u64) {
    function Context(): Option<GateContext> {
      if state.Local? then None else Some(state.context)
    }

    /** When the hub gives the bundle up by itself. */
    function Deadline(): Option<u64> {
      match state
      case Local => None
      case Preparing(context) => Some(context.lease.expiresAt)
      case GrantArmed(context, grant) => Some(Min(context.lease.expiresAt, grant.expiresAt))
      case RemoteOwned(context, _, renewedUntil) => Some(Min(context.lease.expiresAt, renewedUntil))
    }

    predicate Holds(context: GateContext) {
      Context().Some? && Context().value.SameIdentity(context)
    }

    function Released(): Manager {
      this.(state := Local)
    }

    function Reserve(
      handle: nat, target: Host, requestId: string, leaseId: string, peer: Peer, now: u64, ttl: u64)
      : (Manager, GateResult<GateContext>)
    {
      if state != Local then (this, Err(Busy))
      else if !peer.ready || peer.sessionEpoch == 0 then (this, Err(PeerNotReady))
      else if requestId == "" || leaseId == "" || ttl == 0 then (this, Err(InvalidIdentity))
      else if now + ttl > U64_MAX || nextLeaseEpoch == U64_MAX then (this, Err(InvalidIdentity))
      else
        var epoch := nextLeaseEpoch + 1;
        var context := GateContext(
          handle, target, BundleLease(requestId, leaseId, epoch, peer.sessionEpoch, now + ttl));
        (Manager(Preparing(context), epoch), Ok(context))
    }

    function ArmGrant(
      context: GateContext, grant: BundleGrant, leaseExpires: u64, peer: Peer, now: u64)
      : (Manager, GateResult<GateContext>)
    {
      if !state.Preparing? then (this, Err(InvalidState))
      else if state.context != context then (this, Err(StaleIdentity))
      else if !peer.ready || context.lease.peerSessionEpoch != peer.sessionEpoch then (Released(), Err(PeerNotReady))
      else if context.lease.expiresAt <= now || leaseExpires <= now || grant.expiresAt <= now then
        (Released(), Err(Expired))
      else if grant.requestEpoch == 0 || grant.grantEpoch == 0 then (this, Err(InvalidIdentity))
      else
        var armed := context.Until(Min(context.lease.expiresAt, leaseExpires));
        (this.(state := GrantArmed(armed, grant)), Ok(armed))
    }

    function Commit(handle: nat, leaseEpoch: u64, peer: Peer, now: u64): (Manager, GateResult<GateContext>) {
      if !state.GrantArmed? then (this, Err(InvalidState))
      else
        var context, grant := state.context, state.grant;
        if context.handle != handle || context.lease.leaseEpoch != leaseEpoch then (this, Err(StaleIdentity))
        else if !peer.ready || context.lease.peerSessionEpoch != peer.sessionEpoch then
          (Released(), Err(PeerNotReady))
        else if context.lease.expiresAt <= now || grant.expiresAt <= now then (Released(), Err(Expired))
        else
          var until := Min(context.lease.expiresAt, grant.expiresAt);
          (this.(state := GateState.RemoteOwned(context, grant, until)), Ok(context))
    }

    function Renew(requestId: string, renewedUntil: u64, peer: Peer, now: u64): (Manager, GateResult<()>) {
      if !state.RemoteOwned? then (this, Err(InvalidState))
      else
        var context := state.context;
        if context.lease.requestId != requestId then (this, Err(StaleIdentity))
        else if !peer.ready || context.lease.peerSessionEpoch != peer.sessionEpoch then
          (Released(), Err(PeerNotReady))
        else if context.lease.expiresAt <= now || renewedUntil <= now then (Released(), Err(Expired))
        else (this.(state := state.(context := context.Until(renewedUntil), renewedUntil := renewedUntil)), Ok(()))
    }

    function Expire(now: u64): (Manager, Option<GateContext>) {
      if Deadline().Some? && Deadline().value <= now then (Released(), Context()) else (this, None)
    }
  }

  /** Every accepted transition leaves time on the same lease: arming takes the earliest of the three
      expiries, taking ownership does not extend it, renewing sets exactly the new one. */
  lemma AcceptedLeavesTime(m: Manager, context: GateContext, grant: BundleGrant, until: u64, peer: Peer, now: u64)
    ensures var (r, ok) := m.ArmGrant(context, grant, until, peer, now);
      ok.Ok? ==>
        && r.Holds(context) && now < r.Deadline().value
        && r.Deadline().value == Min(Min(context.lease.expiresAt, until), grant.expiresAt)
    ensures var (r, ok) := m.Commit(context.handle, context.lease.leaseEpoch, peer, now);
      ok.Ok? ==> now < r.Deadline().value && r.Deadline() == m.Deadline() && r.Context() == m.Context()
    ensures var (r, ok) := m.Renew(context.lease.requestId, until, peer, now);
      ok.Ok? ==> now < r.Deadline().value == until && r.Holds(m.state.context)
  {
  }

  // ---------------------------------------------------------------- the object

  class BundleLeaseManager {
    var state: GateState
    var nextLeaseEpoch: u64

    function View(): Manager
      reads this
    {
      Manager(state, nextLeaseEpoch)
    }

    constructor ()
      ensures View() == Manager(Local, 0)
    {
      state, nextLeaseEpoch := Local, 0;
    }

    method Reserve(
      handle: nat, target: Host, requestId: string, leaseId: string, peer: Peer, now: u64, ttl: u64)
      returns (r: GateResult<GateContext>)
      modifies this
      ensures (View(), r) == old(View()).Reserve(handle, target, requestId, leaseId, peer, now, ttl)
    {
      if state != Local {
        return Err(Busy);
      }
      if !peer.ready || peer.sessionEpoch == 0 {
        return Err(PeerNotReady);
      }
      if requestId == "" || leaseId == "" || ttl == 0 || now + ttl > U64_MAX || nextLeaseEpoch == U64_MAX {
        return Err(InvalidIdentity);
      }
      nextLeaseEpoch := nextLeaseEpoch + 1;
      var lease := BundleLease(requestId, leaseId, nextLeaseEpoch, peer.sessionEpoch, now + ttl);
      var context := GateContext(handle, target, lease);
      state := Preparing(context);
      return Ok(context);
    }

    method ArmGrant(context: GateContext, grant: BundleGrant, leaseExpires: u64, peer: Peer, now: u64)
      returns (r: GateResult<GateContext>)
      modifies this
      ensures (View(), r) == old(View()).ArmGrant(context, grant, leaseExpires, peer, now)
    {
      if !state.Preparing? {
        return Err(InvalidState);
      }
      var current := state.context;
      if current != context {
        return Err(StaleIdentity);
      }
      if !peer.ready || current.lease.peerSessionEpoch != peer.sessionEpoch {
        state := Local;
        return Err(PeerNotReady);
      }
      if current.lease.expiresAt <= now || leaseExpires <= now || grant.expiresAt <= now {
        state := Local;
        return Err(Expired);
      }
      if grant.requestEpoch == 0 || grant.grantEpoch == 0 {
        return Err(InvalidIdentity);
      }
      var armed := current.Until(Min(current.lease.expiresAt, leaseExpires));
      state := GrantArmed(armed, grant);
      return Ok(armed);
    }

    method Commit(handle: nat, leaseEpoch: u64, peer: Peer, now: u64) returns (r: GateResult<GateContext>)
      modifies this
      ensures (View(), r) == old(View()).Commit(handle, leaseEpoch, peer, now)
    {
      if !state.GrantArmed? {
        return Err(InvalidState);
      }
      var context, grant := state.context, state.grant;
      if context.handle != handle || context.lease.leaseEpoch != leaseEpoch {
        return Err(StaleIdentity);
      }
      if !peer.ready || context.lease.peerSessionEpoch != peer.sessionEpoch {
        state := Local;
        return Err(PeerNotReady);
      }
      if context.lease.expiresAt <= now || grant.expiresAt <= now {
        state := Local;
        return Err(Expired);
      }
      state := GateState.RemoteOwned(context, grant, Min(context.lease.expiresAt, grant.expiresAt));
      return Ok(context);
    }

    method Renew(requestId: string, renewedUntil: u64, peer: Peer, now: u64) returns (r: GateResult<()>)
      modifies this
      ensures (View(), r) == old(View()).Renew(requestId, renewedUntil, peer, now)
    {
      if !state.RemoteOwned? {
        return Err(InvalidState);
      }
      var context := state.context;
      if context.lease.requestId != requestId {
        return Err(StaleIdentity);
      }
      if !peer.ready || context.lease.peerSessionEpoch != peer.sessionEpoch {
        state := Local;
        return Err(PeerNotReady);
      }
      if context.lease.expiresAt <= now || renewedUntil <= now {
        state := Local;
        return Err(Expired);
      }
      state := state.(context := context.Until(renewedUntil), renewedUntil := renewedUntil);
      return Ok(());
    }

    /** Gives the bundle up exactly when its deadline has come. */
    method Expire(now: u64) returns (expired: Option<GateContext>)
      modifies this
      ensures (View(), expired) == old(View()).Expire(now)
    {
      var due := match state
        case Local => false
        case Preparing(context) => context.lease.expiresAt <= now
        case GrantArmed(context, grant) => context.lease.expiresAt <= now || grant.expiresAt <= now
        case RemoteOwned(context, _, renewedUntil) => context.lease.expiresAt <= now || renewedUntil <= now;
      if due {
        expired := Invalidate();
      } else {
        expired := None;
      }
    }

    method Invalidate() returns (previous: Option<GateContext>)
      modifies this
      ensures previous == old(View()).Context() && View() == old(View()).Released()
    {
      previous := if state.Local? then None else Some(state.context);
      state := Local;
    }
  }
}
