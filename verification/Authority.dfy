/** What the controller owes a client: how long it will keep honouring a grant or session. */
module Authority {
  import opened Domain
  import opened Protocol
  import opened Invariant
  import opened Runs
  import opened Transactions
  import opened Retries

  predicate IsActive(s: State, id: string) {
    s.activeRequest.Some? && s.activeRequest.value.requestId == id
  }

  predicate InSession(s: State, id: string) {
    s.activeSession.Some? && s.activeSession.value.requestId == id
  }

  /** The expiry of the current grant or session for this request. */
  function Expiry(s: State, id: string): Option<u64> {
    if InSession(s, id) then Some(s.activeSession.value.renewedUntil)
    else if IsActive(s, id) && s.activeRequest.value.grant.Some? then
      Some(s.activeRequest.value.grant.value.expiresAt)
    else None
  }

  /** The controller released the request, or honours it at least until `until`. */
  ghost predicate Honoured(s: State, id: string, until: int) {
    IsActive(s, id) || InSession(s, id) ==> Expiry(s, id).Some? && until <= Expiry(s, id).value
  }

  /** Leases never reach further than one lease time from now. */
  ghost predicate Bounded(s: State, now: u64, t: Timing) {
    && (s.activeRequest.Some? ==> s.activeRequest.value.lease.expiresAt <= SatAdd(now, t.leaseMs))
    && (s.activeSession.Some? ==>
          && s.history != []
          && s.history[|s.history| - 1].lease.expiresAt <= s.activeSession.value.renewedUntil
          && s.activeSession.value.renewedUntil <= SatAdd(now, t.leaseMs))
  }

  /** Nothing but a new create request can make the controller honour a grant for less long. */
  lemma MoveKeepsPromise(s: State, e: Event, now: u64, t: Timing, d: Draft, id: string, until: int)
    requires Moves(s, e, now, t, d) && Bounded(s, now, t)
    requires IsActive(s, id) && s.activeRequest.value.grant.Some? ==>
      && s.activeRequest.value.status == StGrant
      && s.activeRequest.value.grant.value.expiresAt <= s.activeRequest.value.lease.expiresAt
    requires !(InSession(s, id) && IsActive(s, id))
    requires Honoured(s, id, until) && !(e.CreateEnter? && e.requestId == id)
    requires !(InSession(d.state, id) && IsActive(d.state, id))
    ensures Honoured(d.state, id, until)
  {
  }

  lemma StepKeepsPromise(step: Step, t: Timing, id: string, until: int)
    requires IsStep(step, t) && Inv(step.pre) && Bounded(step.pre, step.now, t)
    requires Honoured(step.pre, id, until) && !(step.event.CreateEnter? && step.event.requestId == id)
    ensures Honoured(step.post, id, until)
  {
    StepInv(step, t);
    StepMoves(step, t);
    MoveKeepsPromise(step.pre, step.event, step.now, t, Draft(step.post, step.effects), id, until);
  }

  /** The create endpoint accepts lease times up to the configured one. */
  ghost predicate LeaseCapped(e: Event, now: u64, t: Timing) {
    e.CreateEnter? ==> e.lease.expiresAt <= SatAdd(now, t.leaseMs)
  }

  /** While a session lives on, its archived record keeps its lease. */
  ghost predicate SameRecord(s: State, r: State) {
    (s.activeSession.Some? && r.activeSession.Some? && s.history != []
     && s.activeSession.value.requestId == r.activeSession.value.requestId) ==>
      r.history != [] && r.history[|r.history| - 1].lease == s.history[|s.history| - 1].lease
  }

  lemma StepRecordKept(step: Step, t: Timing)
    requires IsStep(step, t) && Inv(step.pre)
    ensures SameRecord(step.pre, step.post)
  {
    StepInv(step, t);
    StepLedger(step, t);
  }

  lemma StepKeepsBounds(step: Step, t: Timing)
    requires IsStep(step, t) && Inv(step.pre) && Bounded(step.pre, step.now, t)
    requires LeaseCapped(step.event, step.now, t)
    ensures Bounded(step.post, step.now, t)
  {
    StepMoves(step, t);
    StepRecordKept(step, t);
  }

  /** The controller has granted, owned or committed this request. */
  ghost predicate Known(s: State, id: string) {
    IsActive(s, id) || InSession(s, id) || CommittedRecord(s, id)
  }

  ghost predicate CommittedRecord(s: State, id: string) {
    exists i :: 0 <= i < |s.history| && s.history[i].requestId == id && s.history[i].status == StCommitted
  }

  /** A request becomes known only by its own create event. */
  lemma StepKnown(step: Step, t: Timing, id: string)
    requires IsStep(step, t) && Inv(step.pre) && Known(step.post, id)
    ensures Known(step.pre, id) || (step.event.CreateEnter? && step.event.requestId == id)
  {
    StepMoves(step, t);
    StepLedger(step, t);
  }

  // ---------------------------------------------------------------- what a response promises

  /** A response that shows a grant or a committed lease is honoured when it is read. */
  lemma ReadHonoured(s: State, now: u64, t: Timing, id: string)
    requires Inv(s) && Bounded(s, now, t) && s.Request(id).Some?
    ensures var r := s.Request(id).value;
      && (r.status == StGrant ==> r.grant.Some? && Known(s, id) && Honoured(s, id, r.grant.value.expiresAt))
      && (r.status == StCommitted ==> Known(s, id) && Honoured(s, id, r.lease.expiresAt))
  {
  }

  /** A renewal that leaves a session leaves the one it was for, however many clients there are. */
  lemma RenewalAnswersOwn(s: State, e: Event, now: u64, t: Timing)
    requires e.Renew? && Apply(s, e, now, t).Accepted? && Apply(s, e, now, t).next.activeSession.Some?
    ensures InSession(Apply(s, e, now, t).next, e.requestId)
  {
    SessionFailureReleases(Draft(s, []), now, t, LeaseRenewalRejected);
  }
}
