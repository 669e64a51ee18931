/** A display picked by hand while no transaction is active is never undone. */
module ManualChoice {
  import opened Domain
  import opened Protocol
  import opened Invariant
  import opened Runs
  import opened Epochs

  /** No request, no session, no multiview change and no fallback outstanding. */
  predicate Untouched(s: State) {
    s.activeRequest.None? && s.activeSession.None? && s.pendingMultiview.None? && !s.fallbackRequired
  }

  predicate StartsTransaction(e: Event) {
    e.CreateEnter? || e.MultiViewRequested? || e.Shutdown?
  }

  predicate Quiet(d: Draft) {
    d.effects == [] && Untouched(d.state)
  }

  lemma QuietFallback(d: Draft, now: u64, t: Timing, reason: Reason)
    requires Quiet(d)
    ensures Quiet(BeginFallback(d, now, t, reason))
    ensures Quiet(BeginSessionFailureFallback(d, now, t, reason))
  {
  }

  lemma QuietTick(s: State, now: u64, t: Timing)
    requires Inv(s) && Untouched(s)
    ensures OnTick(s, now, t).Propose? && Quiet(OnTick(s, now, t).draft)
  {
  }

  lemma QuietSubscription(s: State, mode: TvMode, input: Option<Host>, now: u64, t: Timing)
    requires Inv(s) && Untouched(s)
    ensures Quiet(OnSubscription(s, mode, input, now, t))
  {
  }

  lemma QuietSynchronized(
    s: State, mode: TvMode, input: Option<Host>, signals: map<Host, bool>, now: u64, t: Timing)
    requires Inv(s) && Untouched(s)
    ensures Quiet(OnSynchronized(s, mode, input, signals, now, t))
  {
  }

  lemma QuietPeerReadiness(s: State, host: Host, readiness: PeerReadiness, now: u64, t: Timing)
    requires Inv(s) && Untouched(s)
    ensures Quiet(OnPeerReadiness(s, host, readiness, now, t))
  {
  }

  lemma QuietPlain(s: State, e: Event, now: u64, t: Timing)
    requires Inv(s) && Untouched(s) && !StartsTransaction(e)
    requires !e.TransportSynchronized? && !e.PeerReadinessUpdated? && !e.SubscriptionObserved? && !e.Tick?
    ensures var p := Decide(s, e, now, t); p.Propose? ==> Quiet(p.draft)
  {
    match e
    case TransportDisconnected(why) =>
      QuietFallback(Draft(Transport(s, Disconnected, false), []), now, t, Given(why));
    case CommandFailed(epoch, why) => QuietFallback(Draft(s, []), now, t, Given(why));
    case Renew(id, leaseId, leaseEpoch, peerEpoch) =>
      QuietFallback(Draft(s, []), now, t, LeaseRenewalRejected);
    case _ =>
  }

  lemma QuietDecide(s: State, e: Event, now: u64, t: Timing)
    requires Inv(s) && Untouched(s) && !StartsTransaction(e)
    ensures var p := Decide(s, e, now, t); p.Propose? ==> Quiet(p.draft)
  {
    match e
    case TransportSynchronized(mode, input, signals) => QuietSynchronized(s, mode, input, signals, now, t);
    case PeerReadinessUpdated(host, readiness) => QuietPeerReadiness(s, host, readiness, now, t);
    case SubscriptionObserved(mode, input) => QuietSubscription(s, mode, input, now, t);
    case Tick => QuietTick(s, now, t);
    case _ => QuietPlain(s, e, now, t);
  }

  /** From any untouched state, every event sequence that starts no transaction emits nothing and
      stays untouched: the display chosen by hand is left alone for ever. */
  lemma {:induction false} ManualChoiceKept(start: State, run: seq<Step>, t: Timing)
    requires IsRun(start, run, t) && Inv(start) && Untouched(start)
    requires forall i :: 0 <= i < |run| ==> !StartsTransaction(run[i].event)
    ensures RunEffects(run) == [] && Untouched(End(start, run))
  {
    if run != [] {
      var front, last := run[..|run| - 1], run[|run| - 1];
      ManualChoiceKept(start, front, t);
      RunInv(start, front, t);
      QuietDecide(last.pre, last.event, last.now, t);
      StepFromPlan(last, t);
    }
  }
}
