/** Every switch transaction is bounded in time when due deadlines are served first. */
module Deadlines {
  import opened Domain
  import opened Protocol
  import opened Invariant
  import opened Runs
  import opened Transactions

  /** A due request deadline is always served by a tick before anything else. */
  ghost predicate Disciplined(run: seq<Step>) {
    forall i :: 0 <= i < |run| ==> RequestDue(run[i].pre, run[i].now) ==> run[i].event.Tick?
  }

  predicate RequestDue(s: State, now: u64) {
    s.activeRequest.Some? && s.activeRequest.value.deadline <= now
  }

  /** When the active request was opened, and whether no session was live then. */
  datatype Opening = Opening(at: u64, free: bool)

  ghost function OpenedAt(run: seq<Step>): Option<Opening> {
    if run == [] then None
    else
      var last := run[|run| - 1];
      if last.post.activeRequest.None? then None
      else if last.pre.activeRequest.None? then Some(Opening(last.now, last.pre.activeSession.None?))
      else OpenedAt(run[..|run| - 1])
  }

  /** The budget a request may have used up by each stage. */
  function Budget(status: RequestStatus, t: Timing): nat {
    match status
    case StWaking => t.wakeMs
    case StSwitching => t.wakeMs + t.commandMs + t.observationMs
    case _ => t.wakeMs + t.commandMs + t.observationMs + t.grantMs
  }

  ghost predicate WithinBudget(r: EnterRequest, at: u64, t: Timing) {
    r.deadline <= at + Budget(r.status, t)
  }

  lemma BudgetStep(last: Step, t: Timing, at: u64)
    requires IsStep(last, t) && Inv(last.pre) && at <= last.now
    requires last.pre.activeRequest.Some? ==> WithinBudget(last.pre.activeRequest.value, at, t)
    requires RequestDue(last.pre, last.now) ==> last.event.Tick?
    requires last.pre.activeRequest.None? ==> at == last.now
    requires last.post.activeRequest.Some?
    ensures WithinBudget(last.post.activeRequest.value, at, t)
  {
    StepMoves(last, t);
    BudgetMove(last.pre, last.event, last.now, t, Draft(last.post, last.effects), at);
  }

  lemma BudgetMove(s: State, e: Event, now: u64, t: Timing, d: Draft, at: u64)
    requires RequestMove(s, e, now, t, d) && d.state.activeRequest.Some? && at <= now
    requires s.activeRequest.Some? ==> WithinBudget(s.activeRequest.value, at, t)
    requires RequestDue(s, now) ==> e.Tick?
    requires s.activeRequest.None? ==> at == now
    ensures WithinBudget(d.state.activeRequest.value, at, t)
  {
  }

  /** In a disciplined run the active request always stays within its budget, and one opened without
      a session never meets one. */
  lemma {:induction false} WithinBudgetAlways(start: State, run: seq<Step>, t: Timing)
    requires IsRun(start, run, t) && Inv(start) && start.activeRequest.None? && Disciplined(run)
    ensures var s := End(start, run);
      s.activeRequest.Some? ==>
        && OpenedAt(run).Some?
        && OpenedAt(run).value.at <= run[|run| - 1].now
        && WithinBudget(s.activeRequest.value, OpenedAt(run).value.at, t)
        && (OpenedAt(run).value.free ==> s.activeSession.None?)
  {
    if run != [] {
      var front, last := run[..|run| - 1], run[|run| - 1];
      assert forall i :: 0 <= i < |front| ==> front[i] == run[i];
      WithinBudgetAlways(start, front, t);
      RunInv(start, front, t);
      if last.post.activeRequest.Some? {
        var at := if last.pre.activeRequest.None? then last.now else OpenedAt(front).value.at;
        BudgetStep(last, t, at);
        StepMoves(last, t);
      }
    }
  }

  lemma TickCloses(s: State, now: u64, t: Timing)
    requires Inv(s) && s.activeRequest.Some? && s.activeRequest.value.deadline <= now && s.activeSession.None?
    ensures Apply(s, Tick, now, t).Accepted? && Apply(s, Tick, now, t).next.activeRequest.None?
  {
    DueRequestDropped(s, now, t);
    PlanGood(s, Tick, now, t);
    AfterExpiryOpensNothing(ExpireRequest(s, now, t), now, t);
    ProposalCarriedOut(s, Tick, now, t);
  }

  lemma TickStepCloses(step: Step, t: Timing)
    requires IsStep(step, t) && Inv(step.pre) && step.event.Tick?
    requires step.pre.activeRequest.Some? && step.pre.activeRequest.value.deadline <= step.now
    requires step.pre.activeSession.None?
    ensures step.post.activeRequest.None?
  {
    TickCloses(step.pre, step.now, t);
    StepOutcome(step, t);
  }

  lemma AfterExpiryOpensNothing(d: Draft, now: u64, t: Timing)
    requires d.state.activeRequest.None?
    ensures var p := AfterExpiry(d, now, t); p.Propose? ==> p.draft.state.activeRequest.None?
  {
    var next := d.state;
    if next.activeSession.Some? && next.activeSession.value.ExpiredAt(now) {
      SessionFailureReleases(d, now, t, ActiveLeaseExpired);
    } else if next.phase == RemoteOwned && next.observationInFlight.None? && Due(next.nextSignalPoll, now) {
    } else if next.observationInFlight.Some? && Due(next.phaseDeadline, now) {
      SessionFailureReleases(d, now, t, VerificationTimeoutReason(next));
      FallbackReleases(d, now, t, VerificationTimeoutReason(next));
    } else if next.phase == Verifying && Due(next.phaseDeadline, now) {
      FallbackReleases(d, now, t, VerificationTimeoutReason(next));
    } else if next.phase == MultiviewChanging && Due(next.phaseDeadline, now) {
      FallbackReleases(d, now, t, MultiviewTimeout);
    }
  }

  /** A request opened without a live session is closed no later than the first step at its opening
      time plus wake, command, observation and grant budgets. */
  lemma BoundedTransaction(start: State, run: seq<Step>, t: Timing)
    requires IsRun(start, run, t) && Inv(start) && start.activeRequest.None? && Disciplined(run)
    requires run != []
    requires var front, last := run[..|run| - 1], run[|run| - 1];
      && last.pre.activeRequest.Some?
      && OpenedAt(front).Some? && OpenedAt(front).value.free
      && OpenedAt(front).value.at + t.wakeMs + t.commandMs + t.observationMs + t.grantMs <= last.now
    ensures End(start, run).activeRequest.None?
  {
    var front, last := run[..|run| - 1], run[|run| - 1];
    assert forall i :: 0 <= i < |front| ==> front[i] == run[i];
    WithinBudgetAlways(start, front, t);
    RunInv(start, front, t);
    TickStepCloses(last, t);
  }

  // ---------------------------------------------------------------- turns of the task

  /** The configuration refuses timings of zero. */
  predicate Positive(t: Timing) {
    t.wakeMs > 0 && t.commandMs > 0 && t.observationMs > 0 && t.grantMs > 0
  }

  /** A step with effects leaves no due request behind, unless it is refused or ignores one. */
  lemma EffectsNotDue(step: Step, t: Timing)
    requires IsStep(step, t) && Inv(step.pre) && Positive(t) && step.now < U64_MAX
    requires step.effects != [] && (RequestDue(step.pre, step.now) ==> step.event.Tick?)
    ensures !RequestDue(step.post, step.now)
  {
    if RequestDue(step.pre, step.now) {
      DueTickCloses(step, t);
    } else {
      StepMoves(step, t);
    }
  }

  /** A due request is closed by every tick that is carried out. */
  lemma DueTickCloses(step: Step, t: Timing)
    requires IsStep(step, t) && step.event.Tick? && RequestDue(step.pre, step.now)
    ensures step.post.activeRequest.None? || (step.post == step.pre && step.effects == [])
  {
    StepFromPlan(step, t);
    DueTickPlan(step.pre, step.now, t);
  }

  lemma DueTickPlan(s: State, now: u64, t: Timing)
    requires RequestDue(s, now)
    ensures var p := Decide(s, Tick, now, t); p.Propose? ==> p.draft.state.activeRequest.None?
  {
    assert Decide(s, Tick, now, t) == OnTick(s, now, t);
    DueTickDrops(s, now, t);
  }

  lemma DueTickDrops(s: State, now: u64, t: Timing)
    requires RequestDue(s, now)
    ensures var p := OnTick(s, now, t); p.Propose? ==> p.draft.state.activeRequest.None?
  {
    var d := ExpireRequest(s, now, t);
    assert OnTick(s, now, t) == AfterExpiry(d, now, t);
    DueRequestDropped(s, now, t);
    AfterExpiryOpensNothing(d, now, t);
  }

  lemma DueRequestDropped(s: State, now: u64, t: Timing)
    requires RequestDue(s, now)
    ensures ExpireRequest(s, now, t).state.activeRequest.None?
  {
    RestoreReleases(
      Draft(DropRequest(s, s.activeRequest.value, StExpired, RequestDeadline), []), now, t,
      RequestDeadline, DisplayRestoreRequired(s));
  }

  lemma FailureNotDue(step: Step, t: Timing)
    requires IsStep(step, t) && Inv(step.pre) && step.event.CommandFailed? && !RequestDue(step.pre, step.now)
    ensures !RequestDue(step.post, step.now)
    ensures step.pre.activeRequest.None? ==> step.post.activeRequest.None?
  {
    StepMoves(step, t);
  }

  /** All steps happen at `now`, and all but the first are failures fed back. */
  ghost predicate AtOnce(run: seq<Step>, now: u64) {
    && (forall i :: 0 <= i < |run| ==> run[i].now == now)
    && (forall i :: 0 < i < |run| ==> run[i].event.CommandFailed?)
    && (|run| > 1 ==> run[0].effects != [])
  }

  /** What the task does in one turn is disciplined, and closes a due request when no session is live. */
  lemma {:induction false} TurnDisciplined(start: State, run: seq<Step>, now: u64, t: Timing)
    requires IsRun(start, run, t) && Inv(start) && AtOnce(run, now) && Positive(t) && now < U64_MAX
    requires run != [] && (RequestDue(start, now) ==> run[0].event.Tick?)
    ensures Disciplined(run) && (|run| > 1 ==> !RequestDue(End(start, run), now))
    ensures RequestDue(start, now) && start.activeSession.None? ==> End(start, run).activeRequest.None?
    decreases |run|
  {
    var front, last := run[..|run| - 1], run[|run| - 1];
    RunInv(start, front, t);
    if |run| == 1 {
      if RequestDue(start, now) && start.activeSession.None? {
        TickStepCloses(last, t);
      }
    } else {
      assert forall i :: 0 <= i < |front| ==> front[i] == run[i];
      TurnDisciplined(start, front, now, t);
      if |front| == 1 {
        EffectsNotDue(front[0], t);
      }
      FailureNotDue(last, t);
    }
  }

  lemma DisciplinedChain(front: seq<Step>, rest: seq<Step>)
    requires Disciplined(front) && Disciplined(rest)
    ensures Disciplined(front + rest)
  {
  }

  /** A request active after a turn was opened in it, or was active all along. */
  lemma {:induction false} OpenedChain(start: State, front: seq<Step>, rest: seq<Step>, now: u64, t: Timing)
    requires IsRun(End(start, front), rest, t) && (forall i :: 0 <= i < |rest| ==> rest[i].now == now)
    requires End(End(start, front), rest).activeRequest.Some? && OpenedAt(front + rest).Some?
    ensures
      || OpenedAt(front + rest).value.at == now
      || (OpenedAt(front + rest) == OpenedAt(front) && End(start, front).activeRequest.Some?)
    decreases |rest|
  {
    var all := front + rest;
    if rest == [] {
      assert all == front;
    } else {
      var most, last := rest[..|rest| - 1], rest[|rest| - 1];
      assert all[..|all| - 1] == front + most && all[|all| - 1] == last;
      if last.pre.activeRequest.Some? {
        OpenedChain(start, front, most, now, t);
      }
    }
  }

  function TotalBudget(t: Timing): nat {
    t.wakeMs + t.commandMs + t.observationMs + t.grantMs
  }

  /** A request that was opened without a session and is still active has been open for less than the budget. */
  ghost predicate InTime(run: seq<Step>, s: State, now: u64, t: Timing) {
    s.activeRequest.Some? && OpenedAt(run).Some? && OpenedAt(run).value.free ==>
      now < OpenedAt(run).value.at + TotalBudget(t)
  }

  /** Turn by turn, a transaction opened without a session never outlives its budget. */
  lemma TurnInTime(start: State, front: seq<Step>, rest: seq<Step>, now: u64, t: Timing)
    requires IsRun(start, front, t) && Inv(start) && start.activeRequest.None? && Disciplined(front)
    requires IsRun(End(start, front), rest, t) && Positive(t)
    requires forall i :: 0 <= i < |rest| ==> rest[i].now == now
    requires RequestDue(End(start, front), now) && End(start, front).activeSession.None? ==>
      End(End(start, front), rest).activeRequest.None?
    ensures InTime(front + rest, End(End(start, front), rest), now, t)
  {
    var s, all := End(End(start, front), rest), front + rest;
    if s.activeRequest.Some? && OpenedAt(all).Some? && OpenedAt(all).value.free {
      OpenedChain(start, front, rest, now, t);
      WithinBudgetAlways(start, front, t);
    }
  }
}
