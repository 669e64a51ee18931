/** Unbounded runs of the controller: any events, in any order, on a clock that never goes back. */
module Runs {
  import opened Domain
  import opened Protocol
  import opened Invariant

  datatype Step = Step(pre: State, event: Event, now: u64, post: State, effects: seq<Effect>)

  ghost predicate Yields(step: Step, t: Timing, o: Outcome) {
    o == Apply(step.pre, step.event, step.now, t)
  }

  /** A rejected event leaves the state alone and emits nothing. */
  ghost predicate Records(step: Step, o: Outcome) {
    match o
    case Accepted(next, effects) => step.post == next && step.effects == effects
    case Rejected(_) => step.post == step.pre && step.effects == []
    case Panicked => false
  }

  /** The step records what the reducer yields. */
  ghost predicate IsStep(step: Step, t: Timing) {
    forall o :: Yields(step, t, o) ==> Records(step, o)
  }

  lemma StepOutcome(step: Step, t: Timing)
    requires IsStep(step, t)
    ensures Records(step, Apply(step.pre, step.event, step.now, t))
  {
  }

  lemma ProposedIsStep(step: Step, t: Timing)
    requires Decide(step.pre, step.event, step.now, t) == Propose(Draft(step.post, step.effects))
    requires Validate(step.post, step.now).None?
    ensures IsStep(step, t)
  {
  }

  /** A step either repeats its state without effects or carries out a proposed draft. */
  lemma StepFromPlan(step: Step, t: Timing)
    requires IsStep(step, t)
    ensures var p := Decide(step.pre, step.event, step.now, t);
      || (step.post == step.pre && step.effects == [])
      || (p.Propose? && p.draft == Draft(step.post, step.effects) && Validate(step.post, step.now).None?)
  {
    StepOutcome(step, t);
  }

  ghost predicate IsRun(start: State, run: seq<Step>, t: Timing) {
    run != [] ==>
      var last := run[|run| - 1];
      && IsRun(start, run[..|run| - 1], t)
      && IsStep(last, t)
      && last.pre == End(start, run[..|run| - 1])
      && (|run| > 1 ==> run[|run| - 2].now <= last.now)
  }

  function End(start: State, run: seq<Step>): State {
    if run == [] then start else run[|run| - 1].post
  }

  /** Step `i` starts where the run has got to, and no earlier. */
  ghost predicate Continues(start: State, run: seq<Step>, i: nat, t: Timing)
    requires i < |run|
  {
    && IsStep(run[i], t)
    && run[i].pre == (if i == 0 then start else run[i - 1].post)
    && (i > 0 ==> run[i - 1].now <= run[i].now)
  }

  lemma {:induction false} ContinuedIsRun(start: State, run: seq<Step>, t: Timing)
    requires forall i: nat :: i < |run| ==> Continues(start, run, i, t)
    ensures IsRun(start, run, t)
  {
    if run != [] {
      var front := run[..|run| - 1];
      forall i: nat | i < |front|
        ensures Continues(start, front, i, t)
      {
        assert Continues(start, run, i, t);
      }
      ContinuedIsRun(start, front, t);
      assert Continues(start, run, |run| - 1, t);
    }
  }

  lemma {:induction false} RunsChain(start: State, front: seq<Step>, rest: seq<Step>, t: Timing)
    requires IsRun(start, front, t) && IsRun(End(start, front), rest, t)
    requires front != [] && rest != [] ==> front[|front| - 1].now <= rest[0].now
    ensures IsRun(start, front + rest, t) && End(start, front + rest) == End(End(start, front), rest)
  {
    if rest == [] {
      assert front + rest == front;
    } else {
      var run, most, last := front + rest, rest[..|rest| - 1], rest[|rest| - 1];
      RunsChain(start, front, most, t);
      assert run[..|run| - 1] == front + most && run[|run| - 1] == last;
      assert last.pre == End(start, front + most);
    }
  }

  ghost predicate Initial(s: State) {
    exists server: Host, limit: Limit, hosts: set<Host> ::
      server in hosts && s == InitialState(server, limit, hosts)
  }

  ghost predicate Reachable(s: State, t: Timing) {
    exists start: State, run: seq<Step> :: Initial(start) && IsRun(start, run, t) && s == End(start, run)
  }

  lemma StepInv(step: Step, t: Timing)
    requires IsStep(step, t) && Inv(step.pre)
    ensures Inv(step.post)
  {
    StepOutcome(step, t);
    StepSound(step.pre, step.event, step.now, t);
  }

  lemma {:induction false} RunInv(start: State, run: seq<Step>, t: Timing)
    requires IsRun(start, run, t) && Inv(start)
    ensures Inv(End(start, run))
  {
    if run != [] {
      RunInv(start, run[..|run| - 1], t);
      StepInv(run[|run| - 1], t);
    }
  }

  lemma ReachableInv(s: State, t: Timing)
    requires Reachable(s, t)
    ensures Inv(s)
  {
    var start: State, run: seq<Step> :| Initial(start) && IsRun(start, run, t) && s == End(start, run);
    var server: Host, limit: Limit, hosts: set<Host> :|
      server in hosts && start == InitialState(server, limit, hosts);
    InitialInv(server, limit, hosts);
    RunInv(start, run, t);
  }

  /** The final check is redundant: from a reachable session-free state only a commit can trip it,
      and no `expect` fires in any reachable state. */
  lemma RuntimeCheckRedundant(s: State, e: Event, now: u64, t: Timing)
    requires Reachable(s, t)
    ensures !Apply(s, e, now, t).Panicked?
    ensures s.activeSession.None? && !e.Commit? ==>
      !(Apply(s, e, now, t).Rejected? && Apply(s, e, now, t).error.Invariant?)
  {
    ReachableInv(s, t);
    StepSound(s, e, now, t);
  }
}
