/** The task that owns the controller state: event choice, effect worklist and queue gauges. */
module Coordinator {
  import opened Domain
  import opened Protocol
  import opened Invariant
  import opened Runs
  import opened Epochs
  import opened Deadlines
  import opened Progress

  // ---------------------------------------------------------------- effect worklist

  predicate IsSafety(e: Effect) {
    e.SetInput? && e.fallback
  }

  datatype Dispatch = Dispatch(
    state: State, pending: seq<Effect>, ordinary: seq<Effect>, safety: seq<Effect>, dropped: seq<Effect>)

  /** Offer the last pending effect to its queue. When an ordinary effect is lost, `answer` is what
      the reducer says to the failure. */
  function Offer(d: Dispatch, accepted: bool, answer: Outcome): Dispatch
    requires d.pending != []
  {
    var effect, rest := d.pending[|d.pending| - 1], d.pending[..|d.pending| - 1];
    if accepted then
      if IsSafety(effect) then d.(pending := rest, safety := d.safety + [effect])
      else d.(pending := rest, ordinary := d.ordinary + [effect])
    else
      var dropped := d.(pending := rest, dropped := d.dropped + [effect]);
      if IsSafety(effect) || effect.Wake? then dropped else Feedback(dropped, answer)
  }

  function Feedback(d: Dispatch, answer: Outcome): Dispatch {
    match answer
    case Accepted(next, raised) => d.(state := next, pending := d.pending + raised)
    case _ => d
  }

  function Failure(s: State, effect: Effect, why: string, now: u64, t: Timing): Outcome {
    if IsOrdinary(effect) then Apply(s, CommandFailed(effect.switchEpoch, why), now, t) else Accepted(s, [])
  }

  /** The worklist after the given answers of the two queues. */
  function Dispatched(
    s: State, effects: seq<Effect>, answers: seq<bool>, why: string, now: u64, t: Timing): Dispatch
  {
    if answers == [] then Dispatch(s, effects, [], [], [])
    else
      var d := Dispatched(s, effects, answers[..|answers| - 1], why, now, t);
      if d.pending == [] then d
      else
        Offer(d, answers[|answers| - 1], Failure(d.state, d.pending[|d.pending| - 1], why, now, t))
  }

  /** A lost ordinary effect is worth one more round, for the safety command it may raise. */
  function Weight(effects: seq<Effect>): nat {
    if effects == [] then 0
    else
      Weight(effects[..|effects| - 1]) + if IsOrdinary(effects[|effects| - 1]) then 2 else 1
  }

  function Lost(dropped: seq<Effect>): nat {
    if dropped == [] then 0
    else
      Lost(dropped[..|dropped| - 1]) + if IsOrdinary(dropped[|dropped| - 1]) then 1 else 0
  }

  /** An answer that is accepted, raises at most one safety command and brings ownership home. */
  ghost predicate Releases(s: State, effect: Effect, o: Outcome, now: u64) {
    && o.Accepted? && Inv(o.next) && Validate(o.next, now).None?
    && (o.effects == [] || (|o.effects| == 1 && IsSafety(o.effects[0])))
    && (OwnersHome(s) || (IsOrdinary(effect) && effect.switchEpoch == s.switchEpoch) ==> OwnersHome(o.next))
  }

  /** Failing a command is never refused: it changes nothing, or releases ownership and raises at
      most one safety command. */
  lemma FailureAccepted(s: State, effect: Effect, why: string, now: u64, t: Timing)
    requires Inv(s) && Validate(s, now).None?
    ensures Releases(s, effect, Failure(s, effect, why, now, t), now)
  {
    if IsOrdinary(effect) && effect.switchEpoch == s.switchEpoch {
      GoodFallback(s, Draft(s, []), now, t, Given(why));
      ValidateCore(BeginFallback(Draft(s, []), now, t, Given(why)).state, now);
    }
  }

  /** What holds of the worklist after any answers. */
  ghost predicate Sound(s: State, d: Dispatch, now: u64) {
    && Inv(d.state) && Validate(d.state, now).None?
    && Answerable(Draft(d.state, d.pending))
    && (if Lost(d.dropped) == 0 then d.state == s else OwnersHome(d.state))
  }

  /** Nothing vanishes: each effect is pending, sent or dropped, and only a lost ordinary one adds another. */
  ghost predicate Conserved(effects: seq<Effect>, d: Dispatch) {
    && multiset(effects) <= Everything(d)
    && |Everything(d)| <= |effects| + Lost(d.dropped)
    && (forall i :: 0 <= i < |d.ordinary| ==> !IsSafety(d.ordinary[i]))
    && (forall i :: 0 <= i < |d.safety| ==> IsSafety(d.safety[i]))
  }

  ghost function Everything(d: Dispatch): multiset<Effect> {
    multiset(d.pending) + multiset(d.ordinary) + multiset(d.safety) + multiset(d.dropped)
  }

  lemma WeightAppend(xs: seq<Effect>, e: Effect)
    ensures Weight(xs + [e]) == Weight(xs) + if IsOrdinary(e) then 2 else 1
    ensures Lost(xs + [e]) == Lost(xs) + if IsOrdinary(e) then 1 else 0
  {
  }

  lemma FeedbackSound(s: State, d: Dispatch, rest: seq<Effect>, effect: Effect, answer: Outcome, now: u64)
    requires Sound(s, d, now) && d.pending == rest + [effect] && IsOrdinary(effect)
    requires Releases(d.state, effect, answer, now)
    ensures Sound(s, Feedback(d.(pending := rest, dropped := d.dropped + [effect]), answer), now)
    ensures Weight(rest + answer.effects) < Weight(d.pending)
  {
    WeightAppend(d.dropped, effect);
    WeightAppend(rest, effect);
    if answer.effects == [] {
      assert rest + answer.effects == rest;
    } else {
      assert answer.effects == [answer.effects[0]];
      WeightAppend(rest, answer.effects[0]);
    }
  }

  lemma QuietSound(s: State, d: Dispatch, r: Dispatch, now: u64)
    requires Sound(s, d, now) && d.pending != []
    requires r.state == d.state && r.pending == d.pending[..|d.pending| - 1] && Lost(r.dropped) == Lost(d.dropped)
    ensures Sound(s, r, now) && Weight(r.pending) < Weight(d.pending)
  {
  }

  lemma OfferSound(s: State, d: Dispatch, accepted: bool, answer: Outcome, now: u64)
    requires Sound(s, d, now) && d.pending != []
    requires Releases(d.state, d.pending[|d.pending| - 1], answer, now)
    ensures Sound(s, Offer(d, accepted, answer), now)
    ensures Weight(Offer(d, accepted, answer).pending) < Weight(d.pending)
  {
    var n := |d.pending| - 1;
    var effect, rest := d.pending[n], d.pending[..n];
    if !accepted && IsOrdinary(effect) {
      assert d.pending == rest + [effect];
      FeedbackSound(s, d, rest, effect, answer, now);
    } else {
      WeightAppend(d.dropped, effect);
      QuietSound(s, d, Offer(d, accepted, answer), now);
    }
  }

  lemma {:induction false} DispatchSound(
    s: State, effects: seq<Effect>, answers: seq<bool>, why: string, now: u64, t: Timing)
    requires Inv(s) && Validate(s, now).None? && Answerable(Draft(s, effects))
    ensures Sound(s, Dispatched(s, effects, answers, why, now, t), now)
  {
    if answers != [] {
      var front := answers[..|answers| - 1];
      DispatchSound(s, effects, front, why, now, t);
      var d := Dispatched(s, effects, front, why, now, t);
      if d.pending != [] {
        var effect := d.pending[|d.pending| - 1];
        FailureAccepted(d.state, effect, why, now, t);
        OfferSound(s, d, answers[|answers| - 1], Failure(d.state, effect, why, now, t), now);
      }
    }
  }

  lemma WeightNonempty(effects: seq<Effect>)
    requires effects != []
    ensures Weight(effects) > 0
  {
  }

  /** The worklist is empty after at most as many offers as it weighs. */
  lemma {:induction false} DispatchTerminates(
    s: State, effects: seq<Effect>, answers: seq<bool>, why: string, now: u64, t: Timing)
    requires Inv(s) && Validate(s, now).None? && Answerable(Draft(s, effects))
    ensures var d := Dispatched(s, effects, answers, why, now, t);
      d.pending == [] || Weight(d.pending) + |answers| <= Weight(effects)
    ensures |answers| >= Weight(effects) ==> Dispatched(s, effects, answers, why, now, t).pending == []
  {
    if answers != [] {
      var front, ok := answers[..|answers| - 1], answers[|answers| - 1];
      DispatchTerminates(s, effects, front, why, now, t);
      assert front + [ok] == answers;
      if Dispatched(s, effects, front, why, now, t).pending != [] {
        NextRound(s, effects, front, ok, why, now, t);
      }
    }
    var d := Dispatched(s, effects, answers, why, now, t);
    if d.pending != [] {
      WeightNonempty(d.pending);
    }
  }

  lemma CountAppend(xs: seq<Effect>, e: Effect)
    ensures multiset(xs + [e]) == multiset(xs) + multiset{e}
  {
  }

  ghost predicate Sends(d: Dispatch, effect: Effect, r: Dispatch) {
    && d.pending == r.pending + [effect] && r.dropped == d.dropped
    && if IsSafety(effect) then r.safety == d.safety + [effect] && r.ordinary == d.ordinary
       else r.ordinary == d.ordinary + [effect] && r.safety == d.safety
  }

  lemma SendKeepsAll(d: Dispatch, effect: Effect, r: Dispatch)
    requires Sends(d, effect, r)
    ensures Everything(r) == Everything(d)
  {
    CountAppend(r.pending, effect);
    if IsSafety(effect) {
      CountAppend(d.safety, effect);
    } else {
      CountAppend(d.ordinary, effect);
    }
  }

  lemma SendConserved(effects: seq<Effect>, d: Dispatch, effect: Effect, r: Dispatch)
    requires Conserved(effects, d) && Sends(d, effect, r)
    ensures Conserved(effects, r)
  {
    var all := Everything(r);
    SendKeepsAll(d, effect, r);
    assert multiset(effects) <= all && |all| <= |effects| + Lost(d.dropped);
  }

  lemma DropConserved(
    effects: seq<Effect>, d: Dispatch, rest: seq<Effect>, effect: Effect, raised: seq<Effect>, r: Dispatch)
    requires Conserved(effects, d) && d.pending == rest + [effect]
    requires |raised| <= if IsOrdinary(effect) then 1 else 0
    requires r.pending == rest + raised && r.dropped == d.dropped + [effect]
    requires r.safety == d.safety && r.ordinary == d.ordinary
    ensures Conserved(effects, r)
  {
    CountAppend(rest, effect);
    CountAppend(d.dropped, effect);
    assert Everything(r) == Everything(d) + multiset(raised);
    WeightAppend(d.dropped, effect);
  }

  lemma OfferConserved(effects: seq<Effect>, d: Dispatch, accepted: bool, answer: Outcome)
    requires Conserved(effects, d) && d.pending != []
    requires answer.Accepted? && |answer.effects| <= 1
    ensures Conserved(effects, Offer(d, accepted, answer))
  {
    var n, r := |d.pending| - 1, Offer(d, accepted, answer);
    var effect, rest := d.pending[n], d.pending[..n];
    assert d.pending == rest + [effect];
    if accepted {
      SendConserved(effects, d, effect, r);
    } else if IsOrdinary(effect) {
      DropConserved(effects, d, rest, effect, answer.effects, r);
    } else {
      assert rest + [] == rest;
      DropConserved(effects, d, rest, effect, [], r);
    }
  }

  lemma {:induction false} DispatchConserved(
    s: State, effects: seq<Effect>, answers: seq<bool>, why: string, now: u64, t: Timing)
    requires Inv(s) && Validate(s, now).None? && Answerable(Draft(s, effects))
    ensures Conserved(effects, Dispatched(s, effects, answers, why, now, t))
  {
    if answers != [] {
      var front := answers[..|answers| - 1];
      DispatchConserved(s, effects, front, why, now, t);
      DispatchSound(s, effects, front, why, now, t);
      var d := Dispatched(s, effects, front, why, now, t);
      if d.pending != [] {
        var effect := d.pending[|d.pending| - 1];
        FailureAccepted(d.state, effect, why, now, t);
        OfferConserved(effects, d, answers[|answers| - 1], Failure(d.state, effect, why, now, t));
      }
    }
  }

  /** One more answer is one more offer, and the worklist gets lighter. */
  lemma NextRound(
    s: State, effects: seq<Effect>, answers: seq<bool>, ok: bool, why: string, now: u64, t: Timing)
    requires Inv(s) && Validate(s, now).None? && Answerable(Draft(s, effects))
    requires Dispatched(s, effects, answers, why, now, t).pending != []
    ensures var d := Dispatched(s, effects, answers, why, now, t);
      var r := Dispatched(s, effects, answers + [ok], why, now, t);
      && r == Offer(d, ok, Failure(d.state, d.pending[|d.pending| - 1], why, now, t))
      && Weight(r.pending) < Weight(d.pending)
  {
    assert (answers + [ok])[..|answers|] == answers;
    DispatchSound(s, effects, answers, why, now, t);
    var d := Dispatched(s, effects, answers, why, now, t);
    var effect := d.pending[|d.pending| - 1];
    FailureAccepted(d.state, effect, why, now, t);
    OfferSound(s, d, ok, Failure(d.state, effect, why, now, t), now);
  }

  /** Dispatching one accepted event, to its end: nothing is lost from sight, the state is untouched
      unless an ordinary effect was dropped, and then both owners are at the server. */
  lemma DispatchSafe(first: Step, answers: seq<bool>, why: string, t: Timing)
    requires IsStep(first, t) && Inv(first.pre) && Validate(first.post, first.now).None?
    ensures var d := Dispatched(first.post, first.effects, answers, why, first.now, t);
      && Conserved(first.effects, d)
      && Inv(d.state) && Validate(d.state, first.now).None?
      && (if Lost(d.dropped) == 0 then d.state == first.post else OwnersHome(d.state))
      && (|answers| >= Weight(first.effects) ==> d.pending == [])
  {
    StepInv(first, t);
    StepOrderly(first, t);
    DispatchConserved(first.post, first.effects, answers, why, first.now, t);
    DispatchSound(first.post, first.effects, answers, why, first.now, t);
    DispatchTerminates(first.post, first.effects, answers, why, first.now, t);
  }

  lemma FailureExtends(start: State, front: seq<Step>, effect: Effect, why: string, now: u64, t: Timing)
    returns (run: seq<Step>)
    requires IsRun(start, front, t) && front != [] && front[|front| - 1].now <= now
    requires Inv(End(start, front)) && Validate(End(start, front), now).None? && IsOrdinary(effect)
    ensures IsRun(start, run, t) && front < run && |run| == |front| + 1
    ensures run[|front|].event.CommandFailed? && run[|front|].now == now
    ensures Failure(End(start, front), effect, why, now, t).Accepted?
    ensures End(start, run) == Failure(End(start, front), effect, why, now, t).next
  {
    var s := End(start, front);
    FailureAccepted(s, effect, why, now, t);
    var o := Failure(s, effect, why, now, t);
    var step := Step(s, CommandFailed(effect.switchEpoch, why), now, o.next, o.effects);
    run := front + [step];
    assert run[..|front|] == front;
  }

  function StateAfter(d: Dispatch, ok: bool, why: string, now: u64, t: Timing): State {
    if d.pending != [] && !ok && IsOrdinary(d.pending[|d.pending| - 1]) then
      var o := Failure(d.state, d.pending[|d.pending| - 1], why, now, t);
      if o.Accepted? then o.next else d.state
    else d.state
  }

  lemma RoundState(s: State, effects: seq<Effect>, answers: seq<bool>, why: string, now: u64, t: Timing)
    requires answers != []
    ensures Dispatched(s, effects, answers, why, now, t).state ==
      StateAfter(
        Dispatched(s, effects, answers[..|answers| - 1], why, now, t), answers[|answers| - 1], why, now, t)
  {
  }

  /** `run` continues `begun` with failures fed back at the same instant, and ends in `s`. */
  ghost predicate Extends(begun: seq<Step>, run: seq<Step>, s: State, t: Timing)
    requires begun != []
  {
    && begun <= run && IsRun(begun[0].pre, run, t) && run[|run| - 1].post == s
    && forall i :: |begun| <= i < |run| ==> run[i].event.CommandFailed? && run[i].now == begun[|begun| - 1].now
  }

  /** The failures fed back while dispatching only extend the reducer's run. */
  lemma {:induction false} DispatchIsRun(
    begun: seq<Step>, effects: seq<Effect>, answers: seq<bool>, why: string, t: Timing)
    returns (run: seq<Step>)
    requires begun != []
    requires var last := begun[|begun| - 1];
      && Extends(begun, begun, last.post, t)
      && Inv(last.post) && Validate(last.post, last.now).None? && Answerable(Draft(last.post, effects))
    ensures var last := begun[|begun| - 1];
      Extends(begun, run, Dispatched(last.post, effects, answers, why, last.now, t).state, t)
  {
    var s, now := begun[|begun| - 1].post, begun[|begun| - 1].now;
    if answers == [] {
      run := begun;
    } else {
      var front := answers[..|answers| - 1];
      var before := DispatchIsRun(begun, effects, front, why, t);
      DispatchSound(s, effects, front, why, now, t);
      RoundState(s, effects, answers, why, now, t);
      run := RoundExtends(
        begun, before, Dispatched(s, effects, front, why, now, t), answers[|answers| - 1], why, t);
    }
  }

  /** The run of one accepted event: its own step, then the failures fed back at the same instant. */
  ghost predicate ServedRun(first: Step, run: seq<Step>, s: State, dropped: seq<Effect>, t: Timing) {
    && run != [] && IsRun(first.pre, run, t) && End(first.pre, run) == s
    && run[0] == first && AtOnce(run, first.now)
    && if Lost(dropped) == 0 then s == first.post else OwnersHome(s)
  }

  /** The outcome of serving `event` is its error, or the first step of the run. */
  ghost predicate ServedAt(
    was: State, event: Event, now: u64, error: Option<ProtocolError>, run: seq<Step>, t: Timing)
  {
    match error
    case Some(e) => Apply(was, event, now, t) == Rejected(e) && run == []
    case None =>
      && run != [] && run[0] == Step(was, event, now, run[0].post, run[0].effects)
      && Apply(was, event, now, t) == Accepted(run[0].post, run[0].effects)
  }

  lemma IdleServed(
    was: State, now: u64, error: Option<ProtocolError>, dropped: seq<Effect>, run: seq<Step>, s: State, t: Timing)
    requires Inv(was) && TickIdles(was, now) && ServedAt(was, Tick, now, error, run, t) && End(was, run) == s
    requires error.None? ==> ServedRun(run[0], run, s, dropped, t) && (run[0].effects == [] ==> dropped == [])
    ensures s == was
  {
    IdleTick(was, now, t);
  }

  lemma AcceptedStep(first: Step, t: Timing)
    requires IsStep(first, t) && Inv(first.pre)
    ensures Inv(first.post) && ServedRun(first, [first], first.post, [], t)
    ensures first.effects != [] ==>
      Validate(first.post, first.now).None? && Answerable(Draft(first.post, first.effects))
  {
    assert [first][..0] == [];
    StepInv(first, t);
    StepFromPlan(first, t);
    StepOrderly(first, t);
  }

  lemma DispatchedRun(first: Step, answers: seq<bool>, why: string, t: Timing) returns (run: seq<Step>)
    requires IsStep(first, t) && Inv(first.pre) && Validate(first.post, first.now).None?
    requires Answerable(Draft(first.post, first.effects)) && first.effects != []
    ensures var d := Dispatched(first.post, first.effects, answers, why, first.now, t);
      ServedRun(first, run, d.state, d.dropped, t)
  {
    assert [first][..0] == [];
    StepInv(first, t);
    run := DispatchIsRun([first], first.effects, answers, why, t);
    DispatchSafe(first, answers, why, t);
  }

  lemma RoundExtends(begun: seq<Step>, before: seq<Step>, d: Dispatch, ok: bool, why: string, t: Timing)
    returns (run: seq<Step>)
    requires begun != [] && Extends(begun, before, d.state, t)
    requires Inv(d.state) && Validate(d.state, begun[|begun| - 1].now).None?
    ensures Extends(begun, run, StateAfter(d, ok, why, begun[|begun| - 1].now, t), t)
  {
    if d.pending != [] && !ok && IsOrdinary(d.pending[|d.pending| - 1]) {
      run := FailureExtends(
        begun[0].pre, before, d.pending[|d.pending| - 1], why, begun[|begun| - 1].now, t);
      ExtendsOn(begun, before, d.state, run, t);
    } else {
      run := before;
    }
  }

  lemma ExtendsOn(begun: seq<Step>, before: seq<Step>, s: State, run: seq<Step>, t: Timing)
    requires begun != [] && Extends(begun, before, s, t)
    requires IsRun(begun[0].pre, run, t) && before < run && |run| == |before| + 1
    requires run[|before|].event.CommandFailed? && run[|before|].now == begun[|begun| - 1].now
    ensures Extends(begun, run, run[|before|].post, t)
  {
  }

  lemma Appends(a: seq<Effect>, b: seq<Effect>, c: seq<Effect>)
    ensures (a + b) + c == a + (b + c)
  {
  }

  /** The parts of the worklist after one more answer. */
  lemma RoundParts(
    s: State, effects: seq<Effect>, answers: seq<bool>, ok: bool, why: string, now: u64, t: Timing,
    next: State, raised: seq<Effect>)
    requires Inv(s) && Validate(s, now).None? && Answerable(Draft(s, effects))
    requires var d := Dispatched(s, effects, answers, why, now, t);
      && d.pending != []
      && Accepted(next, raised) ==
         if ok then Accepted(d.state, []) else Failure(d.state, d.pending[|d.pending| - 1], why, now, t)
    ensures var d := Dispatched(s, effects, answers, why, now, t);
      var r := Dispatched(s, effects, answers + [ok], why, now, t);
      var effect := d.pending[|d.pending| - 1];
      && r.state == next && r.pending == d.pending[..|d.pending| - 1] + raised
      && r.dropped == (if ok then d.dropped else d.dropped + [effect])
      && r.ordinary == d.ordinary + (if ok && !IsSafety(effect) then [effect] else [])
      && r.safety == d.safety + (if ok && IsSafety(effect) then [effect] else [])
      && Weight(r.pending) < Weight(d.pending)
  {
    NextRound(s, effects, answers, ok, why, now, t);
    var d := Dispatched(s, effects, answers, why, now, t);
    var rest := d.pending[..|d.pending| - 1];
    assert rest + [] == rest && d.ordinary + [] == d.ordinary && d.safety + [] == d.safety;
  }

  // ---------------------------------------------------------------- bounded effect queues

  /** A bounded channel with a separate depth gauge. */
  class EffectQueue {
    const capacity: nat
    var queue: seq<Effect>
    var depth: int
    var closed: bool
    /** Everything ever accepted; the queue is what the consumer has not taken yet. */
    ghost var sent: seq<Effect>

    ghost predicate Valid()
      reads this
    {
      && depth == |queue| <= capacity
      && |queue| <= |sent| && queue == sent[|sent| - |queue|..]
    }

    constructor (capacity: nat)
      ensures Valid() && queue == [] && sent == [] && !closed && this.capacity == capacity
    {
      this.capacity := capacity;
      queue, depth, closed, sent := [], 0, false, [];
    }

    method TrySend(effect: Effect) returns (ok: bool)
      requires Valid()
      modifies this
      ensures Valid() && closed == old(closed)
      ensures ok == (!closed && old(|queue|) < capacity)
      ensures queue == if ok then old(queue) + [effect] else old(queue)
      ensures sent == if ok then old(sent) + [effect] else old(sent)
    {
      depth := depth + 1;
      if closed || |queue| == capacity {
        depth := depth - 1;
        return false;
      }
      queue := queue + [effect];
      sent := sent + [effect];
      return true;
    }

    method Receive() returns (effect: Option<Effect>)
      requires Valid()
      modifies this
      ensures Valid() && closed == old(closed) && sent == old(sent)
      ensures effect == if old(queue) == [] then None else Some(old(queue)[0])
      ensures queue == if old(queue) == [] then [] else old(queue)[1..]
    {
      if queue == [] {
        return None;
      }
      effect := Some(queue[0]);
      queue := queue[1..];
      depth := depth - 1;
    }

    /** The consumer task takes some of the queue, or goes away. */
    method Consumer()
      requires Valid()
      modifies this
      ensures Valid() && sent == old(sent)
    {
      var n: nat := *;
      while n > 0
        invariant Valid() && sent == old(sent)
      {
        var _ := Receive();
        n := n - 1;
      }
      var gone: bool := *;
      closed := closed || gone;
    }
  }

  // ---------------------------------------------------------------- the coordinator task

  /** What the task does next. */
  datatype Choice = ServeDeadline | Safety(event: Event) | Ordinary(event: Event) | Wait | Stop

  function ChosenEvent(choice: Choice): Event
    requires choice != Wait && choice != Stop
  {
    if choice == ServeDeadline then Tick else choice.event
  }

  /** The task wakes up, and these requests have arrived. */
  datatype Wake = Wake(at: u64, safety: seq<Event>, ordinary: seq<Event>)

  predicate InOrder(wakes: seq<Wake>) {
    forall i, j :: 0 <= i < j < |wakes| ==> wakes[i].at <= wakes[j].at
  }

  predicate InRange(wakes: seq<Wake>) {
    forall i :: 0 <= i < |wakes| ==> wakes[i].at < U64_MAX
  }

  function SafetyArrivals(wakes: seq<Wake>): seq<Event> {
    if wakes == [] then [] else SafetyArrivals(wakes[..|wakes| - 1]) + wakes[|wakes| - 1].safety
  }

  function OrdinaryArrivals(wakes: seq<Wake>): seq<Event> {
    if wakes == [] then [] else OrdinaryArrivals(wakes[..|wakes| - 1]) + wakes[|wakes| - 1].ordinary
  }

  /** The first tick idles, and all others come before idling ends. */
  predicate StarvedBy(s: State, wakes: seq<Wake>) {
    && wakes != [] && TickIdles(s, wakes[0].at)
    && forall i :: 0 <= i < |wakes| ==> Before(wakes[i].at, IdleEnd(s, wakes[0].at))
  }

  lemma StarvedIdles(s: State, wakes: seq<Wake>, i: nat)
    requires Inv(s) && InOrder(wakes) && StarvedBy(s, wakes) && i < |wakes|
    ensures TickIdles(s, wakes[i].at)
  {
    IdlesUntil(s, wakes[0].at, wakes[i].at);
  }

  /** A turn is disciplined, and closes a due request when no session is live. */
  ghost predicate TurnKept(was: State, run: seq<Step>, now: u64, t: Timing) {
    Positive(t) && now < U64_MAX ==>
      && Disciplined(run)
      && (RequestDue(was, now) && was.activeSession.None? ==> End(was, run).activeRequest.None?)
  }

  lemma TurnKeeps(was: State, choice: Choice, now: u64, error: Option<ProtocolError>, run: seq<Step>, t: Timing)
    requires Inv(was) && IsRun(was, run, t) && AtOnce(run, now)
    requires choice == ServeDeadline <==> TickDue(was, now)
    requires choice == Wait || choice == Stop ==> run == []
    requires choice != Wait && choice != Stop ==> ServedAt(was, ChosenEvent(choice), now, error, run, t)
    ensures TurnKept(was, run, now, t)
  {
    TickDueMeans(was, now);
    if Positive(t) && now < U64_MAX {
      if run != [] {
        TurnDisciplined(was, run, now, t);
      } else if RequestDue(was, now) && was.activeSession.None? {
        TickCloses(was, now, t);
      }
    }
  }

  /** The task's turns so far are one run. With timings and times in range it is disciplined, and no transaction
      opened without a session has outlived its budget. */
  ghost predicate TaskRun(start: State, run: seq<Step>, s: State, wakes: seq<Wake>, turns: nat, t: Timing) {
    && turns <= |wakes| && IsRun(start, run, t) && End(start, run) == s
    && (run != [] ==> 0 < turns && run[|run| - 1].now <= wakes[turns - 1].at)
    && (Positive(t) && InRange(wakes) ==>
          && Disciplined(run)
          && (0 < turns && start.activeRequest.None? ==> InTime(run, s, wakes[turns - 1].at, t)))
  }

  lemma TaskRunOn(
    start: State, run: seq<Step>, was: State, turn: seq<Step>, s: State, wakes: seq<Wake>, turns: nat, t: Timing)
    requires Inv(start) && InOrder(wakes) && turns < |wakes| && TaskRun(start, run, was, wakes, turns, t)
    requires IsRun(was, turn, t) && End(was, turn) == s
    requires AtOnce(turn, wakes[turns].at) && TurnKept(was, turn, wakes[turns].at, t)
    ensures TaskRun(start, run + turn, s, wakes, turns + 1, t)
  {
    RunsChain(start, run, turn, t);
    if Positive(t) && InRange(wakes) {
      TaskInTime(start, run, turn, wakes[turns].at, t);
    }
  }

  lemma TaskInTime(start: State, run: seq<Step>, turn: seq<Step>, now: u64, t: Timing)
    requires Inv(start) && IsRun(start, run, t) && Disciplined(run) && IsRun(End(start, run), turn, t)
    requires AtOnce(turn, now) && TurnKept(End(start, run), turn, now, t) && Positive(t) && now < U64_MAX
    ensures Disciplined(run + turn)
    ensures start.activeRequest.None? ==> InTime(run + turn, End(End(start, run), turn), now, t)
  {
    DisciplinedChain(run, turn);
    if start.activeRequest.None? {
      TurnInTime(start, run, turn, now, t);
    }
  }

  /** Nothing was taken from either queue. */
  ghost predicate AllWaiting(
    safety: seq<Event>, ordinary: seq<Event>, wakes: seq<Wake>, safetyNow: seq<Event>, ordinaryNow: seq<Event>)
  {
    safetyNow == safety + SafetyArrivals(wakes) && ordinaryNow == ordinary + OrdinaryArrivals(wakes)
  }

  lemma AllWaitingOn(
    safety: seq<Event>, ordinary: seq<Event>, wakes: seq<Wake>, n: nat, safetyNow: seq<Event>, ordinaryNow: seq<Event>)
    requires n < |wakes| && AllWaiting(safety, ordinary, wakes[..n], safetyNow, ordinaryNow)
    ensures AllWaiting(
      safety, ordinary, wakes[..n + 1], safetyNow + wakes[n].safety, ordinaryNow + wakes[n].ordinary)
  {
    assert wakes[..n + 1][..n] == wakes[..n];
  }

  class Coordinator {
    const timing: Timing
    const ordinary: EffectQueue
    const safety: EffectQueue
    var state: State
    var safetyRequests: seq<Event>
    var ordinaryRequests: seq<Event>
    var safetyClosed: bool
    var ordinaryClosed: bool

    ghost predicate Valid()
      reads this, ordinary, safety
    {
      ordinary != safety && ordinary.Valid() && safety.Valid() && Inv(state)
    }

    constructor (server: Host, limit: Limit, hosts: set<Host>, timing: Timing, commands: nat, safeties: nat)
      requires server in hosts
      ensures Valid() && fresh(ordinary) && fresh(safety)
      ensures state == InitialState(server, limit, hosts) && this.timing == timing
    {
      this.timing := timing;
      state := InitialState(server, limit, hosts);
      ordinary := new EffectQueue(commands);
      safety := new EffectQueue(safeties);
      safetyRequests, ordinaryRequests := [], [];
      safetyClosed, ordinaryClosed := false, false;
      new;
      InitialInv(server, limit, hosts);
    }

    /** Due deadlines come first, then safety requests, then ordinary ones. The task ends when the next
        channel in line is closed and drained, and waits otherwise. */
    method NextRequest(now: u64) returns (choice: Choice)
      modifies this`safetyRequests, this`ordinaryRequests
      ensures TickDue(state, now) <==> choice == ServeDeadline
      ensures choice == ServeDeadline || choice == Wait || choice == Stop ==>
        safetyRequests == old(safetyRequests) && ordinaryRequests == old(ordinaryRequests)
      ensures choice.Safety? ==>
        [choice.event] + safetyRequests == old(safetyRequests) && ordinaryRequests == old(ordinaryRequests)
      ensures choice.Ordinary? ==>
        && old(safetyRequests) == [] && !safetyClosed && safetyRequests == []
        && [choice.event] + ordinaryRequests == old(ordinaryRequests)
      ensures choice == Stop ==>
        old(safetyRequests) == [] && (safetyClosed || (old(ordinaryRequests) == [] && ordinaryClosed))
      ensures choice == Wait ==>
        old(safetyRequests) == [] && old(ordinaryRequests) == [] && !safetyClosed && !ordinaryClosed
    {
      var deadline := NextDeadline(state);
      if deadline.Some? && deadline.value <= now {
        return ServeDeadline;
      }
      if safetyRequests != [] {
        choice := Safety(safetyRequests[0]);
        safetyRequests := safetyRequests[1..];
      } else if safetyClosed {
        choice := Stop;
      } else if ordinaryRequests != [] {
        choice := Ordinary(ordinaryRequests[0]);
        ordinaryRequests := ordinaryRequests[1..];
      } else {
        choice := if ordinaryClosed then Stop else Wait;
      }
    }

    /** Offer one effect to its queue, whatever the consumers did meanwhile; a lost ordinary one is fed
        back as a failed command. */
    method Submit(effect: Effect, now: u64, why: string) returns (ok: bool, raised: seq<Effect>)
      requires Valid() && Validate(state, now).None?
      modifies this`state, ordinary, safety
      ensures Valid() && Validate(state, now).None?
      ensures Accepted(state, raised) ==
        if ok then Accepted(old(state), []) else Failure(old(state), effect, why, now, timing)
      ensures ordinary.sent == old(ordinary.sent) + if ok && !IsSafety(effect) then [effect] else []
      ensures safety.sent == old(safety.sent) + if ok && IsSafety(effect) then [effect] else []
    {
      raised := [];
      ordinary.Consumer();
      safety.Consumer();
      if IsSafety(effect) {
        ok := safety.TrySend(effect);
      } else {
        ok := ordinary.TrySend(effect);
      }
      if !ok && !IsSafety(effect) && !effect.Wake? {
        FailureAccepted(state, effect, why, now, timing);
        match Apply(state, CommandFailed(effect.switchEpoch, why), now, timing)
        case Accepted(next, more) =>
          state, raised := next, more;
        case _ =>
          assert false;
      }
    }

    /** Drain the worklist. */
    method DispatchEffects(effects: seq<Effect>, now: u64, why: string)
      returns (dropped: seq<Effect>, ghost answers: seq<bool>)
      requires Valid() && Validate(state, now).None? && Answerable(Draft(state, effects))
      modifies this`state, ordinary, safety
      ensures Valid()
      ensures Delivered(
        Dispatched(old(state), effects, answers, why, now, timing),
        Dispatch(state, [], [], [], dropped), old(ordinary.sent), old(safety.sent))
    {
      var pending := effects;
      dropped, answers := [], [];
      while pending != []
        invariant Valid() && Validate(state, now).None?
        invariant Delivered(
          Dispatched(old(state), effects, answers, why, now, timing),
          Dispatch(state, pending, [], [], dropped), old(ordinary.sent), old(safety.sent))
        decreases Weight(pending)
      {
        ghost var d := Dispatched(old(state), effects, answers, why, now, timing);
        var effect, rest := pending[|pending| - 1], pending[..|pending| - 1];
        var ok, raised := Submit(effect, now, why);
        pending := rest + raised;
        if !ok {
          dropped := dropped + [effect];
        }
        RoundParts(old(state), effects, answers, ok, why, now, timing, state, raised);
        Appends(old(ordinary.sent), d.ordinary, if ok && !IsSafety(effect) then [effect] else []);
        Appends(old(safety.sent), d.safety, if ok && IsSafety(effect) then [effect] else []);
        answers := answers + [ok];
      }
    }

    /** One round of the task: apply the event, then dispatch what it asks for. A refused event
        changes nothing; an accepted one extends the controller's run. */
    method Serve(event: Event, now: u64, why: string)
      returns (error: Option<ProtocolError>, dropped: seq<Effect>, ghost run: seq<Step>)
      requires Valid()
      modifies this`state, ordinary, safety
      ensures Valid()
      ensures IsRun(old(state), run, timing) && End(old(state), run) == state
      ensures ServedAt(old(state), event, now, error, run, timing)
      ensures error.Some? ==>
        dropped == [] && ordinary.sent == old(ordinary.sent) && safety.sent == old(safety.sent)
      ensures error.None? ==>
        ServedRun(run[0], run, state, dropped, timing) && (run[0].effects == [] ==> dropped == [])
    {
      StepSound(state, event, now, timing);
      match Apply(state, event, now, timing)
      case Rejected(e) =>
        error, dropped, run := Some(e), [], [];
      case Panicked =>
        assert false;
      case Accepted(next, effects) =>
        error, dropped := None, [];
        ghost var first := Step(state, event, now, next, effects);
        run := [first];
        state := next;
        AcceptedStep(first, timing);
        if effects != [] {
          ghost var answers: seq<bool>;
          dropped, answers := DispatchEffects(effects, now, why);
          run := DispatchedRun(first, answers, why, timing);
        }
    }

    /** One turn of the task's loop: the chosen event is served, or refused and nothing changes. A tick
        that is due and idles leaves everything as it is. */
    method Turn(now: u64, why: string) returns (choice: Choice, error: Option<ProtocolError>, ghost run: seq<Step>)
      requires Valid()
      modifies this, ordinary, safety
      ensures Valid() && IsRun(old(state), run, timing) && End(old(state), run) == state
      ensures choice == ServeDeadline <==> TickDue(old(state), now)
      ensures choice == Wait || choice == Stop ==> run == [] && error.None?
      ensures choice != Wait && choice != Stop ==> ServedAt(old(state), ChosenEvent(choice), now, error, run, timing)
      ensures AtOnce(run, now) && TurnKept(old(state), run, now, timing)
      ensures TickIdles(old(state), now) ==>
        state == old(state) && safetyRequests == old(safetyRequests) && ordinaryRequests == old(ordinaryRequests)
    {
      choice := NextRequest(now);
      error, run := None, [];
      if choice != Wait && choice != Stop {
        var dropped;
        error, dropped, run := Serve(ChosenEvent(choice), now, why);
        if TickIdles(old(state), now) {
          IdleServed(old(state), now, error, dropped, run, state, timing);
        }
      }
      TurnKeeps(old(state), choice, now, error, run, timing);
    }

    /** One turn, after the arrival of new requests. */
    method WakeUp(wake: Wake, why: string) returns (stop: bool, ghost run: seq<Step>)
      requires Valid()
      modifies this, ordinary, safety
      ensures Valid() && IsRun(old(state), run, timing) && End(old(state), run) == state
      ensures AtOnce(run, wake.at) && TurnKept(old(state), run, wake.at, timing)
      ensures TickIdles(old(state), wake.at) ==>
        && !stop && state == old(state)
        && safetyRequests == old(safetyRequests) + wake.safety
        && ordinaryRequests == old(ordinaryRequests) + wake.ordinary
    {
      safetyRequests := safetyRequests + wake.safety;
      ordinaryRequests := ordinaryRequests + wake.ordinary;
      var choice, _, turn := Turn(wake.at, why);
      stop, run := choice == Stop, turn;
    }

    /** The task, waking up at the given times with new requests, is one disciplined run of the reducer, so no
        transaction opened without a session outlives its budget. Once the ticks that are due idle, it takes no
        request from either queue until idling ends. */
    method RunTask(wakes: seq<Wake>, why: string) returns (turns: nat, ghost run: seq<Step>)
      requires Valid() && InOrder(wakes)
      modifies this, ordinary, safety
      ensures Valid() && TaskRun(old(state), run, state, wakes, turns, timing)
      ensures StarvedBy(old(state), wakes) ==>
        && turns == |wakes| && state == old(state)
        && AllWaiting(old(safetyRequests), old(ordinaryRequests), wakes, safetyRequests, ordinaryRequests)
    {
      var stop := false;
      turns, run := 0, [];
      while turns < |wakes| && !stop
        invariant Valid() && TaskRun(old(state), run, state, wakes, turns, timing)
        invariant StarvedBy(old(state), wakes) ==>
          && !stop && state == old(state)
          && AllWaiting(
               old(safetyRequests), old(ordinaryRequests), wakes[..turns], safetyRequests, ordinaryRequests)
      {
        ghost var was, safetyWas, ordinaryWas := state, safetyRequests, ordinaryRequests;
        if StarvedBy(old(state), wakes) {
          StarvedIdles(old(state), wakes, turns);
          AllWaitingOn(old(safetyRequests), old(ordinaryRequests), wakes, turns, safetyWas, ordinaryWas);
        }
        ghost var turn;
        stop, turn := WakeUp(wakes[turns], why);
        TaskRunOn(old(state), run, was, turn, state, wakes, turns, timing);
        run, turns := run + turn, turns + 1;
      }
      assert turns == |wakes| ==> wakes[..turns] == wakes;
    }

    /** The state, worklist, drops and queue logs are those of `d`. */
    ghost predicate Delivered(d: Dispatch, now: Dispatch, ordinaryWas: seq<Effect>, safetyWas: seq<Effect>)
      reads ordinary, safety
    {
      && d.state == now.state && d.pending == now.pending && d.dropped == now.dropped
      && ordinary.sent == ordinaryWas + d.ordinary
      && safety.sent == safetyWas + d.safety
    }
  }

  // ---------------------------------------------------------------- gauge and channel in any interleaving

  /** The gauge beside its channel while senders and receivers are part-way through. */
  datatype Gauge = Gauge(depth: int, queued: nat, offering: nat, refused: nat, taken: nat)

  datatype GaugeStep = BeginSend | Enqueue | Refuse | CancelSend | Dequeue | Received

  predicate CanStep(g: Gauge, a: GaugeStep) {
    match a
    case BeginSend => true
    case Enqueue => g.offering > 0
    case Refuse => g.offering > 0
    case CancelSend => g.refused > 0
    case Dequeue => g.queued > 0
    case Received => g.taken > 0
  }

  function AfterStep(g: Gauge, a: GaugeStep): Gauge
    requires CanStep(g, a)
  {
    match a
    case BeginSend => g.(depth := g.depth + 1, offering := g.offering + 1)
    case Enqueue => g.(offering := g.offering - 1, queued := g.queued + 1)
    case Refuse => g.(offering := g.offering - 1, refused := g.refused + 1)
    case CancelSend => g.(depth := g.depth - 1, refused := g.refused - 1)
    case Dequeue => g.(queued := g.queued - 1, taken := g.taken + 1)
    case Received => g.(depth := g.depth - 1, taken := g.taken - 1)
  }

  ghost predicate Interleaving(gauges: seq<Gauge>, steps: seq<GaugeStep>) {
    && |gauges| == |steps| + 1 && gauges[0] == Gauge(0, 0, 0, 0, 0)
    && forall i :: 0 <= i < |steps| ==>
      CanStep(gauges[i], steps[i]) && gauges[i + 1] == AfterStep(gauges[i], steps[i])
  }

  /** However sends and receives interleave, the gauge never underflows, counts the queue plus the
      operations in progress, and equals the queue length whenever none is. */
  lemma {:induction false} GaugeExact(gauges: seq<Gauge>, steps: seq<GaugeStep>, i: nat)
    requires Interleaving(gauges, steps) && i < |gauges|
    ensures var g := gauges[i];
      && g.depth == g.queued + g.offering + g.refused + g.taken
      && g.depth >= 0
      && (g.offering == g.refused == g.taken == 0 ==> g.depth == g.queued)
  {
    if i > 0 {
      GaugeExact(gauges, steps, i - 1);
      assert CanStep(gauges[i - 1], steps[i - 1]);
    }
  }
}
