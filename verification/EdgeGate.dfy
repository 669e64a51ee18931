/** The hub's double-crossing gate: an edge is taken only on the second approach. */
module EdgeGate {
  import opened Domain

  datatype IntentKey = IntentKey(handle: nat, target: Host, peerSessionEpoch: u64)

  datatype EdgeIntent = EdgeIntent(key: IntentKey, rearmed: bool, expiresAt: nat)

  /** How long an intent lives, and the last instant the clock can represent. */
  datatype Clock = Clock(validFor: nat, horizon: nat)

  datatype Call =
    | Candidate(key: IntentKey, now: nat)
    | Retreat(handle: nat, now: nat)
    | Remove(handle: nat)
    | Clear

  datatype Reply = Primed | AwaitingRetreat | Confirmed | Rearmed | Ignored

  // ---------------------------------------------------------------- one call

  function Unexpired(intent: Option<EdgeIntent>, now: nat): Option<EdgeIntent> {
    if intent.Some? && intent.value.expiresAt <= now then None else intent
  }

  function Deadline(now: nat, c: Clock): Option<nat> {
    if now + c.validFor <= c.horizon then Some(now + c.validFor) else None
  }

  function Handle(intent: Option<EdgeIntent>, call: Call, c: Clock): (r: (Option<EdgeIntent>, Reply)) {
    match call
    case Candidate(key, now) =>
      var live := Unexpired(intent, now);
      if live.Some? && live.value.key == key then
        if live.value.rearmed then (None, Confirmed) else (live, AwaitingRetreat)
      else
        var until := Deadline(now, c);
        (if until.Some? then Some(EdgeIntent(key, false, until.value)) else None, Primed)
    case Retreat(handle, now) =>
      var live := Unexpired(intent, now);
      var until := Deadline(now, c);
      if until.None? then (None, Ignored)
      else if live.None? || live.value.key.handle != handle then (live, Ignored)
      else (Some(live.value.(rearmed := true, expiresAt := until.value)), Rearmed)
    case Remove(handle) =>
      (if intent.Some? && intent.value.key.handle == handle then None else intent, Ignored)
    case Clear => (None, Ignored)
  }

  class EdgeIntentGate {
    const clock: Clock
    var intent: Option<EdgeIntent>

    constructor (clock: Clock)
      ensures intent == None && this.clock == clock
    {
      this.clock := clock;
      intent := None;
    }

    method Expire(now: nat)
      modifies this
      ensures intent == Unexpired(old(intent), now)
    {
      if intent.Some? && intent.value.expiresAt <= now {
        intent := None;
      }
    }

    method Candidate(key: IntentKey, now: nat) returns (decision: Reply)
      modifies this
      ensures (intent, decision) == Handle(old(intent), Call.Candidate(key, now), clock)
    {
      Expire(now);
      if intent.Some? && intent.value.key == key {
        if intent.value.rearmed {
          intent := None;
          return Confirmed;
        }
        return AwaitingRetreat;
      }
      var until := Deadline(now, clock);
      intent := if until.Some? then Some(EdgeIntent(key, false, until.value)) else None;
      return Primed;
    }

    method Retreat(handle: nat, now: nat) returns (rearmed: bool)
      modifies this
      ensures (intent, if rearmed then Rearmed else Ignored) == Handle(old(intent), Call.Retreat(handle, now), clock)
    {
      Expire(now);
      var until := Deadline(now, clock);
      if until.None? {
        intent := None;
        return false;
      }
      if intent.None? || intent.value.key.handle != handle {
        return false;
      }
      intent := Some(intent.value.(rearmed := true, expiresAt := until.value));
      return true;
    }

    method Remove(handle: nat)
      modifies this
      ensures (intent, Ignored) == Handle(old(intent), Call.Remove(handle), clock)
    {
      if intent.Some? && intent.value.key.handle == handle {
        intent := None;
      }
    }

    method Clear()
      modifies this
      ensures intent == None
    {
      intent := None;
    }
  }

  // ---------------------------------------------------------------- call sequences

  datatype Entry = Entry(before: Option<EdgeIntent>, call: Call, reply: Reply, after: Option<EdgeIntent>)

  ghost predicate IsTrace(trace: seq<Entry>, c: Clock) {
    forall i :: 0 <= i < |trace| ==> Linked(trace, i, c)
  }

  ghost predicate Linked(trace: seq<Entry>, i: nat, c: Clock)
    requires i < |trace|
  {
    && trace[i].before == HeldBefore(trace, i)
    && (trace[i].after, trace[i].reply) == Handle(trace[i].before, trace[i].call, c)
  }

  function HeldBefore(trace: seq<Entry>, n: nat): Option<EdgeIntent>
    requires n <= |trace|
  {
    if n == 0 then None else trace[n - 1].after
  }

  predicate Timed(call: Call) {
    call.Candidate? || call.Retreat?
  }

  /** The clock never goes back between calls. */
  ghost predicate Ordered(trace: seq<Entry>) {
    forall i, j :: 0 <= i < j < |trace| && Timed(trace[i].call) && Timed(trace[j].call) ==>
      trace[i].call.now <= trace[j].call.now
  }

  /** The call neither starts, ends nor withdraws an intent of this handle. */
  ghost predicate Harmless(e: Entry, handle: nat, c: Clock) {
    && !e.reply.Primed? && !e.reply.Confirmed?
    && !e.call.Clear? && e.call != Call.Remove(handle)
    && (e.call.Retreat? ==> Deadline(e.call.now, c).Some?)
  }

  ghost predicate HarmlessBetween(trace: seq<Entry>, p: nat, n: nat, handle: nat, c: Clock)
    requires n <= |trace|
  {
    forall i :: p < i < n ==> Harmless(trace[i], handle, c)
  }

  ghost predicate PrimedAt(trace: seq<Entry>, p: nat, key: IntentKey)
    requires p < |trace|
  {
    trace[p].reply.Primed? && trace[p].call.Candidate? && trace[p].call.key == key
  }

  /** `r` is the last retreat that rearmed the intent before `n`. */
  ghost predicate LastRearmed(trace: seq<Entry>, r: nat, n: nat)
    requires r < n <= |trace|
  {
    trace[r].reply.Rearmed? && forall i :: r < i < n ==> !trace[i].reply.Rearmed?
  }

  /** The intent held before call `n` started at `p`; once rearmed, its lifetime counts from retreat `r`. */
  ghost predicate Held(trace: seq<Entry>, c: Clock, n: nat, it: EdgeIntent, p: nat, r: nat)
    requires n <= |trace|
  {
    && p < n && PrimedAt(trace, p, it.key) && HarmlessBetween(trace, p, n, it.key.handle, c)
    && (if it.rearmed then
          && p < r < n && LastRearmed(trace, r, n)
          && trace[r].call.Retreat? && trace[r].call.handle == it.key.handle
          && it.expiresAt == trace[r].call.now + c.validFor
        else
          && (forall i :: p < i < n ==> !trace[i].reply.Rearmed?)
          && it.expiresAt == trace[p].call.now + c.validFor)
  }

  /** Where the intent held before call `n` comes from. */
  lemma {:induction false} Origin(trace: seq<Entry>, c: Clock, n: nat) returns (p: nat, r: nat)
    requires IsTrace(trace, c) && n <= |trace|
    ensures HeldBefore(trace, n).Some? ==> Held(trace, c, n, HeldBefore(trace, n).value, p, r)
  {
    if n == 0 {
      p, r := 0, 0;
    } else {
      p, r := Origin(trace, c, n - 1);
      var last := trace[n - 1];
      assert Linked(trace, n - 1, c);
      if last.reply.Primed? {
        p := n - 1;
      } else if last.reply.Rearmed? {
        r := n - 1;
      }
    }
  }

  /** The call at `n` is the second approach: same key as an unused priming at `p`, rearmed last at `r`. */
  ghost predicate SecondApproach(trace: seq<Entry>, c: Clock, p: nat, r: nat, n: nat)
    requires p < r < n < |trace|
  {
    && trace[n].call.Candidate? && PrimedAt(trace, p, trace[n].call.key)
    && HarmlessBetween(trace, p, n, trace[n].call.key.handle, c)
    && LastRearmed(trace, r, n)
    && trace[r].call.Retreat? && trace[r].call.handle == trace[n].call.key.handle
    && trace[n].call.now < trace[r].call.now + c.validFor
  }

  lemma ConfirmedIsSecondApproach(trace: seq<Entry>, c: Clock, n: nat) returns (p: nat, r: nat)
    requires IsTrace(trace, c) && n < |trace| && trace[n].reply.Confirmed?
    ensures p < r < n && SecondApproach(trace, c, p, r, n)
  {
    p, r := Origin(trace, c, n);
    assert Linked(trace, n, c);
  }

  /** A rearmed intent stays put while nothing touches it and its lifetime lasts. */
  lemma {:induction false} StaysRearmed(trace: seq<Entry>, c: Clock, p: nat, r: nat, n: nat, i: nat)
    requires IsTrace(trace, c) && Ordered(trace)
    requires p < r < n < |trace| && SecondApproach(trace, c, p, r, n) && r <= i < n
    ensures trace[i].after == Some(EdgeIntent(trace[n].call.key, true, trace[r].call.now + c.validFor))
  {
    var key := trace[n].call.key;
    assert Linked(trace, i, c);
    if i == r {
      var p', r' := Origin(trace, c, r);
      assert Held(trace, c, r, trace[r].before.value, p', r');
      assert !Harmless(trace[p], trace[r].before.value.key.handle, c);
      assert !Harmless(trace[p'], key.handle, c);
      assert p' == p;
    } else {
      StaysRearmed(trace, c, p, r, n, i - 1);
      assert Harmless(trace[i], key.handle, c);
      if Timed(trace[i].call) {
        assert trace[i].call.now <= trace[n].call.now;
      }
    }
  }

  /** Double crossing, in every call sequence: a candidate is confirmed exactly when it is the second
      approach of its own earlier priming, with a retreat of its handle in between, nothing that
      re-primes, removes or clears it, and less than the lifetime since the last retreat. */
  lemma DoubleCrossing(trace: seq<Entry>, c: Clock, n: nat)
    requires IsTrace(trace, c) && Ordered(trace) && n < |trace|
    ensures trace[n].reply.Confirmed? <==> exists p: nat, r: nat :: p < r < n && SecondApproach(trace, c, p, r, n)
  {
    if trace[n].reply.Confirmed? {
      var p, r := ConfirmedIsSecondApproach(trace, c, n);
    }
    forall p: nat, r: nat | p < r < n && SecondApproach(trace, c, p, r, n)
      ensures trace[n].reply.Confirmed?
    {
      StaysRearmed(trace, c, p, r, n, n - 1);
      assert Linked(trace, n, c);
    }
  }

  /** Each priming confirms at most once. */
  lemma ConfirmedOnce(trace: seq<Entry>, c: Clock, p: nat, r: nat, n: nat, r': nat, n': nat)
    requires IsTrace(trace, c) && p < r < n < n' < |trace| && p < r' < n'
    requires trace[n].reply.Confirmed? && SecondApproach(trace, c, p, r, n)
    ensures !SecondApproach(trace, c, p, r', n')
  {
  }
}
