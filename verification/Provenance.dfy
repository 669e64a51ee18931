/** Remote ownership of a display has a complete chain of evidence behind it, in order. */
module Provenance {
  import opened Domain
  import opened Protocol
  import opened Invariant
  import opened Runs
  import opened Epochs
  import opened Transactions

  /** Step `i` sent the TV to `host` under `epoch`. */
  ghost predicate Commanded(run: seq<Step>, i: nat, host: Host, epoch: u64) {
    i < |run| && run[i].effects == [SetInput(host, epoch, false)]
  }

  /** Step `j` is the acknowledgement of that command. */
  ghost predicate Acknowledged(run: seq<Step>, j: nat, host: Host, epoch: u64) {
    j < |run| && run[j].event == CommandAcknowledged(epoch, host)
  }

  /** Step `k` is an observation stamped `epoch` that leaves `host` full screen with a present signal. */
  ghost predicate Verified(run: seq<Step>, k: nat, host: Host, epoch: u64) {
    && k < |run|
    && run[k].event.Observation? && run[k].event.switchEpoch == epoch
    && TargetDisplayVerified(run[k].post, host, epoch)
  }

  /** Step `m` is a commit of request `id` that moved both owners to `host`. */
  ghost predicate CommittedAt(run: seq<Step>, m: nat, id: string, host: Host) {
    && m < |run|
    && run[m].event.Commit? && run[m].event.requestId == id
    && run[m].post.keyboardOwner == host && run[m].post.pointerOwner == host
  }

  /** No input or multiview command went out strictly between steps `i` and `n`. */
  ghost predicate NoCommandBetween(run: seq<Step>, i: nat, n: nat) {
    n <= |run| && forall x :: i < x < n ==> NoCommands(run[x].effects)
  }

  /** The active request is past waking and its target has a display route. */
  predicate Tracked(s: State) {
    s.activeRequest.Some? && s.activeRequest.value.status != StWaking && s.HasDisplayRoute(s.activeRequest.value.target)
  }

  /** The evidence so far for the active request. */
  ghost predicate Evidenced(run: seq<Step>, s: State, i: nat, j: nat, k: nat) {
    && s.activeRequest.Some?
    && var r := s.activeRequest.value;
    && Commanded(run, i, r.target, s.switchEpoch)
    && NoCommandBetween(run, i, |run|)
    && (s.phase == Verifying || r.status == StGrant ==> i < j && Acknowledged(run, j, r.target, s.switchEpoch))
    && (r.status == StGrant ==> j < k && Verified(run, k, r.target, s.switchEpoch))
  }

  lemma EvidenceExtends(front: seq<Step>, last: Step, s: State, i: nat, j: nat, k: nat)
    requires Evidenced(front, s, i, j, k) && NoCommands(last.effects)
    ensures Evidenced(front + [last], s, i, j, k)
  {
  }

  /** One more step keeps the evidence complete. */
  lemma EvidenceStep(front: seq<Step>, last: Step, t: Timing, i: nat, j: nat, k: nat)
    returns (i': nat, j': nat, k': nat)
    requires IsStep(last, t) && Inv(last.pre)
    requires Tracked(last.pre) ==> Evidenced(front, last.pre, i, j, k)
    requires Tracked(last.post)
    ensures Evidenced(front + [last], last.post, i', j', k')
  {
    i', j', k' := i, j, k;
    StepMoves(last, t);
    StepOrderly(last, t);
    var d := Draft(last.post, last.effects);
    var run := front + [last];
    if Started(last.pre, last.event, last.now, t, d) {
      i' := |front|;
      assert run[i'] == last;
    } else {
      EvidenceExtends(front, last, last.pre, i, j, k);
      if Held(last.pre, last.event, d) {
        if last.post.phase == Verifying && last.pre.phase != Verifying {
          j' := |front|;
          assert run[j'] == last;
        }
      } else {
        k' := |front|;
        assert run[k'] == last;
      }
    }
  }

  /** Every active request past waking on a routed host has its evidence, from any run that starts
      without a request. */
  lemma {:induction false} RequestProvenance(start: State, run: seq<Step>, t: Timing) returns (i: nat, j: nat, k: nat)
    requires IsRun(start, run, t) && Inv(start) && start.activeRequest.None?
    ensures Tracked(End(start, run)) ==> Evidenced(run, End(start, run), i, j, k)
  {
    i, j, k := 0, 0, 0;
    if run != [] {
      var front, last := run[..|run| - 1], run[|run| - 1];
      i, j, k := RequestProvenance(start, front, t);
      RunInv(start, front, t);
      assert run == front + [last];
      if Tracked(last.post) {
        i, j, k := EvidenceStep(front, last, t, i, j, k);
      }
    }
  }

  /** The whole chain behind a session: command, acknowledgement, verified observation, commit. */
  ghost predicate Chain(run: seq<Step>, session: ActiveSession, i: nat, j: nat, k: nat, m: nat) {
    && i < j < k < m
    && Commanded(run, i, session.target, session.switchEpoch)
    && Acknowledged(run, j, session.target, session.switchEpoch)
    && Verified(run, k, session.target, session.switchEpoch)
    && CommittedAt(run, m, session.requestId, session.target)
    && NoCommandBetween(run, i, m)
  }

  lemma ChainExtends(front: seq<Step>, last: Step, session: ActiveSession, i: nat, j: nat, k: nat, m: nat)
    requires Chain(front, session, i, j, k, m)
    ensures Chain(front + [last], session, i, j, k, m)
  {
  }

  lemma CommitCloses(start: State, front: seq<Step>, last: Step, t: Timing) returns (i: nat, j: nat, k: nat)
    requires IsRun(start, front, t) && Inv(start) && start.activeRequest.None?
    requires last.pre == End(start, front) && IsStep(last, t)
    requires Committed(last.pre, last.event, last.now, t, Draft(last.post, last.effects))
    requires last.pre.HasDisplayRoute(last.pre.activeRequest.value.target)
    ensures Chain(front + [last], last.post.activeSession.value, i, j, k, |front|)
  {
    i, j, k := RequestProvenance(start, front, t);
    RunInv(start, front, t);
    StepInv(last, t);
    assert Evidenced(front, last.pre, i, j, k);
    EvidenceExtends(front, last, last.pre, i, j, k);
    assert (front + [last])[|front|] == last;
  }

  lemma {:induction false} SessionProvenance(start: State, run: seq<Step>, t: Timing)
    returns (i: nat, j: nat, k: nat, m: nat)
    requires IsRun(start, run, t) && Inv(start) && start.activeRequest.None? && start.activeSession.None?
    ensures var s := End(start, run);
      s.activeSession.Some? && s.HasDisplayRoute(s.activeSession.value.target) ==>
        Chain(run, s.activeSession.value, i, j, k, m)
  {
    i, j, k, m := 0, 0, 0, 0;
    if run != [] {
      var front, last := run[..|run| - 1], run[|run| - 1];
      i, j, k, m := SessionProvenance(start, front, t);
      RunInv(start, front, t);
      assert run == front + [last];
      if last.post.activeSession.Some? && last.post.HasDisplayRoute(last.post.activeSession.value.target) {
        StepMoves(last, t);
        StepOrderly(last, t);
        if Committed(last.pre, last.event, last.now, t, Draft(last.post, last.effects)) {
          i, j, k := CommitCloses(start, front, last, t);
          m := |front|;
        } else {
          ChainExtends(front, last, last.pre.activeSession.value, i, j, k, m);
        }
      }
    }
  }

  /** In every run from start-up: when input belongs to a remote host with a display route, that
      display was commanded, acknowledged, observed and committed, in this order, all under the
      session's one switch epoch, and nothing else was commanded between command and commit. */
  lemma RemoteOwnershipProven(start: State, run: seq<Step>, t: Timing)
    requires Initial(start) && IsRun(start, run, t)
    requires var s := End(start, run);
      s.keyboardOwner != s.server && s.HasDisplayRoute(s.keyboardOwner)
    ensures var s := End(start, run);
      && s.activeSession.Some? && s.activeSession.value.target == s.keyboardOwner == s.pointerOwner
      && exists i: nat, j: nat, k: nat, m: nat :: Chain(run, s.activeSession.value, i, j, k, m)
  {
    var server: Host, limit: Limit, hosts: set<Host> :|
      server in hosts && start == InitialState(server, limit, hosts);
    InitialInv(server, limit, hosts);
    RunInv(start, run, t);
    var i, j, k, m := SessionProvenance(start, run, t);
  }
}
