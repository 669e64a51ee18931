/** The capture task's one-shot permit. */
module CaptureGate {
  import opened Domain

  datatype Permit = Permit(handle: nat, leaseEpoch: u64, peerSessionEpoch: u64, expiresAt: nat)

  datatype Gate = Gate(armed: Option<Permit>, lastEpoch: u64) {
    /** `horizon` is the last instant the clock can represent. */
    function Arm(
      handle: nat, leaseEpoch: u64, peerSessionEpoch: u64, validFor: nat, now: nat, horizon: nat): (Gate, bool)
    {
      if leaseEpoch > lastEpoch && now + validFor <= horizon then
        (Gate(Some(Permit(handle, leaseEpoch, peerSessionEpoch, now + validFor)), leaseEpoch), true)
      else (this, false)
    }

    function Consume(handle: nat, now: nat): (Gate, Option<Permit>) {
      if armed.None? then (this, None)
      else if armed.value.expiresAt <= now then (Clear(), None)
      else if armed.value.handle != handle then (this, None)
      else (Clear(), armed)
    }

    function Disarm(leaseEpoch: u64): Gate {
      if armed.Some? && armed.value.leaseEpoch == leaseEpoch then Clear() else this
    }

    function Remove(handle: nat): Gate {
      if armed.Some? && armed.value.handle == handle then Clear() else this
    }

    function Clear(): Gate {
      this.(armed := None)
    }
  }

  class CaptureGate {
    var armed: Option<Permit>
    var lastEpoch: u64

    function View(): Gate
      reads this
    {
      Gate(armed, lastEpoch)
    }

    constructor ()
      ensures View() == Gate(None, 0)
    {
      armed, lastEpoch := None, 0;
    }

    method Arm(handle: nat, leaseEpoch: u64, peerSessionEpoch: u64, validFor: nat, now: nat, horizon: nat)
      returns (ok: bool)
      modifies this
      ensures (View(), ok) ==
        old(View()).Arm(handle, leaseEpoch, peerSessionEpoch, validFor, now, horizon)
    {
      if leaseEpoch > lastEpoch && now + validFor <= horizon {
        lastEpoch := leaseEpoch;
        armed := Some(Permit(handle, leaseEpoch, peerSessionEpoch, now + validFor));
        return true;
      }
      return false;
    }

    method Consume(handle: nat, now: nat) returns (permit: Option<Permit>)
      modifies this
      ensures (View(), permit) == old(View()).Consume(handle, now)
    {
      if armed.None? {
        return None;
      }
      if armed.value.expiresAt <= now {
        armed := None;
        return None;
      }
      if armed.value.handle != handle {
        return None;
      }
      permit := armed;
      armed := None;
    }

    method Disarm(leaseEpoch: u64)
      modifies this
      ensures View() == old(View()).Disarm(leaseEpoch)
    {
      if armed.Some? && armed.value.leaseEpoch == leaseEpoch {
        armed := None;
      }
    }

    method Remove(handle: nat)
      modifies this
      ensures View() == old(View()).Remove(handle)
    {
      if armed.Some? && armed.value.handle == handle {
        armed := None;
      }
    }

    method Clear()
      modifies this
      ensures View() == old(View()).Clear()
    {
      armed := None;
    }
  }
}
