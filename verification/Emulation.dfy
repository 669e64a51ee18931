/** The tracker that keeps emulated keys and buttons from sticking or doubling. */
module Emulation {
  /** A key or button of one emulated client. */
  datatype Switch = Key(handle: nat, code: nat) | Button(handle: nat, code: nat)

  datatype InputEvent =
    | KeyEvent(key: nat, state: nat)
    | ButtonEvent(button: nat, state: nat)
    | OtherEvent

  /** What the backend was asked to do, in order. */
  datatype Forwarded =
    | Press(switch: Switch)
    | Release(switch: Switch)
    | Plain(handle: nat)

  // ---------------------------------------------------------------- what the backend has seen

  /** The switches whose last word to the backend was a press. */
  function Pressed(log: seq<Forwarded>): set<Switch> {
    if log == [] then {}
    else
      var front := Pressed(log[..|log| - 1]);
      match log[|log| - 1]
      case Press(x) => front + {x}
      case Release(x) => front - {x}
      case Plain(_) => front
  }

  predicate Down(log: seq<Forwarded>, x: Switch) {
    x in Pressed(log)
  }

  /** Presses and releases of every switch alternate, starting with a press. */
  ghost predicate Alternates(log: seq<Forwarded>) {
    log != [] ==>
      var front, last := log[..|log| - 1], log[|log| - 1];
      && Alternates(front)
      && (last.Press? ==> !Down(front, last.switch))
      && (last.Release? ==> Down(front, last.switch))
  }

  lemma Extended(log: seq<Forwarded>, e: Forwarded, x: Switch)
    ensures Down(log + [e], x) == (e == Press(x) || (e != Release(x) && Down(log, x)))
    ensures Alternates(log + [e]) <==>
      && Alternates(log)
      && (e.Press? ==> !Down(log, e.switch)) && (e.Release? ==> Down(log, e.switch))
  {
    assert (log + [e])[..|log|] == log;
  }

  /** Releasing a pressed switch lets that one up and no other. */
  lemma LetUp(log: seq<Forwarded>, x: Switch)
    requires Alternates(log) && Down(log, x)
    ensures Alternates(log + [Release(x)])
    ensures forall y :: Down(log + [Release(x)], y) <==> Down(log, y) && y != x
  {
    assert (log + [Release(x)])[..|log|] == log;
  }

  /** Since `before`, switches that were down were released, once each, and only those of `handle`. */
  ghost predicate OnlyReleases(before: seq<Forwarded>, after: seq<Forwarded>, handle: nat) {
    && before <= after
    && forall i :: |before| <= i < |after| ==> after[i] == Plain(handle) || ReleaseOf(before, after[i], handle)
  }

  ghost predicate ReleaseOf(before: seq<Forwarded>, e: Forwarded, handle: nat) {
    e.Release? && e.switch.handle == handle && Down(before, e.switch)
  }

  /** Alternation, read off directly: between two presses of a switch there is a release of it. */
  lemma {:induction false} NoDoublePress(log: seq<Forwarded>, i: nat, j: nat, x: Switch)
    requires Alternates(log) && i < j < |log| && log[i] == Press(x) && log[j] == Press(x)
    ensures exists k :: i < k < j && log[k] == Release(x)
  {
    var front := log[..|log| - 1];
    if j < |front| {
      NoDoublePress(front, i, j, x);
      var k :| i < k < j && front[k] == Release(x);
      assert log[k] == Release(x);
    } else {
      var k := ReleasedSince(front, i, x);
      assert log[k] == Release(x);
    }
  }

  /** And between two releases of a switch there is a press of it. */
  lemma {:induction false} NoDoubleRelease(log: seq<Forwarded>, i: nat, j: nat, x: Switch)
    requires Alternates(log) && i < j < |log| && log[i] == Release(x) && log[j] == Release(x)
    ensures exists k :: i < k < j && log[k] == Press(x)
  {
    var front := log[..|log| - 1];
    if j < |front| {
      NoDoubleRelease(front, i, j, x);
      var k :| i < k < j && front[k] == Press(x);
      assert log[k] == Press(x);
    } else {
      var k := PressedSince(front, i, x);
      assert log[k] == Press(x);
    }
  }

  lemma {:induction false} PressedSince(log: seq<Forwarded>, i: nat, x: Switch) returns (k: nat)
    requires i < |log| && log[i] == Release(x) && Down(log, x)
    ensures i < k < |log| && log[k] == Press(x)
  {
    k := |log| - 1;
    if log[k] != Press(x) {
      k := PressedSince(log[..|log| - 1], i, x);
    }
  }

  lemma {:induction false} ReleasedSince(log: seq<Forwarded>, i: nat, x: Switch) returns (k: nat)
    requires i < |log| && log[i] == Press(x) && !Down(log, x)
    ensures i < k < |log| && log[k] == Release(x)
  {
    k := |log| - 1;
    if log[k] != Release(x) {
      k := ReleasedSince(log[..|log| - 1], i, x);
    }
  }

  // ---------------------------------------------------------------- the object

  class InputEmulation {
    var handles: set<nat>
    var pressedKeys: map<nat, set<nat>>
    var pressedButtons: map<nat, set<nat>>
    ghost var log: seq<Forwarded>

    predicate Tracked(x: Switch)
      reads this
    {
      match x
      case Key(handle, code) => handle in pressedKeys && code in pressedKeys[handle]
      case Button(handle, code) => handle in pressedButtons && code in pressedButtons[handle]
    }

    /** The tracker knows exactly which switches the backend holds down. */
    ghost predicate Valid()
      reads this
    {
      && pressedKeys.Keys == handles && pressedButtons.Keys == handles
      && Alternates(log)
      && forall x :: Tracked(x) <==> Down(log, x)
    }

    constructor ()
      ensures Valid() && handles == {} && log == []
    {
      handles, pressedKeys, pressedButtons, log := {}, map[], map[], [];
    }

    /** The backend takes the event and may fail. */
    method Forward(e: Forwarded) returns (failed: bool)
      modifies this`log
      ensures log == old(log) + [e]
    {
      log := log + [e];
      failed := *;
    }

    method UpdatePressedKeys(handle: nat, key: nat, state: nat) returns (changed: bool)
      modifies this`pressedKeys
      ensures pressedKeys.Keys == old(pressedKeys.Keys)
      ensures changed <==> handle in pressedKeys && (state == 0) == old(Tracked(Key(handle, key)))
      ensures forall x :: Tracked(x) == (if changed && x == Key(handle, key) then state != 0 else old(Tracked(x)))
    {
      if handle !in pressedKeys {
        return false;
      }
      var keys := pressedKeys[handle];
      changed := (state == 0) == (key in keys);
      pressedKeys := pressedKeys[handle := if state == 0 then keys - {key} else keys + {key}];
    }

    method UpdatePressedButton(handle: nat, button: nat, state: nat) returns (changed: bool)
      modifies this`pressedButtons
      ensures pressedButtons.Keys == old(pressedButtons.Keys)
      ensures changed <==> handle in pressedButtons && (state == 0) == old(Tracked(Button(handle, button)))
      ensures forall x ::
        Tracked(x) == (if changed && x == Button(handle, button) then state != 0 else old(Tracked(x)))
    {
      if handle !in pressedButtons {
        return false;
      }
      var buttons := pressedButtons[handle];
      changed := (state == 0) == (button in buttons);
      pressedButtons := pressedButtons[handle := if state == 0 then buttons - {button} else buttons + {button}];
    }

    /** A key or button event is passed on exactly when it changes the switch of a known client. */
    method Consume(event: InputEvent, handle: nat) returns (failed: bool)
      requires Valid()
      modifies this
      ensures Valid() && handles == old(handles)
      ensures log == old(log) + Passed(event, handle, old(handles), old(Tracked(SwitchOf(event, handle))))
    {
      ghost var own, passed :=
        SwitchOf(event, handle), Passed(event, handle, handles, Tracked(SwitchOf(event, handle)));
      PassedTracks(log, event, handle, handles, Tracked(own));
      failed := false;
      if event.KeyEvent? {
        var changed := UpdatePressedKeys(handle, event.key, event.state);
        if changed {
          var x := Key(handle, event.key);
          failed := Forward(if event.state == 0 then Release(x) else Press(x));
        }
        assert log == old(log) + passed;
      } else if event.ButtonEvent? {
        var changed := UpdatePressedButton(handle, event.button, event.state);
        if changed {
          var x := Button(handle, event.button);
          failed := Forward(if event.state == 0 then Release(x) else Press(x));
        }
        assert log == old(log) + passed;
      } else {
        failed := Forward(Plain(handle));
      }
      ghost var moved := !event.OtherEvent? && handle in handles;
      assert forall x :: Tracked(x) == if moved && x == own then event.state != 0 else old(Tracked(x));
    }

    method Create(handle: nat) returns (created: bool)
      requires Valid()
      modifies this
      ensures Valid() && log == old(log) && handles == old(handles) + {handle}
      ensures created <==> handle !in old(handles)
    {
      if handle in handles {
        return false;
      }
      handles := handles + {handle};
      pressedButtons := pressedButtons[handle := {}];
      pressedKeys := pressedKeys[handle := {}];
      return true;
    }

    /** Drain one client's keys. */
    method ReleaseKeys(handle: nat) returns (failed: bool)
      requires Valid() && handle in pressedKeys
      modifies this`pressedKeys, this`log
      ensures Valid() && OnlyReleases(old(log), log, handle)
      ensures forall x :: Tracked(x) <==> old(Tracked(x)) && !(x.Key? && x.handle == handle)
    {
      failed := false;
      var keys := pressedKeys[handle];
      pressedKeys := pressedKeys[handle := {}];
      while keys != {}
        invariant pressedKeys == old(pressedKeys)[handle := {}] && keys <= old(pressedKeys)[handle]
        invariant Alternates(log) && OnlyReleases(old(log), log, handle)
        invariant forall x :: Down(log, x) <==> Tracked(x) || (x.Key? && x.handle == handle && x.code in keys)
        decreases keys
      {
        var key :| key in keys;
        var x := Key(handle, key);
        assert old(Tracked(x)) && Down(log, x);
        LetUp(log, x);
        var error := Forward(Release(x));
        keys := keys - {key};
        failed := failed || error;
      }
    }

    /** Drain one client's buttons. */
    method ReleaseButtons(handle: nat) returns (failed: bool)
      requires Valid() && handle in pressedButtons
      modifies this`pressedButtons, this`log
      ensures Valid() && OnlyReleases(old(log), log, handle)
      ensures forall x :: Tracked(x) <==> old(Tracked(x)) && !(x.Button? && x.handle == handle)
    {
      failed := false;
      var buttons := pressedButtons[handle];
      pressedButtons := pressedButtons[handle := {}];
      while buttons != {}
        invariant pressedButtons == old(pressedButtons)[handle := {}] && buttons <= old(pressedButtons)[handle]
        invariant Alternates(log) && OnlyReleases(old(log), log, handle)
        invariant forall x :: Down(log, x) <==> Tracked(x) || (x.Button? && x.handle == handle && x.code in buttons)
        decreases buttons
      {
        var button :| button in buttons;
        var x := Button(handle, button);
        assert old(Tracked(x)) && Down(log, x);
        LetUp(log, x);
        var error := Forward(Release(x));
        buttons := buttons - {button};
        failed := failed || error;
      }
    }

    /** Everything this client still holds is released, once each, even if the backend fails. */
    method ReleaseInputs(handle: nat) returns (failed: bool)
      requires Valid()
      modifies this`pressedKeys, this`pressedButtons, this`log
      ensures Valid() && OnlyReleases(old(log), log, handle)
      ensures forall x :: Tracked(x) <==> old(Tracked(x)) && x.handle != handle
    {
      failed := false;
      if handle in pressedKeys {
        failed := ReleaseKeys(handle);
      }
      if handle in pressedButtons {
        var error := ReleaseButtons(handle);
        failed := failed || error;
      }
      forall x
        ensures Down(log + [Plain(handle)], x) == Down(log, x)
      {
        Extended(log, Plain(handle), x);
      }
      Extended(log, Plain(handle), Key(handle, 0));
      var error := Forward(Plain(handle));
      failed := failed || error;
    }

    /** A destroyed client leaves nothing pressed, and other clients are untouched. */
    method Destroy(handle: nat)
      requires Valid()
      modifies this
      ensures Valid() && handles == old(handles) - {handle}
      ensures forall x: Switch :: x.handle == handle ==> !Down(log, x)
      ensures forall x: Switch :: x.handle != handle ==> Down(log, x) == Down(old(log), x)
    {
      var _ := ReleaseInputs(handle);
      if handle in handles {
        handles := handles - {handle};
        pressedButtons := pressedButtons - {handle};
        pressedKeys := pressedKeys - {handle};
      }
    }

    /** After termination the backend holds nothing down at all. */
    method Terminate()
      requires Valid()
      modifies this
      ensures Valid() && handles == {}
      ensures forall x :: !Down(log, x)
    {
      var rest := handles;
      while rest != {}
        invariant Valid() && handles == rest
        decreases rest
      {
        var handle :| handle in rest;
        Destroy(handle);
        rest := rest - {handle};
      }
    }
  }

  /** What `Consume` passes on keeps the log alternating and moves the event's own switch alone. */
  lemma PassedTracks(log: seq<Forwarded>, event: InputEvent, handle: nat, handles: set<nat>, tracked: bool)
    requires Alternates(log) && tracked == Down(log, SwitchOf(event, handle))
    ensures var after := log + Passed(event, handle, handles, tracked);
      && Alternates(after)
      && forall x :: Down(after, x) ==
           (if !event.OtherEvent? && handle in handles && x == SwitchOf(event, handle) then event.state != 0
            else Down(log, x))
  {
    var passed := Passed(event, handle, handles, tracked);
    if passed == [] {
      assert log + passed == log;
    } else {
      Extended(log, passed[0], SwitchOf(event, handle));
      forall x
        ensures Down(log + passed, x) == (passed[0] == Press(x) || (passed[0] != Release(x) && Down(log, x)))
      {
        Extended(log, passed[0], x);
      }
    }
  }

  function SwitchOf(event: InputEvent, handle: nat): Switch {
    if event.KeyEvent? then Key(handle, event.key)
    else if event.ButtonEvent? then Button(handle, event.button)
    else Key(handle, 0)
  }

  function Passed(event: InputEvent, handle: nat, handles: set<nat>, tracked: bool): seq<Forwarded> {
    var x := SwitchOf(event, handle);
    if event.OtherEvent? then [Plain(handle)]
    else if handle !in handles || (event.state == 0) != tracked then []
    else if event.state == 0 then [Release(x)]
    else [Press(x)]
  }
}
