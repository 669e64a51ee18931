/** The coalescing queue between a capture backend and the capture task. */
module EventQueue {
  const SCAN_CODE_SLOTS := 2 * 256
  const CRITICAL_EVENT_CAPACITY := 2 * SCAN_CODE_SLOTS + 16

  /** A captured event at a screen edge; only pointer motion may be coalesced. */
  datatype Item = Item(position: nat, motion: bool, payload: int)

  datatype PushOutcome = Queued | Overflow

  datatype QueuePoll = Event(item: Item) | Overflowed | Closed | Pending

  // ---------------------------------------------------------------- what coalescing may lose

  function Criticals(items: seq<Item>): seq<Item> {
    if items == [] then []
    else
      var last := items[|items| - 1];
      Criticals(items[..|items| - 1]) + if last.motion then [] else [last]
  }

  /** Every run of motions reduced to its last one. */
  function Collapsed(items: seq<Item>): seq<Item> {
    if items == [] then []
    else
      var last, front := items[|items| - 1], Collapsed(items[..|items| - 1]);
      Coalesced(front, last)
  }

  /** `kept` is `pushed` without some motions that were directly followed by a motion. */
  ghost predicate Thins(pushed: seq<Item>, kept: seq<Item>)
    decreases |pushed|
  {
    if pushed == [] then kept == []
    else
      var n := |pushed| - 1;
      && kept != [] && kept[|kept| - 1] == pushed[n]
      && (|| Thins(pushed[..n], kept[..|kept| - 1])
          || (&& n > 0 && pushed[n].motion && pushed[n - 1].motion
              && Thins(pushed[..n], kept[..|kept| - 1] + [pushed[n - 1]])))
  }

  /** One more item: a motion takes the place of a motion. */
  function Coalesced(items: seq<Item>, item: Item): seq<Item> {
    if item.motion && items != [] && items[|items| - 1].motion then items[..|items| - 1] + [item]
    else items + [item]
  }

  /** Thinning loses no critical event, keeps their order, and keeps the last motion of every run. */
  lemma {:induction false} ThinsKeeps(pushed: seq<Item>, kept: seq<Item>)
    requires Thins(pushed, kept)
    ensures Criticals(kept) == Criticals(pushed)
    ensures Collapsed(kept) == Collapsed(pushed)
    decreases |pushed|
  {
    if pushed != [] {
      var n, front := |pushed| - 1, kept[..|kept| - 1];
      assert pushed == pushed[..n] + [pushed[n]] && kept == front + [pushed[n]];
      if Thins(pushed[..n], front) {
        ThinsKeeps(pushed[..n], front);
      } else {
        ThinsKeeps(pushed[..n], front + [pushed[n - 1]]);
      }
    }
  }

  // ---------------------------------------------------------------- the queue's length

  ghost predicate NoAdjacentMotions(items: seq<Item>) {
    forall i :: 0 <= i < |items| - 1 ==> Apart(items, i)
  }

  ghost predicate Apart(items: seq<Item>, i: nat)
    requires i < |items| - 1
  {
    !(items[i].motion && items[i + 1].motion)
  }

  lemma FrontApart(items: seq<Item>, k: nat)
    requires NoAdjacentMotions(items) && k <= |items|
    ensures NoAdjacentMotions(items[..k]) && NoAdjacentMotions(items[k..])
  {
    forall i | 0 <= i < k - 1
      ensures Apart(items[..k], i)
    {
      assert Apart(items, i);
    }
    forall i | 0 <= i < |items| - k - 1
      ensures Apart(items[k..], i)
    {
      assert Apart(items, k + i);
    }
  }

  lemma {:induction false} LengthBound(items: seq<Item>)
    requires NoAdjacentMotions(items)
    ensures |items| <= 2 * |Criticals(items)| + if items != [] && items[|items| - 1].motion then 1 else 0
  {
    if items != [] {
      FrontApart(items, |items| - 1);
      LengthBound(items[..|items| - 1]);
      if |items| > 1 {
        assert Apart(items, |items| - 2);
      }
    }
  }

  lemma {:induction false} CriticalsTail(items: seq<Item>)
    requires items != []
    ensures Criticals(items) == (if items[0].motion then [] else [items[0]]) + Criticals(items[1..])
  {
    if |items| > 1 {
      var front := items[..|items| - 1];
      CriticalsTail(front);
      assert front[1..] == items[1..][..|items| - 2];
    } else {
      assert items[..0] == [] && items[1..] == [];
    }
  }

  lemma CoalescedThins(pushed: seq<Item>, delivered: seq<Item>, events: seq<Item>, item: Item)
    requires Thins(pushed, delivered + events)
    ensures Thins(pushed + [item], delivered + Coalesced(events, item))
  {
    var kept, r := delivered + events, delivered + Coalesced(events, item);
    var n := |pushed|;
    assert (pushed + [item])[..n] == pushed;
    if item.motion && events != [] && events[|events| - 1].motion {
      assert kept[|kept| - 1] == events[|events| - 1] == pushed[n - 1];
      assert r[..|r| - 1] + [pushed[n - 1]] == kept;
    } else {
      assert r[..|r| - 1] == kept;
    }
  }

  lemma CoalescedShape(events: seq<Item>, item: Item)
    requires NoAdjacentMotions(events)
    ensures NoAdjacentMotions(Coalesced(events, item))
    ensures |Criticals(Coalesced(events, item))| == |Criticals(events)| + if item.motion then 0 else 1
  {
    var r := Coalesced(events, item);
    var front := r[..|r| - 1];
    FrontApart(events, |front|);
    assert front == events[..|front|] && r == front + [item];
    if |front| < |events| {
      assert events == front + [events[|front|]];
    }
    forall i | 0 <= i < |r| - 1
      ensures Apart(r, i)
    {
      if i < |front| - 1 {
        assert Apart(front, i);
      } else if |front| < |events| {
        assert Apart(events, i);
      }
    }
  }

  // ---------------------------------------------------------------- the object

  class EventQueue {
    var events: seq<Item>
    var criticalCount: nat
    var overflowed: bool
    var closed: bool
    /** Accepted and handed out since the start or the last overflow. */
    ghost var pushed: seq<Item>
    ghost var delivered: seq<Item>

    ghost predicate Valid()
      reads this
    {
      && criticalCount == |Criticals(events)| <= CRITICAL_EVENT_CAPACITY
      && NoAdjacentMotions(events)
      && |events| <= 2 * CRITICAL_EVENT_CAPACITY + 1
      && (overflowed ==> events == [])
      && Thins(pushed, delivered + events)
    }

    constructor ()
      ensures Valid() && events == [] && pushed == [] && delivered == [] && !closed && !overflowed
    {
      events, criticalCount, overflowed, closed := [], 0, false, false;
      pushed, delivered := [], [];
    }

    method Push(item: Item) returns (outcome: PushOutcome)
      requires Valid()
      modifies this
      ensures Valid() && closed == old(closed)
      ensures outcome.Overflow? <==>
        old(closed) || old(overflowed) || (!item.motion && |Criticals(old(events))| == CRITICAL_EVENT_CAPACITY)
      ensures outcome.Queued? ==>
        && events == Coalesced(old(events), item) && !overflowed
        && pushed == old(pushed) + [item] && delivered == old(delivered)
      ensures outcome.Overflow? && (old(closed) || old(overflowed)) ==>
        events == old(events) && overflowed == old(overflowed)
        && pushed == old(pushed) && delivered == old(delivered)
      ensures outcome.Overflow? && !old(closed) && !old(overflowed) ==> overflowed && events == []
    {
      if closed || overflowed {
        return Overflow;
      }
      CoalescedThins(pushed, delivered, events, item);
      CoalescedShape(events, item);
      LengthBound(Coalesced(events, item));
      if item.motion {
        if events != [] && events[|events| - 1].motion {
          events := events[|events| - 1 := item];
        } else {
          events := events + [item];
        }
      } else if criticalCount < CRITICAL_EVENT_CAPACITY {
        events := events + [item];
        criticalCount := criticalCount + 1;
      } else {
        events, criticalCount, overflowed := [], 0, true;
        pushed, delivered := [], [];
        return Overflow;
      }
      assert events == Coalesced(old(events), item);
      pushed := pushed + [item];
      return Queued;
    }

    method Poll() returns (r: QueuePoll)
      requires Valid()
      modifies this
      ensures Valid() && closed == old(closed) && !overflowed && pushed == old(pushed)
      ensures r.Overflowed? <==> old(overflowed)
      ensures r.Event? <==> !old(overflowed) && old(events) != []
      ensures r.Closed? <==> !old(overflowed) && old(events) == [] && closed
      ensures r.Event? ==>
        r.item == old(events)[0] && events == old(events)[1..] && delivered == old(delivered) + [r.item]
      ensures !r.Event? ==> events == old(events) && delivered == old(delivered)
    {
      if overflowed {
        overflowed := false;
        return Overflowed;
      }
      if events != [] {
        var item := events[0];
        CriticalsTail(events);
        FrontApart(events, 1);
        assert delivered + events == delivered + [item] + events[1..];
        events := events[1..];
        if !item.motion {
          criticalCount := criticalCount - 1;
        }
        delivered := delivered + [item];
        return Event(item);
      }
      return if closed then Closed else Pending;
    }

    method Close()
      requires Valid()
      modifies this`closed
      ensures Valid() && closed
    {
      closed := true;
    }
  }

  /** Conservation: what was handed out followed by what is queued has exactly the pushed critical
      events in order, and the last motion of every run of motions. */
  lemma Conservation(q: EventQueue)
    requires q.Valid()
    ensures Criticals(q.delivered + q.events) == Criticals(q.pushed)
    ensures Collapsed(q.delivered + q.events) == Collapsed(q.pushed)
  {
    ThinsKeeps(q.pushed, q.delivered + q.events);
  }
}
