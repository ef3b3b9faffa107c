/**
 * The recent-history list `HISTORY` and `add_to_history` (app.py:7-21):
 * append one event, and when the list has grown past ten drop its head.
 */
module Ledger {
  import opened Rounding
  import opened ModelUtils
  import opened Hybrid

  /** How many events the history keeps (app.py:20). */
  const Capacity: nat := 10

  /**
   * One history row. The wall-clock time is supplied by the caller; the
   * disk reading is not recorded, as in the source.
   */
  datatype Event = Event(
    time: string, risk: real, level: Tier,
    cpu: real, memory: real, latency: real, error: real, queue: real)

  /** The row `add_to_history` builds: the risk rounded to two decimals and five of the readings. */
  function MakeEvent(time: string, risk: real, level: Tier, m: Metrics): (e: Event)
    ensures e.time == time && e.level == level && e.risk == Round2(risk)
    ensures e.cpu == m.cpu && e.memory == m.memory && e.latency == m.latency
    ensures e.error == m.errorRate && e.queue == m.queue
  {
    Event(time, Round2(risk), level, m.cpu, m.memory, m.latency, m.errorRate, m.queue)
  }

  /** The history's invariant: it never holds more than ten rows. */
  predicate WithinCapacity(h: seq<Event>) {
    |h| <= Capacity
  }

  /** The history after one `add_to_history`: append, then drop the head if the list is too long. */
  function Step(h: seq<Event>, e: Event): (r: seq<Event>)
    ensures WithinCapacity(h) ==> WithinCapacity(r)
    ensures |r| > 0 && r[|r| - 1] == e
    ensures |h| < Capacity ==> r == h + [e]
    ensures |h| >= Capacity ==> r == h[1..] + [e]
  {
    var grown := h + [e];
    if |grown| > Capacity then grown[1..] else grown
  }

  /** The history after a run of calls, oldest call first. */
  function Replay(h: seq<Event>, es: seq<Event>): seq<Event>
    decreases |es|
  {
    if es == [] then h else Replay(Step(h, es[0]), es[1..])
  }

  /** The last `k` elements of `s`, or all of it when it is shorter. */
  function Newest(s: seq<Event>, k: nat): (r: seq<Event>)
    ensures |r| == if |s| <= k then |s| else k
    ensures forall i :: 0 <= i < |r| ==> r[i] == s[|s| - |r| + i]
  {
    if |s| <= k then s else s[|s| - k..]
  }

  /** One step keeps the newest ten of the history plus the new event. */
  lemma StepIsNewest(h: seq<Event>, e: Event)
    requires WithinCapacity(h)
    ensures Step(h, e) == Newest(h + [e], Capacity)
  {
  }

  /** Dropping old elements from the front does not change which ten are newest after an extension. */
  lemma NewestOfSuffix(s: seq<Event>, t: seq<Event>, rest: seq<Event>)
    requires t == Newest(s, Capacity)
    ensures Newest(t + rest, Capacity) == Newest(s + rest, Capacity)
  {
    if |s| > Capacity {
      var d := |s| - Capacity;
      assert s + rest == s[..d] + (t + rest);
      assert (s + rest)[d..] == t + rest;
    }
  }

  /**
   * From any history within capacity, a run of calls leaves exactly the
   * newest ten of the old history followed by the new events, in order.
   */
  lemma {:induction false} ReplayKeepsNewest(h: seq<Event>, es: seq<Event>)
    requires WithinCapacity(h)
    ensures Replay(h, es) == Newest(h + es, Capacity)
    decreases |es|
  {
    if es == [] {
      assert h + es == h;
    } else {
      var h', s := Step(h, es[0]), h + [es[0]];
      StepIsNewest(h, es[0]);
      assert s + es[1..] == h + es;
      calc {
        Replay(h, es);
        Replay(h', es[1..]);
        { ReplayKeepsNewest(h', es[1..]); }
        Newest(h' + es[1..], Capacity);
        { NewestOfSuffix(s, h', es[1..]); }
        Newest(s + es[1..], Capacity);
      }
    }
  }

  /** Starting empty, the history is the last min(N, 10) events in their original order. */
  lemma ReplayFromEmpty(es: seq<Event>)
    ensures Replay([], es) == Newest(es, Capacity)
    ensures WithinCapacity(Replay([], es))
  {
    ReplayKeepsNewest([], es);
    assert [] + es == es;
  }

  /** Eleven calls from empty keep events 2 to 11 and lose the first. */
  lemma ElevenCallsDropTheFirst(es: seq<Event>)
    requires |es| == 11
    ensures Replay([], es) == es[1..]
  {
    ReplayFromEmpty(es);
  }

  /** The history list: a single owner appends to it. */
  class History {
    var events: seq<Event>

    ghost predicate Valid()
      reads this
    {
      WithinCapacity(events)
    }

    constructor ()
      ensures Valid() && events == []
    {
      events := [];
    }

    /** `add_to_history`: append the new row, then `pop(0)` if the list is longer than ten. */
    method Append(time: string, risk: real, level: Tier, m: Metrics)
      modifies this
      ensures events == Step(old(events), MakeEvent(time, risk, level, m))
      ensures old(Valid()) ==> Valid()
      ensures events[|events| - 1] == MakeEvent(time, risk, level, m)
      ensures |old(events)| < Capacity ==> events == old(events) + [MakeEvent(time, risk, level, m)]
      ensures |old(events)| >= Capacity ==> events == old(events)[1..] + [MakeEvent(time, risk, level, m)]
    {
      events := events + [MakeEvent(time, risk, level, m)];
      if |events| > Capacity {
        events := events[1..];
      }
    }
  }
}
