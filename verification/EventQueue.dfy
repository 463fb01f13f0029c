/** The Codex adapter's bounded event queue. Deltas of one message are merged while
    they wait; the queue is shown to refine a plain one. */
module EventQueue {
  import opened LedgerTypes

  const MAXIMUM_QUEUED := 1024
  const MAXIMUM_DELTA := 4096

  /** `plain` deltas carry inline, untruncated text and may be merged. */
  datatype Item =
    | TurnStarted
    | ProtocolUnknown
    | TextDelta(message: Id, index: int, plain: bool, redaction: Id, text: seq<int>)
    | OtherItem(id: Id)

  datatype Verdict = VerdictUnknown | VerdictOf(id: Id)

  datatype Queue = Queue(events: seq<Item>, pending: seq<Item>, activated: bool, closed: bool, failed: bool,
                         terminal: Option<Verdict>, deltas: map<Id, int>)

  const EMPTY := Queue([], [], false, false, false, None, map[])

  function NextIndex(deltas: map<Id, int>, m: Id): int {
    if m in deltas then deltas[m] else 0
  }

  predicate Mergeable(last: Item, e: Item) {
    && last.TextDelta? && e.TextDelta? && last.message == e.message && last.plain && e.plain
    && last.redaction == e.redaction
    && |last.text| + |e.text| <= MAXIMUM_DELTA
  }

  /** appendEventLocked on the list and the index counters. */
  function Append(list: seq<Item>, deltas: map<Id, int>, e: Item): (seq<Item>, map<Id, int>) {
    if !e.TextDelta? then (list + [e], deltas)
    else if list != [] && Mergeable(list[|list| - 1], e) then
      (list[..|list| - 1] + [list[|list| - 1].(text := list[|list| - 1].text + e.text)], deltas)
    else
      var k := NextIndex(deltas, e.message);
      (list + [e.(index := k)], deltas[e.message := k + 1])
  }

  function Overflow(q: Queue): Queue {
    q.(pending := [], events := [ProtocolUnknown], terminal := Some(VerdictUnknown), failed := true, closed := true)
  }

  function Enqueue(q: Queue, e: Item): Queue {
    var (list, deltas) := Append(q.events, q.deltas, e);
    var q1 := q.(events := list, deltas := deltas);
    if |list| > MAXIMUM_QUEUED then Overflow(q1) else q1
  }

  function Admit(q: Queue, e: Item): Queue {
    if q.activated then Enqueue(q, e)
    else
      var (list, deltas) := Append(q.pending, q.deltas, e);
      var q1 := q.(pending := list, deltas := deltas);
      if |list| > MAXIMUM_QUEUED then Overflow(q1) else q1
  }

  /** An offered event; `None` is nil or an event of another attempt. */
  type Offer = Option<Item>

  function Push(q: Queue, o: Offer): Queue {
    if q.closed then q else if o.None? then Overflow(q) else Admit(q, o.value)
  }

  function Activate(q: Queue): Queue {
    if q.activated then q
    else
      var q1 := q.(activated := true);
      if q.failed then q1
      else
        var q2 := Enqueue(q1, TurnStarted);
        var full := |q2.events| + |q2.pending| > MAXIMUM_QUEUED;
        (if full then Overflow(q2) else q2.(events := q2.events + q2.pending)).(pending := [])
  }

  function FinishWith(q: Queue, v: Verdict, offers: seq<Offer>): Queue
    decreases |offers|
  {
    if offers == [] then q.(terminal := Some(v), closed := true)
    else if offers[0].None? then Overflow(q)
    else
      var q1 := Admit(q, offers[0].value);
      if q1.failed then q1 else FinishWith(q1, v, offers[1..])
  }

  function Finish(q: Queue, v: Verdict, offers: seq<Offer>): Queue {
    if q.closed then q else FinishWith(q, v, offers)
  }

  // ------------------------------------------------------------- in place

  class AttemptRuntime {
    var events: seq<Item>
    var pending: seq<Item>
    var activated: bool
    var closed: bool
    var failed: bool
    var terminal: Option<Verdict>
    var deltas: map<Id, int>

    ghost function State(): Queue
      reads this
    {
      Queue(events, pending, activated, closed, failed, terminal, deltas)
    }

    constructor ()
      ensures State() == EMPTY
    {
      events, pending, activated, closed, failed, terminal, deltas := [], [], false, false, false, None, map[];
    }

    method OverflowLocked()
      modifies this
      ensures State() == Overflow(old(State()))
    {
      pending := [];
      events := [ProtocolUnknown];
      terminal := Some(VerdictUnknown);
      failed := true;
      closed := true;
    }

    /** appendEventLocked: returns the list it was given with the event in it. */
    method AppendLocked(list: seq<Item>, e: Item) returns (r: seq<Item>)
      modifies this`deltas
      ensures (r, deltas) == Append(list, old(deltas), e)
    {
      if !e.TextDelta? { return list + [e]; }
      if |list| > 0 && Mergeable(list[|list| - 1], e) {
        var previous := list[|list| - 1];
        previous := previous.(text := previous.text + e.text);
        assert list[|list| - 1 := previous] == list[..|list| - 1] + [previous];
        return list[|list| - 1 := previous];
      }
      var delta := e.(index := NextIndex(deltas, e.message));
      deltas := deltas[delta.message := NextIndex(deltas, delta.message) + 1];
      return list + [delta];
    }

    method EnqueueLocked(e: Item)
      modifies this
      ensures State() == Enqueue(old(State()), e)
    {
      events := AppendLocked(events, e);
      if |events| > MAXIMUM_QUEUED { OverflowLocked(); }
    }

    method ActivateRuntime()
      modifies this
      ensures State() == Activate(old(State()))
    {
      if activated { return; }
      activated := true;
      if failed { return; }
      EnqueueLocked(TurnStarted);
      if |events| + |pending| > MAXIMUM_QUEUED {
        OverflowLocked();
      } else {
        events := events + pending;
      }
      pending := [];
    }

    method AdmitLocked(e: Item)
      modifies this
      ensures State() == Admit(old(State()), e)
    {
      if activated {
        EnqueueLocked(e);
      } else {
        pending := AppendLocked(pending, e);
        if |pending| > MAXIMUM_QUEUED { OverflowLocked(); }
      }
    }

    method PushEvent(o: Offer)
      modifies this
      ensures State() == Push(old(State()), o)
    {
      if closed { return; }
      if o.None? {
        OverflowLocked();
        return;
      }
      AdmitLocked(o.value);
    }

    method FinishAttempt(v: Verdict, offers: seq<Offer>)
      modifies this
      requires failed ==> closed
      ensures State() == Finish(old(State()), v, offers)
    {
      if closed { return; }
      var i := 0;
      while i < |offers|
        invariant 0 <= i <= |offers| && !failed && closed == old(closed)
        invariant FinishWith(old(State()), v, offers) == FinishWith(State(), v, offers[i..])
      {
        if offers[i].None? {
          OverflowLocked();
          return;
        }
        AdmitLocked(offers[i].value);
        assert offers[i..][1..] == offers[i + 1..];
        if failed { return; }
        i := i + 1;
      }
      if closed { return; }
      terminal := Some(v);
      closed := true;
    }

    method Next() returns (e: Option<Item>)
      modifies this`events
      ensures old(events) == [] ==> e.None? && State() == old(State())
      ensures old(events) != [] ==> e == Some(old(events)[0]) && State() == old(State()).(events := old(events)[1..])
    {
      if |events| == 0 { return None; }
      e := Some(events[0]);
      events := events[1..];
    }
  }
}
