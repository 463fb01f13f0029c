/** The queue with merged deltas refines a plain queue of everything accepted. */
module EventQueueTheorems {
  import opened LedgerTypes
  import opened EventQueue

  // ---------------------------------------------------- what merging preserves

  /** The indivisible parts of the stream: bytes of mergeable text, other deltas
      and other events. Indices are not part of it. */
  datatype Atom =
    | Char(message: Id, redaction: Id, b: int)
    | Block(message: Id, redaction: Id, text: seq<int>)
    | Solid(item: Item)

  function Chars(message: Id, redaction: Id, text: seq<int>): seq<Atom> {
    seq(|text|, i requires 0 <= i < |text| => Char(message, redaction, text[i]))
  }

  function AtomsOf(e: Item): seq<Atom> {
    if !e.TextDelta? then [Solid(e)]
    else if e.plain then Chars(e.message, e.redaction, e.text)
    else [Block(e.message, e.redaction, e.text)]
  }

  function Atoms(list: seq<Item>): seq<Atom> {
    if list == [] then [] else Atoms(list[..|list| - 1]) + AtomsOf(list[|list| - 1])
  }

  lemma AtomsPush(list: seq<Item>, e: Item)
    ensures Atoms(list + [e]) == Atoms(list) + AtomsOf(e)
  {
    assert (list + [e])[..|list|] == list;
  }

  lemma AtomsLast(list: seq<Item>)
    requires list != []
    ensures Atoms(list) == Atoms(list[..|list| - 1]) + AtomsOf(list[|list| - 1])
  {
  }

  lemma AtomsNone()
    ensures Atoms([]) == []
  {
  }

  lemma {:induction false} AtomsConcat(a: seq<Item>, b: seq<Item>)
    ensures Atoms(a + b) == Atoms(a) + Atoms(b)
    decreases |b|
  {
    hide Atoms, AtomsOf;
    if b == [] {
      AtomsNone();
      assert a + b == a;
    } else {
      var c := b[..|b| - 1];
      AtomsConcat(a, c);
      AtomsLast(b);
      AtomsLast(a + b);
      assert (a + b)[..|a + b| - 1] == a + c;
    }
  }

  /** Whether or not it merges, appending adds exactly the event's atoms. */
  lemma AppendAtoms(list: seq<Item>, deltas: map<Id, int>, e: Item)
    ensures Atoms(Append(list, deltas, e).0) == Atoms(list) + AtomsOf(e)
  {
    hide NextIndex;
    if e.TextDelta? && list != [] && Mergeable(list[|list| - 1], e) {
      var last := list[|list| - 1];
      var merged := last.(text := last.text + e.text);
      AtomsPush(list[..|list| - 1], merged);
      assert AtomsOf(merged) == AtomsOf(last) + AtomsOf(e);
    } else if e.TextDelta? {
      AtomsPush(list, e.(index := NextIndex(deltas, e.message)));
    } else {
      AtomsPush(list, e);
    }
  }

  // ------------------------------------------------------------ delta indices

  function Indices(list: seq<Item>, m: Id): seq<int> {
    if list == [] then []
    else
      var last := list[|list| - 1];
      Indices(list[..|list| - 1], m) + (if last.TextDelta? && last.message == m then [last.index] else [])
  }

  lemma {:induction false} IndicesConcat(a: seq<Item>, b: seq<Item>, m: Id)
    ensures Indices(a + b, m) == Indices(a, m) + Indices(b, m)
    decreases |b|
  {
    if b == [] {
      assert a + b == a;
    } else {
      IndicesConcat(a, b[..|b| - 1], m);
      assert (a + b)[..|a + b| - 1] == a + b[..|b| - 1];
    }
  }

  /** The deltas of every message are numbered 0, 1, 2 and so on. */
  ghost predicate InOrder(list: seq<Item>) {
    forall m, i :: 0 <= i < |Indices(list, m)| ==> Indices(list, m)[i] == i
  }

  ghost predicate Counted(list: seq<Item>, deltas: map<Id, int>) {
    forall m :: |Indices(list, m)| == NextIndex(deltas, m)
  }

  lemma PrefixInOrder(a: seq<Item>, b: seq<Item>)
    requires InOrder(a + b)
    ensures InOrder(a)
  {
    forall m, i | 0 <= i < |Indices(a, m)|
      ensures Indices(a, m)[i] == i
    {
      IndicesConcat(a, b, m);
      assert Indices(a + b, m)[i] == i;
    }
  }

  lemma AppendIndices(list: seq<Item>, deltas: map<Id, int>, e: Item, m: Id)
    ensures var (next, counts) := Append(list, deltas, e);
      if counts == deltas then Indices(next, m) == Indices(list, m)
      else Indices(next, m) == Indices(list, m) + (if e.message == m then [NextIndex(deltas, m)] else [])
  {
    var (next, counts) := Append(list, deltas, e);
    assert next != [];
    if e.TextDelta? && list != [] && Mergeable(list[|list| - 1], e) {
      assert next[..|next| - 1] == list[..|list| - 1];
    } else {
      assert next[..|next| - 1] == list;
      if e.TextDelta? {
        assert counts[e.message] == NextIndex(deltas, e.message) + 1;
        assert counts != deltas;
      }
    }
  }

  /** Appending behind a numbered prefix keeps the numbering. */
  lemma AppendNumbered(before: seq<Item>, list: seq<Item>, deltas: map<Id, int>, e: Item)
    requires InOrder(before + list) && Counted(before + list, deltas)
    ensures var (next, counts) := Append(list, deltas, e); InOrder(before + next) && Counted(before + next, counts)
  {
    var (next, counts) := Append(list, deltas, e);
    forall m
      ensures |Indices(before + next, m)| == NextIndex(counts, m)
      ensures forall i :: 0 <= i < |Indices(before + next, m)| ==> Indices(before + next, m)[i] == i
    {
      IndicesConcat(before, list, m);
      IndicesConcat(before, next, m);
      AppendIndices(list, deltas, e, m);
      var old_ := Indices(before + list, m);
      assert |old_| == NextIndex(deltas, m);
      assert forall i :: 0 <= i < |old_| ==> old_[i] == i;
      if counts == deltas {
        assert Indices(before + next, m) == old_;
      } else if e.message == m {
        assert Indices(before + next, m) == old_ + [NextIndex(deltas, m)];
      } else {
        assert Indices(before + next, m) == old_;
      }
    }
  }

  // ------------------------------------------------------------------- runs

  datatype Op = OpPush(offer: Offer) | OpActivate | OpFinish(verdict: Verdict, offers: seq<Offer>) | OpNext

  /** The queue with its history: what Next returned and what was accepted. */
  datatype Track = Track(q: Queue, delivered: seq<Item>, accepted: seq<Item>)

  /** The offers Finish takes before it stops. */
  function Taken(q: Queue, offers: seq<Offer>): seq<Item>
    decreases |offers|
  {
    if offers == [] || offers[0].None? then []
    else
      var q1 := Admit(q, offers[0].value);
      [offers[0].value] + (if q1.failed then [] else Taken(q1, offers[1..]))
  }

  function Step(t: Track, op: Op): Track {
    match op
    case OpPush(o) =>
      Track(Push(t.q, o), t.delivered, if t.q.closed || o.None? then t.accepted else t.accepted + [o.value])
    case OpActivate => t.(q := Activate(t.q))
    case OpFinish(v, offers) =>
      Track(Finish(t.q, v, offers), t.delivered, if t.q.closed then t.accepted else t.accepted + Taken(t.q, offers))
    case OpNext =>
      if t.q.events == [] then t
      else Track(t.q.(events := t.q.events[1..]), t.delivered + [t.q.events[0]], t.accepted)
  }

  function Run(ops: seq<Op>): Track {
    if ops == [] then Track(EMPTY, [], []) else Step(Run(ops[..|ops| - 1]), ops[|ops| - 1])
  }

  function Whole(t: Track): seq<Item> {
    t.delivered + t.q.events + t.q.pending
  }

  /** What a plain queue would have carried. */
  function Plain(t: Track): seq<Item> {
    (if t.q.activated then [TurnStarted] else []) + t.accepted
  }

  ghost predicate Refines(t: Track) {
    Atoms(Whole(t)) == Atoms(Plain(t)) && InOrder(Whole(t)) && Counted(Whole(t), t.q.deltas)
  }

  /** After an overflow: a true prefix was delivered, then one unknown event. */
  ghost predicate Collapsed(t: Track) {
    var out := t.delivered + t.q.events;
    && out != [] && out[|out| - 1] == ProtocolUnknown
    && Atoms(out[..|out| - 1]) <= Atoms([TurnStarted] + t.accepted) && InOrder(out[..|out| - 1])
  }

  ghost predicate Shape(q: Queue) {
    && |q.events| <= MAXIMUM_QUEUED && |q.pending| <= MAXIMUM_QUEUED
    && (q.activated || q.failed ==> q.pending == [])
    && (q.closed <==> q.terminal.Some?)
    && (q.failed ==> q.closed && q.terminal == Some(VerdictUnknown))
    && (!q.activated && !q.failed ==> q.events == [])
  }

  ghost predicate TrackInv(t: Track) {
    && Shape(t.q) && (!t.q.activated && !t.q.failed ==> t.delivered == [])
    && (if t.q.failed then Collapsed(t) else Refines(t))
  }

  /** An overflow, whatever brought it about. */
  lemma OverflowCollapses(t: Track, q: Queue, accepted: seq<Item>)
    requires TrackInv(t) && !t.q.failed && t.accepted <= accepted && q.activated == t.q.activated
    ensures TrackInv(Track(Overflow(q), t.delivered, accepted))
  {
    hide Atoms, AtomsOf, Indices;
    var out := t.delivered + [ProtocolUnknown];
    assert out[..|out| - 1] == t.delivered;
    var rest := t.q.events + t.q.pending;
    assert Whole(t) == t.delivered + rest;
    AtomsConcat(t.delivered, rest);
    PrefixInOrder(t.delivered, rest);
    assert accepted == t.accepted + accepted[|t.accepted|..];
    if t.q.activated {
      AtomsConcat([TurnStarted] + t.accepted, accepted[|t.accepted|..]);
      assert ([TurnStarted] + t.accepted) + accepted[|t.accepted|..] == [TurnStarted] + accepted;
    }
  }

  lemma AdmitKeeps(t: Track, e: Item)
    requires TrackInv(t) && !t.q.closed
    ensures TrackInv(Track(Admit(t.q, e), t.delivered, t.accepted + [e])) && Admit(t.q, e).activated == t.q.activated
    ensures Admit(t.q, e).failed == Admit(t.q, e).closed
  {
    hide Atoms, InOrder, Counted, Append;
    var q1 := Admit(t.q, e);
    if q1.failed {
      var (events, deltas) := Append(if t.q.activated then t.q.events else t.q.pending, t.q.deltas, e);
      var q0 := if t.q.activated then t.q.(events := events, deltas := deltas)
                else t.q.(pending := events, deltas := deltas);
      OverflowCollapses(t, q0, t.accepted + [e]);
    } else {
      AdmitRefines(t, e);
    }
  }

  lemma AdmitRefines(t: Track, e: Item)
    requires TrackInv(t) && !t.q.closed && !Admit(t.q, e).failed
    ensures Refines(Track(Admit(t.q, e), t.delivered, t.accepted + [e]))
  {
    hide Atoms, AtomsOf, InOrder, Counted, Append;
    var n := Track(Admit(t.q, e), t.delivered, t.accepted + [e]);
    var list := if t.q.activated then t.q.events else t.q.pending;
    var before := t.delivered + (if t.q.activated then [] else t.q.events);
    var next := Append(list, t.q.deltas, e).0;
    assert Whole(t) == before + list && Whole(n) == before + next;
    AppendAtoms(list, t.q.deltas, e);
    AtomsConcat(before, list);
    AtomsConcat(before, next);
    AtomsPush(Plain(t), e);
    assert Plain(n) == Plain(t) + [e];
    AppendNumbered(before, list, t.q.deltas, e);
  }

  lemma {:induction false} FinishKeeps(t: Track, v: Verdict, offers: seq<Offer>)
    requires TrackInv(t) && !t.q.closed
    ensures TrackInv(Track(FinishWith(t.q, v, offers), t.delivered, t.accepted + Taken(t.q, offers)))
    decreases |offers|
  {
    hide Atoms, InOrder, Counted, Append, Overflow;
    if offers == [] {
      assert t.accepted + [] == t.accepted;
      var n := Track(FinishWith(t.q, v, offers), t.delivered, t.accepted);
      assert Whole(n) == Whole(t) && Plain(n) == Plain(t);
    } else if offers[0].None? {
      assert t.accepted + [] == t.accepted;
      OverflowCollapses(t, t.q, t.accepted);
    } else {
      var e := offers[0].value;
      var t1 := Track(Admit(t.q, e), t.delivered, t.accepted + [e]);
      AdmitKeeps(t, e);
      if t1.q.failed {
        assert Taken(t.q, offers) == [e];
      } else {
        FinishKeeps(t1, v, offers[1..]);
        assert t1.accepted + Taken(t1.q, offers[1..]) == t.accepted + Taken(t.q, offers);
      }
    }
  }

  lemma ActivateKeeps(t: Track)
    requires TrackInv(t)
    ensures TrackInv(t.(q := Activate(t.q)))
  {
    hide Atoms, InOrder, Counted;
    if !t.q.activated && !t.q.failed {
      var q1 := t.q.(activated := true, events := [TurnStarted]);
      assert Enqueue(t.q.(activated := true), TurnStarted) == q1;
      assert t.delivered == [];
      if 1 + |t.q.pending| > MAXIMUM_QUEUED {
        assert Activate(t.q) == Overflow(q1);
        CollapseFresh(t, q1);
      } else {
        ActivateRefines(t);
      }
    } else if t.q.failed {
      assert t.q.(activated := true).events == t.q.events;
    }
  }

  lemma CollapseFresh(t: Track, q: Queue)
    requires t.delivered == []
    ensures TrackInv(t.(q := Overflow(q)))
  {
    assert ([] + [ProtocolUnknown])[..0] == [];
  }

  lemma Activates(q: Queue)
    requires !q.activated && !q.failed && q.events == [] && 1 + |q.pending| <= MAXIMUM_QUEUED
    ensures Activate(q) == q.(activated := true, events := [TurnStarted] + q.pending, pending := [])
  {
    assert Enqueue(q.(activated := true), TurnStarted) == q.(activated := true, events := [TurnStarted]);
  }

  lemma ActivateRefines(t: Track)
    requires TrackInv(t) && !t.q.activated && !t.q.failed && 1 + |t.q.pending| <= MAXIMUM_QUEUED
    ensures TrackInv(t.(q := Activate(t.q)))
  {
    hide Atoms, Activate, Append;
    Activates(t.q);
    var n := t.(q := Activate(t.q));
    assert Whole(t) == t.q.pending && Whole(n) == [TurnStarted] + t.q.pending;
    AtomsConcat([TurnStarted], t.q.pending);
    AtomsConcat([TurnStarted], t.accepted);
    assert Plain(t) == t.accepted;
    forall m
      ensures Indices(Whole(n), m) == Indices(Whole(t), m)
    {
      IndicesConcat([TurnStarted], t.q.pending, m);
      assert Indices([TurnStarted], m) == [];
    }
  }

  lemma NextKeeps(t: Track)
    requires TrackInv(t) && t.q.events != []
    ensures TrackInv(Step(t, OpNext))
  {
    hide Atoms, InOrder, Counted, Append;
    var n := Step(t, OpNext);
    assert n.delivered + n.q.events == t.delivered + t.q.events;
    assert Whole(n) == Whole(t);
  }

  lemma {:induction false} RunKeeps(ops: seq<Op>)
    ensures TrackInv(Run(ops))
    decreases |ops|
  {
    if ops != [] {
      var t := Run(ops[..|ops| - 1]);
      RunKeeps(ops[..|ops| - 1]);
      match ops[|ops| - 1]
      case OpPush(o) =>
        if !t.q.closed {
          if o.None? { OverflowCollapses(t, t.q, t.accepted); } else { AdmitKeeps(t, o.value); }
        }
      case OpActivate => ActivateKeeps(t);
      case OpFinish(v, offers) => if !t.q.closed { FinishKeeps(t, v, offers); }
      case OpNext => if t.q.events != [] { NextKeeps(t); }
    }
  }

  /** Without an overflow, what was delivered and what is queued is together exactly
      what was accepted, byte for byte and in order, the deltas of each message are
      numbered from 0 without gaps, and no list is longer than its bound. */
  lemma CoalescingRefines(ops: seq<Op>)
    requires !Run(ops).q.failed
    ensures var t := Run(ops);
      && Atoms(t.delivered + t.q.events + t.q.pending) ==
           Atoms((if t.q.activated then [TurnStarted] else []) + t.accepted)
      && (forall m, i :: 0 <= i < |Indices(t.delivered + t.q.events + t.q.pending, m)| ==>
           Indices(t.delivered + t.q.events + t.q.pending, m)[i] == i)
      && |t.q.events| <= 1024 && |t.q.pending| <= 1024
  {
    RunKeeps(ops);
  }

  /** After an overflow the stream is closed with an unknown result, nothing is
      pending, and the consumer sees a true prefix followed by one unknown event. */
  lemma OverflowLeavesUnknown(ops: seq<Op>)
    requires Run(ops).q.failed
    ensures var t := Run(ops);
      && t.q.closed && t.q.terminal == Some(VerdictUnknown) && t.q.pending == []
      && Collapsed(t)
  {
    RunKeeps(ops);
  }

  /** A recorded result is downgraded by exactly one step: an activation that finds
      a closed, healthy queue with no room left for the started event. */
  lemma ResultStability(ops: seq<Op>, op: Op)
    requires Run(ops).q.terminal.Some?
    ensures var q := Run(ops).q;
      Step(Run(ops), op).q.terminal ==
        if op.OpActivate? && !q.activated && !q.failed && |q.pending| >= 1024 then Some(VerdictUnknown) else q.terminal
  {
    RunKeeps(ops);
  }

  /** As many events before the activation as the queue can hold. */
  function Fill(n: nat): seq<Op> {
    seq(n, _ => OpPush(Some(OtherItem(0))))
  }

  lemma {:induction false} Filled(n: nat)
    requires n <= MAXIMUM_QUEUED
    ensures Run(Fill(n)).q == EMPTY.(pending := seq(n, _ => OtherItem(0)))
  {
    if n > 0 {
      Filled(n - 1);
      assert Fill(n)[..n - 1] == Fill(n - 1);
      assert seq(n - 1, _ => OtherItem(0)) + [OtherItem(0)] == seq(n, _ => OtherItem(0));
    }
  }

  /** Any result can be downgraded: 1024 events that do not merge, then the finish,
      then the activation. */
  lemma ResultCanChange(v: Verdict) returns (ops: seq<Op>)
    ensures Run(ops).q.terminal == Some(v) && Run(ops + [OpActivate]).q.terminal == Some(VerdictUnknown)
  {
    hide Step;
    var filled := Fill(MAXIMUM_QUEUED);
    Filled(MAXIMUM_QUEUED);
    ops := filled + [OpFinish(v, [])];
    assert ops[..|ops| - 1] == filled;
    Finished(Run(filled), v);
    ResultStability(ops, OpActivate);
    assert (ops + [OpActivate])[..|ops|] == ops;
  }

  lemma Finished(t: Track, v: Verdict)
    requires !t.q.closed
    ensures Step(t, OpFinish(v, [])).q == t.q.(terminal := Some(v), closed := true)
  {
  }
}
