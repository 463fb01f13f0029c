/** Bounded replay of the event log, and the follower that strings replays together
    while the log grows and dialogs are deleted. */
module EventReplay {
  import opened LedgerTypes
  import opened LedgerInvariant
  import opened Supervisor
  import opened SystemInvariant
  import opened Recovery
  import opened SystemSteps
  import opened SupervisorTheorems

  const MAXIMUM_WINDOW := 100
  const MAXIMUM_BYTES := 8 * 1024 * 1024 - 1024

  /** eventBelongsToDeletedDialog */
  predicate OfDeleted(db: Ledger, e: Event) {
    && !e.kind.DialogDeleted?
    && (|| (e.dialog.Some? && e.dialog.value in db.tombstones)
        || (e.kind.DispositionChanged? && e.kind.message in db.messages
            && db.messages[e.kind.message].dialog in db.tombstones)
        || (e.kind.MessageAccepted? && e.kind.acceptedDialog in db.tombstones))
  }

  /** The rows of the query: the first `limit` stored numbers after the cursor. */
  ghost predicate QueryRows(events: map<int, Event>, after: int, limit: int, rows: seq<int>) {
    && |rows| <= limit
    && (forall i :: 0 <= i < |rows| ==> rows[i] in events && rows[i] > after)
    && (forall i, j :: 0 <= i < j < |rows| ==> rows[i] < rows[j])
    && (forall k :: k in events && k > after && k !in rows ==> |rows| == limit && forall i :: 0 <= i < |rows| ==>
         rows[i] < k)
  }

  /** A contiguous piece of the log behind a cursor. */
  ghost predicate Follows(events: map<int, Event>, after: int, got: seq<Event>) {
    forall i :: 0 <= i < |got| ==> EventAt(events, after + 1 + i, got[i])
  }

  predicate EventAt(events: map<int, Event>, k: int, e: Event) {
    k in events && events[k] == e
  }

  lemma ContiguousRows(db: Ledger, after: int, limit: int, rows: seq<int>)
    requires LogInv(db.events, db.node.lastSeq) && 0 <= after && QueryRows(db.events, after, limit, rows)
    ensures forall i :: 0 <= i < |rows| ==> rows[i] == after + 1 + i
  {
    var i := 0;
    while i < |rows|
      invariant 0 <= i <= |rows|
      invariant forall j :: 0 <= j < i ==> rows[j] == after + 1 + j
    {
      if i > 0 { assert rows[i - 1] < rows[i]; }
      assert rows[i] in db.events;
      var k := after + 1 + i;
      assert k < rows[i] ==> k in db.events;
      i := i + 1;
    }
  }

  /** The window loop: consecutive rows within the byte budget, or a gap. */
  method ReadWindow(events: map<int, Event>, after: int, rows: seq<int>, sizes: seq<nat>)
      returns (r: Option<seq<Event>>)
    requires |sizes| == |rows| && forall i :: 0 <= i < |rows| ==> rows[i] in events
    ensures r.Some? ==> |r.value| <= |rows| && forall j :: 0 <= j < |r.value| ==>
        rows[j] == after + 1 + j && r.value[j] == events[rows[j]]
    ensures r.None? ==> exists j :: 0 <= j < |rows| && rows[j] != after + 1 + j
    ensures r == Some([]) && rows != [] ==> sizes[0] > MAXIMUM_BYTES
  {
    var window: seq<Event>, total, expected, i := [], 0, after + 1, 0;
    while i < |rows|
      invariant 0 <= i <= |rows| && |window| == i && expected == after + 1 + i && (i == 0 ==> total == 0)
      invariant forall j :: 0 <= j < i ==> rows[j] == after + 1 + j && window[j] == events[rows[j]]
    {
      if rows[i] != expected { return None; }
      if total + sizes[i] > MAXIMUM_BYTES { break; }
      window := window + [events[rows[i]]];
      total := total + sizes[i];
      expected := expected + 1;
      i := i + 1;
    }
    return Some(window);
  }

  /** ReplayEvents: `sizes` are the encoded lengths of the rows. A window is returned
      whole or not at all; a gap or an event of a deleted dialog refuses it. */
  method ReplayEvents(db: Ledger, after: int, limit: int, rows: seq<int>, sizes: seq<nat>)
      returns (r: Option<seq<Event>>)
    requires QueryRows(db.events, after, limit, rows) && |sizes| == |rows|
    ensures after < 0 || limit < 1 || limit > MAXIMUM_WINDOW || after > db.node.lastSeq ==> r.None?
    ensures r.Some? ==>
      && |r.value| <= |rows| && Follows(db.events, after, r.value)
      && forall i :: 0 <= i < |r.value| ==> !OfDeleted(db, r.value[i])
    ensures
      r.None? && 0 <= after <= db.node.lastSeq && 1 <= limit <= MAXIMUM_WINDOW && LogInv(db.events, db.node.lastSeq) ==>
      exists i :: 0 <= i < |rows| && OfDeleted(db, db.events[rows[i]])
    ensures r == Some([]) && rows != [] ==> sizes[0] > MAXIMUM_BYTES
  {
    hide OfDeleted, LogInv;
    if after < 0 || limit < 1 || limit > MAXIMUM_WINDOW || after > db.node.lastSeq { return None; }
    var window := ReadWindow(db.events, after, rows, sizes);
    if LogInvHolds(db) { ContiguousRows(db, after, limit, rows); }
    if window.None? { return None; }
    var i := 0;
    while i < |window.value|
      invariant 0 <= i <= |window.value|
      invariant forall j :: 0 <= j < i ==> !OfDeleted(db, window.value[j])
    {
      if OfDeleted(db, window.value[i]) { return None; }
      i := i + 1;
    }
    return window;
  }

  ghost predicate LogInvHolds(db: Ledger) {
    LogInv(db.events, db.node.lastSeq)
  }

  // --------------------------------------------------------------- follower

  /** The database as the follower finds it at each of its polls. */
  ghost predicate Polls(snapshots: seq<Ledger>) {
    && (forall i :: 0 <= i < |snapshots| ==> LogInv(snapshots[i].events, snapshots[i].node.lastSeq))
    && (forall i, j :: 0 <= i <= j < |snapshots| ==> LogKept(snapshots[i].events, snapshots[j].events))
  }

  /** The answers to the follower's queries, one per poll. */
  datatype Poll = Poll(rows: seq<int>, sizes: seq<nat>)

  /** How a follower's stream ended. */
  datatype End = StillOpen | StoppedAt(poll: int)

  /** The event was of no deleted dialog in the state it was read from. */
  ghost predicate Sound(snapshots: seq<Ledger>, e: Event) {
    exists p :: 0 <= p < |snapshots| && !OfDeleted(snapshots[p], e)
  }

  lemma Vouched(snapshots: seq<Ledger>, p: int, batch: seq<Event>)
    requires 0 <= p < |snapshots| && forall i :: 0 <= i < |batch| ==> !OfDeleted(snapshots[p], batch[i])
    ensures forall i :: 0 <= i < |batch| ==> Sound(snapshots, batch[i])
  {
    hide OfDeleted;
  }

  lemma Reached(db: Ledger, last: int, batch: seq<Event>)
    requires LogInv(db.events, db.node.lastSeq) && Follows(db.events, last, batch) && last <= db.node.lastSeq
    ensures last + |batch| <= db.node.lastSeq
  {
    if batch != [] { assert EventAt(db.events, last + 1 + (|batch| - 1), batch[|batch| - 1]); }
  }

  /** One batch, event by event; the number of each must be the next. */
  method SendBatch(events: map<int, Event>, after: int, sent: seq<Event>, batch: seq<Event>) returns (more: seq<Event>)
    requires Follows(events, after, sent) && Follows(events, after + |sent|, batch)
    ensures more == batch && Follows(events, after, sent + more)
  {
    more := [];
    var i := 0;
    while i < |batch|
      invariant 0 <= i <= |batch| && more == batch[..i] && Follows(events, after, sent + more)
    {
      assert EventAt(events, after + |sent| + 1 + i, batch[i]);
      Extended(events, after, sent + more, batch[i]);
      assert (sent + more) + [batch[i]] == sent + (more + [batch[i]]);
      more := more + [batch[i]];
      i := i + 1;
    }
  }

  /** The follow loop. What it sends is one contiguous, duplicate-free run of the log
      from the cursor on; each event was of no deleted dialog when it was sent; and
      the loop stops, rather than skips, at an event of a deleted dialog. */
  method Follow(snapshots: seq<Ledger>, after: int, answer: (int, int) -> Poll) returns (sent: seq<Event>, end: End)
    requires Polls(snapshots) && |snapshots| > 0 && 0 <= after <= snapshots[0].node.lastSeq
    requires forall i, cursor :: 0 <= i < |snapshots| && cursor >= 0 ==>
      QueryRows(snapshots[i].events, cursor, MAXIMUM_WINDOW, answer(i, cursor).rows)
          && |answer(i, cursor).sizes| == |answer(i, cursor).rows|
    ensures Follows(snapshots[|snapshots| - 1].events, after, sent)
    ensures forall i :: 0 <= i < |sent| ==> Sound(snapshots, sent[i])
    ensures end.StoppedAt? ==>
      && 0 <= end.poll < |snapshots|
      && exists k :: after + |sent| < k <= after + |sent| + MAXIMUM_WINDOW && k in snapshots[end.poll].events
           && OfDeleted(snapshots[end.poll], snapshots[end.poll].events[k])
  {
    hide OfDeleted, LogInv, LogKept, Follows, EventAt;
    sent := [];
    var last, p := after, 0;
    while p < |snapshots|
      invariant 0 <= p <= |snapshots| && last == after + |sent| && 0 <= last
      invariant p == 0 ==> sent == []
      invariant p > 0 ==> last <= snapshots[p - 1].node.lastSeq && Follows(snapshots[p - 1].events, after, sent)
      invariant forall i :: 0 <= i < |sent| ==> Sound(snapshots, sent[i])
    {
      var asked := answer(p, last);
      CursorValid(snapshots, p, last);
      var batch := ReplayEvents(snapshots[p], last, MAXIMUM_WINDOW, asked.rows, asked.sizes);
      Carried(snapshots, p, after, sent);
      if batch.None? {
        var i :| 0 <= i < |asked.rows| && OfDeleted(snapshots[p], snapshots[p].events[asked.rows[i]]);
        assert asked.rows[i] in snapshots[p].events;
        ContiguousRows(snapshots[p], last, MAXIMUM_WINDOW, asked.rows);
        LastCarried(snapshots, p, after, sent);
        return sent, StoppedAt(p);
      }
      Vouched(snapshots, p, batch.value);
      var more := SendBatch(snapshots[p].events, after, sent, batch.value);
      Reached(snapshots[p], last, batch.value);
      sent := sent + more;
      last := last + |more|;
      p := p + 1;
    }
    end := StillOpen;
  }

  lemma CursorValid(snapshots: seq<Ledger>, p: int, last: int)
    requires Polls(snapshots) && 0 <= p < |snapshots| && 0 <= last
    requires p > 0 ==> last <= snapshots[p - 1].node.lastSeq
    ensures p > 0 ==> last <= snapshots[p].node.lastSeq
  {
    if p > 0 {
      assert LogKept(snapshots[p - 1].events, snapshots[p].events);
      if last > 0 { assert last in snapshots[p - 1].events; }
    }
  }

  lemma Carried(snapshots: seq<Ledger>, p: int, after: int, sent: seq<Event>)
    requires Polls(snapshots) && 0 <= p < |snapshots|
    requires p > 0 ==> Follows(snapshots[p - 1].events, after, sent)
    requires p == 0 ==> sent == []
    ensures Follows(snapshots[p].events, after, sent)
  {
    if p > 0 { assert LogKept(snapshots[p - 1].events, snapshots[p].events); }
  }

  lemma LastCarried(snapshots: seq<Ledger>, p: int, after: int, sent: seq<Event>)
    requires Polls(snapshots) && 0 <= p < |snapshots| && Follows(snapshots[p].events, after, sent)
    ensures Follows(snapshots[|snapshots| - 1].events, after, sent)
  {
    var o, n := snapshots[p].events, snapshots[|snapshots| - 1].events;
    assert LogKept(o, n);
    forall i | 0 <= i < |sent|
      ensures EventAt(n, after + 1 + i, sent[i])
    {
      assert EventAt(o, after + 1 + i, sent[i]);
    }
  }

  lemma Extended(events: map<int, Event>, after: int, sent: seq<Event>, e: Event)
    requires Follows(events, after, sent) && after + 1 + |sent| in events && events[after + 1 + |sent|] == e
    ensures Follows(events, after, sent + [e])
  {
  }

  // ----------------------------------------------------- snapshots of a run

  lemma {:induction false} LogKeptRun(s: Sys, run: seq<Label>)
    requires SysInv(s)
    ensures LogKept(s.db.events, After(s, run).db.events) && SysInv(After(s, run))
    decreases |run|
  {
    hide SysInv, Do, RecordsGrow, Frozen, QueueMoves, TargetsKept;
    if run != [] {
      LogKeptRun(s, run[..|run| - 1]);
      StepPasses(After(s, run[..|run| - 1]), run[|run| - 1], 0);
      AfterKeeps(s, run);
    }
  }

  /** The states of a run, at any rising indices, are what a follower may poll. */
  lemma RunsArePolls(epoch: int, registry: int, run: seq<Label>, at: seq<nat>, snapshots: seq<Ledger>)
    requires forall i :: 0 <= i < |at| ==> at[i] <= |run|
    requires forall i, j :: 0 <= i <= j < |at| ==> at[i] <= at[j]
    requires |snapshots| == |at|
    requires forall i :: 0 <= i < |at| ==> snapshots[i] == After(Initial(epoch, registry), run[..at[i]]).db
    ensures Polls(snapshots)
  {
    hide SysInv, Do, Initial, LogKept, LogInv, After;
    forall i | 0 <= i < |at|
      ensures LogInv(snapshots[i].events, snapshots[i].node.lastSeq)
    {
      RunsSafe(epoch, registry, run[..at[i]]);
      SysLog(After(Initial(epoch, registry), run[..at[i]]));
    }
    forall i, j | 0 <= i <= j < |at|
      ensures LogKept(snapshots[i].events, snapshots[j].events)
    {
      RunsSafe(epoch, registry, run[..at[i]]);
      var s := After(Initial(epoch, registry), run[..at[i]]);
      LogKeptRun(s, run[at[i]..at[j]]);
      AfterSplit(Initial(epoch, registry), run[..at[i]], run[at[i]..at[j]]);
      assert run[..at[i]] + run[at[i]..at[j]] == run[..at[j]];
    }
  }

  lemma {:induction false} AfterSplit(s: Sys, a: seq<Label>, b: seq<Label>)
    ensures After(s, a + b) == After(After(s, a), b)
    decreases |b|
  {
    hide Do;
    if b == [] {
      assert a + b == a;
    } else {
      AfterSplit(s, a, b[..|b| - 1]);
      assert (a + b)[..|a + b| - 1] == a + b[..|b| - 1];
    }
  }

  lemma SysLog(s: Sys)
    requires SysInv(s)
    ensures LogInv(s.db.events, s.db.node.lastSeq)
  {
    hide SlotInv, RequestRows, OrderInv, AttemptRows, ActionRows, EffectRows, MessageRows, KeyInv, AnswerRows,
         StartRows, PhaseRows, InputRows, RevisionInv, CountInv, SteerInv, HoldInv, TombstoneInv, TaskInv, LogInv;
  }
}
