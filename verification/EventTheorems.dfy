/** Event delivery is framed and idempotent. */
module EventTheorems {
  import opened LedgerTypes
  import opened Transactions
  import opened LedgerInvariant
  import Budget = OutputBudget
  import opened Quiescence
  import Pieces
  import EventTraces

  /** An event for an attempt that does not hold the slot changes the event log and
      the late ledger, by at most one entry each, and nothing else. */
  lemma OutsideSlotFramed(db: Ledger, ref: AttemptRef, e: AdapterEvent, valid: bool, marker: Id, stop: Id)
    requires db.node.active != Some(ref.attempt) && Observe(db, ref, e, valid, marker, stop).Ok?
    ensures var n := Observe(db, ref, e, valid, marker, stop).value;
      && n == db.(events := n.events, late := n.late, node := db.node.(lastSeq := n.node.lastSeq))
      && (|| n.late == db.late
          || (|n.late| == |db.late| + 1 && n.late[..|db.late|] == db.late && n.late[|db.late|].attempt == ref.attempt))
      && (|| n.events == db.events
          || exists event ::
               && n.events == db.events[db.node.lastSeq + 1 := event] && event.attempt == Some(ref.attempt)
               && event.late && event.key.Some? && event.key.value.archive && event.digest == Some(Whole(e)))
  {
    hide Archive, Interactive, ProjectEvent;
    if db.attempts[ref.attempt].phase in {Stopping, Unknown} && Interactive(e) {
      ArchiveTables(db, ref, e, valid, Suppressed, stop);
    } else {
      ArchiveTables(db, ref, e, valid, Late, stop);
    }
  }

  // ------------------------------------------------------ how a ledger grows

  /** What a projection for `ref` leaves in place for the next delivery. */
  ghost predicate Grown(o: Ledger, n: Ledger, ref: AttemptRef) {
    && ref.attempt in o.attempts && ref.attempt in n.attempts && RefOf(n, ref.attempt) == RefOf(o, ref.attempt)
    && n.node.active == o.node.active && n.tombstones == o.tombstones && n.late == o.late
    && (n.attempts[ref.attempt].phase == o.attempts[ref.attempt].phase
         || n.attempts[ref.attempt].phase in {Waiting, Stopping})
    && LogInv(n.events, n.node.lastSeq) && (forall k :: k in o.events ==> k in n.events && n.events[k] == o.events[k])
    && (forall t :: t in o.tools ==>
         t in n.tools && n.tools[t].attempt == o.tools[t].attempt && n.tools[t].actionHash == o.tools[t].actionHash)
  }

  lemma GrownTrans(a: Ledger, b: Ledger, c: Ledger, ref: AttemptRef)
    requires Grown(a, b, ref) && Grown(b, c, ref)
    ensures Grown(a, c, ref)
  {
    hide LogInv;
  }

  lemma GrownSelf(db: Ledger, ref: AttemptRef)
    requires ref.attempt in db.attempts && LogInv(db.events, db.node.lastSeq)
    ensures Grown(db, db, ref)
  {
    hide LogInv;
  }

  lemma GrownAppend(db: Ledger, e: Event, ref: AttemptRef)
    requires ref.attempt in db.attempts && LogInv(db.events, db.node.lastSeq)
    ensures Grown(db, Append(Tick(db, false), e), ref) && Append(Tick(db, false), e).events[db.node.lastSeq + 1] == e
  {
  }

  lemma GrownAttempt(db: Ledger, row: Attempt, ref: AttemptRef)
    requires ref.attempt in db.attempts && LogInv(db.events, db.node.lastSeq)
    requires row.dialog == db.attempts[ref.attempt].dialog && row.request == db.attempts[ref.attempt].request
    requires row.generation == db.attempts[ref.attempt].generation
    requires row.phase == db.attempts[ref.attempt].phase || row.phase in {Waiting, Stopping}
    ensures Grown(db, PutAttempt(db, ref.attempt, row), ref)
  {
    hide LogInv;
  }

  lemma GrownWaiting(db: Ledger, ref: AttemptRef)
    requires ref.attempt in db.attempts && LogInv(db.events, db.node.lastSeq)
    ensures Grown(db, EnterWaiting(db, ref), ref)
  {
    hide Append, Tick, PutAttempt, Grown, LogInv;
    var row := Moved(db.attempts[ref.attempt], Waiting);
    var d1 := PutAttempt(db, ref.attempt, row);
    GrownAttempt(db, row, ref);
    GrownLog(db, d1, ref);
    GrownAppend(d1, AttemptEvent(OtherEvent, ref, None, None, false), ref);
    GrownTrans(db, d1, EnterWaiting(db, ref), ref);
  }

  lemma GrownLog(o: Ledger, n: Ledger, ref: AttemptRef)
    requires Grown(o, n, ref)
    ensures ref.attempt in n.attempts && LogInv(n.events, n.node.lastSeq)
  {
    hide LogInv;
  }

  /** Rows of other tables, and tools of the same identity, do not matter. */
  lemma GrownRows(o: Ledger, n: Ledger, ref: AttemptRef)
    requires ref.attempt in o.attempts && LogInv(o.events, o.node.lastSeq)
    requires n == o.(messages := n.messages, node := o.node.(nextMessage := n.node.nextMessage), tools := n.tools,
                     approvals := n.approvals, inputs := n.inputs)
    requires forall t :: t in o.tools ==>
        t in n.tools && n.tools[t].attempt == o.tools[t].attempt && n.tools[t].actionHash == o.tools[t].actionHash
    ensures Grown(o, n, ref)
  {
    hide LogInv;
  }

  lemma GrownOpened(o: Ledger, d: Ledger, ref: AttemptRef)
    requires ref.attempt in o.attempts && LogInv(o.events, o.node.lastSeq)
    requires d == o.(approvals := d.approvals, inputs := d.inputs)
    ensures Grown(o, d, ref) && Grown(o, EnterWaiting(d, ref), ref)
  {
    hide LogInv, Grown, EnterWaiting;
    GrownRows(o, d, ref);
    GrownWaiting(d, ref);
    GrownTrans(o, d, EnterWaiting(d, ref), ref);
  }

  lemma GrownApproval(db: Ledger, ref: AttemptRef, p: Id, row: Approval, exceeded: bool, marker: Id)
    requires ref.attempt in db.attempts && LogInv(db.events, db.node.lastSeq)
    requires OpenApproval(db, ref, p, row, exceeded, marker).Ok?
    ensures Grown(db, OpenApproval(db, ref, p, row, exceeded, marker).value, ref)
  {
    hide LogInv, Grown, EnterWaiting;
    if exceeded {
      GrownSpoken(db, marker, LIMIT_TEXT, ref);
    } else {
      GrownOpened(db, PutApproval(db, p, row), ref);
    }
  }

  lemma GrownSpoken(db: Ledger, m: Id, text: Id, ref: AttemptRef)
    requires ref.attempt in db.attempts && LogInv(db.events, db.node.lastSeq)
    ensures Grown(db, Speak(db, ref, m, text), ref)
  {
    hide LogInv;
  }

  lemma GrownInput(db: Ledger, ref: AttemptRef, i: Id, exceeded: bool)
    requires ref.attempt in db.attempts && LogInv(db.events, db.node.lastSeq) && OpenInput(db, ref, i, exceeded).Ok?
    ensures Grown(db, OpenInput(db, ref, i, exceeded).value, ref)
  {
    hide LogInv, Grown, EnterWaiting;
    GrownOpened(db, PutInput(db, i, Input(ref.attempt, 1, Open)), ref);
  }

  lemma GrownTool(db: Ledger, t: Id, row: ToolCall, ref: AttemptRef)
    requires ref.attempt in db.attempts && LogInv(db.events, db.node.lastSeq)
    requires t in db.tools ==> row.attempt == db.tools[t].attempt && row.actionHash == db.tools[t].actionHash
    ensures Grown(db, PutTool(db, t, row), ref)
  {
    hide LogInv, Grown;
    GrownRows(db, PutTool(db, t, row), ref);
  }

  lemma GrownWritten(db: Ledger, ref: AttemptRef, e: AdapterEvent, exceeded: bool, marker: Id)
    requires ref.attempt in db.attempts && LogInv(db.events, db.node.lastSeq)
    requires WriteRows(db, ref, e, exceeded, marker).Ok?
    ensures Grown(db, WriteRows(db, ref, e, exceeded, marker).value, ref)
  {
    hide LogInv, Grown, OpenApproval, OpenInput, Speak, PutTool;
    GrownSelf(db, ref);
    match e
    case Speaks(m, c) => GrownSpoken(db, m, if exceeded then LIMIT_TEXT else c.value, ref);
    case ToolStarted(c, h, _) => GrownTool(db, c, ToolCall(ref.attempt, h, 1, ToolRunning), ref);
    case ToolCompleted(c, status, _, _) =>
        GrownTool(db, c, db.tools[c].(version := db.tools[c].version + 1, status := status), ref);
    case ApprovalRequested(p, c, h, _) =>
        GrownApproval(db, ref, p, Approval(ref.attempt, c, h, 1, Open), exceeded, marker);
    case InputRequested(i, _) => GrownInput(db, ref, i, exceeded);
    case _ =>
  }

  lemma GrownStop(db: Ledger, ref: AttemptRef, stop: Id)
    requires ref.attempt in db.attempts && LogInv(db.events, db.node.lastSeq) && ScheduleStop(db, ref, stop).Ok?
    ensures Grown(db, ScheduleStop(db, ref, stop).value, ref)
  {
    hide LogInv, Grown, Append, Tick, PutAttempt;
    GrownSelf(db, ref);
    var n := ScheduleStop(db, ref, stop).value;
    if n != db {
      var row := Moved(db.attempts[ref.attempt], Stopping);
      var d1 := PutAttempt(db, ref.attempt, row);
      GrownAttempt(db, row, ref);
      GrownLog(db, d1, ref);
      var d2 := Append(Tick(d1, false), AttemptEvent(OtherEvent, ref, None, None, false));
      GrownAppend(d1, AttemptEvent(OtherEvent, ref, None, None, false), ref);
      GrownTrans(db, d1, d2, ref);
      GrownInserted(db, d2, n, ref);
    }
  }

  lemma GrownInserted(o: Ledger, d: Ledger, n: Ledger, ref: AttemptRef)
    requires Grown(o, d, ref) && n == d.(actions := n.actions, nextRow := n.nextRow)
    ensures Grown(o, n, ref)
  {
    hide LogInv;
  }

  lemma StillBound(o: Ledger, n: Ledger, ref: AttemptRef, e: AdapterEvent)
    requires Grown(o, n, ref) && WellBound(o, ref.attempt, e)
    ensures WellBound(n, ref.attempt, e)
  {
    hide LogInv;
  }

  lemma StillRecorded(o: Ledger, n: Ledger, ref: AttemptRef, k: int, key: Key, d: Digest)
    requires Grown(o, n, ref) && k in o.events && o.events[k].attempt == Some(ref.attempt)
    requires o.events[k].key == Some(key) && o.events[k].digest == Some(d)
    ensures Recorded(n, ref.attempt, key, d) && DigestRecorded(n, ref.attempt, d)
  {
    hide LogInv;
    assert n.events[k].attempt == Some(ref.attempt) && n.events[k].key == Some(key) && n.events[k].digest == Some(d);
  }

  // ------------------------------------------------------------ redelivery

  /** A projected content event is on record, and everything a second delivery
      looks at is as it was. */
  lemma ContentOnRecord(db: Ledger, ref: AttemptRef, e: AdapterEvent, valid: bool, marker: Id, stop: Id)
    requires ref.attempt in db.attempts && LogInv(db.events, db.node.lastSeq)
    requires ProjectContent(db, ref, e, valid, marker, stop).Ok?
    ensures var n := ProjectContent(db, ref, e, valid, marker, stop).value;
      || n == db
      || (&& Grown(db, n, ref) && valid && WellBound(n, ref.attempt, e) && DigestRecorded(n, ref.attempt, Whole(e))
          && Recorded(n, ref.attempt, Key(false, BaseOf(e, db.attempts[ref.attempt].version)), Whole(e)))
  {
    hide LogInv, Grown, WellBound, Recorded, DigestRecorded, KeyTaken, ArchivedBytes, ScheduleStop, WriteRows,
         PutAttempt, Append, Tick, BytesOf, BaseOf, KindOf;
    var n := ProjectContent(db, ref, e, valid, marker, stop).value;
    if n != db {
      var row := db.attempts[ref.attempt];
      var key := Key(false, BaseOf(e, row.version));
      var archived := ArchivedBytes(db.late, ref.attempt);
      var charge := Budget.ChargeKind(row.outputBytes, archived, BytesOf(e));
      var next := row.(outputBytes := Budget.LiveBytes(row.outputBytes, archived, BytesOf(e)));
      var d1 := PutAttempt(db, ref.attempt, next);
      GrownAttempt(db, next, ref);
      GrownLog(db, d1, ref);
      GrownWritten(d1, ref, e, charge.NewlyExceeded?, marker);
      var d2 := WriteRows(d1, ref, e, charge.NewlyExceeded?, marker).value;
      GrownTrans(db, d1, d2, ref);
      GrownLog(db, d2, ref);
      var d3 := Project(d2, ref, KindOf(e), key, Whole(e));
      GrownAppend(d2, AttemptEvent(KindOf(e), ref, Some(key), Some(Whole(e)), false), ref);
      GrownTrans(db, d2, d3, ref);
      GrownLog(db, d3, ref);
      GrownSelf(d3, ref);
      if charge.NewlyExceeded? {
        GrownStop(d3, ref, stop);
      }
      GrownTrans(db, d3, n, ref);
      StillBound(db, n, ref, e);
      ProjectedAt(d2, ref, KindOf(e), key, Whole(e));
      StillRecorded(d3, n, ref, d2.node.lastSeq + 1, key, Whole(e));
    }
  }

  lemma ProjectedAt(db: Ledger, ref: AttemptRef, kind: EventKind, key: Key, d: Digest)
    ensures var n := Project(db, ref, kind, key, d);
      && db.node.lastSeq + 1 in n.events
      && n.events[db.node.lastSeq + 1] == AttemptEvent(kind, ref, Some(key), Some(d), false)
  {
  }

  /** An event already on record for the attempt is not archived again. */
  lemma DuplicateAgain(db: Ledger, ref: AttemptRef, e: AdapterEvent, kind: LateKind, stop: Id)
    requires ref.attempt in db.attempts && WellBound(db, ref.attempt, e) && DigestRecorded(db, ref.attempt, Whole(e))
    requires Archivable(e)
    ensures Archive(db, ref, e, true, kind, stop) == Ok(db)
  {
    hide WellBound, DigestRecorded, ArchiveConflict, ArchivedBytes, ScheduleStop, LateRecorded, LiveTerminal;
  }

  /** Nor is a terminal that is on record as the live one. */
  lemma LiveAgain(db: Ledger, ref: AttemptRef, e: AdapterEvent, kind: LateKind, stop: Id)
    requires ref.attempt in db.attempts && LiveTerminal(db, ref.attempt, e) && Archivable(e)
    ensures Archive(db, ref, e, true, kind, stop) == Ok(db)
  {
    hide DigestRecorded, ArchiveConflict, ArchivedBytes, ScheduleStop, LateRecorded, LiveTerminal;
    assert e.Terminal? by { LiveIsTerminal(db, ref.attempt, e); }
  }

  lemma LiveIsTerminal(db: Ledger, a: Id, e: AdapterEvent)
    requires LiveTerminal(db, a, e)
    ensures e.Terminal?
  {
    hide Recorded;
  }

  /** Outside a running slot, archiving an event twice is archiving it once. */
  lemma ArchiveAgain(db: Ledger, ref: AttemptRef, e: AdapterEvent, valid: bool, kind: LateKind, stop: Id, stop2: Id)
    requires ref.attempt in db.attempts && Archive(db, ref, e, valid, kind, stop).Ok?
    requires db.node.active != Some(ref.attempt) || db.attempts[ref.attempt].phase !in {Running, Waiting}
    ensures var n := Archive(db, ref, e, valid, kind, stop).value;
      && n == db.(events := n.events, late := n.late, node := db.node.(lastSeq := n.node.lastSeq))
      && Archive(n, ref, e, valid, kind, stop2) == Ok(n)
  {
    hide WellBound, DigestRecorded, ArchiveConflict, ArchivedBytes, ScheduleStop, LateRecorded, BytesOf, BaseOf,
         KindOf, LiveTerminal, Archivable;
    var n := Archive(db, ref, e, valid, kind, stop).value;
    var row := db.attempts[ref.attempt];
    var key := Key(true, BaseOf(e, row.version));
    var d1 := if kind != Late then db else Append(db, AttemptEvent(KindOf(e), ref, Some(key), Some(Whole(e)), true));
    var bytes := Budget.LateBytes(row.outputBytes, ArchivedBytes(db.late, ref.attempt), BytesOf(e));
    var entry := LateRow(ref.attempt, kind, Some(key), Some(Whole(e)), bytes);
    var d2 := d1.(late := d1.late + [entry]);
    NoStop(d2, ref, stop);
    if n != db {
      assert n == d2;
      LateNow(db.late, entry, ref.attempt, key, e);
      BoundSame(db, n, ref, e);
      if kind == Late {
        LoggedNow(db, n, ref, key, e);
      } else {
        SameKeys(db, n, ref.attempt, e, BaseOf(e, row.version));
      }
    }
  }

  lemma LoggedNow(db: Ledger, n: Ledger, ref: AttemptRef, key: Key, e: AdapterEvent)
    requires db.node.lastSeq + 1 in n.events && n.events[db.node.lastSeq + 1].attempt == Some(ref.attempt)
    requires n.events[db.node.lastSeq + 1].key == Some(key) && n.events[db.node.lastSeq + 1].digest == Some(Whole(e))
    ensures DigestRecorded(n, ref.attempt, Whole(e))
  {
  }

  lemma SameKeys(o: Ledger, n: Ledger, a: Id, e: AdapterEvent, base: BaseKey)
    requires n.events == o.events && !ArchiveConflict(o, a, e, base)
    ensures !LiveConflict(n, a, e, base) && !KeyTaken(n, a, Key(true, base))
  {
  }

  lemma NoStop(db: Ledger, ref: AttemptRef, stop: Id)
    requires db.node.active != Some(ref.attempt)
        || (ref.attempt in db.attempts && db.attempts[ref.attempt].phase !in {Running, Waiting})
    ensures ScheduleStop(db, ref, stop) == Ok(db)
  {
    hide InsertAction, Append, Tick;
  }

  lemma LateNow(late: seq<LateRow>, entry: LateRow, a: Id, key: Key, e: AdapterEvent)
    requires entry.attempt == a && entry.key == Some(key) && entry.digest == Some(Whole(e))
    ensures LateRecorded(late + [entry], a, key, Whole(e))
  {
    assert (late + [entry])[|late|] == entry;
  }

  lemma BoundSame(o: Ledger, n: Ledger, ref: AttemptRef, e: AdapterEvent)
    requires n.tools == o.tools
    ensures WellBound(n, ref.attempt, e) == WellBound(o, ref.attempt, e)
  {
  }

  lemma SeizeFacts(db: Ledger, ref: AttemptRef, effect: Effect)
    requires ref.attempt in db.attempts
    ensures var n := Seize(db, ref, effect);
      && ref.attempt in n.attempts && n.attempts[ref.attempt].phase == Unknown
      && RefOf(n, ref.attempt) == RefOf(db, ref.attempt)
      && n.actions == db.actions && n.tombstones == db.tombstones && n.node.active == Some(ref.attempt)
  {
    hide SetStatus;
    var row := Moved(db.attempts[ref.attempt], Unknown).(effect := effect);
    Pieces.StatusRows(Place(db, ref.attempt, row, Some(ref.attempt), Confused), ref.request, Lost);
  }

  lemma UnknownFacts(db: Ledger, ref: AttemptRef, effect: Effect)
    requires ref.attempt in db.attempts && SetUnknown(db, ref, effect).Ok?
    ensures var n := SetUnknown(db, ref, effect).value;
      && ref.attempt in n.attempts && n.attempts[ref.attempt].phase == Unknown
      && RefOf(n, ref.attempt) == RefOf(db, ref.attempt)
      && n.actions == db.actions && n.tombstones == db.tombstones
      && (n.node.active == Some(ref.attempt) || n == db)
  {
    hide OtherLive, Seize;
    SeizeFacts(db, ref, effect);
  }

  lemma FinishRows(db: Ledger, ref: AttemptRef, e: AdapterEvent)
    requires ref.attempt in db.attempts && e.Terminal? && e.how.Terminates?
    ensures var n := Conclude(db, ref, e);
      && ref.attempt in n.attempts && RefOf(n, ref.attempt) == RefOf(db, ref.attempt)
      && n.attempts[ref.attempt].phase == Ended(e.how.outcome)
      && n.attempts[ref.attempt].said == db.attempts[ref.attempt].said
      && n.attempts[ref.attempt].outputBytes == db.attempts[ref.attempt].outputBytes && n.late == db.late
      && n.node.active.None? && n.tombstones == db.tombstones
  {
    hide Bump;
  }

  lemma NotedTwice(db: Ledger, ref: AttemptRef, digest: Digest)
    ensures var n := Announce(Project(db, ref, OtherEvent, Key(false, KTerminal), digest));
      && n == db.(events := n.events, node := n.node) && n.node.active == db.node.active
      && Recorded(n, ref.attempt, Key(false, KTerminal), digest)
  {
    var n := Announce(Project(db, ref, OtherEvent, Key(false, KTerminal), digest));
    assert n.events[db.node.lastSeq + 1] ==
           AttemptEvent(OtherEvent, ref, Some(Key(false, KTerminal)), Some(digest), false);
  }

  /** The ledger after a terminal has ended its attempt. */
  lemma EndFacts(db: Ledger, ref: AttemptRef, e: AdapterEvent)
    requires ref.attempt in db.attempts && e.Terminal? && e.how.Terminates?
    ensures var digest := TerminalDigest(db.attempts[ref.attempt].said, e);
      var n := Announce(Project(Conclude(db, ref, e), ref, OtherEvent, Key(false, KTerminal), digest));
      && ref.attempt in n.attempts && RefOf(n, ref.attempt) == RefOf(db, ref.attempt)
      && n.attempts[ref.attempt].phase == Ended(e.how.outcome)
      && n.node.active.None? && n.tombstones == db.tombstones
      && OverBudget(n, ref.attempt) == OverBudget(db, ref.attempt)
      && (SaysOutput(db.attempts[ref.attempt].said, e) ==> LiveTerminal(n, ref.attempt, e))
  {
    hide Conclude, Announce, Project, Recorded, TerminalDigest, SaysOutput, ArchivedBytes;
    FinishRows(db, ref, e);
    NotedTwice(Conclude(db, ref, e), ref, TerminalDigest(db.attempts[ref.attempt].said, e));
  }

  /** The slot's holder as Observe sees it. */
  ghost predicate Holder(db: Ledger, ref: AttemptRef) {
    && ref.attempt in db.attempts && RefOf(db, ref.attempt) == ref && db.attempts[ref.attempt].dialog !in db.tombstones
    && db.node.active == Some(ref.attempt) && Live(db.attempts[ref.attempt].phase)
  }

  lemma UnknownTerminalAgain(db: Ledger, ref: AttemptRef, e: AdapterEvent, valid: bool, marker: Id, stop: Id,
                             marker2: Id, stop2: Id)
    requires Holder(db, ref) && e.Terminal? && ProjectTerminal(db, ref, e, valid, stop).Ok?
    requires AnswersUnresolved(db, ref.attempt) || e.terminalEffect == UnknownEffect
    ensures var n := ProjectTerminal(db, ref, e, valid, stop).value; Observe(n, ref, e, valid, marker2, stop2) == Ok(n)
  {
    hide SetUnknown, Archive, AnswersUnresolved, EndAttempt, Project, Announce, Recorded, KeyTaken;
    UnknownFacts(db, ref, UnknownEffect);
    var d1 := SetUnknown(db, ref, UnknownEffect).value;
    ArchiveAgain(d1, ref, e, valid, TerminalUnresolved, stop, stop2);
    var n := ProjectTerminal(db, ref, e, valid, stop).value;
    EventTraces.SameAnswers(db, n, ref.attempt);
    UnknownStable(n, ref);
  }

  lemma UnknownStable(db: Ledger, ref: AttemptRef)
    requires ref.attempt in db.attempts && db.attempts[ref.attempt].generation == ref.generation
    requires db.attempts[ref.attempt].phase == Unknown
    ensures forall effect :: SetUnknown(db, ref, effect) == Ok(db)
  {
    hide OtherLive, Seize, Append, Announce, Tick;
  }

  /** Past the budget nothing more is archived. */
  lemma OverQuiet(db: Ledger, ref: AttemptRef, e: AdapterEvent, valid: bool, kind: LateKind, stop: Id)
    requires ref.attempt in db.attempts && OverBudget(db, ref.attempt)
    ensures Archive(db, ref, e, valid, kind, stop).Ok? ==> Archive(db, ref, e, valid, kind, stop).value == db
  {
    hide WellBound, ArchiveDuplicate, ArchiveConflict, ArchivedBytes, ScheduleStop, BytesOf, BaseOf, KindOf;
  }

  /** The event is accepted again as a repeat, or refused; either way nothing changes. */
  ghost predicate Settles(n: Ledger, r: Result<Ledger>, exactly: bool) {
    Ok(n) == r || (!exactly && r.Err?)
  }

  /** The output of a completion has been cut off by the budget. */
  predicate CutOff(db: Ledger, a: Id, e: AdapterEvent) {
    a in db.attempts && e.Terminal? && !SaysOutput(db.attempts[a].said, e)
  }

  lemma CutOffOver(db: Ledger, a: Id, e: AdapterEvent)
    requires a in db.attempts && e.Terminal? && e.how.Terminates? && Acceptable(db, a, e)
    requires !SaysOutput(db.attempts[a].said, e)
    ensures OverBudget(db, a)
  {
    hide OverBudget;
  }

  lemma TerminalAgain(db: Ledger, ref: AttemptRef, e: AdapterEvent, valid: bool, marker: Id, stop: Id, marker2: Id,
                      stop2: Id)
    requires Holder(db, ref) && e.Terminal? && ProjectTerminal(db, ref, e, valid, stop).Ok?
    ensures var n := ProjectTerminal(db, ref, e, valid, stop).value;
      Settles(n, Observe(n, ref, e, valid, marker2, stop2), !CutOff(db, ref.attempt, e))
  {
    hide SetUnknown, Archive, AnswersUnresolved, Conclude, Project, Announce, Recorded, KeyTaken, WellBound,
         LiveTerminal, TerminalDigest, OverBudget, SaysOutput;
    var n := ProjectTerminal(db, ref, e, valid, stop).value;
    if AnswersUnresolved(db, ref.attempt) || e.terminalEffect == UnknownEffect {
      UnknownTerminalAgain(db, ref, e, valid, marker, stop, marker2, stop2);
    } else if e.how.TerminatesUnknown? {
      UnknownFacts(db, ref, e.terminalEffect);
      EventTraces.SameAnswers(db, n, ref.attempt);
      UnknownStable(n, ref);
    } else if !Recorded(db, ref.attempt, Key(false, KTerminal), TerminalDigest(db.attempts[ref.attempt].said, e)) {
      EndFacts(db, ref, e);
      TerminalBound(n, ref, e);
      if SaysOutput(db.attempts[ref.attempt].said, e) {
        LiveAgain(n, ref, e, Late, stop2);
      } else {
        CutOffOver(db, ref.attempt, e);
        OverQuiet(n, ref, e, valid, Late, stop2);
      }
    }
  }

  lemma TerminalBound(db: Ledger, ref: AttemptRef, e: AdapterEvent)
    requires e.Terminal?
    ensures WellBound(db, ref.attempt, e)
  {
  }

  lemma BaseUnversioned(e: AdapterEvent, v: int, w: int)
    requires !e.WaitsFor?
    ensures BaseOf(e, v) == BaseOf(e, w)
  {
  }

  lemma ContentAgain(db: Ledger, ref: AttemptRef, e: AdapterEvent, valid: bool, marker: Id, stop: Id, marker2: Id,
                     stop2: Id)
    requires Holder(db, ref) && LogInv(db.events, db.node.lastSeq)
    requires ProjectContent(db, ref, e, valid, marker, stop).Ok?
    requires !e.Started? && !e.WaitsFor? && !e.Terminal? && !e.LostTrack?
    requires !(db.attempts[ref.attempt].phase in {Stopping, Unknown} && Interactive(e))
    ensures var n := ProjectContent(db, ref, e, valid, marker, stop).value;
        Observe(n, ref, e, valid, marker2, stop2) == Ok(n)
  {
    hide LogInv, WellBound, Recorded, DigestRecorded, KeyTaken, ArchivedBytes, ScheduleStop, WriteRows, Archive,
         Project, BytesOf, BaseOf, KindOf, Interactive, PutAttempt;
    ContentOnRecord(db, ref, e, valid, marker, stop);
    var n := ProjectContent(db, ref, e, valid, marker, stop).value;
    if n == db {
      ContentFresh(db, ref, e, valid, marker, stop, marker2, stop2);
    } else {
      DuplicateAgain(n, ref, e, Suppressed, stop2);
      BaseUnversioned(e, db.attempts[ref.attempt].version, n.attempts[ref.attempt].version);
    }
  }

  /** A projection that left the ledger alone does not depend on fresh ids: one that
      writes always adds to the log. */
  lemma ContentFresh(db: Ledger, ref: AttemptRef, e: AdapterEvent, valid: bool, marker: Id, stop: Id, marker2: Id,
                     stop2: Id)
    requires ref.attempt in db.attempts && LogInv(db.events, db.node.lastSeq)
    requires ProjectContent(db, ref, e, valid, marker, stop) == Ok(db)
    ensures ProjectContent(db, ref, e, valid, marker2, stop2) == Ok(db)
  {
    hide WellBound, Recorded, KeyTaken, ArchivedBytes, BytesOf, BaseOf, KindOf, WriteRows, Project, ScheduleStop,
         PutAttempt, LogInv;
    var row := db.attempts[ref.attempt];
    var charge := Budget.ChargeKind(row.outputBytes, ArchivedBytes(db.late, ref.attempt), BytesOf(e));
    var key := Key(false, BaseOf(e, row.version));
    if valid && WellBound(db, ref.attempt, e) && !Recorded(db, ref.attempt, key, Whole(e))
       && !KeyTaken(db, ref.attempt, key) && charge in {Budget.Fits, Budget.NewlyExceeded} {
      ContentGrows(db, ref, e, valid, marker, stop);
    }
  }

  lemma ContentGrows(db: Ledger, ref: AttemptRef, e: AdapterEvent, valid: bool, marker: Id, stop: Id)
    requires ref.attempt in db.attempts && LogInv(db.events, db.node.lastSeq)
    requires ProjectContent(db, ref, e, valid, marker, stop).Ok?
    requires valid && WellBound(db, ref.attempt, e)
    requires var row := db.attempts[ref.attempt];
      var charge := Budget.ChargeKind(row.outputBytes, ArchivedBytes(db.late, ref.attempt), BytesOf(e));
      && !Recorded(db, ref.attempt, Key(false, BaseOf(e, row.version)), Whole(e))
      && !KeyTaken(db, ref.attempt, Key(false, BaseOf(e, row.version)))
      && charge in {Budget.Fits, Budget.NewlyExceeded}
    ensures ProjectContent(db, ref, e, valid, marker, stop).value != db
  {
    hide WellBound, Recorded, KeyTaken, ArchivedBytes, BytesOf, BaseOf, KindOf, WriteRows, Project, ScheduleStop,
         PutAttempt, LogInv;
    var row := db.attempts[ref.attempt];
    var archived := ArchivedBytes(db.late, ref.attempt);
    var charge := Budget.ChargeKind(row.outputBytes, archived, BytesOf(e));
    var d1 := PutAttempt(db, ref.attempt, row.(outputBytes := Budget.LiveBytes(row.outputBytes, archived, BytesOf(e))));
    ChargedLog(db, ref.attempt, row.(outputBytes := Budget.LiveBytes(row.outputBytes, archived, BytesOf(e))));
    WrittenLog(d1, ref, e, charge.NewlyExceeded?, marker);
    var d2 := WriteRows(d1, ref, e, charge.NewlyExceeded?, marker).value;
    var key := Key(false, BaseOf(e, row.version));
    ProjectedLog(d2, ref, KindOf(e), key, Whole(e));
    if charge.NewlyExceeded? { StoppedLog(Project(d2, ref, KindOf(e), key, Whole(e)), ref, stop); }
  }

  lemma ChargedLog(db: Ledger, a: Id, row: Attempt)
    ensures PutAttempt(db, a, row).node.lastSeq == db.node.lastSeq && a in PutAttempt(db, a, row).attempts
  {
  }

  lemma WrittenLog(db: Ledger, ref: AttemptRef, e: AdapterEvent, exceeded: bool, marker: Id)
    requires ref.attempt in db.attempts && WriteRows(db, ref, e, exceeded, marker).Ok?
    ensures WriteRows(db, ref, e, exceeded, marker).value.node.lastSeq >= db.node.lastSeq
  {
  }

  lemma ProjectedLog(db: Ledger, ref: AttemptRef, kind: EventKind, key: Key, d: Digest)
    ensures Project(db, ref, kind, key, d).node.lastSeq > db.node.lastSeq
  {
  }

  lemma StoppedLog(db: Ledger, ref: AttemptRef, stop: Id)
    requires ScheduleStop(db, ref, stop).Ok?
    ensures ScheduleStop(db, ref, stop).value.node.lastSeq >= db.node.lastSeq
  {
  }

  lemma SuppressedAgain(db: Ledger, ref: AttemptRef, e: AdapterEvent, valid: bool, marker: Id, stop: Id, marker2: Id,
                        stop2: Id)
    requires Observe(db, ref, e, valid, marker, stop).Ok? && db.attempts[ref.attempt].phase in {Stopping, Unknown}
    requires Interactive(e)
    ensures var n := Observe(db, ref, e, valid, marker, stop).value; Observe(n, ref, e, valid, marker2, stop2) == Ok(n)
  {
    hide Archive, ProjectEvent, Interactive;
    ArchiveAgain(db, ref, e, valid, Suppressed, stop, stop2);
  }

  lemma LateAgain(db: Ledger, ref: AttemptRef, e: AdapterEvent, valid: bool, marker: Id, stop: Id, marker2: Id,
                  stop2: Id)
    requires Observe(db, ref, e, valid, marker, stop).Ok?
    requires !(db.attempts[ref.attempt].phase in {Stopping, Unknown} && Interactive(e))
    requires db.node.active != Some(ref.attempt) || !Live(db.attempts[ref.attempt].phase)
    ensures var n := Observe(db, ref, e, valid, marker, stop).value; Observe(n, ref, e, valid, marker2, stop2) == Ok(n)
  {
    hide Archive, ProjectEvent, Interactive;
    ArchiveAgain(db, ref, e, valid, Late, stop, stop2);
    var n := Archive(db, ref, e, valid, Late, stop).value;
    assert n.attempts == db.attempts && n.node.active == db.node.active && n.tombstones == db.tombstones;
  }

  lemma ProjectedAgain(db: Ledger, ref: AttemptRef, e: AdapterEvent, valid: bool, marker: Id, stop: Id, marker2: Id,
                       stop2: Id)
    requires Holder(db, ref) && LogInv(db.events, db.node.lastSeq)
    requires !(db.attempts[ref.attempt].phase in {Stopping, Unknown} && Interactive(e))
    requires ProjectEvent(db, ref, e, valid, marker, stop).Ok?
    ensures var n := ProjectEvent(db, ref, e, valid, marker, stop).value;
      Settles(n, Observe(n, ref, e, valid, marker2, stop2), !CutOff(db, ref.attempt, e))
  {
    hide LogInv, Observe, ProjectContent, ProjectTerminal, SetUnknown, Project, Recorded, KeyTaken, CutOff;
    match e
    case Started => StartedAgain(db, ref, e, valid, marker, stop, marker2, stop2);
    case WaitsFor(_) => WaitAgain(db, ref, e, valid, marker, stop, marker2, stop2);
    case Terminal(_, _, _, _, _) => TerminalAgain(db, ref, e, valid, marker, stop, marker2, stop2);
    case LostTrack(effect) =>
      UnknownFacts(db, ref, effect);
      LostAgain(SetUnknown(db, ref, effect).value, ref, e, valid, marker2, stop2);
    case _ => ContentAgain(db, ref, e, valid, marker, stop, marker2, stop2);
  }

  lemma ObserveCases(db: Ledger, ref: AttemptRef, e: AdapterEvent, valid: bool, marker: Id, stop: Id)
    requires Observe(db, ref, e, valid, marker, stop).Ok?
    ensures ref.attempt in db.attempts
    ensures var phase := db.attempts[ref.attempt].phase;
      || (phase in {Stopping, Unknown} && Interactive(e)) || db.node.active != Some(ref.attempt) || !Live(phase)
      || (Holder(db, ref) && Observe(db, ref, e, valid, marker, stop) == ProjectEvent(db, ref, e, valid, marker, stop))
  {
    hide Archive, ProjectEvent, Interactive;
  }

  /** Delivering an accepted event a second time changes nothing, and it is accepted
      again unless it is a completion whose output the budget has cut off. */
  lemma DeliveredTwice(db: Ledger, ref: AttemptRef, e: AdapterEvent, valid: bool, marker: Id, stop: Id, marker2: Id,
                       stop2: Id)
    requires LogInv(db.events, db.node.lastSeq) && Observe(db, ref, e, valid, marker, stop).Ok?
    ensures var n := Observe(db, ref, e, valid, marker, stop).value;
      Settles(n, Observe(n, ref, e, valid, marker2, stop2), !CutOff(db, ref.attempt, e))
  {
    hide LogInv, Observe, ProjectEvent, Interactive, Holder, CutOff;
    ObserveCases(db, ref, e, valid, marker, stop);
    var phase := db.attempts[ref.attempt].phase;
    if phase in {Stopping, Unknown} && Interactive(e) {
      SuppressedAgain(db, ref, e, valid, marker, stop, marker2, stop2);
    } else if db.node.active != Some(ref.attempt) || !Live(phase) {
      LateAgain(db, ref, e, valid, marker, stop, marker2, stop2);
    } else {
      ProjectedAgain(db, ref, e, valid, marker, stop, marker2, stop2);
    }
  }

  lemma LostAgain(db: Ledger, ref: AttemptRef, e: AdapterEvent, valid: bool, marker: Id, stop: Id)
    requires Holder(db, ref) && e.LostTrack? && db.attempts[ref.attempt].phase == Unknown
    ensures Observe(db, ref, e, valid, marker, stop) == Ok(db)
  {
    hide Archive, ProjectContent, ProjectTerminal, SetUnknown, Project, Recorded, KeyTaken;
    UnknownStable(db, ref);
  }

  lemma StartedAgain(db: Ledger, ref: AttemptRef, e: AdapterEvent, valid: bool, marker: Id, stop: Id, marker2: Id,
                     stop2: Id)
    requires Holder(db, ref) && LogInv(db.events, db.node.lastSeq) && e.Started?
    requires ProjectEvent(db, ref, e, valid, marker, stop).Ok?
    ensures var n := ProjectEvent(db, ref, e, valid, marker, stop).value;
        Observe(n, ref, e, valid, marker2, stop2) == Ok(n)
  {
    hide LogInv, Archive, ProjectContent, ProjectTerminal, SetUnknown, Recorded, KeyTaken, Append, Tick,
         DigestRecorded;
    var key := Key(false, KStarted);
    if !Recorded(db, ref.attempt, key, Whole(e)) {
      var n := Project(db, ref, OtherEvent, key, Whole(e));
      GrownAppend(db, AttemptEvent(OtherEvent, ref, Some(key), Some(Whole(e)), false), ref);
      GrownLog(db, n, ref);
      GrownSelf(n, ref);
      ProjectedAt(db, ref, OtherEvent, key, Whole(e));
      StillRecorded(n, n, ref, db.node.lastSeq + 1, key, Whole(e));
    }
  }

  lemma WaitAgain(db: Ledger, ref: AttemptRef, e: AdapterEvent, valid: bool, marker: Id, stop: Id, marker2: Id,
                  stop2: Id)
    requires Holder(db, ref) && LogInv(db.events, db.node.lastSeq) && e.WaitsFor?
    requires ProjectEvent(db, ref, e, valid, marker, stop).Ok?
    requires db.attempts[ref.attempt].phase !in {Stopping, Unknown}
    ensures var n := ProjectEvent(db, ref, e, valid, marker, stop).value;
        Observe(n, ref, e, valid, marker2, stop2) == Ok(n)
  {
    hide LogInv, Archive, ProjectContent, ProjectTerminal, SetUnknown, Recorded, KeyTaken, Project;
    var row := db.attempts[ref.attempt];
    if row.phase == Running {
      WaitRows(db, ref, e);
    }
  }

  lemma WaitRows(db: Ledger, ref: AttemptRef, e: AdapterEvent)
    requires ref.attempt in db.attempts
    ensures var row := db.attempts[ref.attempt];
      var d := PutAttempt(db, ref.attempt, Moved(row, Waiting));
      var n := Project(d, ref, OtherEvent, Key(false, KWaiting(row.version + 1)), Whole(e));
      && ref.attempt in n.attempts && n.attempts[ref.attempt].phase == Waiting
      && RefOf(n, ref.attempt) == RefOf(db, ref.attempt)
      && n.node.active == db.node.active && n.tombstones == db.tombstones
  {
  }
}
