/** What an adapter event, a reconciliation and an artifact do to the account of their
    attempt and to what its record says; all other attempts are left alone. */
module EventTraces {
  import opened LedgerTypes
  import opened Transactions
  import Budget = OutputBudget
  import opened LedgerInvariant
  import opened Pieces
  import opened EventSteps
  import opened Supervisor
  import opened Traces

  function NewestWord(db: Ledger, a: Id): Option<Id>
    requires a in db.attempts
  {
    if db.attempts[a].said.Some? then Some(db.attempts[a].said.value.message) else None
  }

  /** The attempt goes over its budget. */
  predicate Crossed(o: Ledger, n: Ledger, a: Id) {
    !Over(o, a) && Over(n, a)
  }

  /** One account may be charged, by exactly these bytes unless they take it over. */
  ghost predicate Charges(o: Ledger, n: Ledger, a: Id, bytes: int) {
    && (forall x :: x != a ==> SameAccount(o, n, x))
    && a in o.attempts && a in n.attempts
    && (|| SameAccount(o, n, a)
        || (Over(n, a) && Used(o, a) + bytes > Budget.MAXIMUM)
        || Used(n, a) == Used(o, a) + bytes <= Budget.MAXIMUM)
  }

  /** What a new telling event of attempt `a` may say. */
  ghost predicate TellsFair(o: Ledger, n: Ledger, a: Id, e: Event) {
    && e.attempt == Some(a) && a in n.attempts
    && (EndsLive(e) ==>
          && !Live(n.attempts[a].phase) && !KeyTaken(o, a, Key(false, KTerminal))
          && (e.digest.Some? && e.digest.value.CompletedWith? ==> e.digest.value.message == NewestWord(n, a)))
    && (e.key.Some? && e.key.value.base.KLimit? ==> Crossed(o, n, a))
    && (e.digest.Some? && e.digest.value.Whole? && e.digest.value.event.Terminal? ==>
          e.key == Some(Key(true, KTerminal)))
  }

  /** Rows that wait for an answer are opened for a started attempt, or for one past
      its budget. */
  ghost predicate WaitsFair(o: Ledger, n: Ledger, a: Id, past: bool)
    requires a in n.attempts
  {
    && (forall p :: p in n.approvals && n.approvals[p].attempt == a ==>
          (p in o.approvals && o.approvals[p].attempt == a) || n.attempts[a].started)
    && (forall i :: i in n.inputs && n.inputs[i].attempt == a ==>
          (i in o.inputs && o.inputs[i].attempt == a) || n.attempts[a].started || past)
  }

  /** An attempt says something only in the slot or past its budget, waits for an answer
      only once started or past its budget, and ends only once. */
  ghost predicate RowFair(o: Ledger, n: Ledger, a: Id) {
    && a in o.attempts && a in n.attempts
    && (n.attempts[a].said != o.attempts[a].said ==> Live(o.attempts[a].phase) || Over(n, a))
    && WaitsFair(o, n, a, Over(n, a))
    && (Live(o.attempts[a].phase) && !Live(n.attempts[a].phase) ==> !KeyTaken(o, a, Key(false, KTerminal)))
  }

  ghost predicate Fair(o: Ledger, n: Ledger, a: Id) {
    && RowFair(o, n, a)
    && (forall k :: k in n.events && Telling(n.events[k]) && !(k in o.events && o.events[k] == n.events[k]) ==>
          TellsFair(o, n, a, n.events[k]))
    && (n.actions != o.actions ==> Crossed(o, n, a))
  }

  /** A transaction about attempt `a` that offers these bytes. */
  ghost predicate Traced(o: Ledger, n: Ledger, a: Id, bytes: int) {
    Meters(o, n) && Local(o, n, a) && Fair(o, n, a) && Charges(o, n, a, bytes)
  }

  lemma QuietCharges(o: Ledger, n: Ledger, a: Id, bytes: int)
    requires SameCharges(o, n) && a in o.attempts
    ensures Charges(o, n, a, bytes)
  {
    hide ArchivedBytes;
  }

  /** A quiet transaction that inserts no action. */
  lemma QuietTraced(o: Ledger, n: Ledger, a: Id, bytes: int)
    requires Quiet(o, n) && a in o.attempts && n.actions == o.actions
    ensures Traced(o, n, a, bytes)
  {
    hide Meters, Indexed, UserOnly, AssistantsKept, SameCharges, TellsFair, Charges, Telling, Local;
    QuietLocal(o, n, a);
    QuietMeters(o, n);
    QuietCharges(o, n, a, bytes);
  }

  lemma TracedSelf(db: Ledger, a: Id, bytes: int)
    requires a in db.attempts
    ensures Traced(db, db, a, bytes)
  {
    hide Quiet, Traced;
    QuietSelf(db);
    QuietTraced(db, db, a, bytes);
  }

  /** Quiet steps after the charge; an action only if the charge has crossed. */
  lemma TracedQuiet(a: Ledger, b: Ledger, c: Ledger, x: Id, bytes: int)
    requires Traced(a, b, x, bytes) && Quiet(b, c)
    requires c.actions != b.actions ==> Crossed(a, b, x)
    requires x in b.attempts && x in c.attempts && (Live(c.attempts[x].phase) ==> Live(b.attempts[x].phase))
    ensures Traced(a, c, x, bytes)
  {
    hide Meters, Indexed, UserOnly, AssistantsKept, Local, Charges, Fair, SameCharges, Traced;
    TracedParts(a, b, x, bytes);
    assert SameCharges(b, c);
    QuietMeters(b, c);
    MetersTrans(a, b, c);
    QuietLocal(b, c, x);
    LocalTrans(a, b, c, x);
    FairIn(a, b, x);
    FairQuiet(a, b, c, x);
    QuietCharges(b, c, x, 0);
    ChargesQuiet(a, b, c, x, bytes);
    TracedWhole(a, c, x, bytes);
  }

  lemma TracedParts(o: Ledger, n: Ledger, a: Id, bytes: int)
    requires Traced(o, n, a, bytes)
    ensures Meters(o, n) && Local(o, n, a) && Fair(o, n, a) && Charges(o, n, a, bytes)
  {
    hide Meters, Local, Fair, Charges;
  }

  lemma TracedWhole(o: Ledger, n: Ledger, a: Id, bytes: int)
    requires Meters(o, n) && Local(o, n, a) && Fair(o, n, a) && Charges(o, n, a, bytes)
    ensures Traced(o, n, a, bytes)
  {
    hide Meters, Local, Fair, Charges;
  }

  lemma FairIn(o: Ledger, n: Ledger, a: Id)
    requires Fair(o, n, a)
    ensures a in o.attempts && a in n.attempts
  {
    hide TellsFair, Telling, Crossed;
  }

  lemma SameOver(o: Ledger, n: Ledger, a: Id)
    requires SameCharges(o, n) && a in o.attempts
    ensures Over(n, a) == Over(o, a)
  {
    hide ArchivedBytes;
  }

  lemma FairQuiet(a: Ledger, b: Ledger, c: Ledger, x: Id)
    requires Fair(a, b, x) && Quiet(b, c) && (c.actions != b.actions ==> Crossed(a, b, x))
    requires x in b.attempts && x in c.attempts && (Live(c.attempts[x].phase) ==> Live(b.attempts[x].phase))
    ensures Fair(a, c, x)
  {
    hide Indexed, UserOnly, Over, TellsFair, Telling, SameCharges, KeyTaken;
    SameOver(b, c, x);
    forall k | k in c.events && Telling(c.events[k]) && !(k in a.events && a.events[k] == c.events[k])
      ensures TellsFair(a, c, x, c.events[k])
    {
      EndsDead(a, b, x, c.events[k]);
      TellsQuiet(a, b, c, x, c.events[k]);
    }
  }

  lemma EndsDead(o: Ledger, n: Ledger, a: Id, e: Event)
    requires TellsFair(o, n, a, e)
    ensures a in n.attempts && (EndsLive(e) ==> !Live(n.attempts[a].phase))
  {
    hide Over, KeyTaken;
  }

  lemma TellsQuiet(a: Ledger, b: Ledger, c: Ledger, x: Id, e: Event)
    requires TellsFair(a, b, x, e) && x in b.attempts && x in c.attempts && Over(c, x) == Over(b, x)
    requires c.attempts[x].said == b.attempts[x].said
    requires EndsLive(e) ==> !Live(c.attempts[x].phase)
    ensures TellsFair(a, c, x, e)
  {
    hide Over, KeyTaken;
  }

  lemma ChargesQuiet(a: Ledger, b: Ledger, c: Ledger, x: Id, bytes: int)
    requires Charges(a, b, x, bytes) && SameCharges(b, c)
    ensures Charges(a, c, x, bytes)
  {
    hide ArchivedBytes;
    forall y | y != x ensures SameAccount(a, c, y) {
      assert SameAccount(a, b, y);
    }
  }

  // ------------------------------------------------------------ the archive

  /** The ledger after an archived event that still fits its charge. */
  function WithLate(db: Ledger, ref: AttemptRef, e: AdapterEvent, kind: LateKind): Ledger
    requires ref.attempt in db.attempts
  {
    var row := db.attempts[ref.attempt];
    var key := Key(true, BaseOf(e, row.version));
    var bytes := Budget.LateBytes(row.outputBytes, ArchivedBytes(db.late, ref.attempt), BytesOf(e));
    var d1 := if kind != Late then db else Append(db, AttemptEvent(KindOf(e), ref, Some(key), Some(Whole(e)), true));
    d1.(late := d1.late + [LateRow(ref.attempt, kind, Some(key), Some(Whole(e)), bytes)])
  }

  function ChargeOf(db: Ledger, a: Id, bytes: int): Budget.Charge
    requires a in db.attempts
  {
    Budget.ChargeKind(db.attempts[a].outputBytes, ArchivedBytes(db.late, a), bytes)
  }

  /** Late rows and the log: the archived event tells at most that a terminal came. */
  lemma LateRows(db: Ledger, ref: AttemptRef, e: AdapterEvent, kind: LateKind)
    requires ref.attempt in db.attempts
    ensures var n := WithLate(db, ref, e, kind);
      && n == db.(late := n.late, events := n.events, node := n.node) && n.node == db.node.(lastSeq := n.node.lastSeq)
      && (forall k :: k in n.events ==>
            || (k in db.events && n.events[k] == db.events[k])
            || (&& n.events[k].attempt == Some(ref.attempt) && n.events[k].digest == Some(Whole(e))
                && n.events[k].key == Some(Key(true, BaseOf(e, db.attempts[ref.attempt].version)))))
  {
    hide ArchivedBytes, BaseOf, BytesOf, KindOf, Append;
    var key := Key(true, BaseOf(e, db.attempts[ref.attempt].version));
    AppendRows(db, AttemptEvent(KindOf(e), ref, Some(key), Some(Whole(e)), true));
  }

  lemma LateCharges(db: Ledger, n: Ledger, row: LateRow, bytes: int)
    requires row.attempt in db.attempts && n.attempts == db.attempts && n.late == db.late + [row] && row.key.Some?
    requires row.outputBytes == Budget.LateBytes(db.attempts[row.attempt].outputBytes, Archived(db, row.attempt), bytes)
    requires ChargeOf(db, row.attempt, bytes) in {Budget.Fits, Budget.NewlyExceeded}
    ensures Charges(db, n, row.attempt, bytes)
    ensures ChargeOf(db, row.attempt, bytes) == Budget.NewlyExceeded ==> Crossed(db, n, row.attempt)
  {
    hide ArchivedBytes;
    forall a ensures Archived(n, a) == Archived(db, a) + (if row.attempt == a then row.outputBytes else 0) {
      ArchivedNext(db.late, row, a);
    }
  }

  lemma LateLocal(o: Ledger, n: Ledger, a: Id, e: AdapterEvent, v: int)
    requires a in o.attempts
    requires n == o.(late := n.late, events := n.events, node := n.node) && n.node == o.node.(lastSeq := n.node.lastSeq)
    requires forall k :: k in n.events ==>
      || (k in o.events && n.events[k] == o.events[k])
      || (&& n.events[k].attempt == Some(a) && n.events[k].digest == Some(Whole(e))
          && n.events[k].key == Some(Key(true, BaseOf(e, v))))
    ensures Local(o, n, a) && Fair(o, n, a)
  {
    hide Indexed, Over, KeyTaken, TellsFair, BaseOf;
    if Indexed(o) { SameIndex(o, n); }
    forall k | k in n.events && Telling(n.events[k]) && !(k in o.events && o.events[k] == n.events[k])
      ensures TellsFair(o, n, a, n.events[k])
    {
      LateTells(o, n, a, e, v, n.events[k]);
    }
  }

  lemma LateTells(o: Ledger, n: Ledger, a: Id, e: AdapterEvent, v: int, told: Event)
    requires a in n.attempts && Telling(told)
    requires told.attempt == Some(a) && told.key == Some(Key(true, BaseOf(e, v))) && told.digest == Some(Whole(e))
    ensures TellsFair(o, n, a, told)
  {
    hide Over, KeyTaken;
  }

  lemma WithLateTraced(db: Ledger, ref: AttemptRef, e: AdapterEvent, kind: LateKind)
    requires ref.attempt in db.attempts && ChargeOf(db, ref.attempt, BytesOf(e)) in {Budget.Fits, Budget.NewlyExceeded}
    ensures var n := WithLate(db, ref, e, kind);
      && Traced(db, n, ref.attempt, BytesOf(e)) && n.actions == db.actions && n.attempts == db.attempts
      && (ChargeOf(db, ref.attempt, BytesOf(e)) == Budget.NewlyExceeded ==> Crossed(db, n, ref.attempt))
  {
    hide WithLate, ArchivedBytes, BaseOf, BytesOf, KindOf, Meters, Local, Fair, Charges, Crossed, Traced, Append;
    var row := db.attempts[ref.attempt];
    var n := WithLate(db, ref, e, kind);
    LateRows(db, ref, e, kind);
    LateLocal(db, n, ref.attempt, e, row.version);
    LateEntry(db, ref, e, kind);
    var bytes := Budget.LateBytes(row.outputBytes, Archived(db, ref.attempt), BytesOf(e));
    var entry := LateRow(ref.attempt, kind, Some(Key(true, BaseOf(e, row.version))), Some(Whole(e)), bytes);
    LateMeters(db, n, entry, BytesOf(e));
    LateCharges(db, n, entry, BytesOf(e));
    TracedWhole(db, n, ref.attempt, BytesOf(e));
  }

  lemma LateEntry(db: Ledger, ref: AttemptRef, e: AdapterEvent, kind: LateKind)
    requires ref.attempt in db.attempts
    ensures var row := db.attempts[ref.attempt];
      var bytes := Budget.LateBytes(row.outputBytes, Archived(db, ref.attempt), BytesOf(e));
      WithLate(db, ref, e, kind).late ==
      db.late + [LateRow(ref.attempt, kind, Some(Key(true, BaseOf(e, row.version))), Some(Whole(e)), bytes)]
  {
    hide ArchivedBytes, BaseOf, BytesOf, KindOf;
  }

  lemma ArchiveCases(db: Ledger, ref: AttemptRef, e: AdapterEvent, valid: bool, kind: LateKind, stop: Id)
    requires ref.attempt in db.attempts
    ensures var n := Commits(db, Archive(db, ref, e, valid, kind, stop));
      var charge := ChargeOf(db, ref.attempt, BytesOf(e));
      var d := WithLate(db, ref, e, kind);
      || n == db
      || (charge in {Budget.Fits, Budget.NewlyExceeded}
          && (n == d || (charge == Budget.NewlyExceeded && n == Commits(d, ScheduleStop(d, ref, stop)))))
  {
    hide Append, WellBound, ArchiveDuplicate, ArchiveConflict, ArchivedBytes, ScheduleStop, BaseOf, BytesOf, KindOf,
         Archivable;
  }

  /** A stop leaves the attempt live if it was. */
  lemma StopPhase(db: Ledger, ref: AttemptRef, stop: Id)
    requires ref.attempt in db.attempts
    ensures var n := Commits(db, ScheduleStop(db, ref, stop));
      ref.attempt in n.attempts && Live(n.attempts[ref.attempt].phase) == Live(db.attempts[ref.attempt].phase)
  {
    hide Append, InsertAction, Tick;
    var row := Moved(db.attempts[ref.attempt], Stopping);
    var d1 := PutAttempt(db, ref.attempt, row);
    assert d1.attempts == db.attempts[ref.attempt := row];
    assert Tick(d1, false).attempts == d1.attempts by { TickRows(d1); }
    var e := AttemptEvent(OtherEvent, ref, None, None, false);
    AppendRows(Tick(d1, false), e);
    InsertedRows(Append(Tick(d1, false), e), stop, NewAction(StopAttempt, RefOf(db, ref.attempt), 0, 0, 0));
  }

  lemma TickRows(db: Ledger)
    ensures Tick(db, false).attempts == db.attempts && Tick(db, false).actions == db.actions
  {
  }

  lemma InsertedRows(db: Ledger, id: Id, action: Action)
    ensures Commits(db, InsertAction(db, id, action)).attempts == db.attempts
  {
  }

  lemma ArchiveTraced(db: Ledger, ref: AttemptRef, e: AdapterEvent, valid: bool, kind: LateKind, stop: Id)
    requires ref.attempt in db.attempts
    ensures Traced(db, Commits(db, Archive(db, ref, e, valid, kind, stop)), ref.attempt, BytesOf(e))
  {
    hide Archive, WithLate, ArchivedBytes, ScheduleStop, BytesOf, Quiet, Commits, Traced, Crossed;
    TracedSelf(db, ref.attempt, BytesOf(e));
    ArchiveCases(db, ref, e, valid, kind, stop);
    if ChargeOf(db, ref.attempt, BytesOf(e)) in {Budget.Fits, Budget.NewlyExceeded} {
      var d := WithLate(db, ref, e, kind);
      WithLateTraced(db, ref, e, kind);
      if ChargeOf(db, ref.attempt, BytesOf(e)) == Budget.NewlyExceeded {
        StopQuiet(d, ref, stop);
        StopPhase(d, ref, stop);
        TracedQuiet(db, d, Commits(d, ScheduleStop(d, ref, stop)), ref.attempt, BytesOf(e));
      }
    }
  }

  // ----------------------------------------------------------------- content

  /** Rows of attempt `a` are written: no charge, no mark, no action. */
  ghost predicate Written(o: Ledger, n: Ledger, a: Id, past: bool) {
    && SameCharges(o, n) && Local(o, n, a) && TellsMild(o.events, n.events, None) && n.actions == o.actions
    && a in o.attempts && a in n.attempts && n.attempts[a].started == o.attempts[a].started
    && Live(n.attempts[a].phase) == Live(o.attempts[a].phase) && WaitsFair(o, n, a, past)
  }

  lemma QuietWritten(o: Ledger, n: Ledger, a: Id, past: bool)
    requires Quiet(o, n) && n.actions == o.actions && n.attempts == o.attempts && a in o.attempts
    ensures Written(o, n, a, past)
  {
    hide Indexed, UserOnly, Telling, Local;
    QuietLocal(o, n, a);
  }

  lemma SpeakIndex(db: Ledger, ref: AttemptRef, m: Id, text: Id)
    requires Indexed(db) && ref.attempt in db.attempts && m !in db.messages
    ensures var n := Speak(db, ref, m, text); Indexed(n) && AssistantsKept(db.messages, n.messages)
  {
    var n := Speak(db, ref, m, text);
    forall k | k in n.messages && !n.messages[k].user ensures Spoken(n, k) {
      if k != m { SpokenBefore(db, ref, m, text, k); }
    }
    forall a | a in n.attempts && n.attempts[a].said.Some? ensures Names(n, a) {
      if a != ref.attempt { assert Names(db, a); }
    }
  }

  lemma SpokenBefore(db: Ledger, ref: AttemptRef, m: Id, text: Id, k: Id)
    requires Indexed(db) && ref.attempt in db.attempts && m !in db.messages
    requires k in db.messages && !db.messages[k].user
    ensures Spoken(Speak(db, ref, m, text), k)
  {
    assert Spoken(db, k);
    var newest := db.attempts[db.messages[k].attempt.value].said.value.message;
    assert newest in db.messages;
  }

  lemma SpeakWritten(db: Ledger, ref: AttemptRef, m: Id, text: Id, past: bool)
    requires ref.attempt in db.attempts && m !in db.messages
    ensures Written(db, Speak(db, ref, m, text), ref.attempt, past)
  {
    hide Indexed, Telling, AssistantsKept;
    if Indexed(db) { SpeakIndex(db, ref, m, text); }
  }

  lemma ToolWritten(db: Ledger, t: Id, row: ToolCall, a: Id, past: bool)
    requires a in db.attempts
    ensures Written(db, PutTool(db, t, row), a, past)
  {
    hide Quiet, Telling, Written;
    UntouchedQuiet(db, PutTool(db, t, row));
    QuietWritten(db, PutTool(db, t, row), a, past);
  }

  predicate PhaseFits(row: Attempt) {
    row.phase in {Running, Waiting} ==> row.started
  }

  lemma OpenedWritten(o: Ledger, n: Ledger, a: Id, past: bool)
    requires n == o.(approvals := n.approvals, inputs := n.inputs) && RowsMild(o, n, Some(a))
    requires a in o.attempts && WaitsFair(o, n, a, past)
    ensures Written(o, n, a, past)
  {
    hide Telling, Indexed, WaitsFair;
    if Indexed(o) { SameIndex(o, n); }
  }

  lemma WrittenTrans(a: Ledger, b: Ledger, c: Ledger, x: Id, past: bool)
    requires Written(a, b, x, past) && Quiet(b, c) && c.actions == b.actions
    requires x in c.attempts && c.attempts[x].started == b.attempts[x].started
    requires Live(c.attempts[x].phase) == Live(b.attempts[x].phase)
    ensures Written(a, c, x, past)
  {
    hide Telling, Indexed, AssistantsKept, UserOnly, Local;
    QuietLocal(b, c, x);
    LocalTrans(a, b, c, x);
  }

  lemma WaitingQuiet(db: Ledger, ref: AttemptRef)
    requires ref.attempt in db.attempts && Live(db.attempts[ref.attempt].phase)
    ensures var n := EnterWaiting(db, ref);
      && Quiet(db, n) && n.actions == db.actions && ref.attempt in n.attempts && Live(n.attempts[ref.attempt].phase)
      && n.attempts[ref.attempt].started == db.attempts[ref.attempt].started
  {
    hide Quiet, Append, Tick, PutAttempt;
    var row := Moved(db.attempts[ref.attempt], Waiting);
    var d1 := PutAttempt(db, ref.attempt, row);
    PutQuiet(db, ref.attempt, row);
    PutRows(db, ref.attempt, row);
    TickQuiet(d1, false);
    TickRows(d1);
    QuietTrans(db, d1, Tick(d1, false));
    var e := AttemptEvent(OtherEvent, ref, None, None, false);
    AppendQuiet(Tick(d1, false), e);
    AppendRows(Tick(d1, false), e);
    QuietTrans(db, Tick(d1, false), EnterWaiting(db, ref));
  }

  lemma PutRows(db: Ledger, a: Id, row: Attempt)
    ensures PutAttempt(db, a, row) == db.(attempts := db.attempts[a := row])
  {
  }

  lemma ApprovalWritten(db: Ledger, ref: AttemptRef, p: Id, row: Approval, exceeded: bool, marker: Id)
    requires ref.attempt in db.attempts && row.attempt == ref.attempt && PhaseFits(db.attempts[ref.attempt])
    requires OpenApproval(db, ref, p, row, exceeded, marker).Ok?
    ensures Written(db, OpenApproval(db, ref, p, row, exceeded, marker).value, ref.attempt, exceeded)
  {
    hide Written, Quiet, EnterWaiting, Speak;
    if exceeded {
      SpeakWritten(db, ref, marker, LIMIT_TEXT, exceeded);
    } else {
      OpenedWritten(db, PutApproval(db, p, row), ref.attempt, exceeded);
      WaitingQuiet(PutApproval(db, p, row), ref);
      WrittenTrans(db, PutApproval(db, p, row), EnterWaiting(PutApproval(db, p, row), ref), ref.attempt, exceeded);
    }
  }

  lemma InputWritten(db: Ledger, ref: AttemptRef, i: Id, exceeded: bool)
    requires ref.attempt in db.attempts && PhaseFits(db.attempts[ref.attempt]) && OpenInput(db, ref, i, exceeded).Ok?
    ensures Written(db, OpenInput(db, ref, i, exceeded).value, ref.attempt, exceeded)
  {
    hide Written, Quiet, EnterWaiting;
    var d := PutInput(db, i, Input(ref.attempt, 1, Open));
    OpenedWritten(db, d, ref.attempt, exceeded);
    if !exceeded {
      WaitingQuiet(d, ref);
      WrittenTrans(db, d, EnterWaiting(d, ref), ref.attempt, exceeded);
    }
  }

  lemma RowsWritten(db: Ledger, ref: AttemptRef, e: AdapterEvent, exceeded: bool, marker: Id)
    requires ref.attempt in db.attempts && PhaseFits(db.attempts[ref.attempt])
    requires WriteRows(db, ref, e, exceeded, marker).Ok?
    ensures Written(db, WriteRows(db, ref, e, exceeded, marker).value, ref.attempt, exceeded)
  {
    hide Written, Quiet, Speak, PutTool, OpenApproval, OpenInput, PhaseFits;
    match e
    case Speaks(m, c) => SpeakWritten(db, ref, m, if exceeded then LIMIT_TEXT else c.value, exceeded);
    case ToolStarted(c, h, _) => ToolWritten(db, c, ToolCall(ref.attempt, h, 1, ToolRunning), ref.attempt, exceeded);
    case ToolCompleted(c, status, _, _) =>
      ToolWritten(db, c, db.tools[c].(version := db.tools[c].version + 1, status := status), ref.attempt, exceeded);
    case ApprovalRequested(p, c, h, _) =>
      ApprovalWritten(db, ref, p, Approval(ref.attempt, c, h, 1, Open), exceeded, marker);
    case InputRequested(i, _) => InputWritten(db, ref, i, exceeded);
    case _ =>
      QuietSelf(db);
      QuietWritten(db, db, ref.attempt, exceeded);
  }

  /** The new version of a row that is charged: it says, starts and ends nothing. */
  predicate ChargedRow(old_: Attempt, row: Attempt) {
    row.said == old_.said && row.started == old_.started && row.phase == old_.phase
  }

  lemma ChargedLocal(db: Ledger, a: Id, row: Attempt)
    requires a in db.attempts && ChargedRow(db.attempts[a], row)
    ensures Silent(db, PutAttempt(db, a, row), a)
  {
    hide Telling, Indexed;
    if Indexed(db) { RowIndex(db, a, row); }
  }

  lemma RowIndex(db: Ledger, a: Id, row: Attempt)
    requires Indexed(db) && a in db.attempts && row.said == db.attempts[a].said
    ensures Indexed(PutAttempt(db, a, row))
  {
    var n := PutAttempt(db, a, row);
    forall m | m in n.messages && !n.messages[m].user ensures Spoken(n, m) { assert Spoken(db, m); }
    forall b | b in n.attempts && n.attempts[b].said.Some? ensures Names(n, b) { assert Names(db, b); }
  }

  lemma LiveCharges(db: Ledger, a: Id, row: Attempt, bytes: int)
    requires a in db.attempts && row.outputBytes == Budget.LiveBytes(db.attempts[a].outputBytes, Archived(db, a), bytes)
    requires ChargeOf(db, a, bytes) in {Budget.Fits, Budget.NewlyExceeded}
    ensures Charges(db, PutAttempt(db, a, row), a, bytes)
    ensures ChargeOf(db, a, bytes) == Budget.NewlyExceeded ==> Crossed(db, PutAttempt(db, a, row), a)
  {
    hide ArchivedBytes;
  }

  /** Rows written for a charged attempt that is live or past its budget. */
  lemma FairWritten(o: Ledger, c: Ledger, n: Ledger, a: Id, past: bool)
    requires a in o.attempts && a in c.attempts && c == o.(attempts := c.attempts)
    requires ChargedRow(o.attempts[a], c.attempts[a]) && Written(c, n, a, past)
    requires (past ==> Over(c, a)) && (Live(o.attempts[a].phase) || past)
    ensures Fair(o, n, a)
  {
    hide Over, Telling, TellsFair, KeyTaken, Local, SameCharges;
    SameOver(c, n, a);
  }

  lemma ChargeWritten(o: Ledger, row: Attempt, n: Ledger, a: Id, bytes: int)
    requires a in o.attempts && ChargedRow(o.attempts[a], row)
    requires row.outputBytes == Budget.LiveBytes(o.attempts[a].outputBytes, Archived(o, a), bytes)
    requires ChargeOf(o, a, bytes) in {Budget.Fits, Budget.NewlyExceeded}
    requires Live(o.attempts[a].phase) || ChargeOf(o, a, bytes) == Budget.NewlyExceeded
    requires Written(PutAttempt(o, a, row), n, a, ChargeOf(o, a, bytes) == Budget.NewlyExceeded)
    ensures Traced(o, n, a, bytes) && (ChargeOf(o, a, bytes) == Budget.NewlyExceeded ==> Crossed(o, n, a))
    ensures n.actions == o.actions && a in n.attempts && Live(n.attempts[a].phase) == Live(o.attempts[a].phase)
  {
    hide ArchivedBytes, Over, Meters, Local, Charges, Fair, WaitsFair, Indexed, PutAttempt, Telling, SameCharges,
         ChargeOf, Traced;
    var c := PutAttempt(o, a, row);
    PutRows(o, a, row);
    ChargeMeters(o, a, row, bytes);
    LiveCharges(o, a, row, bytes);
    ChargedLocal(o, a, row);
    LocalTrans(o, c, n, a);
    QuietMeters(c, n);
    MetersTrans(o, c, n);
    ChargesQuiet(o, c, n, a, bytes);
    FairWritten(o, c, n, a, ChargeOf(o, a, bytes) == Budget.NewlyExceeded);
    SameOver(c, n, a);
    TracedWhole(o, n, a, bytes);
  }

  lemma ChargeMeters(db: Ledger, a: Id, row: Attempt, bytes: int)
    requires a in db.attempts && row.outputBytes == Budget.LiveBytes(db.attempts[a].outputBytes, Archived(db, a), bytes)
    requires ChargeOf(db, a, bytes) in {Budget.Fits, Budget.NewlyExceeded}
    ensures Meters(db, PutAttempt(db, a, row))
  {
    hide ArchivedBytes, Meters, PutAttempt;
    LiveMeters(db, a, row, bytes);
  }

  lemma ProjectQuiet(db: Ledger, ref: AttemptRef, kind: EventKind, key: Key, digest: Digest)
    requires !Telling(AttemptEvent(kind, ref, Some(key), Some(digest), false))
    ensures var n := Project(db, ref, kind, key, digest);
      Quiet(db, n) && n.actions == db.actions && n.attempts == db.attempts
  {
    hide Quiet, Append, Tick, Telling;
    TickQuiet(db, false);
    TickRows(db);
    var e := AttemptEvent(kind, ref, Some(key), Some(digest), false);
    AppendQuiet(Tick(db, false), e);
    AppendRows(Tick(db, false), e);
    QuietTrans(db, Tick(db, false), Append(Tick(db, false), e));
  }

  /** What accepted content leaves, before the stop that a crossing schedules. */
  lemma ContentCases(db: Ledger, ref: AttemptRef, e: AdapterEvent, valid: bool, marker: Id, stop: Id)
    requires ref.attempt in db.attempts
    ensures var n := Commits(db, ProjectContent(db, ref, e, valid, marker, stop));
      var row := db.attempts[ref.attempt];
      var bytes := Budget.LiveBytes(row.outputBytes, Archived(db, ref.attempt), BytesOf(e));
      var charge := ChargeOf(db, ref.attempt, BytesOf(e));
      var charged := PutAttempt(db, ref.attempt, row.(outputBytes := bytes));
      n == db
      || (&& charge in {Budget.Fits, Budget.NewlyExceeded} && ref.attempt in charged.attempts
          && var w := WriteRows(charged, ref, e, charge.NewlyExceeded?, marker);
            && w.Ok?
            && var p := Project(w.value, ref, KindOf(e), Key(false, BaseOf(e, row.version)), Whole(e));
              n == if charge.NewlyExceeded? then Commits(p, ScheduleStop(p, ref, stop)) else p)
  {
    hide WellBound, Recorded, KeyTaken, ArchivedBytes, ScheduleStop, WriteRows, Project, BytesOf, BaseOf, KindOf;
  }

  /** A stop scheduled by a charge that has crossed. */
  lemma StopTraced(o: Ledger, d: Ledger, ref: AttemptRef, stop: Id, bytes: int)
    requires ref.attempt in o.attempts && Traced(o, d, ref.attempt, bytes) && d.actions == o.actions
    requires Crossed(o, d, ref.attempt)
    ensures Traced(o, Commits(d, ScheduleStop(d, ref, stop)), ref.attempt, bytes)
  {
    hide Traced, Quiet, ScheduleStop, Crossed, Commits;
    TracedRow(o, d, ref.attempt, bytes);
    StopQuiet(d, ref, stop);
    StopPhase(d, ref, stop);
    TracedQuiet(o, d, Commits(d, ScheduleStop(d, ref, stop)), ref.attempt, bytes);
  }

  lemma TracedRow(o: Ledger, n: Ledger, a: Id, bytes: int)
    requires Traced(o, n, a, bytes)
    ensures a in o.attempts && a in n.attempts
  {
    hide Meters, Local, Fair;
  }

  lemma ContentTraced(db: Ledger, ref: AttemptRef, e: AdapterEvent, valid: bool, marker: Id, stop: Id)
    requires ref.attempt in db.attempts && PhaseFits(db.attempts[ref.attempt]) && !e.Terminal?
    requires Live(db.attempts[ref.attempt].phase)
    ensures var n := Commits(db, ProjectContent(db, ref, e, valid, marker, stop));
      && Traced(db, n, ref.attempt, BytesOf(e)) && ref.attempt in n.attempts
      && Live(n.attempts[ref.attempt].phase)
  {
    hide ProjectContent, WriteRows, Project, ScheduleStop, BytesOf, BaseOf, KindOf, Traced, Quiet, Crossed, ChargeOf,
         Written, Commits, PutAttempt, ArchivedBytes;
    var n := Commits(db, ProjectContent(db, ref, e, valid, marker, stop));
    TracedSelf(db, ref.attempt, BytesOf(e));
    ContentCases(db, ref, e, valid, marker, stop);
    if n != db {
      var row := db.attempts[ref.attempt];
      var charge := ChargeOf(db, ref.attempt, BytesOf(e));
      var next := row.(outputBytes := Budget.LiveBytes(row.outputBytes, Archived(db, ref.attempt), BytesOf(e)));
      PutRows(db, ref.attempt, next);
      var charged := PutAttempt(db, ref.attempt, next);
      var w := WriteRows(charged, ref, e, charge.NewlyExceeded?, marker).value;
      RowsWritten(charged, ref, e, charge.NewlyExceeded?, marker);
      ChargeWritten(db, next, w, ref.attempt, BytesOf(e));
      ContentMute(e, row.version, ref);
      var p := Project(w, ref, KindOf(e), Key(false, BaseOf(e, row.version)), Whole(e));
      ProjectQuiet(w, ref, KindOf(e), Key(false, BaseOf(e, row.version)), Whole(e));
      TracedQuiet(db, w, p, ref.attempt, BytesOf(e));
      if charge.NewlyExceeded? {
        StopCrossed(db, w, p, ref.attempt);
        StopTraced(db, p, ref, stop, BytesOf(e));
        StopPhase(p, ref, stop);
      }
    }
  }

  lemma StopCrossed(o: Ledger, w: Ledger, p: Ledger, a: Id)
    requires Crossed(o, w, a) && Quiet(w, p) && a in w.attempts
    ensures Crossed(o, p, a)
  {
    hide Over, Indexed, UserOnly, RowsMild, TellsMild;
    SameOver(w, p, a);
  }

  lemma ContentMute(e: AdapterEvent, version: int, ref: AttemptRef)
    requires !e.Terminal?
    ensures !Telling(AttemptEvent(KindOf(e), ref, Some(Key(false, BaseOf(e, version))), Some(Whole(e)), false))
  {
  }

  // --------------------------------------------------------------- terminals

  lemma TerminalCases(db: Ledger, ref: AttemptRef, e: AdapterEvent, valid: bool, stop: Id)
    requires ref.attempt in db.attempts && e.Terminal?
    ensures var n := Commits(db, ProjectTerminal(db, ref, e, valid, stop));
      var d1 := Commits(db, SetUnknown(db, ref, UnknownEffect));
      || n == db
      || (ref.attempt in d1.attempts && n == Commits(d1, Archive(d1, ref, e, valid, TerminalUnresolved, stop)))
      || n == Commits(db, SetUnknown(db, ref, e.terminalEffect))
      || (&& e.how.Terminates? && !KeyTaken(db, ref.attempt, Key(false, KTerminal))
          && var digest := TerminalDigest(db.attempts[ref.attempt].said, e);
            n == Announce(Project(Conclude(db, ref, e), ref, OtherEvent, Key(false, KTerminal), digest)))
  {
    hide SetUnknown, Archive, AnswersUnresolved, Acceptable, Recorded, KeyTaken, Conclude, Project, Announce,
         TerminalDigest;
  }

  lemma UnknownRows(db: Ledger, ref: AttemptRef, effect: Effect)
    requires LogInv(db.events, db.node.lastSeq)
    ensures var n := Commits(db, SetUnknown(db, ref, effect));
      && n.actions == db.actions
      && (ref.attempt in db.attempts ==> ref.attempt in n.attempts)
      && forall a, key :: KeyTaken(db, a, key) ==> KeyTaken(n, a, key)
  {
    hide OtherLive, Seize, Append, KeyTaken, LogInv;
    if ref.attempt in db.attempts {
      var d1 := Seize(db, ref, effect);
      var node := d1.node.(readiness := IsUnknown, reasons := d1.node.reasons + {ExecutionUnknown});
      var d2 := Tick(d1.(node := node), false);
      var e := AttemptEvent(OtherEvent, ref, None, None, false);
      SeizeRows(db, ref, effect);
      AppendRows(d2, e);
      AppendRows(Append(d2, e), Event(StateChanged, None, None, None, None, false));
      LongerLog(d2, e);
      LongerLog(Append(d2, e), Event(StateChanged, None, None, None, None, false));
      SameLog(db, d2);
    }
  }

  lemma SeizeRows(db: Ledger, ref: AttemptRef, effect: Effect)
    requires ref.attempt in db.attempts
    ensures var n := Seize(db, ref, effect);
      && n.actions == db.actions && n.events == db.events && n.node.lastSeq == db.node.lastSeq
      && ref.attempt in n.attempts
  {
    hide SetStatus;
    var row := Moved(db.attempts[ref.attempt], Unknown).(effect := effect);
    StatusRows(Place(db, ref.attempt, row, Some(ref.attempt), Confused), ref.request, Lost);
  }

  /** Entries of the log stay. */
  lemma LongerLog(db: Ledger, e: Event)
    requires LogInv(db.events, db.node.lastSeq)
    ensures var n := Append(db, e);
      LogInv(n.events, n.node.lastSeq) && forall a, key :: KeyTaken(db, a, key) ==> KeyTaken(n, a, key)
  {
    var n := Append(db, e);
    forall a, key | KeyTaken(db, a, key) ensures KeyTaken(n, a, key) {
      var k :| k in db.events && db.events[k].attempt == Some(a) && db.events[k].key == Some(key);
      assert k in n.events && n.events[k] == db.events[k];
    }
  }

  lemma SameLog(o: Ledger, n: Ledger)
    requires n.events == o.events
    ensures forall a, key :: KeyTaken(o, a, key) == KeyTaken(n, a, key)
  {
  }

  /** Quiet steps before the charge. */
  lemma QuietThen(a: Ledger, b: Ledger, c: Ledger, x: Id, bytes: int)
    requires Quiet(a, b) && Traced(b, c, x, bytes) && b.actions == a.actions
    requires x in a.attempts && x in b.attempts && Live(a.attempts[x].phase)
    requires KeyTaken(a, x, Key(false, KTerminal)) ==> KeyTaken(b, x, Key(false, KTerminal))
    ensures Traced(a, c, x, bytes)
  {
    hide Meters, Indexed, UserOnly, AssistantsKept, Local, Charges, Fair, SameCharges, Traced, KeyTaken;
    TracedParts(b, c, x, bytes);
    assert SameCharges(a, b);
    QuietMeters(a, b);
    MetersTrans(a, b, c);
    QuietLocal(a, b, x);
    LocalTrans(a, b, c, x);
    QuietFair(a, b, c, x);
    FairIn(b, c, x);
    QuietCharging(a, b, c, x, bytes);
    TracedWhole(a, c, x, bytes);
  }

  lemma QuietCharging(a: Ledger, b: Ledger, c: Ledger, x: Id, bytes: int)
    requires SameCharges(a, b) && Charges(b, c, x, bytes) && x in a.attempts
    ensures Charges(a, c, x, bytes)
  {
    hide ArchivedBytes;
    forall y | y != x ensures SameAccount(a, c, y) {
      assert SameAccount(b, c, y);
    }
  }

  lemma QuietFair(a: Ledger, b: Ledger, c: Ledger, x: Id)
    requires Quiet(a, b) && Fair(b, c, x) && b.actions == a.actions
    requires x in a.attempts && x in b.attempts && Live(a.attempts[x].phase)
    requires KeyTaken(a, x, Key(false, KTerminal)) ==> KeyTaken(b, x, Key(false, KTerminal))
    ensures Fair(a, c, x)
  {
    hide Indexed, UserOnly, Over, TellsFair, Telling, SameCharges, KeyTaken;
    SameOver(a, b, x);
    forall k | k in c.events && Telling(c.events[k]) && !(k in a.events && a.events[k] == c.events[k])
      ensures TellsFair(a, c, x, c.events[k])
    {
      TellsThen(a, b, c, x, c.events[k]);
    }
  }

  lemma TellsThen(a: Ledger, b: Ledger, c: Ledger, x: Id, e: Event)
    requires TellsFair(b, c, x, e) && x in c.attempts && Over(b, x) == Over(a, x)
    requires KeyTaken(a, x, Key(false, KTerminal)) ==> KeyTaken(b, x, Key(false, KTerminal))
    ensures TellsFair(a, c, x, e)
  {
    hide Over, KeyTaken;
  }

  lemma ConcludeSilent(db: Ledger, ref: AttemptRef, e: AdapterEvent)
    requires ref.attempt in db.attempts && e.Terminal? && e.how.Terminates?
    ensures var n := Conclude(db, ref, e);
      && Silent(db, n, ref.attempt) && SameCharges(db, n) && n.actions == db.actions && ref.attempt in n.attempts
      && !Live(n.attempts[ref.attempt].phase) && n.attempts[ref.attempt].started == db.attempts[ref.attempt].started
  {
    hide EndAttempt, Silent, SameCharges, Quiet;
    var d := EndAttempt(db, ref, e.how.outcome, e.terminalEffect);
    EndSilent(db, ref, e.how.outcome, e.terminalEffect);
    EndRows(db, ref, e.how.outcome, e.terminalEffect);
    var n := Conclude(db, ref, e);
    NodeQuiet(d, n);
    QuietSilent(d, n, ref.attempt);
    SilentTrans(db, d, n, ref.attempt);
    ChargesTrans(db, d, n);
  }

  lemma EndRows(db: Ledger, ref: AttemptRef, outcome: Ending, effect: Effect)
    requires ref.attempt in db.attempts
    ensures var n := EndAttempt(db, ref, outcome, effect);
      && n.actions == db.actions && ref.attempt in n.attempts && n.attempts[ref.attempt].phase == Ended(outcome)
      && n.attempts[ref.attempt].started == db.attempts[ref.attempt].started
      && n.node.nextMessage == db.node.nextMessage
  {
    hide Bump;
  }

  /** One entry of the log about attempt `a`. */
  lemma ToldLocal(db: Ledger, a: Id, e: Event)
    requires e.attempt == Some(a)
    ensures var n := Append(Tick(db, false), e);
      && Local(db, n, a) && SameCharges(db, n) && n == db.(events := n.events, node := n.node)
      && forall k :: k in n.events ==> (k in db.events && n.events[k] == db.events[k]) || n.events[k] == e
  {
    hide Append, Indexed, Telling;
    AppendRows(Tick(db, false), e);
    if Indexed(db) { SameIndex(db, Append(Tick(db, false), e)); }
  }

  lemma FairTold(o: Ledger, d: Ledger, n: Ledger, a: Id, e: Event)
    requires Fair(o, d, a) && n == d.(events := n.events, node := n.node) && TellsFair(o, n, a, e)
    requires forall k :: k in n.events ==> (k in d.events && n.events[k] == d.events[k]) || n.events[k] == e
    ensures Fair(o, n, a)
  {
    hide ArchivedBytes, KeyTaken, Telling, TellsFair;
    forall k | k in n.events && Telling(n.events[k]) && !(k in o.events && o.events[k] == n.events[k])
      ensures TellsFair(o, n, a, n.events[k])
    {
      if n.events[k] != e { SameTells(o, d, n, a, n.events[k]); }
    }
  }

  lemma SameTells(o: Ledger, d: Ledger, n: Ledger, a: Id, e: Event)
    requires TellsFair(o, d, a, e) && n.attempts == d.attempts && n.late == d.late
    ensures TellsFair(o, n, a, e)
  {
    hide ArchivedBytes, KeyTaken;
  }

  lemma TracedTold(o: Ledger, d: Ledger, a: Id, e: Event, bytes: int)
    requires Traced(o, d, a, bytes) && TellsFair(o, Append(Tick(d, false), e), a, e)
    ensures Traced(o, Append(Tick(d, false), e), a, bytes)
  {
    hide Append, Tick, TellsFair, Meters, Local, Fair, Charges, SameCharges, Traced;
    assert e.attempt == Some(a) by { TellsOwn(o, Append(Tick(d, false), e), a, e); }
    TracedParts(o, d, a, bytes);
    var n := Append(Tick(d, false), e);
    ToldLocal(d, a, e);
    LocalTrans(o, d, n, a);
    QuietMeters(d, n);
    MetersTrans(o, d, n);
    ChargesQuiet(o, d, n, a, bytes);
    FairTold(o, d, n, a, e);
    TracedWhole(o, n, a, bytes);
  }

  lemma TellsOwn(o: Ledger, n: Ledger, a: Id, e: Event)
    requires TellsFair(o, n, a, e)
    ensures e.attempt == Some(a)
  {
    hide KeyTaken, Crossed;
  }

  /** The rows of the attempt end, the mark in the log aside. */
  lemma TracedSilent(o: Ledger, d: Ledger, n: Ledger, a: Id, bytes: int)
    requires Traced(o, d, a, bytes) && Silent(d, n, a) && SameCharges(d, n) && n.actions == d.actions
    requires a in d.attempts && a in n.attempts && !Live(n.attempts[a].phase) && !KeyTaken(o, a, Key(false, KTerminal))
    ensures Traced(o, n, a, bytes)
  {
    hide Meters, Local, Charges, Fair, SameCharges, Traced, KeyTaken, RowsMild, TellsMild;
    TracedParts(o, d, a, bytes);
    LocalTrans(o, d, n, a);
    QuietMeters(d, n);
    MetersTrans(o, d, n);
    ChargesQuiet(o, d, n, a, bytes);
    FairSilent(o, d, n, a);
    TracedWhole(o, n, a, bytes);
  }

  lemma FairSilent(o: Ledger, d: Ledger, n: Ledger, a: Id)
    requires Fair(o, d, a) && Silent(d, n, a) && SameCharges(d, n) && n.actions == d.actions
    requires a in d.attempts && a in n.attempts && !Live(n.attempts[a].phase) && !KeyTaken(o, a, Key(false, KTerminal))
    ensures Fair(o, n, a)
  {
    hide Indexed, AssistantsKept, Over, TellsFair, Telling, SameCharges, KeyTaken;
    SameOver(d, n, a);
    forall k | k in n.events && Telling(n.events[k]) && !(k in o.events && o.events[k] == n.events[k])
      ensures TellsFair(o, n, a, n.events[k])
    {
      TellsQuiet(o, d, n, a, n.events[k]);
    }
  }

  lemma EndTells(o: Ledger, n: Ledger, ref: AttemptRef, e: AdapterEvent)
    requires ref.attempt in n.attempts && e.Terminal? && e.how.Terminates?
    requires !Live(n.attempts[ref.attempt].phase) && !KeyTaken(o, ref.attempt, Key(false, KTerminal))
    ensures TellsFair(o, n, ref.attempt,
                      AttemptEvent(OtherEvent, ref, Some(Key(false, KTerminal)),
                                   Some(TerminalDigest(n.attempts[ref.attempt].said, e)), false))
  {
    hide Over, KeyTaken;
  }

  /** The end of an attempt, after what the same transaction has projected before. */
  lemma EndTraced(o: Ledger, db: Ledger, ref: AttemptRef, e: AdapterEvent, bytes: int)
    requires Traced(o, db, ref.attempt, bytes) && ref.attempt in db.attempts && e.Terminal? && e.how.Terminates?
    requires !KeyTaken(o, ref.attempt, Key(false, KTerminal))
    ensures var digest := TerminalDigest(db.attempts[ref.attempt].said, e);
      var n := Announce(Project(Conclude(db, ref, e), ref, OtherEvent, Key(false, KTerminal), digest));
      Traced(o, n, ref.attempt, bytes)
  {
    hide Conclude, Append, Announce, KeyTaken, Traced, SameCharges, TerminalDigest, Quiet, Silent, TellsFair;
    var d := Conclude(db, ref, e);
    var digest := TerminalDigest(db.attempts[ref.attempt].said, e);
    var told := AttemptEvent(OtherEvent, ref, Some(Key(false, KTerminal)), Some(digest), false);
    var p := Project(d, ref, OtherEvent, Key(false, KTerminal), digest);
    ConcludeSilent(db, ref, e);
    TracedSilent(o, db, d, ref.attempt, bytes);
    SilentSaid(db, d, ref.attempt);
    ToldLocal(d, ref.attempt, told);
    EndTells(o, p, ref, e);
    TracedTold(o, d, ref.attempt, told, bytes);
    AnnounceQuiet(p);
    AnnounceRows(p);
    TracedQuiet(o, p, Announce(p), ref.attempt, bytes);
  }

  lemma SilentSaid(o: Ledger, n: Ledger, a: Id)
    requires Silent(o, n, a) && a in o.attempts
    ensures a in n.attempts && n.attempts[a].said == o.attempts[a].said
  {
    hide Local;
  }

  lemma AnnounceRows(db: Ledger)
    ensures var n := Announce(db); n.actions == db.actions && n.attempts == db.attempts
  {
  }

  lemma TerminalTraced(db: Ledger, ref: AttemptRef, e: AdapterEvent, valid: bool, stop: Id)
    requires ref.attempt in db.attempts && Live(db.attempts[ref.attempt].phase) && e.Terminal?
    requires LogInv(db.events, db.node.lastSeq)
    ensures Traced(db, Commits(db, ProjectTerminal(db, ref, e, valid, stop)), ref.attempt, BytesOf(e))
  {
    hide SetUnknown, Archive, Conclude, Project, Announce, KeyTaken, ProjectTerminal, LogInv, Traced, Quiet, BytesOf,
         TerminalDigest, Commits;
    TracedSelf(db, ref.attempt, BytesOf(e));
    TerminalCases(db, ref, e, valid, stop);
    var d1 := Commits(db, SetUnknown(db, ref, UnknownEffect));
    UnknownQuiet(db, ref, UnknownEffect);
    UnknownRows(db, ref, UnknownEffect);
    ArchiveTraced(d1, ref, e, valid, TerminalUnresolved, stop);
    QuietThen(db, d1, Commits(d1, Archive(d1, ref, e, valid, TerminalUnresolved, stop)), ref.attempt, BytesOf(e));
    UnknownQuiet(db, ref, e.terminalEffect);
    UnknownRows(db, ref, e.terminalEffect);
    QuietTraced(db, Commits(db, SetUnknown(db, ref, e.terminalEffect)), ref.attempt, BytesOf(e));
    if e.how.Terminates? && !KeyTaken(db, ref.attempt, Key(false, KTerminal)) {
      EndTraced(db, db, ref, e, BytesOf(e));
    }
  }

  // -------------------------------------------------------------- deliveries

  lemma WaitTraced(db: Ledger, ref: AttemptRef, e: AdapterEvent, bytes: int)
    requires ref.attempt in db.attempts && e.WaitsFor? && Live(db.attempts[ref.attempt].phase)
    ensures var row := db.attempts[ref.attempt];
      var d1 := PutAttempt(db, ref.attempt, Moved(row, Waiting));
      Traced(db, Project(d1, ref, OtherEvent, Key(false, KWaiting(row.version + 1)), Whole(e)), ref.attempt, bytes)
  {
    hide Quiet, PutAttempt, Project, Traced;
    var row := db.attempts[ref.attempt];
    var d1 := PutAttempt(db, ref.attempt, Moved(row, Waiting));
    PutQuiet(db, ref.attempt, Moved(row, Waiting));
    PutRows(db, ref.attempt, Moved(row, Waiting));
    ProjectQuiet(d1, ref, OtherEvent, Key(false, KWaiting(row.version + 1)), Whole(e));
    var n := Project(d1, ref, OtherEvent, Key(false, KWaiting(row.version + 1)), Whole(e));
    QuietTrans(db, d1, n);
    QuietTraced(db, n, ref.attempt, bytes);
  }

  lemma StartedTraced(db: Ledger, ref: AttemptRef, bytes: int)
    requires ref.attempt in db.attempts
    ensures Traced(db, Project(db, ref, OtherEvent, Key(false, KStarted), Whole(Started)), ref.attempt, bytes)
  {
    hide Quiet, Project, Traced;
    ProjectQuiet(db, ref, OtherEvent, Key(false, KStarted), Whole(Started));
    QuietTraced(db, Project(db, ref, OtherEvent, Key(false, KStarted), Whole(Started)), ref.attempt, bytes);
  }

  lemma EventTraced(db: Ledger, ref: AttemptRef, e: AdapterEvent, valid: bool, marker: Id, stop: Id)
    requires ref.attempt in db.attempts && PhaseFits(db.attempts[ref.attempt])
    requires Live(db.attempts[ref.attempt].phase) && LogInv(db.events, db.node.lastSeq)
    ensures Traced(db, Commits(db, ProjectEvent(db, ref, e, valid, marker, stop)), ref.attempt, BytesOf(e))
  {
    hide SetUnknown, Project, PutAttempt, ProjectTerminal, ProjectContent, Recorded, KeyTaken, Traced, BytesOf, Quiet,
         LogInv, PhaseFits;
    TracedSelf(db, ref.attempt, BytesOf(e));
    match e
    case Started => StartedTraced(db, ref, BytesOf(e));
    case WaitsFor(_) => WaitTraced(db, ref, e, BytesOf(e));
    case Terminal(_, _, _, _, _) => TerminalTraced(db, ref, e, valid, stop);
    case LostTrack(effect) =>
      UnknownQuiet(db, ref, effect);
      UnknownRows(db, ref, effect);
      QuietTraced(db, Commits(db, SetUnknown(db, ref, effect)), ref.attempt, BytesOf(e));
    case _ => ContentTraced(db, ref, e, valid, marker, stop);
  }

  /** The attempt fits its phase, and the log is contiguous. */
  ghost predicate Fit(db: Ledger, a: Id) {
    a in db.attempts && PhaseFits(db.attempts[a]) && LogInv(db.events, db.node.lastSeq)
  }

  lemma ObserveTraced(db: Ledger, ref: AttemptRef, e: AdapterEvent, valid: bool, marker: Id, stop: Id)
    requires Fit(db, ref.attempt)
    ensures Traced(db, Commits(db, Observe(db, ref, e, valid, marker, stop)), ref.attempt, BytesOf(e))
  {
    hide Archive, ProjectEvent, Interactive, Traced, BytesOf, LogInv, PhaseFits;
    TracedSelf(db, ref.attempt, BytesOf(e));
    ArchiveTraced(db, ref, e, valid, Suppressed, stop);
    ArchiveTraced(db, ref, e, valid, Late, stop);
    if Live(db.attempts[ref.attempt].phase) { EventTraced(db, ref, e, valid, marker, stop); }
  }

  lemma ArtifactCases(db: Ledger, ref: AttemptRef, bytes: int, marker: Id, stop: Id)
    requires ref.attempt in db.attempts
    ensures var n := Commits(db, ChargeArtifact(db, ref, bytes, marker, stop));
      var row := db.attempts[ref.attempt];
      var charge := ChargeOf(db, ref.attempt, bytes);
      var next := row.(outputBytes := Budget.LiveBytes(row.outputBytes, Archived(db, ref.attempt), bytes));
      var charged := PutAttempt(db, ref.attempt, next);
      var kept := PutAttempt(db, ref.attempt, next.(artifacts := row.artifacts + 1));
      || n == db
      || (charge.Fits? && n == Append(kept, AttemptEvent(OtherEvent, ref, None, None, false)))
      || (&& charge.NewlyExceeded? && marker !in charged.messages && ref.attempt in charged.attempts
          && var marked := MarkLimit(charged, ref, marker, db.node.active != Some(ref.attempt));
            n == Commits(marked, ScheduleStop(marked, ref, stop)))
  {
    hide Append, ScheduleStop, KeyTaken, MarkLimit, ArchivedBytes;
  }

  lemma KeptTraced(db: Ledger, ref: AttemptRef, row: Attempt, bytes: int)
    requires ref.attempt in db.attempts && ChargedRow(db.attempts[ref.attempt], row)
    requires row.outputBytes == Budget.LiveBytes(db.attempts[ref.attempt].outputBytes, Archived(db, ref.attempt), bytes)
    requires ChargeOf(db, ref.attempt, bytes).Fits?
    ensures var n := Append(PutAttempt(db, ref.attempt, row), AttemptEvent(OtherEvent, ref, None, None, false));
      Traced(db, n, ref.attempt, bytes)
  {
    hide Append, Traced, ChargeOf, Quiet, ArchivedBytes, PutAttempt;
    var c := PutAttempt(db, ref.attempt, row);
    RowTraced(db, ref.attempt, row, bytes);
    var e := AttemptEvent(OtherEvent, ref, None, None, false);
    AppendQuiet(c, e);
    AppendRows(c, e);
    PutRows(db, ref.attempt, row);
    TracedQuiet(db, c, Append(c, e), ref.attempt, bytes);
  }

  lemma RowTraced(db: Ledger, a: Id, row: Attempt, bytes: int)
    requires a in db.attempts && ChargedRow(db.attempts[a], row)
    requires row.outputBytes == Budget.LiveBytes(db.attempts[a].outputBytes, Archived(db, a), bytes)
    requires ChargeOf(db, a, bytes) in {Budget.Fits, Budget.NewlyExceeded}
    ensures Traced(db, PutAttempt(db, a, row), a, bytes)
  {
    hide ChargeOf, ArchivedBytes, PutAttempt, Meters, Indexed, AssistantsKept, TellsFair, Charges, Telling, Over,
         KeyTaken;
    ChargedLocal(db, a, row);
    ChargeMeters(db, a, row, bytes);
    LiveCharges(db, a, row, bytes);
    PutRows(db, a, row);
  }

  lemma MarkTraced(o: Ledger, w: Ledger, ref: AttemptRef, late: bool, bytes: int)
    requires Traced(o, w, ref.attempt, bytes) && Crossed(o, w, ref.attempt) && w.actions == o.actions
    ensures var n := Append(Tick(w, false), AttemptEvent(OtherEvent, ref, Some(Key(false, KLimit)), None, late));
      Traced(o, n, ref.attempt, bytes) && Crossed(o, n, ref.attempt) && n.actions == o.actions
  {
    hide Append, Tick, Traced, KeyTaken, Crossed;
    var e := AttemptEvent(OtherEvent, ref, Some(Key(false, KLimit)), None, late);
    var n := Append(Tick(w, false), e);
    TracedRow(o, w, ref.attempt, bytes);
    ToldLocal(w, ref.attempt, e);
    StillCrossed(o, w, n, ref.attempt);
    TracedTold(o, w, ref.attempt, e, bytes);
  }

  lemma StillCrossed(o: Ledger, w: Ledger, n: Ledger, a: Id)
    requires Crossed(o, w, a) && SameCharges(w, n) && a in w.attempts
    ensures Crossed(o, n, a)
  {
    hide Over;
    SameOver(w, n, a);
  }

  lemma ArtifactTraced(db: Ledger, ref: AttemptRef, bytes: int, marker: Id, stop: Id)
    requires ref.attempt in db.attempts
    ensures Traced(db, Commits(db, PublishArtifact(db, ref, bytes, marker, stop)), ref.attempt, bytes)
  {
    hide Append, ScheduleStop, MarkLimit, Traced, ChargeOf, ArchivedBytes, PutAttempt, ChargeArtifact;
    TracedSelf(db, ref.attempt, bytes);
    ArtifactCases(db, ref, bytes, marker, stop);
    var row := db.attempts[ref.attempt];
    var next := row.(outputBytes := Budget.LiveBytes(row.outputBytes, Archived(db, ref.attempt), bytes));
    if ChargeOf(db, ref.attempt, bytes).Fits? {
      KeptTraced(db, ref, next.(artifacts := row.artifacts + 1), bytes);
    } else if ChargeOf(db, ref.attempt, bytes).NewlyExceeded? && marker !in PutAttempt(db, ref.attempt, next).messages {
      MarkedTraced(db, ref, next, bytes, marker, stop);
    }
  }

  lemma MarkedTraced(db: Ledger, ref: AttemptRef, row: Attempt, bytes: int, marker: Id, stop: Id)
    requires ref.attempt in db.attempts && ChargedRow(db.attempts[ref.attempt], row)
    requires row.outputBytes == Budget.LiveBytes(db.attempts[ref.attempt].outputBytes, Archived(db, ref.attempt), bytes)
    requires ChargeOf(db, ref.attempt, bytes).NewlyExceeded?
    requires marker !in PutAttempt(db, ref.attempt, row).messages
    ensures var charged := PutAttempt(db, ref.attempt, row);
      && ref.attempt in charged.attempts
      && forall late :: var marked := MarkLimit(charged, ref, marker, late);
           Traced(db, Commits(marked, ScheduleStop(marked, ref, stop)), ref.attempt, bytes)
  {
    hide Append, Tick, Speak, ScheduleStop, Traced, ChargeOf, ArchivedBytes, PutAttempt, Crossed, Written, Commits;
    var charged := PutAttempt(db, ref.attempt, row);
    PutRows(db, ref.attempt, row);
    SpeakWritten(charged, ref, marker, LIMIT_TEXT, true);
    var w := Speak(charged, ref, marker, LIMIT_TEXT);
    ChargeWritten(db, row, w, ref.attempt, bytes);
    forall late
      ensures var marked := MarkLimit(charged, ref, marker, late);
        Traced(db, Commits(marked, ScheduleStop(marked, ref, stop)), ref.attempt, bytes)
    {
      MarkTraced(db, w, ref, late, bytes);
      StopTraced(db, MarkLimit(charged, ref, marker, late), ref, stop, bytes);
    }
  }

  // ----------------------------------------------------------- reconciliation

  /** The output a reconciled completion projects first. */
  function SaidBytes(e: AdapterEvent): int {
    if e.Terminal? && e.output.Some? then e.output.value.bytes else 0
  }

  lemma TakenStays(o: Ledger, n: Ledger, x: Id, a: Id, key: Key)
    requires Keeps(o, n, x, Nobody) && KeyTaken(o, a, key)
    ensures KeyTaken(n, a, key)
  {
    hide Core, Calm, QueueMoves;
    var k :| k in o.events && o.events[k].attempt == Some(a) && o.events[k].key == Some(key);
    assert k in n.events && n.events[k] == o.events[k];
  }

  lemma EnsuredTraced(db: Ledger, ref: AttemptRef, e: AdapterEvent, newId: Id, valid: bool, marker: Id, stop: Id)
    requires Core(db) && Own(db, ref) && PhaseFits(db.attempts[ref.attempt]) && e.Terminal?
    requires Live(db.attempts[ref.attempt].phase) && EnsureSaid(db, ref, e, newId, valid, marker, stop).Ok?
    ensures var d := EnsureSaid(db, ref, e, newId, valid, marker, stop).value;
      && Traced(db, d, ref.attempt, SaidBytes(e)) && ref.attempt in d.attempts && Live(d.attempts[ref.attempt].phase)
      && (KeyTaken(db, ref.attempt, Key(false, KTerminal)) ==> KeyTaken(d, ref.attempt, Key(false, KTerminal)))
  {
    hide Core, ProjectContent, Traced, PhaseFits, Keeps, KeyTaken, SaysOutput;
    TracedSelf(db, ref.attempt, SaidBytes(e));
    if !SaysOutput(db.attempts[ref.attempt].said, e) {
      OutputSome(db.attempts[ref.attempt].said, e);
      var said := Speaks(newId, e.output.value);
      ContentTraced(db, ref, said, valid, marker, stop);
      ContentStays(db, ref, said, valid, marker, stop);
      var d := ProjectContent(db, ref, said, valid, marker, stop).value;
      if KeyTaken(db, ref.attempt, Key(false, KTerminal)) {
        TakenStays(db, d, ref.dialog, ref.attempt, Key(false, KTerminal));
      }
    }
  }

  lemma OutputSome(said: Option<Said>, e: AdapterEvent)
    requires e.Terminal? && !SaysOutput(said, e)
    ensures e.output.Some?
  {
  }

  lemma ReconcileCases(db: Ledger, ref: AttemptRef, newId: Id, e: AdapterEvent, valid: bool, marker: Id, stop: Id)
    requires ref.attempt in db.attempts
    ensures var n := Commits(db, Reconcile(db, ref, newId, e, valid, marker, stop));
      || n == db
      || (&& e.Terminal? && e.how.Terminates?
          && RefOf(db, ref.attempt) == ref && db.attempts[ref.attempt].phase == Unknown
          && EnsureSaid(db, ref, e, newId, valid, marker, stop).Ok?
          && e.terminalEffect != UnknownEffect && !AnswersUnresolved(db, ref.attempt)
          && var d := EnsureSaid(db, ref, e, newId, valid, marker, stop).value;
            ref.attempt in d.attempts && n == Commits(db, ProjectTerminal(d, ref, e, valid, stop)))
  {
    hide EnsureSaid, ProjectTerminal, AnswersUnresolved;
  }

  lemma EnsuredActions(db: Ledger, ref: AttemptRef, e: AdapterEvent, newId: Id, valid: bool, marker: Id, stop: Id)
    requires ref.attempt in db.attempts && db.attempts[ref.attempt].phase == Unknown && e.Terminal?
    requires EnsureSaid(db, ref, e, newId, valid, marker, stop).Ok?
    ensures EnsureSaid(db, ref, e, newId, valid, marker, stop).value.actions == db.actions
  {
    hide ProjectContent, SaysOutput;
    if !SaysOutput(db.attempts[ref.attempt].said, e) {
      OutputSome(db.attempts[ref.attempt].said, e);
      SpeechActions(db, ref, Speaks(newId, e.output.value), valid, marker, stop);
    }
  }

  lemma SpeechActions(db: Ledger, ref: AttemptRef, said: AdapterEvent, valid: bool, marker: Id, stop: Id)
    requires ref.attempt in db.attempts && db.attempts[ref.attempt].phase == Unknown && said.Speaks?
    ensures Commits(db, ProjectContent(db, ref, said, valid, marker, stop)).actions == db.actions
  {
    hide ProjectContent, WriteRows, Project, ScheduleStop, BaseOf, BytesOf, KindOf, ArchivedBytes, ChargeOf, Telling,
         Quiet, PutAttempt;
    ContentCases(db, ref, said, valid, marker, stop);
    if Commits(db, ProjectContent(db, ref, said, valid, marker, stop)) != db {
      var row := db.attempts[ref.attempt];
      var charge := ChargeOf(db, ref.attempt, BytesOf(said));
      var next := row.(outputBytes := Budget.LiveBytes(row.outputBytes, Archived(db, ref.attempt), BytesOf(said)));
      PutRows(db, ref.attempt, next);
      var charged := PutAttempt(db, ref.attempt, next);
      SpokenRows(charged, ref, said, charge.NewlyExceeded?, marker);
      var w := WriteRows(charged, ref, said, charge.NewlyExceeded?, marker).value;
      ContentMute(said, row.version, ref);
      var p := Project(w, ref, KindOf(said), Key(false, BaseOf(said, row.version)), Whole(said));
      ProjectQuiet(w, ref, KindOf(said), Key(false, BaseOf(said, row.version)), Whole(said));
      UnknownUnstopped(p, ref, stop);
    }
  }

  lemma SpokenRows(db: Ledger, ref: AttemptRef, said: AdapterEvent, exceeded: bool, marker: Id)
    requires ref.attempt in db.attempts && said.Speaks? && WriteRows(db, ref, said, exceeded, marker).Ok?
    ensures var w := WriteRows(db, ref, said, exceeded, marker).value;
      w.actions == db.actions && ref.attempt in w.attempts
      && w.attempts[ref.attempt].phase == db.attempts[ref.attempt].phase
  {
    hide OpenApproval, OpenInput, PutTool, Speak;
    SpeakRows(db, ref, said.message, if exceeded then LIMIT_TEXT else said.content.value);
  }

  lemma SpeakRows(db: Ledger, ref: AttemptRef, m: Id, text: Id)
    requires ref.attempt in db.attempts
    ensures var n := Speak(db, ref, m, text);
      var row := db.attempts[ref.attempt].(said := Some(Said(m, text)));
      n.actions == db.actions && n.attempts == db.attempts[ref.attempt := row]
  {
  }

  lemma UnknownUnstopped(db: Ledger, ref: AttemptRef, stop: Id)
    requires ref.attempt in db.attempts && db.attempts[ref.attempt].phase == Unknown
    ensures ScheduleStop(db, ref, stop) == Ok(db)
  {
  }

  /** A terminal with nothing in its way. */
  lemma CalmTerminal(db: Ledger, ref: AttemptRef, e: AdapterEvent, valid: bool, stop: Id)
    requires ref.attempt in db.attempts && e.Terminal? && e.how.Terminates? && e.terminalEffect != UnknownEffect
    requires !AnswersUnresolved(db, ref.attempt) && ProjectTerminal(db, ref, e, valid, stop).Ok?
    ensures var n := ProjectTerminal(db, ref, e, valid, stop).value;
      var digest := TerminalDigest(db.attempts[ref.attempt].said, e);
      || n == db
      || (&& !KeyTaken(db, ref.attempt, Key(false, KTerminal))
          && n == Announce(Project(Conclude(db, ref, e), ref, OtherEvent, Key(false, KTerminal), digest)))
  {
    hide AnswersUnresolved, Acceptable, Recorded, KeyTaken, Conclude, Project, Announce, TerminalDigest;
  }

  lemma SameAnswers(o: Ledger, n: Ledger, a: Id)
    requires n.actions == o.actions
    ensures AnswersUnresolved(n, a) == AnswersUnresolved(o, a)
  {
  }

  lemma ReconcileTraced(db: Ledger, ref: AttemptRef, newId: Id, e: AdapterEvent, valid: bool, marker: Id, stop: Id)
    requires Core(db) && ref.attempt in db.attempts && PhaseFits(db.attempts[ref.attempt])
    ensures Traced(db, Commits(db, Reconcile(db, ref, newId, e, valid, marker, stop)), ref.attempt, SaidBytes(e))
  {
    hide Core, Reconcile, EnsureSaid, ProjectTerminal, Traced, PhaseFits, KeyTaken, SetUnknown, Archive, Conclude,
         Project, Announce, TerminalDigest, AnswersUnresolved;
    TracedSelf(db, ref.attempt, SaidBytes(e));
    ReconcileCases(db, ref, newId, e, valid, marker, stop);
    var n := Commits(db, Reconcile(db, ref, newId, e, valid, marker, stop));
    if n != db {
      EnsuredTraced(db, ref, e, newId, valid, marker, stop);
      var d := EnsureSaid(db, ref, e, newId, valid, marker, stop).value;
      EnsuredActions(db, ref, e, newId, valid, marker, stop);
      SameAnswers(db, d, ref.attempt);
      CalmTerminal(d, ref, e, valid, stop);
      if !KeyTaken(d, ref.attempt, Key(false, KTerminal)) { EndTraced(db, d, ref, e, SaidBytes(e)); }
    }
  }

  /** What a terminal that commits with nothing in its way leaves. */
  lemma CalmOutcome(db: Ledger, ref: AttemptRef, e: AdapterEvent, valid: bool, stop: Id)
    requires ref.attempt in db.attempts && e.Terminal? && e.how.Terminates? && e.terminalEffect != UnknownEffect
    requires !AnswersUnresolved(db, ref.attempt) && ProjectTerminal(db, ref, e, valid, stop).Ok?
    ensures var n := ProjectTerminal(db, ref, e, valid, stop).value;
      && ref.attempt in n.attempts && (SaysOutput(n.attempts[ref.attempt].said, e) || Over(n, ref.attempt))
      && (|| (n == db && KeyTaken(db, ref.attempt, Key(false, KTerminal)))
          || (n.attempts[ref.attempt].phase == Ended(e.how.outcome) && n.node.active.None?))
  {
    hide AnswersUnresolved, Recorded, KeyTaken, Conclude, Project, Announce, TerminalDigest, ArchivedBytes, SameCharges,
         Silent, SaysOutput;
    RecordedTaken(db, ref.attempt, Key(false, KTerminal), TerminalDigest(db.attempts[ref.attempt].said, e));
    OutputNeeded(db, ref.attempt, e);
    CalmTerminal(db, ref, e, valid, stop);
    if !KeyTaken(db, ref.attempt, Key(false, KTerminal)) {
      ConcludeSilent(db, ref, e);
      SilentSaid(db, Conclude(db, ref, e), ref.attempt);
      SameOver(db, Conclude(db, ref, e), ref.attempt);
      ConcludeFacts(db, ref, e);
      NotedRows(Conclude(db, ref, e), ref, TerminalDigest(db.attempts[ref.attempt].said, e));
    }
  }

  lemma NotedRows(db: Ledger, ref: AttemptRef, digest: Digest)
    ensures var n := Announce(Project(db, ref, OtherEvent, Key(false, KTerminal), digest));
      n.attempts == db.attempts && n.node.active == db.node.active && n.late == db.late
  {
  }

  lemma OutputNeeded(db: Ledger, a: Id, e: AdapterEvent)
    requires a in db.attempts && e.Terminal? && e.how.Terminates? && Acceptable(db, a, e)
    ensures SaysOutput(db.attempts[a].said, e) || Over(db, a)
  {
    hide ArchivedBytes;
  }

  /** A reconciliation that commits ends the attempt with the outcome it was given and
      frees the slot, unless an end is on record, and a completion's output is then the
      newest assistant message, unless the budget has cut it off. */
  lemma ReconcileOutcome(db: Ledger, ref: AttemptRef, newId: Id, e: AdapterEvent, valid: bool, marker: Id, stop: Id)
    requires Core(db) && Reconcile(db, ref, newId, e, valid, marker, stop).Ok?
    ensures var n := Reconcile(db, ref, newId, e, valid, marker, stop).value;
      && db.node.active == Some(ref.attempt) && ref.attempt in db.attempts && db.attempts[ref.attempt].phase == Unknown
      && !EffectsUnresolved(db, ref.attempt) && e.Terminal? && e.how.Terminates?
      && ref.attempt in n.attempts && (SaysOutput(n.attempts[ref.attempt].said, e) || Over(n, ref.attempt))
      && (|| (KeyTaken(n, ref.attempt, Key(false, KTerminal)) && Live(n.attempts[ref.attempt].phase))
          || (n.attempts[ref.attempt].phase == Ended(e.how.outcome) && n.node.active.None?))
  {
    hide Core, EnsureSaid, ProjectTerminal, KeyTaken, AnswersUnresolved, SaysOutput, Traced, ArchivedBytes, PhaseFits;
    var d := EnsureSaid(db, ref, e, newId, valid, marker, stop).value;
    EnsuredActions(db, ref, e, newId, valid, marker, stop);
    SameAnswers(db, d, ref.attempt);
    CalmOutcome(d, ref, e, valid, stop);
    PhaseFitsRow(db, ref.attempt);
    EnsuredTraced(db, ref, e, newId, valid, marker, stop);
  }

  lemma PhaseFitsRow(db: Ledger, a: Id)
    requires a in db.attempts && db.attempts[a].phase == Unknown
    ensures PhaseFits(db.attempts[a])
  {
  }
}
