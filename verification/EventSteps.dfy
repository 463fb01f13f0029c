/** Delivered events, reconciliation and artifacts keep the invariant. */
module EventSteps {
  import opened LedgerTypes
  import opened Transactions
  import opened LedgerInvariant
  import Budget = OutputBudget
  import opened Pieces
  import opened AttemptPieces
  import opened RowPieces
  import opened CommandSteps
  import opened WorkerSteps

  ghost predicate Own(db: Ledger, ref: AttemptRef) {
    ref.attempt in db.attempts && RefOf(db, ref.attempt) == ref
  }

  ghost predicate Stays(db: Ledger, r: Result<Ledger>, ref: AttemptRef) {
    r.Ok? ==> Keeps(db, r.value, ref.dialog, Nobody) && Own(r.value, ref)
  }

  lemma StaysSelf(db: Ledger, ref: AttemptRef)
    requires Core(db) && Own(db, ref)
    ensures Stays(db, Ok(db), ref)
  {
    hide Core, Moves, Calm;
    KeepsSelf(db, ref.dialog, Nobody);
  }

  lemma StaysAfter(db: Ledger, d: Ledger, r: Result<Ledger>, ref: AttemptRef)
    requires Keeps(db, d, ref.dialog, Nobody) && Stays(d, r, ref)
    ensures Stays(db, r, ref)
  {
    hide Core, Moves, Calm, Own;
    if r.Ok? {
      Chain(db, d, r.value, ref.dialog, Nobody);
    }
  }

  lemma UnknownStays(db: Ledger, ref: AttemptRef, effect: Effect)
    requires Core(db) && Own(db, ref) && Live(db.attempts[ref.attempt].phase)
    ensures Stays(db, SetUnknown(db, ref, effect), ref)
  {
    hide Core, Moves, Calm, OtherLive, Bump;
    OwnNames(db, ref);
    SetUnknownKeeps(db, ref, effect, ref.dialog, Nobody);
  }

  lemma StoppingStays(db: Ledger, ref: AttemptRef)
    requires Core(db) && Own(db, ref) && db.attempts[ref.attempt].phase in {Running, Waiting}
    ensures var row := Moved(db.attempts[ref.attempt], Stopping);
      var e := AttemptEvent(OtherEvent, ref, None, None, false);
      Stays(db, Ok(Append(Tick(PutAttempt(db, ref.attempt, row), false), e)), ref)
  {
    hide Core, Moves, Calm;
    var row := Moved(db.attempts[ref.attempt], Stopping);
    PutAttemptKeeps(db, ref.attempt, row, ref.dialog, Nobody);
    var d0 := PutAttempt(db, ref.attempt, row);
    Ticked(db, d0, false, ref.dialog, Nobody);
    Appended(db, Tick(d0, false), AttemptEvent(OtherEvent, ref, None, None, false), ref.dialog, Nobody);
  }

  lemma StopInserted(db: Ledger, ref: AttemptRef, stop: Id)
    requires Core(db) && Own(db, ref)
    ensures Stays(db, InsertAction(db, stop, NewAction(StopAttempt, ref, 0, 0, 0)), ref)
  {
    hide Core, Moves, Calm;
    InsertKeeps(db, stop, NewAction(StopAttempt, ref, 0, 0, 0), ref.dialog, Nobody);
  }

  lemma StopStays(db: Ledger, ref: AttemptRef, stop: Id)
    requires Core(db) && Own(db, ref)
    ensures Stays(db, ScheduleStop(db, ref, stop), ref)
  {
    hide Core, Stays, Keeps, Append, Tick, PutAttempt, InsertAction;
    StaysSelf(db, ref);
    if db.attempts[ref.attempt].phase in {Running, Waiting} {
      StoppingStays(db, ref);
      var row := Moved(db.attempts[ref.attempt], Stopping);
      var d1 := Append(Tick(PutAttempt(db, ref.attempt, row), false), AttemptEvent(OtherEvent, ref, None, None, false));
      StaysParts(db, d1, ref);
      StopInserted(d1, ref, stop);
      StaysAfter(db, d1, InsertAction(d1, stop, NewAction(StopAttempt, ref, 0, 0, 0)), ref);
    }
  }

  lemma LateStays(db: Ledger, ref: AttemptRef, e: Event, suppressed: bool, row: LateRow)
    requires Core(db) && Own(db, ref) && e.dialog == Some(ref.dialog) && (suppressed || KeyKnown(e, db))
    ensures var d1 := if suppressed then db else Append(db, e); Stays(db, Ok(d1.(late := d1.late + [row])), ref)
  {
    hide Core, Moves, Calm;
    KeepsSelf(db, ref.dialog, Nobody);
    if !suppressed { AppendKeeps(db, e, ref.dialog, Nobody); }
    var d1 := if suppressed then db else Append(db, e);
    Aside(db, d1, d1.(late := d1.late + [row]), ref.dialog, Nobody);
  }

  lemma ArchiveStays(db: Ledger, ref: AttemptRef, e: AdapterEvent, valid: bool, kind: LateKind, stop: Id)
    requires Core(db) && Own(db, ref) && (kind == Late ==> !Live(db.attempts[ref.attempt].phase))
    ensures Stays(db, Archive(db, ref, e, valid, kind, stop), ref)
  {
    hide Core, Keeps, Append, WellBound, ArchiveDuplicate, ArchiveConflict, ArchivedBytes, ScheduleStop;
    StaysSelf(db, ref);
    var row := db.attempts[ref.attempt];
    var archived := ArchivedBytes(db.late, ref.attempt);
    var key := Key(true, BaseOf(e, row.version));
    var event := AttemptEvent(KindOf(e), ref, Some(key), Some(Whole(e)), true);
    var bytes := Budget.LateBytes(row.outputBytes, archived, BytesOf(e));
    var entry := LateRow(ref.attempt, kind, Some(key), Some(Whole(e)), bytes);
    LateStays(db, ref, event, kind != Late, entry);
    var d1 := if kind != Late then db else Append(db, event);
    var d2 := d1.(late := d1.late + [entry]);
    KeepsCore(db, d2, ref.dialog);
    StopStays(d2, ref, stop);
    StaysAfter(db, d2, ScheduleStop(d2, ref, stop), ref);
  }

  lemma KeepsCore(db: Ledger, d: Ledger, x: Id)
    requires Keeps(db, d, x, Nobody)
    ensures Core(d)
  {
    hide Core, Moves, Calm;
  }

  // ----------------------------------------------------------- live content

  lemma WaitStays(db: Ledger, ref: AttemptRef)
    requires Core(db) && Own(db, ref) && db.attempts[ref.attempt].phase in {Running, Waiting}
    ensures Stays(db, Ok(EnterWaiting(db, ref)), ref)
  {
    hide Core, Moves, Calm;
    var row := Moved(db.attempts[ref.attempt], Waiting);
    StartedWhenRunning(db, ref.attempt);
    PutAttemptKeeps(db, ref.attempt, row, ref.dialog, Nobody);
    var d0 := PutAttempt(db, ref.attempt, row);
    Ticked(db, d0, false, ref.dialog, Nobody);
    Appended(db, Tick(d0, false), AttemptEvent(OtherEvent, ref, None, None, false), ref.dialog, Nobody);
  }

  lemma SpeakStays(db: Ledger, ref: AttemptRef, m: Id, text: Id)
    requires Core(db) && Own(db, ref) && m !in db.messages
    ensures Stays(db, Ok(Speak(db, ref, m, text)), ref)
  {
    hide Core, Moves, Calm, HasAttempt;
    var row := db.attempts[ref.attempt].(said := Some(Said(m, text)));
    RowStays(db, ref, row);
    var d := PutAttempt(db, ref.attempt, row);
    AttemptFacts(d, ref.attempt);
    AddMessageKeeps(d, m, AssistantMessage(db, ref, text), ref.dialog, Nobody);
    Chain(db, d, Speak(db, ref, m, text), ref.dialog, Nobody);
  }

  lemma ApprovalStays(db: Ledger, ref: AttemptRef, p: Id, row: Approval, exceeded: bool, marker: Id)
    requires Core(db) && Own(db, ref) && row.attempt == ref.attempt
    ensures Stays(db, OpenApproval(db, ref, p, row, exceeded, marker), ref)
  {
    hide Core, Moves, Calm, EnterWaiting, Speak;
    if OpenApproval(db, ref, p, row, exceeded, marker).Ok? {
      if exceeded {
        SpeakStays(db, ref, marker, LIMIT_TEXT);
      } else {
        PutApprovalKeeps(db, p, row, ref.dialog, Nobody);
        var d0 := PutApproval(db, p, row);
        WaitStays(d0, ref);
        StaysAfter(db, d0, Ok(EnterWaiting(d0, ref)), ref);
      }
    }
  }

  lemma InputStays(db: Ledger, ref: AttemptRef, i: Id, exceeded: bool)
    requires Core(db) && Own(db, ref)
    ensures Stays(db, OpenInput(db, ref, i, exceeded), ref)
  {
    hide Core, Moves, Calm, EnterWaiting;
    if OpenInput(db, ref, i, exceeded).Ok? {
      var row := Input(ref.attempt, 1, Open);
      PutInputKeeps(db, i, row, ref.dialog, Nobody);
      var d0 := PutInput(db, i, row);
      if !exceeded {
        WaitStays(d0, ref);
        StaysAfter(db, d0, Ok(EnterWaiting(d0, ref)), ref);
      }
    }
  }

  lemma ToolStays(db: Ledger, ref: AttemptRef, t: Id, row: ToolCall)
    requires Core(db) && Own(db, ref) && row.attempt == ref.attempt
    requires (t in db.tools ==> db.tools[t].attempt == ref.attempt)
    ensures Stays(db, Ok(PutTool(db, t, row)), ref)
  {
    hide Core, Moves, Calm;
    PutToolKeeps(db, t, row, ref.dialog, Nobody);
  }

  lemma WriteStays(db: Ledger, ref: AttemptRef, e: AdapterEvent, exceeded: bool, marker: Id)
    requires Core(db) && Own(db, ref) && WellBound(db, ref.attempt, e)
    ensures Stays(db, WriteRows(db, ref, e, exceeded, marker), ref)
  {
    hide Core, Stays, OpenApproval, OpenInput, Speak, PutTool;
    StaysSelf(db, ref);
    StaysErr(db, Unavailable, ref);
    match e
    case Speaks(m, c) => if m !in db.messages { SpeakStays(db, ref, m, if exceeded then LIMIT_TEXT else c.value); }
    case ToolStarted(c, h, _) => if c !in db.tools { ToolStays(db, ref, c, ToolCall(ref.attempt, h, 1, ToolRunning)); }
    case ToolCompleted(c, status, _, _) =>
      if c in db.tools { ToolStays(db, ref, c, db.tools[c].(version := db.tools[c].version + 1, status := status)); }
    case ApprovalRequested(p, c, h, _) =>
        ApprovalStays(db, ref, p, Approval(ref.attempt, c, h, 1, Open), exceeded, marker);
    case InputRequested(i, _) => InputStays(db, ref, i, exceeded);
    case _ =>
  }

  lemma StaysErr(db: Ledger, why: Refusal, ref: AttemptRef)
    ensures Stays(db, Err(why), ref)
  {
  }

  lemma ProjectStays(db: Ledger, ref: AttemptRef, kind: EventKind, key: Key, digest: Digest)
    requires Core(db) && Own(db, ref) && KeyFits(Some(key), db.attempts[ref.attempt].phase)
    requires key == Key(false, KTerminal) ==> !KeyTaken(db, ref.attempt, key)
    ensures Stays(db, Ok(Project(db, ref, kind, key, digest)), ref)
  {
    hide Core, Moves, Calm, KeyTaken;
    KeepsSelf(db, ref.dialog, Nobody);
    Ticked(db, db, false, ref.dialog, Nobody);
    SameTaken(db, Tick(db, false), ref.attempt, key);
    Appended(db, Tick(db, false), AttemptEvent(kind, ref, Some(key), Some(digest), false), ref.dialog, Nobody);
  }

  lemma SameTaken(o: Ledger, n: Ledger, a: Id, key: Key)
    requires n.events == o.events
    ensures KeyTaken(n, a, key) == KeyTaken(o, a, key)
  {
  }

  /** A new version of the counters of an attempt, or of what it has said. */
  lemma RowStays(db: Ledger, ref: AttemptRef, row: Attempt)
    requires Core(db) && Own(db, ref)
    requires row ==
      db.attempts[ref.attempt].(outputBytes := row.outputBytes, artifacts := row.artifacts, said := row.said)
    ensures Stays(db, Ok(PutAttempt(db, ref.attempt, row)), ref)
  {
    hide Core, Moves, Calm;
    StartedWhenRunning(db, ref.attempt);
    PutAttemptKeeps(db, ref.attempt, row, ref.dialog, Nobody);
  }

  lemma ChargedBound(db: Ledger, ref: AttemptRef, e: AdapterEvent, row: Attempt)
    requires WellBound(db, ref.attempt, e)
    ensures WellBound(PutAttempt(db, ref.attempt, row), ref.attempt, e)
  {
  }

  lemma StaysParts(db: Ledger, d: Ledger, ref: AttemptRef)
    requires Stays(db, Ok(d), ref)
    ensures Core(d) && Own(d, ref) && Keeps(db, d, ref.dialog, Nobody)
  {
    hide Core, Moves, Calm, Own;
  }

  lemma ContentKey(e: AdapterEvent, version: int, phase: Phase)
    requires !e.Terminal? && !e.WaitsFor?
    ensures KeyFits(Some(Key(false, BaseOf(e, version))), phase) && !BaseOf(e, version).KTerminal?
  {
  }

  lemma ContentStays(db: Ledger, ref: AttemptRef, e: AdapterEvent, valid: bool, marker: Id, stop: Id)
    requires Core(db) && Own(db, ref) && !e.Terminal? && !e.WaitsFor?
    ensures Stays(db, ProjectContent(db, ref, e, valid, marker, stop), ref)
  {
    hide Core, Stays, Keeps, WellBound, Recorded, KeyTaken, ArchivedBytes, ScheduleStop, WriteRows, Project,
         PutAttempt, BytesOf, BaseOf, KindOf, KeyFits;
    StaysSelf(db, ref);
    forall why ensures Stays(db, Err(why), ref) { StaysErr(db, why, ref); }
    if valid && WellBound(db, ref.attempt, e) {
      var row := db.attempts[ref.attempt];
      var archived := ArchivedBytes(db.late, ref.attempt);
      var charge := Budget.ChargeKind(row.outputBytes, archived, BytesOf(e));
      var bytes := Budget.LiveBytes(row.outputBytes, archived, BytesOf(e));
      var charged := PutAttempt(db, ref.attempt, row.(outputBytes := bytes));
      RowStays(db, ref, row.(outputBytes := bytes));
      StaysParts(db, charged, ref);
      ChargedBound(db, ref, e, row.(outputBytes := bytes));
      WriteStays(charged, ref, e, charge.NewlyExceeded?, marker);
      var w := WriteRows(charged, ref, e, charge.NewlyExceeded?, marker);
      if w.Ok? {
        StaysAfter(db, charged, w, ref);
        StaysParts(db, w.value, ref);
        var p := Project(w.value, ref, KindOf(e), Key(false, BaseOf(e, row.version)), Whole(e));
        ContentKey(e, row.version, w.value.attempts[ref.attempt].phase);
        ProjectStays(w.value, ref, KindOf(e), Key(false, BaseOf(e, row.version)), Whole(e));
        StaysAfter(db, w.value, Ok(p), ref);
        StaysParts(db, p, ref);
        StopStays(p, ref, stop);
        StaysAfter(db, p, ScheduleStop(p, ref, stop), ref);
      }
    }
  }

  // -------------------------------------------------------------- terminals

  lemma EndStays(db: Ledger, ref: AttemptRef, outcome: Ending, effect: Effect)
    requires Core(db) && Own(db, ref) && db.node.active == Some(ref.attempt) && !AnswersUnresolved(db, ref.attempt)
    ensures Stays(db, Ok(EndAttempt(db, ref, outcome, effect)), ref)
  {
    hide Core, Moves, Calm, AnswersUnresolved, Bump;
    OwnNames(db, ref);
    EndKeeps(db, ref, outcome, effect, ref.dialog, Nobody);
  }

  lemma EndedRow(db: Ledger, ref: AttemptRef, outcome: Ending, effect: Effect)
    requires ref.attempt in db.attempts
    ensures var n := EndAttempt(db, ref, outcome, effect);
      ref.attempt in n.attempts && n.attempts[ref.attempt].phase == Ended(outcome)
  {
    hide Bump;
  }

  lemma ConcludeFacts(db: Ledger, ref: AttemptRef, e: AdapterEvent)
    requires ref.attempt in db.attempts && e.Terminal? && e.how.Terminates?
    ensures var n := Conclude(db, ref, e);
      && ref.attempt in n.attempts && n.attempts[ref.attempt].phase == Ended(e.how.outcome)
      && n.node.active.None? && n.events == db.events
  {
    hide Bump;
  }

  lemma DoneStays(db: Ledger, ref: AttemptRef, e: AdapterEvent, digest: Digest)
    requires Core(db) && Own(db, ref) && db.node.active == Some(ref.attempt) && !AnswersUnresolved(db, ref.attempt)
    requires e.Terminal? && e.how.Terminates? && !KeyTaken(db, ref.attempt, Key(false, KTerminal))
    ensures var n := Announce(Project(Conclude(db, ref, e), ref, OtherEvent, Key(false, KTerminal), digest));
      && Stays(db, Ok(n), ref)
      && ref.attempt in n.attempts && n.attempts[ref.attempt].phase == Ended(e.how.outcome) && n.node.active.None?
  {
    hide Core, Moves, Calm, AnswersUnresolved, EndAttempt, ReasonsAfter, KeyTaken;
    EndStays(db, ref, e.how.outcome, e.terminalEffect);
    ConcludeFacts(db, ref, e);
    var d1 := EndAttempt(db, ref, e.how.outcome, e.terminalEffect);
    var d2 := Conclude(db, ref, e);
    Aside(db, d1, d2, ref.dialog, Nobody);
    SameTaken(db, d2, ref.attempt, Key(false, KTerminal));
    ProjectStays(d2, ref, OtherEvent, Key(false, KTerminal), digest);
    var d3 := Project(d2, ref, OtherEvent, Key(false, KTerminal), digest);
    Chain(db, d2, d3, ref.dialog, Nobody);
    Announced(db, d3, ref.dialog, Nobody);
  }

  lemma UnknownPhase(db: Ledger, ref: AttemptRef, effect: Effect)
    requires Core(db) && Own(db, ref) && db.node.active == Some(ref.attempt) && SetUnknown(db, ref, effect).Ok?
    ensures var n := SetUnknown(db, ref, effect).value;
      ref.attempt in n.attempts && n.attempts[ref.attempt].phase == Unknown && n.node.active == Some(ref.attempt)
  {
    hide Core, OtherLive, Seize;
    SeizedSlot(db, ref, effect);
  }

  lemma SeizedSlot(db: Ledger, ref: AttemptRef, effect: Effect)
    requires ref.attempt in db.attempts
    ensures var n := Seize(db, ref, effect);
      ref.attempt in n.attempts && n.attempts[ref.attempt].phase == Unknown && n.node.active == Some(ref.attempt)
  {
    hide Bump;
  }

  /** Archiving for an unknown attempt touches neither it nor the slot. */
  lemma ArchivedPhase(db: Ledger, ref: AttemptRef, e: AdapterEvent, valid: bool, kind: LateKind, stop: Id)
    requires ref.attempt in db.attempts && db.attempts[ref.attempt].phase == Unknown
    requires Archive(db, ref, e, valid, kind, stop).Ok?
    ensures var n := Archive(db, ref, e, valid, kind, stop).value;
      n.attempts == db.attempts && n.node.active == db.node.active
  {
    hide WellBound, ArchiveDuplicate, ArchiveConflict, ArchivedBytes, BaseOf, BytesOf, KindOf;
  }

  /** The terminal marks the attempt unknown. */
  predicate EndsInDoubt(db: Ledger, a: Id, e: AdapterEvent)
    requires e.Terminal?
  {
    AnswersUnresolved(db, a) || e.terminalEffect == UnknownEffect || e.how.TerminatesUnknown?
  }

  /** A terminal keeps the invariant. It leaves the attempt unknown in the slot when an
      answer is unresolved or its own outcome or effect is not known; otherwise it ends
      the attempt with its outcome and frees the slot, unless it is on record already. */
  lemma TerminalStays(db: Ledger, ref: AttemptRef, e: AdapterEvent, valid: bool, stop: Id)
    requires Core(db) && Own(db, ref) && db.node.active == Some(ref.attempt) && e.Terminal?
    ensures Stays(db, ProjectTerminal(db, ref, e, valid, stop), ref)
    ensures ProjectTerminal(db, ref, e, valid, stop).Ok? ==>
      var n := ProjectTerminal(db, ref, e, valid, stop).value;
      && ref.attempt in n.attempts
      && (EndsInDoubt(db, ref.attempt, e) ==>
            n.attempts[ref.attempt].phase == Unknown && n.node.active == Some(ref.attempt))
      && (!EndsInDoubt(db, ref.attempt, e) && n != db ==>
            n.attempts[ref.attempt].phase == Ended(e.how.outcome) && n.node.active.None?)
  {
    hide Core, Stays, Keeps, AnswersUnresolved, SetUnknown, Archive, Conclude, Project, Announce, Recorded, KeyTaken,
         HasAttempt, Acceptable, TerminalDigest;
    AttemptFacts(db, ref.attempt);
    StaysSelf(db, ref);
    forall why ensures Stays(db, Err(why), ref) { StaysErr(db, why, ref); }
    if AnswersUnresolved(db, ref.attempt) || e.terminalEffect == UnknownEffect {
      UnknownStays(db, ref, UnknownEffect);
      var r := SetUnknown(db, ref, UnknownEffect);
      if r.Ok? {
        StaysParts(db, r.value, ref);
        UnknownPhase(db, ref, UnknownEffect);
        ArchiveStays(r.value, ref, e, valid, TerminalUnresolved, stop);
        StaysAfter(db, r.value, Archive(r.value, ref, e, valid, TerminalUnresolved, stop), ref);
        if Archive(r.value, ref, e, valid, TerminalUnresolved, stop).Ok? {
          ArchivedPhase(r.value, ref, e, valid, TerminalUnresolved, stop);
        }
      }
    } else {
      match e.how
      case TerminatesUnknown =>
        UnknownStays(db, ref, e.terminalEffect);
        if SetUnknown(db, ref, e.terminalEffect).Ok? { UnknownPhase(db, ref, e.terminalEffect); }
      case Terminates(outcome) =>
        if !KeyTaken(db, ref.attempt, Key(false, KTerminal)) {
          DoneStays(db, ref, e, TerminalDigest(db.attempts[ref.attempt].said, e));
        }
        RecordedTaken(db, ref.attempt, Key(false, KTerminal), TerminalDigest(db.attempts[ref.attempt].said, e));
    }
  }

  lemma RecordedTaken(db: Ledger, a: Id, key: Key, digest: Digest)
    ensures Recorded(db, a, key, digest) ==> KeyTaken(db, a, key)
  {
  }

  lemma WaitingEventStays(db: Ledger, ref: AttemptRef, e: AdapterEvent)
    requires Core(db) && Own(db, ref) && db.attempts[ref.attempt].phase == Running
    ensures var row := db.attempts[ref.attempt];
      var d := PutAttempt(db, ref.attempt, Moved(row, Waiting));
      Stays(db, Ok(Project(d, ref, OtherEvent, Key(false, KWaiting(row.version + 1)), Whole(e))), ref)
  {
    hide Core, Moves, Calm, Project;
    var row := db.attempts[ref.attempt];
    StartedWhenRunning(db, ref.attempt);
    PutAttemptKeeps(db, ref.attempt, Moved(row, Waiting), ref.dialog, Nobody);
    var d1 := PutAttempt(db, ref.attempt, Moved(row, Waiting));
    ProjectStays(d1, ref, OtherEvent, Key(false, KWaiting(row.version + 1)), Whole(e));
    StaysAfter(db, d1, Ok(Project(d1, ref, OtherEvent, Key(false, KWaiting(row.version + 1)), Whole(e))), ref);
  }

  lemma EventStays(db: Ledger, ref: AttemptRef, e: AdapterEvent, valid: bool, marker: Id, stop: Id)
    requires Core(db) && Own(db, ref) && db.node.active == Some(ref.attempt)
    ensures Stays(db, ProjectEvent(db, ref, e, valid, marker, stop), ref)
  {
    hide Core, Stays, Keeps, SetUnknown, Project, PutAttempt, ProjectTerminal, ProjectContent, Recorded, KeyTaken,
         HasAttempt;
    AttemptFacts(db, ref.attempt);
    StaysSelf(db, ref);
    forall why ensures Stays(db, Err(why), ref) { StaysErr(db, why, ref); }
    match e
    case Started => ProjectStays(db, ref, OtherEvent, Key(false, KStarted), Whole(e));
    case WaitsFor(_) => if db.attempts[ref.attempt].phase == Running { WaitingEventStays(db, ref, e); }
    case Terminal(_, _, _, _, _) => TerminalStays(db, ref, e, valid, stop);
    case LostTrack(effect) => UnknownStays(db, ref, effect);
    case _ => ContentStays(db, ref, e, valid, marker, stop);
  }

  /** A delivered event keeps the invariant and acts in its attempt's dialog,
      which has no tombstone. */
  lemma ObserveStep(db: Ledger, ref: AttemptRef, e: AdapterEvent, valid: bool, marker: Id, stop: Id)
    requires Core(db)
    ensures Stays(db, Observe(db, ref, e, valid, marker, stop), ref)
    ensures Observe(db, ref, e, valid, marker, stop).Ok? ==> Own(db, ref) && ref.dialog !in db.tombstones
  {
    hide Core, Stays, Keeps, Archive, ProjectEvent, Interactive, HasAttempt;
    forall why ensures Stays(db, Err(why), ref) { StaysErr(db, why, ref); }
    if Own(db, ref) {
      AttemptFacts(db, ref.attempt);
      ArchiveStays(db, ref, e, valid, Suppressed, stop);
      if db.node.active != Some(ref.attempt) {
        ArchiveStays(db, ref, e, valid, Late, stop);
      } else {
        EventStays(db, ref, e, valid, marker, stop);
      }
    }
  }

  lemma ContentActive(db: Ledger, ref: AttemptRef, said: AdapterEvent, valid: bool, marker: Id, stop: Id)
    requires ref.attempt in db.attempts && said.Speaks? && ProjectContent(db, ref, said, valid, marker, stop).Ok?
    ensures ProjectContent(db, ref, said, valid, marker, stop).value.node.active == db.node.active
  {
    hide WellBound, Recorded, KeyTaken, ArchivedBytes;
  }

  lemma ReconcileStep(db: Ledger, ref: AttemptRef, newId: Id, e: AdapterEvent, valid: bool, marker: Id, stop: Id)
    requires Core(db)
    ensures Stays(db, Reconcile(db, ref, newId, e, valid, marker, stop), ref)
    ensures Reconcile(db, ref, newId, e, valid, marker, stop).Ok? ==>
      Own(db, ref) && db.node.active == Some(ref.attempt) && db.attempts[ref.attempt].phase == Unknown
  {
    hide Core, Stays, Keeps, ProjectContent, ProjectTerminal, EffectsUnresolved;
    forall why ensures Stays(db, Err(why), ref) { StaysErr(db, why, ref); }
    if Reconcile(db, ref, newId, e, valid, marker, stop).Ok? {
      var said := db.attempts[ref.attempt].said;
      if SaysOutput(said, e) {
        TerminalStays(db, ref, e, valid, stop);
      } else {
        var speech := Speaks(newId, e.output.value);
        ContentStays(db, ref, speech, valid, marker, stop);
        ContentActive(db, ref, speech, valid, marker, stop);
        var d1 := ProjectContent(db, ref, speech, valid, marker, stop).value;
        StaysParts(db, d1, ref);
        TerminalStays(d1, ref, e, valid, stop);
        StaysAfter(db, d1, ProjectTerminal(d1, ref, e, valid, stop), ref);
      }
    }
  }

  lemma ArtifactStep(db: Ledger, ref: AttemptRef, bytes: int, marker: Id, stop: Id)
    requires Core(db)
    ensures Stays(db, PublishArtifact(db, ref, bytes, marker, stop), ref)
    ensures PublishArtifact(db, ref, bytes, marker, stop).Ok? ==> Own(db, ref) && ref.dialog !in db.tombstones
  {
    hide Core, Moves, Calm, ArchivedBytes, Append, ScheduleStop, KeyTaken, MarkLimit;
    var r := PublishArtifact(db, ref, bytes, marker, stop);
    if r.Ok? {
      var x := ref.dialog;
      var row := db.attempts[ref.attempt];
      var archived := ArchivedBytes(db.late, ref.attempt);
      var charge := Budget.ChargeKind(row.outputBytes, archived, bytes);
      StaysSelf(db, ref);
      var next := row.(outputBytes := Budget.LiveBytes(row.outputBytes, archived, bytes));
      var charged := PutAttempt(db, ref.attempt, next);
      RowStays(db, ref, next);
      if charge.Fits? {
        RowStays(db, ref, next.(artifacts := row.artifacts + 1));
        ArtifactNoted(db, PutAttempt(db, ref.attempt, next.(artifacts := row.artifacts + 1)), ref);
      } else if charge.NewlyExceeded? {
        LimitStays(charged, ref, marker, db.node.active != Some(ref.attempt));
        var marked := MarkLimit(charged, ref, marker, db.node.active != Some(ref.attempt));
        StaysAfter(db, charged, Ok(marked), ref);
        StopStays(marked, ref, stop);
        StaysAfter(db, marked, ScheduleStop(marked, ref, stop), ref);
      }
    }
  }

  lemma ArtifactNoted(db: Ledger, d: Ledger, ref: AttemptRef)
    requires Keeps(db, d, ref.dialog, Nobody) && Own(d, ref)
    ensures Stays(db, Ok(Append(d, AttemptEvent(OtherEvent, ref, None, None, false))), ref)
  {
    hide Core, Moves, Calm;
    Appended(db, d, AttemptEvent(OtherEvent, ref, None, None, false), ref.dialog, Nobody);
  }

  lemma LimitStays(db: Ledger, ref: AttemptRef, marker: Id, late: bool)
    requires Core(db) && Own(db, ref) && marker !in db.messages
    ensures Stays(db, Ok(MarkLimit(db, ref, marker, late)), ref)
  {
    hide Core, Moves, Calm, Speak;
    var d := Speak(db, ref, marker, LIMIT_TEXT);
    SpeakStays(db, ref, marker, LIMIT_TEXT);
    Ticked(db, d, false, ref.dialog, Nobody);
    var e := AttemptEvent(OtherEvent, ref, Some(Key(false, KLimit)), None, late);
    Appended(db, Tick(d, false), e, ref.dialog, Nobody);
  }
}
