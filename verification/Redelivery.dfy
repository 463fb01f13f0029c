/** An event on record, delivered again at any later time of the run. */
module Redelivery {
  import opened LedgerTypes
  import opened Transactions
  import opened LedgerInvariant
  import Budget = OutputBudget
  import opened Supervisor
  import opened SystemInvariant
  import opened SupervisorTheorems
  import opened CommandReplay
  import EventReplay
  import EventSteps
  import Quiescence
  import opened EventTheorems
  import opened Traces
  import opened EventTraces
  import opened BudgetRuns
  import opened TerminalRuns

  // ------------------------------------------------------------- one delivery

  predicate Completion(e: AdapterEvent) {
    e.Terminal? && e.how == Terminates(Completed)
  }

  /** What a live event is stored with; a completion names the newest assistant message. */
  function LiveDigest(e: AdapterEvent, m: Option<Id>): Digest
    requires e.Terminal? ==> e.how.Terminates?
  {
    if Completion(e) then CompletedWith(m, e.usage) else if e.Terminal? then TerminalDigest(None, e) else Whole(e)
  }

  lemma OnDigest(db: Ledger, a: Id, key: Key, digest: Digest)
    requires Recorded(db, a, key, digest)
    ensures DigestRecorded(db, a, digest)
  {
  }

  /** The archive answers an event whose digest is in the log, or that is the live end
      of its attempt, without writing. */
  lemma ArchiveQuiet(db: Ledger, ref: AttemptRef, e: AdapterEvent, valid: bool, kind: LateKind, stop: Id)
    requires ref.attempt in db.attempts
    requires DigestRecorded(db, ref.attempt, Whole(e)) || LiveTerminal(db, ref.attempt, e)
    ensures Commits(db, Archive(db, ref, e, valid, kind, stop)) == db
  {
    hide DigestRecorded, LiveTerminal, LiveConflict, ArchiveConflict, ArchivedBytes, WellBound, Append, ScheduleStop;
  }

  /** How far the attempt of a recorded event has come. */
  lemma RecordedPhase(db: Ledger, a: Id, key: Key, digest: Digest)
    requires Core(db) && a in db.attempts && Recorded(db, a, key, digest)
    ensures KeyFits(Some(key), db.attempts[a].phase)
  {
    hide LogInv, SlotInv, RequestRows, OrderInv, AttemptRows, ActionRows, EffectRows, MessageRows, AnswerRows,
         StartRows, PhaseRows, InputRows, RevisionInv, CountInv, SteerInv, HoldInv, TerminalOnce;
    var k :| k in db.events && db.events[k].attempt == Some(a) && db.events[k].key == Some(key)
        && db.events[k].digest == Some(digest);
    if Marks(db.events[k]) { assert KeyFits(db.events[k].key, db.attempts[a].phase); }
  }

  /** A terminal on record as the live end, for the unknown attempt in the slot. */
  lemma TerminalQuiet(db: Ledger, ref: AttemptRef, e: AdapterEvent, valid: bool, stop: Id)
    requires Holder(db, ref) && e.Terminal? && db.attempts[ref.attempt].phase == Unknown
    requires LiveTerminal(db, ref.attempt, e)
    ensures Commits(db, ProjectTerminal(db, ref, e, valid, stop)) == db
  {
    hide SetUnknown, Archive, AnswersUnresolved, Conclude, Project, Announce, KeyTaken, Acceptable, TerminalDigest,
         SaysOutput, Recorded;
    UnknownStable(db, ref);
    ArchiveQuiet(db, ref, e, valid, TerminalUnresolved, stop);
  }

  /** An event recorded under its live key, delivered to the slot's holder. */
  lemma ProjectionQuiet(db: Ledger, ref: AttemptRef, e: AdapterEvent, v: int, valid: bool, marker: Id, stop: Id)
    requires Holder(db, ref) && !e.LostTrack?
    requires if e.Terminal? then LiveTerminal(db, ref.attempt, e) && db.attempts[ref.attempt].phase == Unknown
             else Recorded(db, ref.attempt, Key(false, BaseOf(e, v)), Whole(e))
    requires KeyFits(Some(Key(false, BaseOf(e, v))), db.attempts[ref.attempt].phase)
    requires !(db.attempts[ref.attempt].phase in {Stopping, Unknown} && Interactive(e))
    ensures Commits(db, ProjectEvent(db, ref, e, valid, marker, stop)) == db
  {
    hide ProjectContent, ProjectTerminal, SetUnknown, Project, Recorded, KeyTaken, LiveTerminal, PutAttempt;
    match e
    case Started =>
    case WaitsFor(_) =>
    case LostTrack(_) =>
    case Terminal(_, _, _, _, _) => TerminalQuiet(db, ref, e, valid, stop);
    case _ =>
      BaseUnversioned(e, v, db.attempts[ref.attempt].version);
      ContentQuiet(db, ref, e, valid, marker, stop);
  }

  lemma ContentQuiet(db: Ledger, ref: AttemptRef, e: AdapterEvent, valid: bool, marker: Id, stop: Id)
    requires ref.attempt in db.attempts
    requires Recorded(db, ref.attempt, Key(false, BaseOf(e, db.attempts[ref.attempt].version)), Whole(e))
    ensures Commits(db, ProjectContent(db, ref, e, valid, marker, stop)) == db
  {
    hide WellBound, Recorded, KeyTaken, ArchivedBytes, BytesOf, BaseOf, KindOf, WriteRows, Project, ScheduleStop,
         PutAttempt;
  }

  lemma RecordedQuiet(db: Ledger, ref: AttemptRef, e: AdapterEvent, v: int, valid: bool, marker: Id, stop: Id)
    requires Core(db) && !e.LostTrack? && (e.Terminal? ==> e.how.Terminates?) && !Completion(e)
    requires Recorded(db, ref.attempt, Key(false, BaseOf(e, v)), LiveDigest(e, None))
    ensures Commits(db, Observe(db, ref, e, valid, marker, stop)) == db
  {
    hide Core, Archive, ProjectEvent, Interactive, Recorded, DigestRecorded, KeyFits, LiveTerminal;
    if ref.attempt in db.attempts {
      if e.Terminal? {
        FailureLive(db, ref.attempt, e);
      } else {
        OnDigest(db, ref.attempt, Key(false, BaseOf(e, v)), Whole(e));
      }
      ArchiveQuiet(db, ref, e, valid, Suppressed, stop);
      ArchiveQuiet(db, ref, e, valid, Late, stop);
      RecordedPhase(db, ref.attempt, Key(false, BaseOf(e, v)), LiveDigest(e, None));
      if Holder(db, ref) && !(db.attempts[ref.attempt].phase in {Stopping, Unknown} && Interactive(e)) {
        if e.Terminal? { HolderUnknown(db, ref); }
        ProjectionQuiet(db, ref, e, v, valid, marker, stop);
      }
    }
  }

  lemma HolderUnknown(db: Ledger, ref: AttemptRef)
    requires Holder(db, ref) && KeyFits(Some(Key(false, KTerminal)), db.attempts[ref.attempt].phase)
    ensures db.attempts[ref.attempt].phase == Unknown
  {
  }

  /** What a failure or an interruption is stored with does not depend on what was said. */
  lemma FailureLive(db: Ledger, a: Id, e: AdapterEvent)
    requires a in db.attempts && e.Terminal? && e.how.Terminates? && !Completion(e)
    requires Recorded(db, a, Key(false, KTerminal), LiveDigest(e, None))
    ensures LiveTerminal(db, a, e)
  {
    hide Recorded;
  }

  // ------------------------------------------------------- completions

  /** The output that completion `e` came with is message `m`, the newest at the time,
      or was cut off by the budget. */
  predicate CameWith(db: Ledger, a: Id, e: AdapterEvent, m: Option<Id>)
    requires Completion(e)
  {
    || e.output.None? || Over(db, a)
    || (m.Some? && m.value in db.messages && !db.messages[m.value].user
        && db.messages[m.value].text == e.output.value.value)
  }

  /** With the message it named still the newest, a completion is the live end. */
  lemma StillLive(db: Ledger, a: Id, e: AdapterEvent, m: Option<Id>)
    requires Indexed(db) && a in db.attempts && Completion(e) && CameWith(db, a, e, m) && !Over(db, a)
    requires Recorded(db, a, Key(false, KTerminal), LiveDigest(e, m)) && NewestWord(db, a) == m
    ensures LiveTerminal(db, a, e)
  {
    hide Recorded, Over;
    if db.attempts[a].said.Some? { assert Names(db, a); }
  }

  /** One live end is on record, so it is this one only if it names the newest message. */
  lemma LiveNames(db: Ledger, a: Id, e: AdapterEvent, m: Option<Id>)
    requires TerminalOnce(db.events) && a in db.attempts && Completion(e) && LiveTerminal(db, a, e)
    requires Recorded(db, a, Key(false, KTerminal), LiveDigest(e, m))
    ensures NewestWord(db, a) == m
  {
    var digest := TerminalDigest(db.attempts[a].said, e);
    var j :| j in db.events && db.events[j].attempt == Some(a) && db.events[j].key == Some(Key(false, KTerminal))
        && db.events[j].digest == Some(digest);
    var k :| k in db.events && db.events[k].attempt == Some(a) && db.events[k].key == Some(Key(false, KTerminal))
        && db.events[k].digest == Some(LiveDigest(e, m));
    assert j == k;
  }

  /** Past its budget an attempt's archive takes nothing. */
  lemma OverArchive(db: Ledger, ref: AttemptRef, e: AdapterEvent, valid: bool, kind: LateKind, stop: Id)
    requires ref.attempt in db.attempts && Over(db, ref.attempt)
    ensures Commits(db, Archive(db, ref, e, valid, kind, stop)) == db
    ensures ChargeOf(db, ref.attempt, BytesOf(e)) !in {Budget.Fits, Budget.NewlyExceeded}
  {
    hide Archive, ArchivedBytes, BytesOf;
    OverQuiet(db, ref, e, valid, kind, stop);
  }

  /** A completed attempt out of the slot: its end is live or its budget is spent. */
  lemma EndedAgain(db: Ledger, ref: AttemptRef, e: AdapterEvent, m: Option<Id>, valid: bool, stop: Id)
    requires Telltales(db) && ref.attempt in db.attempts && !Live(db.attempts[ref.attempt].phase)
    requires Completion(e) && CameWith(db, ref.attempt, e, m)
    requires Recorded(db, ref.attempt, Key(false, KTerminal), LiveDigest(e, m))
    ensures Commits(db, Archive(db, ref, e, valid, Late, stop)) == db
  {
    hide Archive, Indexed, WaitsBegun, ArchivedEnds, CameWith, Over, LiveTerminal, DigestRecorded;
    if Over(db, ref.attempt) {
      OverArchive(db, ref, e, valid, Late, stop);
    } else {
      var k :| k in db.events && db.events[k].attempt == Some(ref.attempt)
          && db.events[k].key == Some(Key(false, KTerminal)) && db.events[k].digest == Some(LiveDigest(e, m));
      assert Completes(db.events[k]);
      StillLive(db, ref.attempt, e, m);
      ArchiveQuiet(db, ref, e, valid, Late, stop);
    }
  }

  /** When the archive takes a completion as a new observation. */
  lemma ArchiveExact(db: Ledger, ref: AttemptRef, e: AdapterEvent, valid: bool, stop: Id)
    requires ref.attempt in db.attempts && db.attempts[ref.attempt].phase == Unknown && Completion(e)
    requires ArchivedEnds(db)
    ensures var a, key := ref.attempt, Key(true, KTerminal);
      Commits(db, Archive(db, ref, e, valid, TerminalUnresolved, stop)) != db <==>
        && valid && !LiveTerminal(db, a, e) && !KeyTaken(db, a, key) && !LateTaken(db.late, a, key)
        && ChargeOf(db, a, BytesOf(e)) in {Budget.Fits, Budget.NewlyExceeded}
  {
    hide DigestRecorded, KeyTaken, ArchivedBytes, ScheduleStop, LateTaken, LateRecorded, LiveTerminal, BytesOf,
         ArchivedEnds;
    var a, key := ref.attempt, Key(true, KTerminal);
    LateTakenWhenRecorded(db.late, a, key, e);
    if DigestRecorded(db, a, Whole(e)) { ArchivedKey(db, a, e); }
    var bytes := Budget.LateBytes(db.attempts[a].outputBytes, ArchivedBytes(db.late, a), BytesOf(e));
    var d := db.(late := db.late + [LateRow(a, TerminalUnresolved, Some(key), Some(Whole(e)), bytes)]);
    NoStop(d, ref, stop);
    assert |d.late| == |db.late| + 1;
  }

  lemma ArchivedKey(db: Ledger, a: Id, e: AdapterEvent)
    requires ArchivedEnds(db) && e.Terminal? && DigestRecorded(db, a, Whole(e))
    ensures KeyTaken(db, a, Key(true, KTerminal))
  {
  }

  /** The completion reaches the archive again as if it were new: its attempt is back in
      the slot and has said something since, no terminal has been archived for it, the
      event is valid and the budget is open. */
  ghost predicate Resurfaces(db: Ledger, ref: AttemptRef, e: AdapterEvent, m: Option<Id>, valid: bool) {
    && Holder(db, ref) && NewestWord(db, ref.attempt) != m && valid && e.Terminal?
    && !KeyTaken(db, ref.attempt, Key(true, KTerminal)) && !LateTaken(db.late, ref.attempt, Key(true, KTerminal))
    && ChargeOf(db, ref.attempt, BytesOf(e)) in {Budget.Fits, Budget.NewlyExceeded}
  }

  /** A completion on record, delivered to its attempt back in the slot. */
  lemma HolderAgain(db: Ledger, ref: AttemptRef, e: AdapterEvent, m: Option<Id>, valid: bool, stop: Id)
    requires Holder(db, ref) && db.attempts[ref.attempt].phase == Unknown && Completion(e)
    requires AnswersUnresolved(db, ref.attempt)
    requires Telltales(db) && TerminalOnce(db.events) && CameWith(db, ref.attempt, e, m)
    requires Recorded(db, ref.attempt, Key(false, KTerminal), LiveDigest(e, m))
    ensures Commits(db, ProjectTerminal(db, ref, e, valid, stop)) != db <==> Resurfaces(db, ref, e, m, valid)
  {
    hide Archive, Indexed, WaitsBegun, EndsStand, ArchivedEnds, CameWith, Over, LiveTerminal, Recorded, KeyTaken,
         SetUnknown, AnswersUnresolved, Acceptable, Conclude, Project, Announce, ChargeOf, LateTaken, TerminalOnce;
    UnknownStable(db, ref);
    ArchiveExact(db, ref, e, valid, stop);
    if Over(db, ref.attempt) {
      OverArchive(db, ref, e, valid, TerminalUnresolved, stop);
    } else if NewestWord(db, ref.attempt) == m {
      StillLive(db, ref.attempt, e, m);
    } else if LiveTerminal(db, ref.attempt, e) {
      LiveNames(db, ref.attempt, e, m);
    }
  }

  lemma SlotFacts(db: Ledger)
    requires Core(db)
    ensures SlotInv(db.attempts, db.node.active, db.node.occupancy) && TerminalOnce(db.events)
  {
    hide LogInv, RequestRows, OrderInv, AttemptRows, ActionRows, EffectRows, MessageRows, AnswerRows,
         StartRows, PhaseRows, InputRows, RevisionInv, CountInv, SteerInv, HoldInv;
  }

  lemma CompletionAgain(db: Ledger, ref: AttemptRef, e: AdapterEvent, m: Option<Id>, valid: bool, marker: Id, stop: Id)
    requires Core(db) && Telltales(db) && Completion(e) && CameWith(db, ref.attempt, e, m)
    requires Holder(db, ref) ==> AnswersUnresolved(db, ref.attempt)
    requires Recorded(db, ref.attempt, Key(false, KTerminal), LiveDigest(e, m))
    ensures Commits(db, Observe(db, ref, e, valid, marker, stop)) != db <==> Resurfaces(db, ref, e, m, valid)
  {
    hide Core, Archive, ProjectTerminal, Recorded, KeyFits, LiveTerminal, Telltales, CameWith, TerminalOnce, KeyTaken,
         AnswersUnresolved, ChargeOf, LateTaken;
    SlotFacts(db);
    if ref.attempt in db.attempts {
      RecordedPhase(db, ref.attempt, Key(false, KTerminal), LiveDigest(e, m));
      if Live(db.attempts[ref.attempt].phase) {
        if Holder(db, ref) {
          HolderUnknown(db, ref);
          HolderAgain(db, ref, e, m, valid, stop);
        }
      } else {
        EndedAgain(db, ref, e, m, valid, stop);
      }
    }
  }

  // ------------------------------------------------------------- later states

  lemma StillOnRecord(o: Ledger, n: Ledger, a: Id, key: Key, digest: Digest)
    requires HistoryKept(o, n) && Recorded(o, a, key, digest)
    ensures Recorded(n, a, key, digest)
  {
    hide TargetsKept;
    var k :| k in o.events && o.events[k].attempt == Some(a) && o.events[k].key == Some(key)
        && o.events[k].digest == Some(digest);
    assert k in n.events && n.events[k] == o.events[k];
  }

  lemma SysCore(s: Sys)
    requires SysInv(s)
    ensures Core(s.db)
  {
    hide Core, TaskInv, TombstoneInv;
  }

  /** The event is on record under its projection key: a completion as the end of an
      attempt whose newest assistant message was `m`, a wait under the attempt version
      it was seen at (`v`). */
  predicate LiveRecord(db: Ledger, a: Id, e: AdapterEvent, v: int, m: Option<Id>) {
    && !e.LostTrack? && (e.Terminal? ==> e.how.Terminates?)
    && Recorded(db, a, Key(false, BaseOf(e, v)), LiveDigest(e, m)) && (Completion(e) ==> CameWith(db, a, e, m))
  }

  lemma CameStays(s: Sys, t: Sys, a: Id, e: AdapterEvent, m: Option<Id>)
    requires Reachable(s) && Reaches(s, t) && Completion(e) && CameWith(s.db, a, e, m)
    ensures CameWith(t.db, a, e, m)
  {
    hide Reachable, Reaches, ArchivedBytes;
    if Over(s.db, a) {
      BudgetKept(s, t, a);
    } else if e.output.Some? {
      WordsKept(s, t, m.value);
    }
  }

  lemma ReachedOnward(s: Sys, t: Sys)
    requires Reachable(s) && Reaches(s, t)
    ensures Reachable(t)
  {
    hide Do, Initial;
    var epoch, registry, first :| s == After(Initial(epoch, registry), first);
    var run :| t == After(s, run);
    EventReplay.AfterSplit(Initial(epoch, registry), first, run);
    assert t == After(Initial(epoch, registry), first + run);
  }

  /** An event recorded under its projection key is recorded for good. Delivered again,
      in whatever state of the attempt and of the node, it changes the ledger if and only
      if it is a completion whose attempt is back in the slot and has said something since,
      no terminal has been archived for it, the event is valid and the budget is open; the
      program then archives it as a new observation. */
  lemma RecordedRedelivery(s: Sys, t: Sys, ref: AttemptRef, e: AdapterEvent, v: int, m: Option<Id>, valid: bool,
                           marker: Id, stop: Id)
    requires Reachable(s) && Reaches(s, t) && LiveRecord(s.db, ref.attempt, e, v, m)
    ensures Commits(t.db, Observe(t.db, ref, e, valid, marker, stop)) != t.db <==>
        Completion(e) && Resurfaces(t.db, ref, e, m, valid)
  {
    hide Reachable, Reaches, SysInv, HistoryKept, Recorded, Observe, Core, Resurfaces, Telltales, CameWith;
    ReachableSafe(s);
    HistoryReached(s, t);
    StillOnRecord(s.db, t.db, ref.attempt, Key(false, BaseOf(e, v)), LiveDigest(e, m));
    SysCore(t);
    if Completion(e) {
      ReachedOnward(s, t);
      ReachableTelltales(t);
      if Holder(t.db, ref) { RevivedUnresolved(t, ref.attempt, m, e.usage); }
      CameStays(s, t, ref.attempt, e, m);
      CompletionAgain(t.db, ref, e, m, valid, marker, stop);
    } else {
      RecordedQuiet(t.db, ref, e, v, valid, marker, stop);
    }
  }

  /** So any recorded event but a completion can be delivered again without effect. */
  lemma RedeliveryIdempotent(s: Sys, t: Sys, ref: AttemptRef, e: AdapterEvent, v: int, valid: bool, marker: Id,
                             stop: Id)
    requires Reachable(s) && Reaches(s, t) && LiveRecord(s.db, ref.attempt, e, v, None) && !Completion(e)
    ensures Commits(t.db, Observe(t.db, ref, e, valid, marker, stop)) == t.db
  {
    hide Reachable, Reaches, Observe, LiveRecord, Resurfaces;
    RecordedRedelivery(s, t, ref, e, v, None, valid, marker, stop);
  }

  // ------------------------------------------------------------ archived only

  /** The rows that the event would insert are free. */
  predicate RowsFree(db: Ledger, e: AdapterEvent) {
    (e.Speaks? ==> e.message !in db.messages) && (e.ToolStarted? ==> e.call !in db.tools)
  }

  /** The event would be projected for an unknown attempt in the slot. */
  predicate Projects(db: Ledger, ref: AttemptRef, e: AdapterEvent, valid: bool)
    requires ref.attempt in db.attempts
  {
    var row := db.attempts[ref.attempt];
    var free := !KeyTaken(db, ref.attempt, Key(false, BaseOf(e, row.version)));
    var charge := ChargeOf(db, ref.attempt, BytesOf(e));
    match e
    case Started => free
    case WaitsFor(_) => false
    case ApprovalRequested(_, _, _, _) => false
    case InputRequested(_, _) => false
    case LostTrack(_) => false
    case Terminal(how, effect, _, _, _) =>
      && free && valid && how.Terminates? && effect != UnknownEffect && !AnswersUnresolved(db, ref.attempt)
      && Acceptable(db, ref.attempt, e)
    case _ =>
      && free && valid && WellBound(db, ref.attempt, e) && RowsFree(db, e)
      && charge in {Budget.Fits, Budget.NewlyExceeded}
  }

  /** Content for an unknown attempt leaves it unknown. */
  lemma UnknownWrites(db: Ledger, ref: AttemptRef, e: AdapterEvent, exceeded: bool, marker: Id)
    requires ref.attempt in db.attempts && WellBound(db, ref.attempt, e) && !Interactive(e)
    ensures WriteRows(db, ref, e, exceeded, marker).Ok? <==> RowsFree(db, e)
    ensures WriteRows(db, ref, e, exceeded, marker).Ok? ==>
        var n := WriteRows(db, ref, e, exceeded, marker).value;
        ref.attempt in n.attempts && n.attempts[ref.attempt].phase == db.attempts[ref.attempt].phase
  {
    hide OpenApproval, OpenInput, Speak;
    if e.Speaks? { SpeakRows(db, ref, e.message, if exceeded then LIMIT_TEXT else e.content.value); }
  }

  lemma ProjectRows(db: Ledger, ref: AttemptRef, kind: EventKind, key: Key, digest: Digest)
    ensures Project(db, ref, kind, key, digest).attempts == db.attempts
  {
  }

  lemma ChargedRows(db: Ledger, ref: AttemptRef, row: Attempt, e: AdapterEvent)
    requires WellBound(db, ref.attempt, e)
    ensures var n := PutAttempt(db, ref.attempt, row);
      n.attempts == db.attempts[ref.attempt := row] && WellBound(n, ref.attempt, e) && RowsFree(n, e) == RowsFree(db, e)
  {
  }

  lemma ContentAccepted(db: Ledger, ref: AttemptRef, e: AdapterEvent, valid: bool, marker: Id, stop: Id)
    requires ref.attempt in db.attempts && db.attempts[ref.attempt].phase == Unknown
    requires LogInv(db.events, db.node.lastSeq)
    requires !e.Started? && !e.Terminal? && !e.LostTrack? && !Interactive(e)
    ensures Commits(db, ProjectContent(db, ref, e, valid, marker, stop)) != db <==> Projects(db, ref, e, valid)
  {
    hide WellBound, Recorded, KeyTaken, ArchivedBytes, BytesOf, BaseOf, KindOf, WriteRows, Project, ScheduleStop,
         PutAttempt, LogInv, RowsFree, AnswersUnresolved;
    var row := db.attempts[ref.attempt];
    var archived := ArchivedBytes(db.late, ref.attempt);
    var charge := Budget.ChargeKind(row.outputBytes, archived, BytesOf(e));
    var key := Key(false, BaseOf(e, row.version));
    EventSteps.RecordedTaken(db, ref.attempt, key, Whole(e));
    if valid && WellBound(db, ref.attempt, e) && !KeyTaken(db, ref.attempt, key)
        && charge in {Budget.Fits, Budget.NewlyExceeded} {
      var next := row.(outputBytes := Budget.LiveBytes(row.outputBytes, archived, BytesOf(e)));
      ChargedRows(db, ref, next, e);
      var charged := PutAttempt(db, ref.attempt, next);
      UnknownWrites(charged, ref, e, charge.NewlyExceeded?, marker);
      if RowsFree(db, e) {
        var written := WriteRows(charged, ref, e, charge.NewlyExceeded?, marker).value;
        ProjectRows(written, ref, KindOf(e), key, Whole(e));
        NoStop(Project(written, ref, KindOf(e), key, Whole(e)), ref, stop);
        ContentGrows(db, ref, e, valid, marker, stop);
      }
    }
  }

  lemma TerminalAccepted(db: Ledger, ref: AttemptRef, e: AdapterEvent, valid: bool, stop: Id)
    requires Holder(db, ref) && e.Terminal? && db.attempts[ref.attempt].phase == Unknown
    requires DigestRecorded(db, ref.attempt, Whole(e))
    ensures Commits(db, ProjectTerminal(db, ref, e, valid, stop)) != db <==> Projects(db, ref, e, valid)
  {
    hide SetUnknown, Archive, AnswersUnresolved, Conclude, Project, Announce, Recorded, KeyTaken, DigestRecorded,
         WellBound, ArchivedBytes, Acceptable, TerminalDigest, LiveTerminal;
    UnknownStable(db, ref);
    ArchiveQuiet(db, ref, e, valid, TerminalUnresolved, stop);
    if e.how.Terminates? {
      var digest := TerminalDigest(db.attempts[ref.attempt].said, e);
      EventSteps.RecordedTaken(db, ref.attempt, Key(false, KTerminal), digest);
      EndFacts(db, ref, e);
    }
  }

  lemma StartAccepted(db: Ledger, ref: AttemptRef, e: AdapterEvent, valid: bool, marker: Id, stop: Id)
    requires Holder(db, ref) && e.Started?
    ensures Commits(db, ProjectEvent(db, ref, e, valid, marker, stop)) != db <==> Projects(db, ref, e, valid)
  {
    hide Project, Recorded, KeyTaken, ArchivedBytes, AnswersUnresolved;
    EventSteps.RecordedTaken(db, ref.attempt, Key(false, KStarted), Whole(e));
    ProjectedLog(db, ref, OtherEvent, Key(false, KStarted), Whole(e));
  }

  lemma EventAccepted(db: Ledger, ref: AttemptRef, e: AdapterEvent, valid: bool, marker: Id, stop: Id)
    requires Holder(db, ref) && LogInv(db.events, db.node.lastSeq) && db.attempts[ref.attempt].phase == Unknown
    requires !Interactive(e)
    requires DigestRecorded(db, ref.attempt, Whole(e))
    ensures Commits(db, ProjectEvent(db, ref, e, valid, marker, stop)) != db <==> Projects(db, ref, e, valid)
  {
    hide LogInv, ProjectContent, ProjectTerminal, SetUnknown, DigestRecorded, Recorded, KeyTaken, Project,
         ArchivedBytes, AnswersUnresolved, WellBound, BytesOf, RowsFree;
    match e
    case Started => StartAccepted(db, ref, e, valid, marker, stop);
    case Terminal(_, _, _, _, _) => TerminalAccepted(db, ref, e, valid, stop);
    case LostTrack(_) => UnknownStable(db, ref);
    case _ => ContentAccepted(db, ref, e, valid, marker, stop);
  }

  lemma NotProjected(db: Ledger, ref: AttemptRef, e: AdapterEvent, valid: bool)
    requires ref.attempt in db.attempts && Interactive(e)
    ensures !Projects(db, ref, e, valid)
  {
    hide KeyTaken, ArchivedBytes;
  }

  lemma ArchivedAgain(db: Ledger, ref: AttemptRef, e: AdapterEvent, v: int, valid: bool, marker: Id, stop: Id)
    requires Core(db) && Recorded(db, ref.attempt, Key(true, BaseOf(e, v)), Whole(e))
    ensures Commits(db, Observe(db, ref, e, valid, marker, stop)) != db <==>
        Holder(db, ref) && Projects(db, ref, e, valid)
  {
    hide Core, Archive, ProjectEvent, Interactive, Recorded, DigestRecorded, BaseOf, Projects, LogInv;
    if ref.attempt in db.attempts {
      OnDigest(db, ref.attempt, Key(true, BaseOf(e, v)), Whole(e));
      ArchiveQuiet(db, ref, e, valid, Suppressed, stop);
      ArchiveQuiet(db, ref, e, valid, Late, stop);
      RecordedPhase(db, ref.attempt, Key(true, BaseOf(e, v)), Whole(e));
      Quiescence.CoreLog(db);
      if Interactive(e) {
        NotProjected(db, ref, e, valid);
      } else if Holder(db, ref) {
        EventAccepted(db, ref, e, valid, marker, stop);
      }
    }
  }

  /** An event archived for an attempt that had ended, delivered again at any later
      time: it changes the ledger if and only if the attempt has been brought back
      into the slot and the event, whose live key the archived one does not take,
      can be projected there. */
  lemma ArchivedRedelivery(s: Sys, t: Sys, ref: AttemptRef, e: AdapterEvent, v: int, valid: bool, marker: Id, stop: Id)
    requires Reachable(s) && Recorded(s.db, ref.attempt, Key(true, BaseOf(e, v)), Whole(e)) && Reaches(s, t)
    ensures Commits(t.db, Observe(t.db, ref, e, valid, marker, stop)) != t.db <==>
        Holder(t.db, ref) && Projects(t.db, ref, e, valid)
  {
    hide Reachable, Reaches, SysInv, HistoryKept, Recorded, Observe, BaseOf, Core, Projects, Holder;
    ReachableSafe(s);
    HistoryReached(s, t);
    StillOnRecord(s.db, t.db, ref.attempt, Key(true, BaseOf(e, v)), Whole(e));
    SysCore(t);
    ArchivedAgain(t.db, ref, e, v, valid, marker, stop);
  }

  /** A wait for an attempt that is being stopped or is unknown is archived once for
      each version of the attempt: it changes the ledger if and only if neither the
      log nor the late rows have it for the present version, and the budget is open. */
  lemma SuppressedWait(db: Ledger, ref: AttemptRef, e: AdapterEvent, valid: bool, marker: Id, stop: Id)
    requires ref.attempt in db.attempts && RefOf(db, ref.attempt) == ref
    requires db.attempts[ref.attempt].dialog !in db.tombstones
    requires e.WaitsFor? && db.attempts[ref.attempt].phase in {Stopping, Unknown}
    ensures var row := db.attempts[ref.attempt];
      var key := Key(true, KWaiting(row.version));
      Commits(db, Observe(db, ref, e, valid, marker, stop)) != db <==>
        && valid && !DigestRecorded(db, ref.attempt, Whole(e)) && !KeyTaken(db, ref.attempt, key)
        && !LateTaken(db.late, ref.attempt, key)
        && ChargeOf(db, ref.attempt, 0) in {Budget.Fits, Budget.NewlyExceeded}
  {
    hide ProjectEvent, DigestRecorded, KeyTaken, ArchivedBytes, ScheduleStop, LateTaken, LateRecorded;
    var row := db.attempts[ref.attempt];
    var key := Key(true, KWaiting(row.version));
    LateTakenWhenRecorded(db.late, ref.attempt, key, e);
    var bytes := Budget.LateBytes(row.outputBytes, ArchivedBytes(db.late, ref.attempt), 0);
    var d2 := db.(late := db.late + [LateRow(ref.attempt, Suppressed, Some(key), Some(Whole(e)), bytes)]);
    NoStop(d2, ref, stop);
    assert |d2.late| == |db.late| + 1;
  }

  lemma LateTakenWhenRecorded(late: seq<LateRow>, a: Id, key: Key, e: AdapterEvent)
    ensures LateRecorded(late, a, key, Whole(e)) ==> LateTaken(late, a, key)
  {
  }
}
