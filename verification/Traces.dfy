/** What each transaction does to the budget, to what has been said, to the rows that
    wait for an answer and to the events that end an attempt or mark its limit. */
module Traces {
  import opened LedgerTypes
  import opened LedgerTail
  import opened Transactions
  import Budget = OutputBudget
  import opened LedgerInvariant
  import opened Pieces
  import opened Supervisor
  import opened Queries

  // ---------------------------------------------------------------- accounts

  function Archived(db: Ledger, a: Id): int {
    ArchivedBytes(db.late, a)
  }

  function LiveUse(db: Ledger, a: Id): int {
    if a in db.attempts then db.attempts[a].outputBytes else 0
  }

  /** All that has been charged to the attempt. */
  function Used(db: Ledger, a: Id): int {
    LiveUse(db, a) + Archived(db, a)
  }

  predicate SameAccount(o: Ledger, n: Ledger, a: Id) {
    LiveUse(n, a) == LiveUse(o, a) && Archived(n, a) == Archived(o, a)
  }

  /** The subtractive test finds the attempt over its budget. */
  predicate Over(db: Ledger, a: Id) {
    a in db.attempts && Budget.Over(db.attempts[a].outputBytes, Archived(db, a))
  }

  /** Late rows belong to attempts, and every account is within the maximum or shows
      that it was passed, by one byte. */
  ghost predicate Sound(db: Ledger) {
    && (forall i :: 0 <= i < |db.late| ==> db.late[i].attempt in db.attempts)
    && (forall a :: a in db.attempts ==> Bounded(db.attempts[a].outputBytes, Archived(db, a)))
  }

  predicate Bounded(active: int, archived: int) {
    && 0 <= active && 0 <= archived
    && (|| active + archived <= Budget.MAXIMUM
        || active + archived == Budget.MAXIMUM + 1
        || (active == Budget.MAXIMUM + 1 && archived <= Budget.MAXIMUM))
  }

  /** An account over its budget does not change any more. */
  ghost predicate OverKept(o: Ledger, n: Ledger) {
    forall a :: a in o.attempts ==>
      && a in n.attempts
      && (Over(o, a) ==> n.attempts[a].outputBytes == o.attempts[a].outputBytes && Archived(n, a) == Archived(o, a))
  }

  ghost predicate Meters(o: Ledger, n: Ledger) {
    Sound(o) ==> Sound(n) && OverKept(o, n)
  }

  lemma MetersTrans(a: Ledger, b: Ledger, c: Ledger)
    requires Meters(a, b) && Meters(b, c)
    ensures Meters(a, c)
  {
    hide Sound;
  }

  // ------------------------------------------------------------------- words

  /** The index of the newest assistant messages agrees with the messages. */
  ghost predicate Indexed(db: Ledger) {
    && (forall m :: m in db.messages ==> db.messages[m].sequence < db.node.nextMessage)
    && (forall m, k ::
          m in db.messages && k in db.messages && db.messages[m].sequence == db.messages[k].sequence ==> m == k)
    && (forall m :: m in db.messages && !db.messages[m].user ==> Spoken(db, m))
    && (forall a :: a in db.attempts && db.attempts[a].said.Some? ==> Names(db, a))
    && (forall r :: r in db.requests ==> db.requests[r].input in db.messages && db.messages[db.requests[r].input].user)
  }

  /** The assistant message belongs to an attempt that has a message at least as new. */
  predicate Spoken(db: Ledger, m: Id)
    requires m in db.messages
  {
    var row := db.messages[m];
    && row.disposition == NoDisposition && row.attempt.Some? && row.attempt.value in db.attempts
    && db.attempts[row.attempt.value].said.Some?
    && var newest := db.attempts[row.attempt.value].said.value.message;
      newest in db.messages && row.sequence <= db.messages[newest].sequence
  }

  predicate Names(db: Ledger, a: Id)
    requires a in db.attempts && db.attempts[a].said.Some?
  {
    var said := db.attempts[a].said.value;
    && said.message in db.messages && !db.messages[said.message].user && db.messages[said.message].attempt == Some(a)
    && db.messages[said.message].text == said.text
  }

  predicate SameWord(o: Message, n: Message) {
    n.user == o.user && n.sequence == o.sequence && (o.user || n == o)
  }

  /** New messages are the user's, and no request takes an assistant's for its input. */
  ghost predicate UserOnly(o: Ledger, n: Ledger) {
    && n.node.nextMessage >= o.node.nextMessage
    && (forall m :: m in o.messages ==> m in n.messages && SameWord(o.messages[m], n.messages[m]))
    && (forall m :: m in n.messages && m !in o.messages ==>
          n.messages[m].user && o.node.nextMessage <= n.messages[m].sequence < n.node.nextMessage)
    && (forall m, k ::
          && m in n.messages && k in n.messages && m !in o.messages && k !in o.messages
          && n.messages[m].sequence == n.messages[k].sequence ==>
            m == k)
    && (forall r :: r in n.requests ==> n.requests[r].input in n.messages && n.messages[n.requests[r].input].user)
  }

  ghost predicate AssistantsKept(o: map<Id, Message>, n: map<Id, Message>) {
    forall m :: m in o && !o[m].user ==> m in n && n[m] == o[m]
  }

  // ------------------------------------------------------- what a step leaves

  /** The event ends an attempt, marks its limit, or holds all a terminal says. */
  predicate Telling(e: Event) {
    || (e.key.Some? && (e.key.value.base.KTerminal? || e.key.value.base.KLimit?))
    || (e.digest.Some? && e.digest.value.Whole? && e.digest.value.event.Terminal?)
  }

  /** Attempts stay; all but `x` say nothing new and do not end. */
  ghost predicate AttemptsMild(o: map<Id, Attempt>, n: map<Id, Attempt>, x: Option<Id>) {
    && (forall a :: a in o ==>
          && a in n && (o[a].started ==> n[a].started)
          && (x == Some(a) || (n[a].said == o[a].said && (Live(o[a].phase) ==> Live(n[a].phase)))))
    && (forall a :: a in n && a !in o && x != Some(a) ==> n[a].said.None?)
  }

  /** No row waits for an answer that did not before, except for `x`. */
  ghost predicate RowsMild(o: Ledger, n: Ledger, x: Option<Id>) {
    && (forall p :: p in n.approvals ==>
          (p in o.approvals && n.approvals[p].attempt == o.approvals[p].attempt) || x == Some(n.approvals[p].attempt))
    && (forall i :: i in n.inputs ==>
          (i in o.inputs && n.inputs[i].attempt == o.inputs[i].attempt) || x == Some(n.inputs[i].attempt))
  }

  ghost predicate TellsMild(o: map<int, Event>, n: map<int, Event>, x: Option<Id>) {
    forall k :: k in n && Telling(n[k]) ==> (k in o && n[k] == o[k]) || (x.Some? && n[k].attempt == x)
  }

  ghost predicate SameCharges(o: Ledger, n: Ledger) {
    && n.late == o.late
    && (forall a :: a in o.attempts ==> a in n.attempts && n.attempts[a].outputBytes == o.attempts[a].outputBytes)
    && (forall a :: a in n.attempts && a !in o.attempts ==> n.attempts[a].outputBytes == 0)
  }

  /** Nothing is charged, said, opened, ended or marked. */
  ghost predicate Quiet(o: Ledger, n: Ledger) {
    && SameCharges(o, n) && AttemptsMild(o.attempts, n.attempts, None) && RowsMild(o, n, None)
    && TellsMild(o.events, n.events, None) && (Indexed(o) ==> UserOnly(o, n))
  }

  /** All that happens, happens to attempt `x`; the index is kept up. */
  ghost predicate Local(o: Ledger, n: Ledger, x: Id) {
    && AttemptsMild(o.attempts, n.attempts, Some(x)) && RowsMild(o, n, Some(x))
    && TellsMild(o.events, n.events, Some(x))
    && (Indexed(o) ==> Indexed(n) && AssistantsKept(o.messages, n.messages))
  }

  /** Of `x` only the row changes: it says nothing, opens nothing and leaves no mark. */
  ghost predicate Silent(o: Ledger, n: Ledger, x: Id) {
    && Local(o, n, x) && RowsMild(o, n, None) && TellsMild(o.events, n.events, None)
    && (x in o.attempts ==> x in n.attempts && n.attempts[x].said == o.attempts[x].said)
  }

  lemma QuietSilent(o: Ledger, n: Ledger, x: Id)
    requires Quiet(o, n)
    ensures Silent(o, n, x)
  {
    hide Indexed, UserOnly, AssistantsKept, Telling;
    QuietLocal(o, n, x);
  }

  lemma SilentTrans(a: Ledger, b: Ledger, c: Ledger, x: Id)
    requires Silent(a, b, x) && Silent(b, c, x)
    ensures Silent(a, c, x)
  {
    hide Indexed, AssistantsKept, Telling;
    LocalTrans(a, b, c, x);
  }

  lemma SpokenStays(o: Ledger, n: Ledger, m: Id)
    requires Indexed(o) && UserOnly(o, n) && AttemptsMild(o.attempts, n.attempts, None)
    requires m in o.messages && !o.messages[m].user
    ensures m in n.messages && Spoken(n, m)
  {
    assert Spoken(o, m);
    var a := o.messages[m].attempt.value;
    assert Names(o, a);
  }

  lemma NamesStays(o: Ledger, n: Ledger, a: Id)
    requires Indexed(o) && UserOnly(o, n) && AttemptsMild(o.attempts, n.attempts, None)
    requires a in n.attempts && n.attempts[a].said.Some?
    ensures Names(n, a)
  {
    assert Names(o, a);
  }

  lemma PlacesStay(o: Ledger, n: Ledger, m: Id, k: Id)
    requires Indexed(o) && UserOnly(o, n) && m in n.messages && k in n.messages
    requires n.messages[m].sequence == n.messages[k].sequence
    ensures m == k && n.messages[m].sequence < n.node.nextMessage
  {
  }

  lemma PlaceBelow(o: Ledger, n: Ledger, m: Id)
    requires Indexed(o) && UserOnly(o, n) && m in n.messages
    ensures n.messages[m].sequence < n.node.nextMessage
  {
  }

  lemma QuietIndexed(o: Ledger, n: Ledger)
    requires Indexed(o) && UserOnly(o, n) && AttemptsMild(o.attempts, n.attempts, None)
    ensures Indexed(n) && AssistantsKept(o.messages, n.messages)
  {
    assert AssistantsKept(o.messages, n.messages);
    forall m | m in n.messages ensures n.messages[m].sequence < n.node.nextMessage { PlaceBelow(o, n, m); }
    forall m, k | m in n.messages && k in n.messages && n.messages[m].sequence == n.messages[k].sequence
      ensures m == k
    {
      PlacesStay(o, n, m, k);
    }
    forall m | m in n.messages && !n.messages[m].user ensures Spoken(n, m) { SpokenStays(o, n, m); }
    forall a | a in n.attempts && n.attempts[a].said.Some? ensures Names(n, a) { NamesStays(o, n, a); }
  }

  /** Messages stay as they are, and so do the inputs of requests. */
  ghost predicate WordsPlain(o: Ledger, n: Ledger) {
    && n.messages == o.messages && n.node.nextMessage == o.node.nextMessage
    && (forall r :: r in n.requests ==> r in o.requests && n.requests[r].input == o.requests[r].input)
  }

  lemma WordsUserOnly(o: Ledger, n: Ledger)
    requires WordsPlain(o, n) && Indexed(o)
    ensures UserOnly(o, n)
  {
    hide Spoken, Names;
  }

  /** A change of attempts alone. */
  lemma RowsQuiet(o: Ledger, n: Ledger)
    requires WordsPlain(o, n) && SameCharges(o, n) && AttemptsMild(o.attempts, n.attempts, None)
    requires RowsMild(o, n, None) && TellsMild(o.events, n.events, None)
    ensures Quiet(o, n)
  {
    hide Indexed, UserOnly, WordsPlain, SameCharges, AttemptsMild, RowsMild, TellsMild;
    if Indexed(o) { WordsUserOnly(o, n); }
  }

  /** Nothing that is watched here changes. */
  ghost predicate Untouched(o: Ledger, n: Ledger) {
    && WordsPlain(o, n) && n.late == o.late && n.attempts == o.attempts && n.approvals == o.approvals
    && n.inputs == o.inputs && TellsMild(o.events, n.events, None)
  }

  lemma UntouchedQuiet(o: Ledger, n: Ledger)
    requires Untouched(o, n)
    ensures Quiet(o, n)
  {
    hide WordsPlain, TellsMild;
    RowsQuiet(o, n);
  }

  lemma QuietLocal(o: Ledger, n: Ledger, x: Id)
    requires Quiet(o, n)
    ensures Local(o, n, x)
  {
    hide Indexed, UserOnly, AssistantsKept, Telling;
    if Indexed(o) { QuietIndexed(o, n); }
  }

  lemma LocalTrans(a: Ledger, b: Ledger, c: Ledger, x: Id)
    requires Local(a, b, x) && Local(b, c, x)
    ensures Local(a, c, x)
  {
    hide Indexed, Telling;
    LocalAttempts(a.attempts, b.attempts, c.attempts, x);
  }

  lemma LocalAttempts(a: map<Id, Attempt>, b: map<Id, Attempt>, c: map<Id, Attempt>, x: Id)
    requires AttemptsMild(a, b, Some(x)) && AttemptsMild(b, c, Some(x))
    ensures AttemptsMild(a, c, Some(x))
  {
  }

  lemma UserOnlyTrans(a: Ledger, b: Ledger, c: Ledger)
    requires UserOnly(a, b) && UserOnly(b, c)
    ensures UserOnly(a, c)
  {
  }

  lemma QuietTrans(a: Ledger, b: Ledger, c: Ledger)
    requires Quiet(a, b) && Quiet(b, c)
    ensures Quiet(a, c)
  {
    hide Indexed, UserOnly, AssistantsKept, Telling;
    if Indexed(a) {
      QuietIndexed(a, b);
      UserOnlyTrans(a, b, c);
    }
  }

  lemma QuietSelf(db: Ledger)
    ensures Quiet(db, db)
  {
    hide Telling;
  }

  lemma {:induction false} NoneArchived(late: seq<LateRow>, a: Id)
    requires forall i :: 0 <= i < |late| ==> late[i].attempt != a
    ensures ArchivedBytes(late, a) == 0
  {
    if late != [] { NoneArchived(late[..|late| - 1], a); }
  }

  lemma QuietMeters(o: Ledger, n: Ledger)
    requires SameCharges(o, n)
    ensures Meters(o, n)
  {
    hide ArchivedBytes;
    if Sound(o) {
      forall a | a in n.attempts ensures Bounded(n.attempts[a].outputBytes, Archived(n, a)) {
        if a !in o.attempts { NoneArchived(o.late, a); }
      }
    }
  }

  /** No account changes. */
  ghost predicate Unpaid(o: Ledger, n: Ledger) {
    Meters(o, n) && forall a :: SameAccount(o, n, a)
  }

  lemma QuietUnpaid(o: Ledger, n: Ledger)
    requires SameCharges(o, n)
    ensures Unpaid(o, n)
  {
    hide ArchivedBytes, Meters;
    QuietMeters(o, n);
  }

  // ------------------------------------------------------------ the two charges

  lemma LiveMeters(db: Ledger, a: Id, row: Attempt, bytes: int)
    requires a in db.attempts && row.outputBytes == Budget.LiveBytes(db.attempts[a].outputBytes, Archived(db, a), bytes)
    requires Budget.ChargeKind(db.attempts[a].outputBytes, Archived(db, a), bytes) 
      in {Budget.Fits, Budget.NewlyExceeded}
    ensures Meters(db, PutAttempt(db, a, row))
  {
    hide ArchivedBytes;
  }

  lemma ArchivedNext(late: seq<LateRow>, row: LateRow, a: Id)
    ensures ArchivedBytes(late + [row], a) ==
      ArchivedBytes(late, a) + (if row.attempt == a && row.key.Some? then row.outputBytes else 0)
  {
    assert (late + [row])[..|late|] == late;
  }

  lemma LateMeters(db: Ledger, n: Ledger, row: LateRow, bytes: int)
    requires row.attempt in db.attempts && n.attempts == db.attempts && n.late == db.late + [row]
    requires row.key.Some? ==>
      && row.outputBytes == Budget.LateBytes(db.attempts[row.attempt].outputBytes, Archived(db, row.attempt), bytes)
      && Budget.ChargeKind(db.attempts[row.attempt].outputBytes, Archived(db, row.attempt), bytes)
         in {Budget.Fits, Budget.NewlyExceeded}
    ensures Meters(db, n)
  {
    hide ArchivedBytes;
    forall a ensures Archived(n, a) == Archived(db, a)
        + (if row.attempt == a && row.key.Some? then row.outputBytes else 0) {
      ArchivedNext(db.late, row, a);
    }
  }

  // ----------------------------------------------------------- building blocks

  lemma StatusQuiet(db: Ledger, r: Id, status: RequestStatus)
    ensures Quiet(db, SetStatus(db, r, status))
  {
    hide Bump, Telling, Quiet;
    UntouchedQuiet(db, SetStatus(db, r, status));
  }

  lemma AppendQuiet(db: Ledger, e: Event)
    requires !Telling(e)
    ensures Quiet(db, Append(db, e))
  {
    hide Telling, Quiet;
    UntouchedQuiet(db, Append(db, e));
  }

  lemma AnnounceQuiet(db: Ledger)
    ensures Quiet(db, Announce(db))
  {
    hide Quiet, Append;
    AppendQuiet(db, Event(StateChanged, None, None, None, None, false));
  }

  /** A new version of an attempt that is charged and says nothing, and is no less live. */
  lemma PutQuiet(db: Ledger, a: Id, row: Attempt)
    requires a in db.attempts && row.said == db.attempts[a].said && row.outputBytes == db.attempts[a].outputBytes
    requires (db.attempts[a].started ==> row.started) && (Live(db.attempts[a].phase) ==> Live(row.phase))
    ensures Quiet(db, PutAttempt(db, a, row))
  {
    hide Telling, Quiet;
    RowsQuiet(db, PutAttempt(db, a, row));
  }

  lemma NodeQuiet(db: Ledger, n: Ledger)
    requires n == db.(node := n.node) && n.node.nextMessage == db.node.nextMessage
    ensures Quiet(db, n)
  {
    hide Telling, Quiet;
    UntouchedQuiet(db, n);
  }

  lemma SeizeQuiet(db: Ledger, ref: AttemptRef, effect: Effect)
    requires ref.attempt in db.attempts
    ensures Quiet(db, Seize(db, ref, effect))
  {
    hide SetStatus, Quiet;
    var row := Moved(db.attempts[ref.attempt], Unknown).(effect := effect);
    var put := PutAttempt(db, ref.attempt, row);
    PutQuiet(db, ref.attempt, row);
    var d := Place(db, ref.attempt, row, Some(ref.attempt), Confused);
    NodeQuiet(put, d);
    QuietTrans(db, put, d);
    StatusQuiet(d, ref.request, Lost);
    QuietTrans(db, d, SetStatus(d, ref.request, Lost));
  }

  lemma UnknownQuiet(db: Ledger, ref: AttemptRef, effect: Effect)
    ensures Quiet(db, Commits(db, SetUnknown(db, ref, effect)))
  {
    hide OtherLive, Seize, Quiet, Append, Announce;
    QuietSelf(db);
    if ref.attempt in db.attempts {
      SeizeQuiet(db, ref, effect);
      var d1 := Seize(db, ref, effect);
      var node := d1.node.(readiness := IsUnknown, reasons := d1.node.reasons + {ExecutionUnknown});
      var d2 := Tick(d1.(node := node), false);
      NodeQuiet(d1, d2);
      QuietTrans(db, d1, d2);
      NotesQuiet(db, d2, AttemptEvent(OtherEvent, ref, None, None, false));
    }
  }

  /** One untelling event and the announcement of the node's state. */
  lemma NotesQuiet(db: Ledger, d: Ledger, e: Event)
    requires Quiet(db, d) && !Telling(e)
    ensures Quiet(db, Append(d, e)) && Quiet(db, Announce(Append(d, e)))
  {
    hide Quiet, Append, Announce, Telling;
    AppendQuiet(d, e);
    QuietTrans(db, d, Append(d, e));
    AnnounceQuiet(Append(d, e));
    QuietTrans(db, Append(d, e), Announce(Append(d, e)));
  }

  /** Ending an attempt is quiet but for the attempt itself. */
  lemma EndSilent(db: Ledger, ref: AttemptRef, outcome: Ending, effect: Effect)
    requires ref.attempt in db.attempts
    ensures var n := EndAttempt(db, ref, outcome, effect); SameCharges(db, n) && Silent(db, n, ref.attempt)
  {
    hide SetStatus, Silent, Quiet, SameCharges;
    var row := Moved(db.attempts[ref.attempt], Ended(outcome)).(effect := effect);
    var d := Place(db, ref.attempt, row, None, Idle);
    PlaceSilent(db, ref.attempt, row, None, Idle);
    StatusQuiet(d, ref.request, Done(outcome));
    var n := SetStatus(d, ref.request, Done(outcome));
    QuietSilent(d, n, ref.attempt);
    SilentTrans(db, d, n, ref.attempt);
    ChargesTrans(db, d, n);
  }

  lemma ChargesTrans(a: Ledger, b: Ledger, c: Ledger)
    requires SameCharges(a, b) && Quiet(b, c)
    ensures SameCharges(a, c)
  {
    hide Indexed, UserOnly, RowsMild, TellsMild;
  }

  lemma PlaceSilent(db: Ledger, a: Id, row: Attempt, active: Option<Id>, occupancy: Occupancy)
    requires a in db.attempts && row.said == db.attempts[a].said && row.started == db.attempts[a].started
    requires row.outputBytes == db.attempts[a].outputBytes
    ensures Silent(db, Place(db, a, row, active, occupancy), a) && SameCharges(db, Place(db, a, row, active, occupancy))
  {
    hide Telling, Spoken, Names;
    if Indexed(db) { PlacedIndex(db, a, row, active, occupancy); }
  }

  lemma PlacedIndex(db: Ledger, a: Id, row: Attempt, active: Option<Id>, occupancy: Occupancy)
    requires Indexed(db) && a in db.attempts && row.said == db.attempts[a].said
    ensures Indexed(Place(db, a, row, active, occupancy))
  {
    var n := Place(db, a, row, active, occupancy);
    forall m | m in n.messages && !n.messages[m].user ensures Spoken(n, m) { assert Spoken(db, m); }
    forall b | b in n.attempts && n.attempts[b].said.Some? ensures Names(n, b) { assert Names(db, b); }
  }

  lemma InsertQuiet(db: Ledger, id: Id, action: Action)
    ensures Quiet(db, Commits(db, InsertAction(db, id, action)))
  {
    hide Quiet, Telling;
    UntouchedQuiet(db, Commits(db, InsertAction(db, id, action)));
  }

  lemma TickQuiet(db: Ledger, queue: bool)
    ensures Quiet(db, Tick(db, queue))
  {
    hide Quiet;
    NodeQuiet(db, Tick(db, queue));
  }

  lemma StopQuiet(db: Ledger, ref: AttemptRef, stop: Id)
    ensures Quiet(db, Commits(db, ScheduleStop(db, ref, stop)))
  {
    hide Append, Tick, PutAttempt, InsertAction, Quiet;
    QuietSelf(db);
    if ref.attempt in db.attempts {
      var row := Moved(db.attempts[ref.attempt], Stopping);
      var d1 := PutAttempt(db, ref.attempt, row);
      PutQuiet(db, ref.attempt, row);
      TickQuiet(d1, false);
      QuietTrans(db, d1, Tick(d1, false));
      var e := AttemptEvent(OtherEvent, ref, None, None, false);
      NotesQuiet(db, Tick(d1, false), e);
      var d2 := Append(Tick(d1, false), e);
      var action := NewAction(StopAttempt, RefOf(db, ref.attempt), 0, 0, 0);
      InsertQuiet(d2, stop, action);
      QuietTrans(db, d2, Commits(d2, InsertAction(d2, stop, action)));
    }
  }

  // ---------------------------------------------------------------- commands

  lemma CreateQuiet(db: Ledger, c: Command, d: Id)
    requires c.DialogCreate? && ApplyDialogCreate(db, c, d).Ok?
    ensures Quiet(db, ApplyDialogCreate(db, c, d).value.db)
  {
    hide Quiet;
    UntouchedQuiet(db, ApplyDialogCreate(db, c, d).value.db);
  }

  /** A new message of the user and its request. */
  lemma EnqueuedWords(db: Ledger, d: Id, m: Id, r: Id, text: Id)
    requires d in db.dialogs && m !in db.messages && r !in db.requests
    ensures Quiet(db, Enqueue(db, d, m, r, text))
  {
    hide Bump, Telling, Indexed, UserOnly;
    if Indexed(db) { EnqueuedUser(db, d, m, r, text); }
  }

  lemma EnqueuedUser(db: Ledger, d: Id, m: Id, r: Id, text: Id)
    requires d in db.dialogs && m !in db.messages && r !in db.requests && Indexed(db)
    ensures UserOnly(db, Enqueue(db, d, m, r, text))
  {
    hide Bump, Telling, Spoken, Names;
  }

  lemma EnqueueQuiet(db: Ledger, c: Command, m: Id, r: Id)
    requires c.MessageEnqueue? && ApplyMessageEnqueue(db, c, m, r).Ok?
    ensures Quiet(db, ApplyMessageEnqueue(db, c, m, r).value.db)
  {
    hide Enqueue, Quiet, Append, Announce;
    EnqueuedWords(db, c.dialog, m, r, c.text);
    var d := Tick(Enqueue(db, c.dialog, m, r, c.text), true);
    NodeQuiet(Enqueue(db, c.dialog, m, r, c.text), d);
    QuietTrans(db, Enqueue(db, c.dialog, m, r, c.text), d);
    ToldQuiet(db, d, Event(MessageAccepted(c.dialog), None, None, None, None, false));
  }

  /** One untelling event and two announcements. */
  lemma ToldQuiet(db: Ledger, d: Ledger, e: Event)
    requires Quiet(db, d) && !Telling(e)
    ensures Quiet(db, Announce(Announce(Append(d, e))))
  {
    hide Quiet, Append, Announce, Telling;
    NotesQuiet(db, d, e);
    AnnounceQuiet(Announce(Append(d, e)));
    QuietTrans(db, Announce(Append(d, e)), Announce(Announce(Append(d, e))));
  }

  lemma AnnouncedQuiet(db: Ledger, d: Ledger)
    requires Quiet(db, d)
    ensures Quiet(db, Announce(Announce(d)))
  {
    hide Quiet, Announce;
    AnnounceQuiet(d);
    QuietTrans(db, d, Announce(d));
    AnnounceQuiet(Announce(d));
    QuietTrans(db, Announce(d), Announce(Announce(d)));
  }

  lemma WithdrawnWords(db: Ledger, r: Id)
    requires r in db.requests && db.requests[r].input in db.messages
    ensures Quiet(db, Withdraw(db, r))
  {
    hide Bump, Telling, Spoken, Names;
  }

  lemma CancelQuiet(db: Ledger, c: Command)
    requires c.RequestCancel? && ApplyRequestCancel(db, c).Ok?
    ensures Quiet(db, ApplyRequestCancel(db, c).value.db)
  {
    hide Withdraw, Quiet, Append, Announce;
    WithdrawnWords(db, c.request);
    var d := Tick(Withdraw(db, c.request), true);
    NodeQuiet(Withdraw(db, c.request), d);
    QuietTrans(db, Withdraw(db, c.request), d);
    ToldQuiet(db, d, Event(DispositionChanged(db.requests[c.request].input), None, None, None, None, false));
  }

  lemma PausedQuiet(db: Ledger, paused: bool)
    ensures Quiet(db, SetPaused(db, paused))
  {
    hide Quiet, Telling;
    UntouchedQuiet(db, SetPaused(db, paused));
  }

  lemma ResumeQuiet(db: Ledger, c: Command)
    requires c.QueueResume? && ApplyQueueResume(db, c).Ok?
    ensures Quiet(db, ApplyQueueResume(db, c).value.db)
  {
    hide SetPaused, Quiet, Announce;
    PausedQuiet(db, false);
    var d1 := SetPaused(db, false);
    var d2 := Tick(d1.(node := d1.node.(reasons := d1.node.reasons - {OperatorPause})), true);
    NodeQuiet(d1, d2);
    QuietTrans(db, d1, d2);
    AnnouncedQuiet(db, d2);
  }

  lemma AgainWords(db: Ledger, d: Id, m: Id, r: Id, q: Id)
    requires q in db.requests && db.requests[q].input == m && r !in db.requests
    ensures Quiet(db, EnqueueAgain(db, d, m, r))
  {
    hide Bump, Telling, Spoken, Names;
  }

  lemma RetryQuiet(db: Ledger, c: Command, r: Id)
    requires c.AttemptRetry? && ApplyAttemptRetry(db, c, r).Ok?
    ensures Quiet(db, ApplyAttemptRetry(db, c, r).value.db)
  {
    hide RetryEligible, HasOpenRequest, EnqueueAgain, Quiet, Announce;
    var row := db.attempts[c.attempt];
    var m := db.requests[row.request].input;
    AgainWords(db, row.dialog, m, r, row.request);
    var d := Tick(EnqueueAgain(db, row.dialog, m, r), true);
    NodeQuiet(EnqueueAgain(db, row.dialog, m, r), d);
    QuietTrans(db, EnqueueAgain(db, row.dialog, m, r), d);
    AnnouncedQuiet(db, d);
  }

  /** A user's message changes what becomes of it. */
  lemma DisposedWords(db: Ledger, m: Id, row: Message)
    requires m in db.messages && db.messages[m].disposition != NoDisposition
    requires row.user == db.messages[m].user && row.sequence == db.messages[m].sequence
    ensures Quiet(db, PutMessage(db, m, row))
  {
    hide Telling, Names;
  }

  lemma SteerQuiet(db: Ledger, c: Command)
    requires c.MessageSteer? && ApplyMessageSteer(db, c).Ok?
    ensures Quiet(db, ApplyMessageSteer(db, c).value.db)
  {
    hide PutMessage, Quiet, Append, Announce;
    var message := db.messages[c.message];
    var row := message.(version := message.version + 1, disposition := SteerPending);
    DisposedWords(db, c.message, row);
    var d := Tick(PutMessage(db, c.message, row), true);
    NodeQuiet(PutMessage(db, c.message, row), d);
    QuietTrans(db, PutMessage(db, c.message, row), d);
    NotesQuiet(db, d, Event(DispositionChanged(c.message), None, None, None, None, false));
  }

  lemma ApprovalRowQuiet(db: Ledger, p: Id, row: Approval)
    requires p in db.approvals && row.attempt == db.approvals[p].attempt
    ensures Quiet(db, PutApproval(db, p, row))
  {
    hide Quiet, Telling;
    RowsQuiet(db, PutApproval(db, p, row));
  }

  lemma InputRowQuiet(db: Ledger, i: Id, row: Input)
    requires i in db.inputs && row.attempt == db.inputs[i].attempt
    ensures Quiet(db, PutInput(db, i, row))
  {
    hide Quiet, Telling;
    RowsQuiet(db, PutInput(db, i, row));
  }

  lemma ApprovalQuiet(db: Ledger, c: Command)
    requires c.ApprovalRespond? && ApplyApproval(db, c).Ok?
    ensures Quiet(db, ApplyApproval(db, c).value.db)
  {
    hide PutApproval, Quiet;
    var row := db.approvals[c.approval];
    ApprovalRowQuiet(db, c.approval, row.(version := row.version + 1, status := Responding));
  }

  lemma AnswerWords(db: Ledger, m: Id, row: Message)
    requires m !in db.messages && row.user && row.sequence == db.node.nextMessage
    ensures Quiet(db, AddMessage(db, m, row))
  {
    hide Telling, Spoken, Names;
  }

  lemma InputQuiet(db: Ledger, c: Command, m: Id)
    requires c.InputRespond? && ApplyInput(db, c, m).Ok?
    ensures Quiet(db, ApplyInput(db, c, m).value.db)
  {
    hide PutInput, Quiet, AddMessage;
    var ref := RefOf(db, c.attempt);
    var row := db.inputs[c.input];
    var message := Message(ref.dialog, db.node.nextMessage, 1, true, Applied, ref.request, Some(c.attempt), c.text);
    var d1 := AddMessage(db, m, message);
    AnswerWords(db, m, message);
    AddedInputs(db, m, message);
    var next := row.(version := row.version + 1, status := Responding);
    InputRowQuiet(d1, c.input, next);
    QuietTrans(db, d1, PutInput(d1, c.input, next));
  }

  lemma AddedInputs(db: Ledger, m: Id, row: Message)
    ensures AddMessage(db, m, row).inputs == db.inputs
  {
  }

  lemma StopCommandQuiet(db: Ledger, c: Command)
    requires c.AttemptStop? && ApplyAttemptStop(db, c).Ok?
    ensures Quiet(db, ApplyAttemptStop(db, c).value.db)
  {
    hide PutAttempt, SetPaused, Quiet, Append, Announce;
    var row := Moved(db.attempts[c.attempt], Stopping);
    var d0 := PutAttempt(db, c.attempt, row);
    PutQuiet(db, c.attempt, row);
    var d1 := SetPaused(d0, true);
    PausedQuiet(d0, true);
    QuietTrans(db, d0, d1);
    var d2 := Tick(d1.(node := d1.node.(reasons := d1.node.reasons + {OperatorPause})), true);
    NodeQuiet(d1, d2);
    QuietTrans(db, d1, d2);
    ToldQuiet(db, d2, AttemptEvent(OtherEvent, RefOf(db, c.attempt), None, None, false));
  }

  lemma HandlerQuiet(db: Ledger, c: Command, x: Id, y: Id)
    requires Apply(db, c, x, y).Ok?
    ensures Quiet(db, Apply(db, c, x, y).value.db)
  {
    hide ApplyDialogCreate, ApplyMessageEnqueue, ApplyRequestCancel, ApplyQueueResume, ApplyAttemptStop,
         ApplyAttemptRetry, ApplyMessageSteer, ApplyApproval, ApplyInput, Quiet;
    match c
    case DialogCreate(_) => CreateQuiet(db, c, x);
    case MessageEnqueue(_, _, _) => EnqueueQuiet(db, c, x, y);
    case RequestCancel(_, _) => CancelQuiet(db, c);
    case QueueResume(_) => ResumeQuiet(db, c);
    case AttemptStop(_, _) => StopCommandQuiet(db, c);
    case AttemptRetry(_, _, _) => RetryQuiet(db, c, x);
    case MessageSteer(_, _, _, _, _) => SteerQuiet(db, c);
    case ApprovalRespond(_, _, _, _, _, _) => ApprovalQuiet(db, c);
    case InputRespond(_, _, _, _, _) => InputQuiet(db, c, x);
    case DialogDelete(_, _) =>
  }

  lemma RecordsQuiet(db: Ledger, n: Ledger)
    requires n == db.(commands := n.commands, rejections := n.rejections)
    ensures Quiet(db, n)
  {
    hide Quiet, Telling;
    UntouchedQuiet(db, n);
  }

  lemma ExecuteQuiet(db: Ledger, id: Id, c: Command, x: Id, y: Id)
    requires Execute(db, id, c, x, y).Ok?
    ensures Quiet(db, Execute(db, id, c, x, y).value.0)
  {
    hide Apply, InsertAction, Quiet;
    HandlerQuiet(db, c, x, y);
    var change := Apply(db, c, x, y).value;
    var d := if change.action.Some?
             then Commits(change.db, InsertAction(change.db, id, change.action.value))
             else change.db;
    QuietSelf(change.db);
    if change.action.Some? { InsertQuiet(change.db, id, change.action.value); }
    QuietTrans(db, change.db, d);
    RecordsQuiet(d, Execute(db, id, c, x, y).value.0);
    QuietTrans(db, d, Execute(db, id, c, x, y).value.0);
  }

  lemma SubmitQuiet(db: Ledger, id: Id, c: Command, x: Id, y: Id, space: bool, op: Id)
    ensures Quiet(db, Submit(db, id, c, x, y, space, op).0)
  {
    hide Execute, Authorized, Stops, OutcomeDeleted, IsAdmission, Lookup, StorageGuard, Quiet;
    var d := StorageGuard(db, c, space);
    QuietSelf(db);
    GuardQuiet(db, c, space);
    RecordsQuiet(db, db.(rejections := db.rejections[id := Outcome(c, Receipt(None, op, 0))]));
    if Execute(d, id, c, x, y).Ok? {
      ExecuteQuiet(d, id, c, x, y);
      QuietTrans(db, d, Execute(d, id, c, x, y).value.0);
    }
  }

  lemma GuardQuiet(db: Ledger, c: Command, space: bool)
    ensures Quiet(db, StorageGuard(db, c, space))
  {
    hide IsAdmission, Quiet;
    QuietSelf(db);
    if !(IsAdmission(c) || space) {
      NodeQuiet(db, db.(node := db.node.(readiness := IsBlocked, reasons := db.node.reasons + {StorageUnavailable})));
    }
  }

  // ----------------------------------------------------------------- workers

  lemma DispatchQuiet(db: Ledger, c: Candidate, a: Id, g: int)
    ensures Quiet(db, Commits(db, DispatchNext(db, c, a, g)))
  {
    hide FirstInLine, NextGeneration, OtherLive, TailQuery, TailOf, Begin, NoteDispatch, Quiet;
    QuietSelf(db);
    if DispatchNext(db, c, a, g).Ok? {
      FirstStored(db, c.request);
      var row := db.requests[c.request];
      var d := Begin(db, c.request, a, g, c.policy, TailOf(db, row.dialog, row.input, c.tail));
      BeginQuiet(db, c.request, a, g, c.policy, TailOf(db, row.dialog, row.input, c.tail));
      var ref := AttemptRef(row.dialog, c.request, a, g);
      var waited := db.messages[row.input].disposition == Waits;
      NoteQuiet(d, ref, row.input, waited);
      QuietTrans(db, d, NoteDispatch(d, ref, row.input, waited));
    }
  }

  lemma BeginQuiet(db: Ledger, r: Id, a: Id, g: int, policy: Id, proof: Option<TailProof>)
    requires r in db.requests && db.requests[r].input in db.messages && a !in db.attempts
    ensures Quiet(db, Begin(db, r, a, g, policy, proof))
  {
    hide Bump, Telling, Names, Spoken;
  }

  lemma NoteQuiet(db: Ledger, ref: AttemptRef, m: Id, waited: bool)
    ensures Quiet(db, NoteDispatch(db, ref, m, waited))
  {
    hide Quiet, Append, Announce;
    var d2 := Tick(db.(node := db.node.(readiness := IsReady, reasons := db.node.reasons - {PolicyUnavailable})), true);
    NodeQuiet(db, d2);
    var e := Event(DispositionChanged(m), None, None, None, None, false);
    AppendQuiet(d2, e);
    QuietTrans(db, d2, Append(d2, e));
    var d3 := if waited then Append(d2, e) else d2;
    ToldQuiet(db, d3, AttemptEvent(OtherEvent, ref, None, None, false));
  }

  lemma StartQuiet(db: Ledger, ref: AttemptRef)
    ensures Quiet(db, Commits(db, MarkStarted(db, ref)))
  {
    hide KeyTaken, SetStatus, Quiet, Append, Announce, PutAttempt;
    QuietSelf(db);
    if MarkStarted(db, ref).Ok? {
      var row := Moved(db.attempts[ref.attempt], Running).(started := true);
      var d := PutAttempt(db, ref.attempt, row);
      PutQuiet(db, ref.attempt, row);
      StatusQuiet(d, ref.request, Active);
      var d1 := SetStatus(d, ref.request, Active);
      QuietTrans(db, d, d1);
      NodeQuiet(d1, Tick(d1, false));
      QuietTrans(db, d1, Tick(d1, false));
      var e := AttemptEvent(OtherEvent, ref, Some(Key(false, KStarted)), Some(Whole(Started)), false);
      NotesQuiet(db, Tick(d1, false), e);
    }
  }

  lemma RefusedTrace(db: Ledger, ref: AttemptRef)
    ensures var n := Commits(db, ObserveRefused(db, ref)); Unpaid(db, n) && Silent(db, n, ref.attempt)
  {
    hide EndAttempt, Unpaid, ArchivedBytes, Silent, Quiet, Append, Announce, Tick;
    QuietSelf(db);
    QuietUnpaid(db, db);
    QuietSilent(db, db, ref.attempt);
    if ref.attempt in db.attempts {
      var actual := RefOf(db, ref.attempt);
      RefusedEnds(db, actual);
      RefusedLate(db, AttemptEvent(OtherEvent, actual, None, None, true), LateRow(ref.attempt, Late, None, None, 0));
    }
  }

  lemma RefusedEnds(db: Ledger, ref: AttemptRef)
    requires ref.attempt in db.attempts
    ensures var d1 := EndAttempt(db, ref, Failed, NoEffect);
      var readiness := if d1.node.readiness == IsUnknown then IsBlocked else d1.node.readiness;
      var d2 := Tick(d1.(node := d1.node.(readiness := readiness)), false);
      var n := Announce(Append(d2, AttemptEvent(OtherEvent, ref, None, None, false)));
      Unpaid(db, n) && Silent(db, n, ref.attempt)
  {
    hide EndAttempt, Unpaid, Silent, Quiet, Append, Announce, SameCharges;
    EndSilent(db, ref, Failed, NoEffect);
    var d1 := EndAttempt(db, ref, Failed, NoEffect);
    var readiness := if d1.node.readiness == IsUnknown then IsBlocked else d1.node.readiness;
    var d2 := Tick(d1.(node := d1.node.(readiness := readiness)), false);
    NodeQuiet(d1, d2);
    NotesQuiet(d1, d2, AttemptEvent(OtherEvent, ref, None, None, false));
    var n := Announce(Append(d2, AttemptEvent(OtherEvent, ref, None, None, false)));
    QuietSilent(d1, n, ref.attempt);
    SilentTrans(db, d1, n, ref.attempt);
    ChargesTrans(db, d1, n);
    QuietUnpaid(db, n);
  }

  lemma RefusedLate(db: Ledger, e: Event, row: LateRow)
    requires row.attempt in db.attempts && row.key.None? && !Telling(e)
    ensures var d := Append(db, e);
      var n := d.(late := d.late + [row]);
      Unpaid(db, n) && Silent(db, n, row.attempt)
  {
    hide Meters, Silent, Quiet, Telling, ArchivedBytes;
    var d := Append(db, e);
    AppendQuiet(db, e);
    QuietSilent(db, d, row.attempt);
    var n := d.(late := d.late + [row]);
    LateSilent(d, n, row.attempt);
    SilentTrans(db, d, n, row.attempt);
    LateMeters(db, n, row, 0);
    forall a ensures Archived(n, a) == Archived(db, a) { ArchivedNext(db.late, row, a); }
  }

  lemma LateSilent(db: Ledger, n: Ledger, a: Id)
    requires n == db.(late := n.late)
    ensures Silent(db, n, a)
  {
    hide Telling;
    if Indexed(db) { SameIndex(db, n); }
  }

  lemma SameIndex(o: Ledger, n: Ledger)
    requires Indexed(o) && n.messages == o.messages && n.node.nextMessage == o.node.nextMessage
    requires n.requests == o.requests && n.attempts == o.attempts
    ensures Indexed(n)
  {
    forall m | m in n.messages && !n.messages[m].user ensures Spoken(n, m) { assert Spoken(o, m); }
    forall b | b in n.attempts && n.attempts[b].said.Some? ensures Names(n, b) { assert Names(o, b); }
  }

  lemma SteerEndWords(db: Ledger, m: Id, v: Verdict)
    requires m in db.messages && db.messages[m].disposition == SteerPending
    ensures Quiet(db, EndSteer(db, m, v))
  {
    hide SetStatus, Quiet;
    QuietSelf(db);
    var message := db.messages[m];
    StatusQuiet(db, message.request, Done(Completed));
    StatusQuiet(db, message.request, Lost);
    StatusRows(db, message.request, Done(Completed));
    StatusRows(db, message.request, Lost);
    var d1 := if v == Good then SetStatus(db, message.request, Done(Completed))
              else if v == Doubt then SetStatus(db, message.request, Lost) else db;
    var row := message.(version := message.version + 1, disposition := SteerEnd(v));
    DisposedWords(d1, m, row);
    var d2 := PutMessage(d1, m, row);
    QuietTrans(db, d1, d2);
    NodeQuiet(d2, EndSteer(db, m, v));
    QuietTrans(db, d2, EndSteer(db, m, v));
  }

  lemma SteerEndQuiet(db: Ledger, ref: AttemptRef, m: Id, v: Verdict)
    ensures Quiet(db, Commits(db, FinishSteer(db, ref, m, v)))
  {
    hide SetUnknown, EndSteer, Quiet, Append, Announce;
    QuietSelf(db);
    if FinishSteer(db, ref, m, v).Ok? {
      SteerEndWords(db, m, v);
      var d0 := Tick(EndSteer(db, m, v), true);
      NodeQuiet(EndSteer(db, m, v), d0);
      QuietTrans(db, EndSteer(db, m, v), d0);
      var e := Event(DispositionChanged(m), None, None, None, None, false);
      NotesQuiet(db, d0, e);
      var d1 := Append(d0, e);
      UnknownQuiet(d1, ref, UnknownEffect);
      QuietSelf(d1);
      var d2 := if v == Doubt then Commits(d1, SetUnknown(d1, ref, UnknownEffect)) else d1;
      QuietTrans(db, d1, d2);
      AnnounceQuiet(d2);
      QuietTrans(db, d2, Announce(d2));
    }
  }

  lemma AnswerQuiet(db: Ledger, action: Action, status: ReplyStatus)
    ensures Quiet(db, Answer(db, action, status))
  {
    hide PutApproval, PutInput, Quiet;
    QuietSelf(db);
    if action.target in db.approvals {
      ApprovalRowQuiet(db, action.target, db.approvals[action.target].(status := status));
    }
    if action.target in db.inputs { InputRowQuiet(db, action.target, db.inputs[action.target].(status := status)); }
  }

  lemma ResponseQuiet(db: Ledger, action: Action, v: Verdict)
    ensures Quiet(db, Commits(db, FinishResponse(db, action, v)))
  {
    hide SetUnknown, Answer, Quiet, Append;
    QuietSelf(db);
    AnswerQuiet(db, action, AnsweredStatus(v));
    var d1 := Answer(db, action, AnsweredStatus(v));
    var e := AttemptEvent(OtherEvent, action.ref, None, None, false);
    NotesQuiet(db, d1, e);
    var d2 := if v == Good then Append(d1, e) else d1;
    UnknownQuiet(d2, action.ref, UnknownEffect);
    QuietTrans(db, d2, Commits(d2, SetUnknown(d2, action.ref, UnknownEffect)));
  }

  /** What a task commits is quiet, but for a refused start. */
  lemma CommitTrace(s: Sys, c: Id, ok: bool)
    requires c in s.tasks && c in s.db.actions
    ensures var n := CommitTask(s, c, ok).db;
      Quiet(s.db, n) || (s.tasks[c] == Declined && Unpaid(s.db, n) && Silent(s.db, n, s.db.actions[c].ref.attempt))
  {
    hide MarkStarted, ObserveRefused, FinishSteer, FinishResponse, SetUnknown, Unpaid, Quiet, Silent;
    var action := s.db.actions[c];
    QuietSelf(s.db);
    StartQuiet(s.db, action.ref);
    RefusedTrace(s.db, action.ref);
    UnknownQuiet(s.db, action.ref, UnknownEffect);
    forall v ensures Quiet(s.db, Commits(s.db, FinishSteer(s.db, action.ref, action.message, v))) {
      SteerEndQuiet(s.db, action.ref, action.message, v);
    }
    forall v ensures Quiet(s.db, Commits(s.db, FinishResponse(s.db, action, v))) { ResponseQuiet(s.db, action, v); }
    forall from, to ensures Quiet(s.db, SetAction(s.db, c, from, to)) { ActionQuiet(s.db, c, from, to); }
  }

  lemma ActionQuiet(db: Ledger, c: Id, from: ActionStatus, to: ActionStatus)
    ensures Quiet(db, SetAction(db, c, from, to))
  {
    hide Quiet, Telling;
    UntouchedQuiet(db, SetAction(db, c, from, to));
  }
}
