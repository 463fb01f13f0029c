/** Every command keeps the invariant and touches one dialog. */
module CommandSteps {
  import opened LedgerTypes
  import opened Transactions
  import opened LedgerInvariant
  import opened Pieces
  import opened AttemptPieces
  import opened RowPieces
  import opened QueuePieces

  // ---------------------------------------------------- one more piece

  lemma Appended(db: Ledger, d: Ledger, e: Event, x: Id, ex: Exempt)
    requires Keeps(db, d, x, ex) && (e.dialog.Some? ==> e.dialog.value == x) && KeyKnown(e, d)
    ensures Keeps(db, Append(d, e), x, ex)
  {
    hide Core, Moves, Calm;
    AppendKeeps(d, e, x, ex);
    Chain(db, d, Append(d, e), x, ex);
  }

  lemma Announced(db: Ledger, d: Ledger, x: Id, ex: Exempt)
    requires Keeps(db, d, x, ex)
    ensures Keeps(db, Announce(d), x, ex)
  {
    hide Core, Moves, Calm, Append;
    Appended(db, d, Event(StateChanged, None, None, None, None, false), x, ex);
  }

  lemma Aside(db: Ledger, d: Ledger, n: Ledger, x: Id, ex: Exempt)
    requires Keeps(db, d, x, ex)
    requires n.node.active == d.node.active && n.node.occupancy == d.node.occupancy
    requires n.node.pending == d.node.pending && n.node.lastSeq == d.node.lastSeq
    requires n.node.nextQueue == d.node.nextQueue
    requires n == d.(node := n.node, late := n.late, commands := n.commands, rejections := n.rejections,
                     holdClock := n.holdClock, scopeRevisions := n.scopeRevisions, deletions := n.deletions,
                     nextRow := n.nextRow)
    requires ex != Registrar ==> n.commands == d.commands && n.rejections == d.rejections && n.deletions == d.deletions
    ensures Keeps(db, n, x, ex)
  {
    hide Core, Moves, Calm;
    AsideKeeps(d, n, x, ex);
    Chain(db, d, n, x, ex);
  }

  lemma Ticked(db: Ledger, d: Ledger, queue: bool, x: Id, ex: Exempt)
    requires Keeps(db, d, x, ex)
    ensures Keeps(db, Tick(d, queue), x, ex)
  {
    hide Core, Moves, Calm;
    Aside(db, d, Tick(d, queue), x, ex);
  }

  // ------------------------------------------------ facts about single rows

  lemma AttemptFacts(db: Ledger, a: Id)
    requires Core(db) && a in db.attempts
    ensures var row := db.attempts[a]; row.request in db.requests && db.requests[row.request].dialog == row.dialog
    ensures db.requests[db.attempts[a].request].status != Queued && db.attempts[a].dialog in db.dialogs
    ensures HasAttempt(db.attempts, db.attempts[a].request)
    ensures Live(db.attempts[a].phase) <==> db.node.active == Some(a)
  {
    hide LogInv, ActionRows, EffectRows, MessageRows, KeyInv, AnswerRows, StartRows, PhaseRows, InputRows,
         RevisionInv, CountInv, SteerInv, HoldInv;
  }

  lemma RequestFacts(db: Ledger, r: Id)
    requires Core(db) && r in db.requests
    ensures db.requests[r].dialog in db.dialogs && db.requests[r].input in db.messages
    ensures db.messages[db.requests[r].input].dialog == db.requests[r].dialog
  {
    hide LogInv, SlotInv, AttemptRows, ActionRows, EffectRows, MessageRows, KeyInv, AnswerRows, StartRows, PhaseRows,
         InputRows, RevisionInv, CountInv, SteerInv, HoldInv;
  }

  /** The message of a request that has an attempt names a request with one. */
  lemma SpentMessage(db: Ledger, a: Id)
    requires Core(db) && a in db.attempts
    ensures db.attempts[a].request in db.requests && db.requests[db.attempts[a].request].input in db.messages
    ensures HasAttempt(db.attempts, db.messages[db.requests[db.attempts[a].request].input].request)
  {
    hide LogInv, SlotInv, ActionRows, EffectRows, MessageRows, KeyInv, AnswerRows, StartRows, PhaseRows, RevisionInv,
         CountInv, SteerInv, HoldInv;
  }

  lemma WaitingMessage(db: Ledger, m: Id)
    requires Core(db) && m in db.messages && db.messages[m].disposition == Waits
    ensures !HasAttempt(db.attempts, db.messages[m].request) && db.messages[m].dialog in db.dialogs
    ensures var r := db.messages[m].request;
      r in db.requests && db.requests[r].status == Queued && db.requests[r].dialog == db.messages[m].dialog
  {
    hide LogInv, SlotInv, ActionRows, EffectRows, StartRows, PhaseRows, RevisionInv, CountInv, SteerInv, HoldInv;
  }

  lemma StartedWhenRunning(db: Ledger, a: Id)
    requires Core(db) && a in db.attempts
    ensures db.attempts[a].phase in {Running, Waiting} ==> db.attempts[a].started
    ensures db.attempts[a].phase == Dispatching ==> !db.attempts[a].started
  {
    hide LogInv, SlotInv, RequestRows, OrderInv, AttemptRows, ActionRows, EffectRows, MessageRows, KeyInv,
         AnswerRows, StartRows, InputRows, RevisionInv, CountInv, SteerInv, HoldInv;
  }

  // ------------------------------------------------------------- handlers

  /** A waiting message has come under steering. */
  ghost predicate Steers(o: Ledger, n: Ledger, m: Id) {
    m in o.messages && o.messages[m].disposition == Waits && UnderSteering(n.messages, n.requests, m, true)
  }

  /** What a handler promises of its change: the ledger, and a well bound action. */
  ghost predicate Promises(db: Ledger, r: Result<Change>, x: Id, ex: Exempt) {
    r.Ok? ==>
      && Keeps(db, r.value.db, x, ex)
      && (r.value.action.Some? ==>
            && r.value.action.value.status == Pending && r.value.action.value.kind != DispatchStart
            && r.value.action.value.ref.dialog == x
            && Bound(r.value.action.value, r.value.db)
            && (r.value.action.value.kind == SteerMessage ==> Steers(db, r.value.db, r.value.action.value.message)))
  }

  lemma CreateStep(db: Ledger, c: Command, d: Id, x: Id)
    requires Core(db) && c.DialogCreate?
    ensures Promises(db, ApplyDialogCreate(db, c, d), x, Founder)
  {
    hide Core, Moves, Calm, CreateDialog, Announce, Tick;
    if ApplyDialogCreate(db, c, d).Ok? {
      CreateKeeps(db, d, x);
      Ticked(db, CreateDialog(db, d), false, x, Founder);
      Announced(db, Tick(CreateDialog(db, d), false), x, Founder);
    }
  }

  lemma EnqueueStep(db: Ledger, c: Command, m: Id, r: Id)
    requires Core(db) && c.MessageEnqueue?
    ensures Promises(db, ApplyMessageEnqueue(db, c, m, r), c.dialog, Nobody)
  {
    hide Core, Moves, Calm, Enqueue, Announce, Tick, Append;
    if ApplyMessageEnqueue(db, c, m, r).Ok? {
      var e := Event(MessageAccepted(c.dialog), None, None, None, None, false);
      EnqueueKeeps(db, c.dialog, m, r, c.text, Nobody);
      var d1 := Tick(Enqueue(db, c.dialog, m, r, c.text), true);
      Ticked(db, Enqueue(db, c.dialog, m, r, c.text), true, c.dialog, Nobody);
      Appended(db, d1, e, c.dialog, Nobody);
      Announced(db, Append(d1, e), c.dialog, Nobody);
      Announced(db, Announce(Append(d1, e)), c.dialog, Nobody);
    }
  }

  lemma CancelStep(db: Ledger, c: Command, x: Id)
    requires Core(db) && c.RequestCancel? && (c.request in db.requests ==> db.requests[c.request].dialog == x)
    ensures Promises(db, ApplyRequestCancel(db, c), x, Nobody)
  {
    hide Core, Moves, Calm, Withdraw, Announce, Tick, Append;
    if ApplyRequestCancel(db, c).Ok? {
      var e := Event(DispositionChanged(db.requests[c.request].input), None, None, None, None, false);
      WithdrawKeeps(db, c.request, x, Nobody);
      var d1 := Tick(Withdraw(db, c.request), true);
      Ticked(db, Withdraw(db, c.request), true, x, Nobody);
      Appended(db, d1, e, x, Nobody);
      Announced(db, Append(d1, e), x, Nobody);
      Announced(db, Announce(Append(d1, e)), x, Nobody);
    }
  }

  /** The queue is no longer paused; if it was, every queue revision has moved by one,
      with every request as it was. */
  ghost predicate Resumes(db: Ledger, n: Ledger) {
    && !n.node.paused && OperatorPause !in n.node.reasons && n.requests == db.requests && n.messages == db.messages
    && n.queueRevisions.Keys == db.queueRevisions.Keys
    && forall s :: s in db.queueRevisions ==>
         n.queueRevisions[s] == db.queueRevisions[s] + (if db.node.paused then 1 else 0)
  }

  lemma ResumedRows(db: Ledger, c: Command)
    requires c.QueueResume? && ApplyQueueResume(db, c).Ok?
    ensures Resumes(db, ApplyQueueResume(db, c).value.db)
  {
    hide Append;
    forall d, e ensures var n := Append(d, e); n == d.(events := n.events, node := d.node.(lastSeq := n.node.lastSeq)) {
      AppendFrame(d, e);
    }
  }

  /** A resumption needs the queue version it was decided on. */
  lemma ResumeStep(db: Ledger, c: Command, x: Id)
    requires Core(db) && c.QueueResume?
    ensures Promises(db, ApplyQueueResume(db, c), x, Nobody)
    ensures ApplyQueueResume(db, c).Ok? <==> c.queueVersion == db.node.queueVersion
    ensures ApplyQueueResume(db, c).Ok? ==> Resumes(db, ApplyQueueResume(db, c).value.db)
  {
    hide Core, Moves, Calm, SetPaused, Announce, Tick, Resumes;
    if ApplyQueueResume(db, c).Ok? {
      ResumedRows(db, c);
      PausedKeeps(db, false, x, Nobody);
      var d1 := SetPaused(db, false);
      var d2 := d1.(node := d1.node.(reasons := d1.node.reasons - {OperatorPause}));
      Aside(db, d1, d2, x, Nobody);
      Ticked(db, d2, true, x, Nobody);
      Announced(db, Tick(d2, true), x, Nobody);
      Announced(db, Announce(Tick(d2, true)), x, Nobody);
    }
  }

  lemma StopStep(db: Ledger, c: Command, x: Id)
    requires Core(db) && c.AttemptStop? && (c.attempt in db.attempts ==> db.attempts[c.attempt].dialog == x)
    ensures Promises(db, ApplyAttemptStop(db, c), x, Nobody)
  {
    hide Core, Moves, Calm;
    if ApplyAttemptStop(db, c).Ok? {
      var row := db.attempts[c.attempt];
      PutAttemptKeeps(db, c.attempt, Moved(row, Stopping), x, Nobody);
      var d0 := PutAttempt(db, c.attempt, Moved(row, Stopping));
      PausedKeeps(d0, true, x, Nobody);
      var d1 := SetPaused(d0, true);
      Chain(db, d0, d1, x, Nobody);
      var d2 := Tick(d1.(node := d1.node.(reasons := d1.node.reasons + {OperatorPause})), true);
      Aside(db, d1, d2, x, Nobody);
      var e := AttemptEvent(OtherEvent, RefOf(db, c.attempt), None, None, false);
      Appended(db, d2, e, x, Nobody);
      Announced(db, Append(d2, e), x, Nobody);
      Announced(db, Announce(Append(d2, e)), x, Nobody);
      StopBound(db, c.attempt, Announce(Announce(Append(d2, e))));
    }
  }

  lemma StopBound(db: Ledger, a: Id, n: Ledger)
    requires a in db.attempts && a in n.attempts && n.attempts[a] == Moved(db.attempts[a], Stopping)
    ensures Bound(NewAction(StopAttempt, RefOf(db, a), 0, 0, 0), n)
  {
  }

  lemma RetryStep(db: Ledger, c: Command, r: Id, x: Id)
    requires Core(db) && c.AttemptRetry? && (c.attempt in db.attempts ==> db.attempts[c.attempt].dialog == x)
    ensures Promises(db, ApplyAttemptRetry(db, c, r), x, Nobody)
  {
    hide Core, Moves, Calm, EnqueueAgain, Announce, Tick, RetryEligible, HasAttempt;
    if ApplyAttemptRetry(db, c, r).Ok? {
      var row := db.attempts[c.attempt];
      var m := db.requests[row.request].input;
      AttemptFacts(db, c.attempt);
      RequestFacts(db, row.request);
      SpentMessage(db, c.attempt);
      EnqueueAgainKeeps(db, x, m, r, Nobody);
      var d1 := EnqueueAgain(db, x, m, r);
      Ticked(db, d1, true, x, Nobody);
      Announced(db, Tick(d1, true), x, Nobody);
      Announced(db, Announce(Tick(d1, true)), x, Nobody);
    }
  }

  lemma SteerStep(db: Ledger, c: Command)
    requires Core(db) && c.MessageSteer?
    ensures Promises(db, ApplyMessageSteer(db, c), c.dialog, Steerer)
  {
    hide Core, Moves, Calm, HasAttempt;
    if ApplyMessageSteer(db, c).Ok? {
      var message := db.messages[c.message];
      WaitingMessage(db, c.message);
      AttemptFacts(db, c.attempt);
      StartedWhenRunning(db, c.attempt);
      var m := message.(version := message.version + 1, disposition := SteerPending);
      PutMessageKeeps(db, c.message, m, c.dialog, Steerer);
      var d0 := PutMessage(db, c.message, m);
      Ticked(db, d0, true, c.dialog, Steerer);
      var e := Event(DispositionChanged(c.message), None, None, None, None, false);
      Appended(db, Tick(d0, true), e, c.dialog, Steerer);
      Announced(db, Append(Tick(d0, true), e), c.dialog, Steerer);
    }
  }

  lemma ApprovalStep(db: Ledger, c: Command, x: Id)
    requires Core(db) && c.ApprovalRespond? && (c.attempt in db.attempts ==> db.attempts[c.attempt].dialog == x)
    ensures Promises(db, ApplyApproval(db, c), x, Nobody)
  {
    hide Core, Moves, Calm, HasAttempt;
    if ApplyApproval(db, c).Ok? {
      var row := db.approvals[c.approval];
      PutApprovalKeeps(db, c.approval, row.(version := row.version + 1, status := Responding), x, Nobody);
    }
  }

  lemma InputStep(db: Ledger, c: Command, m: Id, x: Id)
    requires Core(db) && c.InputRespond? && (c.attempt in db.attempts ==> db.attempts[c.attempt].dialog == x)
    ensures Promises(db, ApplyInput(db, c, m), x, Nobody)
  {
    hide Core, Moves, Calm, HasAttempt;
    if ApplyInput(db, c, m).Ok? {
      var row := db.inputs[c.input];
      var ref := RefOf(db, c.attempt);
      AttemptFacts(db, c.attempt);
      var message := Message(ref.dialog, db.node.nextMessage, 1, true, Applied, ref.request, Some(c.attempt), c.text);
      AddMessageKeeps(db, m, message, x, Nobody);
      var d1 := AddMessage(db, m, message);
      PutInputKeeps(d1, c.input, row.(version := row.version + 1, status := Responding), x, Nobody);
      Chain(db, d1, PutInput(d1, c.input, row.(version := row.version + 1, status := Responding)), x, Nobody);
    }
  }

  /** The dialog a command acts in; node commands may name any. */
  ghost predicate ActsIn(db: Ledger, c: Command, x: Id) {
    IsNodeCommand(c) || (TargetDialog(db, c).Some? ==> x == TargetDialog(db, c).value)
  }

  function Mandate(c: Command): Exempt {
    if c.DialogCreate? then Founder else if c.MessageSteer? then Steerer else Nobody
  }

  lemma ApplyStep(db: Ledger, c: Command, a: Id, b: Id, x: Id)
    requires Core(db) && ActsIn(db, c, x)
    ensures Promises(db, Apply(db, c, a, b), x, Mandate(c))
  {
    hide Core, Promises, ApplyDialogCreate, ApplyMessageEnqueue, ApplyRequestCancel, ApplyQueueResume,
         ApplyAttemptStop, ApplyAttemptRetry, ApplyMessageSteer, ApplyApproval, ApplyInput;
    match c {
      case DialogCreate(_) => CreateStep(db, c, a, x);
      case MessageEnqueue(_, _, _) => EnqueueStep(db, c, a, b);
      case RequestCancel(_, _) => CancelStep(db, c, x);
      case QueueResume(_) => ResumeStep(db, c, x);
      case AttemptStop(_, _) => StopStep(db, c, x);
      case AttemptRetry(_, _, _) => RetryStep(db, c, a, x);
      case MessageSteer(_, _, _, _, _) => SteerStep(db, c);
      case ApprovalRespond(_, _, _, _, _, _) => ApprovalStep(db, c, x);
      case InputRespond(_, _, _, _, _) => InputStep(db, c, a, x);
      case DialogDelete(_, _) => Refused(db, x);
    }
  }

  lemma Refused(db: Ledger, x: Id)
    ensures Promises(db, Err(Forbidden), x, Nobody)
  {
  }

  /** The command row is all that an accepted command records. */
  ghost predicate Accepts(db: Ledger, n: Ledger, id: Id, c: Command) {
    && n.tombstones == db.tombstones && n.holds == db.holds && n.holdEnds == db.holdEnds
    && n.rejections == db.rejections && n.deletions == db.deletions
    && (!c.DialogCreate? ==> n.dialogs.Keys == db.dialogs.Keys)
    && id in n.commands && n.commands[id].command == c && n.commands == db.commands[id := n.commands[id]]
  }

  ghost predicate NewSteers(o: Ledger, n: Ledger, id: Id) {
    && (forall c :: c in n.actions && c !in o.actions && n.actions[c].kind == SteerMessage ==>
         c == id && Steers(o, n, n.actions[c].message))
    && (forall m :: ComesUnder(o.messages, n.messages, m) ==>
          id in n.actions && n.actions[id].kind == SteerMessage && n.actions[id].message == m
              && n.actions[id].status == Pending)
  }

  /** The message was not under steering and now is. */
  predicate ComesUnder(o: map<Id, Message>, n: map<Id, Message>, m: Id) {
    m in n && n[m].disposition == SteerPending && !(m in o && o[m].disposition == SteerPending)
  }

  lemma ExecuteKeeps(db: Ledger, id: Id, c: Command, a: Id, b: Id, x: Id)
    requires Core(db) && ActsIn(db, c, x) && Execute(db, id, c, a, b).Ok?
    ensures Keeps(db, Execute(db, id, c, a, b).value.0, x, Registrar)
  {
    hide Core, Moves, Calm, Apply, Bound, ActsIn, Steers;
    var n := Execute(db, id, c, a, b).value.0;
    ApplyStep(db, c, a, b, x);
    var change := Apply(db, c, a, b).value;
    var d2 := change.db;
    Weaken(db, d2, x, Mandate(c));
    if change.action.Some? {
      InsertKeeps(change.db, id, change.action.value, x, Registrar);
      d2 := InsertAction(change.db, id, change.action.value).value;
      Chain(db, change.db, d2, x, Registrar);
    }
    Aside(db, d2, n, x, Registrar);
  }

  /** What the handler's promise says of records and new actions. */
  lemma CalmRecords(o: Ledger, n: Ledger, ex: Exempt)
    requires Calm(o, n, ex) && ex in {Nobody, Founder, Steerer}
    ensures SameRecords(o, n) && (ex != Founder ==> n.dialogs.Keys == o.dialogs.Keys)
    ensures forall k :: k in n.actions && k !in o.actions ==> n.actions[k].kind != SteerMessage
    ensures ex != Steerer ==> forall m :: !ComesUnder(o.messages, n.messages, m)
  {
    hide SameRecords, KeepStarted, UnderSteering, NoNewDebt;
  }

  lemma SteerOnly(db: Ledger, c: Command)
    requires c.MessageSteer? && ApplyMessageSteer(db, c).Ok?
    ensures var change := ApplyMessageSteer(db, c).value;
      && change.action.Some? && change.action.value.kind == SteerMessage && change.action.value.message == c.message
      && change.action.value.status == Pending
      && forall m :: ComesUnder(db.messages, change.db.messages, m) ==> m == c.message
  {
  }

  lemma RecordedRows(db: Ledger, change: Change, id: Id, c: Command, n: Ledger)
    requires SameRecords(db, change.db) && (!c.DialogCreate? ==> change.db.dialogs.Keys == db.dialogs.Keys)
    requires forall k :: k in change.db.actions && k !in db.actions ==> change.db.actions[k].kind != SteerMessage
    requires change.action.Some? && change.action.value.kind == SteerMessage ==>
        Steers(db, change.db, change.action.value.message)
    requires forall m :: ComesUnder(db.messages, change.db.messages, m) ==>
      change.action.Some? && change.action.value.kind == SteerMessage && change.action.value.message == m
          && change.action.value.status == Pending
    requires change.action.None? ==> n == change.db.(commands := n.commands)
    requires change.action.Some? ==>
      exists row ::
        n == change.db.(commands := n.commands, nextRow := n.nextRow,
                        actions := change.db.actions[id := change.action.value.(row := row)])
    requires id in n.commands && n.commands[id].command == c && n.commands == change.db.commands[id := n.commands[id]]
    ensures Accepts(db, n, id, c) && NewSteers(db, n, id)
  {
    hide UnderSteering;
  }

  lemma SteerApplied(db: Ledger, c: Command, a: Id, b: Id)
    requires c.MessageSteer? && Apply(db, c, a, b).Ok?
    ensures var change := Apply(db, c, a, b).value;
      && change.action.Some? && change.action.value.kind == SteerMessage && change.action.value.message == c.message
      && change.action.value.status == Pending
      && forall m :: ComesUnder(db.messages, change.db.messages, m) ==> m == c.message
  {
    hide ApplyMessageSteer, ComesUnder;
    SteerOnly(db, c);
  }

  lemma ExecuteRecords(db: Ledger, id: Id, c: Command, a: Id, b: Id, x: Id)
    requires Core(db) && ActsIn(db, c, x) && Execute(db, id, c, a, b).Ok?
    ensures Accepts(db, Execute(db, id, c, a, b).value.0, id, c) && NewSteers(db, Execute(db, id, c, a, b).value.0, id)
  {
    hide Core, Moves, Calm, Apply, Bound, ActsIn, Steers, SameRecords, Accepts, NewSteers, ComesUnder;
    var n := Execute(db, id, c, a, b).value.0;
    ApplyStep(db, c, a, b, x);
    var change := Apply(db, c, a, b).value;
    CalmRecords(db, change.db, Mandate(c));
    if c.MessageSteer? { SteerApplied(db, c, a, b); }
    if change.action.Some? {
      var action := change.action.value.(row := change.db.nextRow);
      assert n == change.db.(commands := n.commands, nextRow := n.nextRow, actions := change.db.actions[id := action]);
    }
    RecordedRows(db, change, id, c, n);
  }

  lemma ExecuteStep(db: Ledger, id: Id, c: Command, a: Id, b: Id, x: Id)
    requires Core(db) && ActsIn(db, c, x) && Execute(db, id, c, a, b).Ok?
    ensures Keeps(db, Execute(db, id, c, a, b).value.0, x, Registrar)
    ensures Accepts(db, Execute(db, id, c, a, b).value.0, id, c)
    ensures NewSteers(db, Execute(db, id, c, a, b).value.0, id)
  {
    hide Core, Keeps, Execute, ActsIn, Accepts, NewSteers;
    ExecuteKeeps(db, id, c, a, b, x);
    ExecuteRecords(db, id, c, a, b, x);
  }

  /** What a submission can do to the ledger. */
  lemma SubmitCases(db: Ledger, id: Id, c: Command, a: Id, b: Id, space: bool, op: Id)
    ensures var n := Submit(db, id, c, a, b, space, op).0;
      || n == db
      || (n == db.(rejections := db.rejections[id := Outcome(c, Receipt(None, op, 0))]) && Lookup(db, id).None?)
      || (&& Execute(StorageGuard(db, c, space), id, c, a, b).Ok?
          && n == Execute(StorageGuard(db, c, space), id, c, a, b).value.0
          && Lookup(db, id).None? && Authorized(db, c) && !c.DialogDelete?
          && forall h :: h in db.holds ==> !Stops(db, h, c))
  {
    hide Authorized, Stops, Execute, OutcomeDeleted, StorageGuard, Lookup;
  }

  lemma GuardKeeps(db: Ledger, c: Command, space: bool, x: Id)
    requires Core(db)
    ensures Core(StorageGuard(db, c, space)) && Keeps(db, StorageGuard(db, c, space), x, Nobody)
  {
    hide Core, Moves, Calm, IsAdmission;
    if IsAdmission(c) || space {
      KeepsSelf(db, x, Nobody);
    } else {
      var node := db.node.(readiness := IsBlocked, reasons := db.node.reasons + {StorageUnavailable});
      AsideKeeps(db, db.(node := node), x, Nobody);
    }
  }

  /** A command, whatever it is answered, keeps the invariant and acts only in the
      dialog it addresses. */
  lemma SubmitStep(db: Ledger, id: Id, c: Command, a: Id, b: Id, space: bool, op: Id, x: Id)
    requires Core(db) && ActsIn(db, c, x)
    ensures Keeps(db, Submit(db, id, c, a, b, space, op).0, x, Registrar)
    ensures var n := Submit(db, id, c, a, b, space, op).0;
      || n == db
      || (n == db.(rejections := db.rejections[id := Outcome(c, Receipt(None, op, 0))]) && Lookup(db, id).None?)
      || (Accepts(db, n, id, c) && NewSteers(db, n, id) && Lookup(db, id).None? && forall h :: h in db.holds ==>
          !Stops(db, h, c))
  {
    hide Core, Keeps, Execute, ActsIn, Submit, StorageGuard, Stops, Authorized, Lookup, Accepts, NewSteers;
    SubmitCases(db, id, c, a, b, space, op);
    var n := Submit(db, id, c, a, b, space, op).0;
    var d0 := StorageGuard(db, c, space);
    KeepsSelf(db, x, Registrar);
    if n != db && Execute(d0, id, c, a, b).Ok? && n == Execute(d0, id, c, a, b).value.0 {
      GuardKeeps(db, c, space, x);
      GuardSame(db, c, space, x);
      ExecuteStep(d0, id, c, a, b, x);
      Weaken(db, d0, x, Nobody);
      Chain(db, d0, n, x, Registrar);
      GuardAccepts(db, c, space, n, id);
    } else if n != db {
      Aside(db, db, n, x, Registrar);
    }
  }

  lemma GuardAccepts(db: Ledger, c: Command, space: bool, n: Ledger, id: Id)
    requires Accepts(StorageGuard(db, c, space), n, id, c) && NewSteers(StorageGuard(db, c, space), n, id)
    ensures Accepts(db, n, id, c) && NewSteers(db, n, id)
  {
    hide IsAdmission;
    if IsAdmission(c) || space {
    } else {
      var d := db.(node := db.node.(readiness := IsBlocked, reasons := db.node.reasons + {StorageUnavailable}));
      assert StorageGuard(db, c, space) == d;
    }
  }

  lemma GuardSame(db: Ledger, c: Command, space: bool, x: Id)
    requires ActsIn(db, c, x)
    ensures ActsIn(StorageGuard(db, c, space), c, x)
  {
  }
}
