/** The supervisor's transactions, each as a function from the committed ledger
    to the next one. `Err` is a rollback. Identifiers the program draws at random
    are arguments; inserting one that exists violates its primary key. */
module Transactions {
  import opened LedgerTypes
  import opened LedgerTail
  import Budget = OutputBudget

  // ------------------------------------------------------------ primitives

  function Append(db: Ledger, e: Event): Ledger {
    db.(events := db.events[db.node.lastSeq + 1 := e], node := db.node.(lastSeq := db.node.lastSeq + 1))
  }

  function Announce(db: Ledger): Ledger {
    Append(db, Event(StateChanged, None, None, None, None, false))
  }

  function AttemptEvent(kind: EventKind, ref: AttemptRef, key: Option<Key>, digest: Option<Digest>, late: bool): Event {
    Event(kind, Some(ref.attempt), Some(ref.dialog), key, digest, late)
  }

  function Bump(revisions: map<Scope, int>, scope: Scope): map<Scope, int> {
    if scope in revisions then revisions[scope := revisions[scope] + 1] else revisions
  }

  /** Every write of a request row fires the trigger that moves the queue
      revision of the node and of the row's dialog. */
  function PutRequest(db: Ledger, r: Id, row: Request): Ledger {
    db.(requests := db.requests[r := row],
        queueRevisions := Bump(Bump(db.queueRevisions, NodeScope), DialogScope(row.dialog)))
  }

  function SetStatus(db: Ledger, r: Id, status: RequestStatus): Ledger {
    if r in db.requests
    then PutRequest(db, r, db.requests[r].(status := status, version := db.requests[r].version + 1))
    else db
  }

  /** The trigger on the pause flag moves every queue revision. */
  function SetPaused(db: Ledger, paused: bool): Ledger {
    if db.node.paused == paused then db
    else db.(node := db.node.(paused := paused),
             queueRevisions := map s | s in db.queueRevisions :: db.queueRevisions[s] + 1)
  }

  function InsertAction(db: Ledger, id: Id, action: Action): Result<Ledger> {
    if id in db.actions then Err(Unavailable)
    else Ok(db.(actions := db.actions[id := action.(row := db.nextRow)], nextRow := db.nextRow + 1))
  }

  predicate OtherLive(db: Ledger, a: Id) {
    exists b :: b in db.attempts && b != a && Live(db.attempts[b].phase)
  }

  function Tick(db: Ledger, queue: bool): Ledger {
    db.(node := db.node.(stateVersion := db.node.stateVersion + 1,
                         queueVersion := db.node.queueVersion + (if queue then 1 else 0)))
  }

  function PutAttempt(db: Ledger, a: Id, row: Attempt): Ledger {
    db.(attempts := db.attempts[a := row])
  }

  function PutMessage(db: Ledger, m: Id, row: Message): Ledger {
    db.(messages := db.messages[m := row])
  }

  /** A new message that carries no request of its own. */
  function AddMessage(db: Ledger, m: Id, row: Message): Ledger {
    PutMessage(db, m, row).(node := db.node.(nextMessage := db.node.nextMessage + 1))
  }

  function Moved(row: Attempt, phase: Phase): Attempt {
    row.(version := row.version + 1, phase := phase)
  }

  /** Writes an attempt row together with the slot. */
  function Place(db: Ledger, a: Id, row: Attempt, active: Option<Id>, occupancy: Occupancy): Ledger {
    db.(attempts := db.attempts[a := row], node := db.node.(active := active, occupancy := occupancy))
  }

  /** The attempt becomes unknown and owns the slot; the request named by the
      reference is lost. */
  function Seize(db: Ledger, ref: AttemptRef, effect: Effect): Ledger
    requires ref.attempt in db.attempts
  {
    var row := Moved(db.attempts[ref.attempt], Unknown).(effect := effect);
    SetStatus(Place(db, ref.attempt, row, Some(ref.attempt), Confused), ref.request, Lost)
  }

  /** Marks an attempt unknown. The partial unique index over live attempts aborts
      the transaction when another attempt is live. */
  function SetUnknown(db: Ledger, ref: AttemptRef, effect: Effect): Result<Ledger> {
    if ref.attempt !in db.attempts || db.attempts[ref.attempt].generation != ref.generation then Err(NotFound)
    else if db.attempts[ref.attempt].phase == Unknown then Ok(db)
    else if OtherLive(db, ref.attempt) then Err(Unavailable)
    else
      var d1 := Seize(db, ref, effect);
      var node := d1.node.(readiness := IsUnknown, reasons := d1.node.reasons + {ExecutionUnknown});
      var d2 := Tick(d1.(node := node), false);
      Ok(Announce(Append(d2, AttemptEvent(OtherEvent, ref, None, None, false))))
  }

  function MarkUnknown(db: Ledger, ref: AttemptRef, effect: Effect): Result<Ledger> {
    if db.node.active != Some(ref.attempt) then Err(Stale) else SetUnknown(db, ref, effect)
  }

  /** The row changes common to both ways of ending an attempt. */
  function EndAttempt(db: Ledger, ref: AttemptRef, outcome: Ending, effect: Effect): Ledger
    requires ref.attempt in db.attempts
  {
    var row := Moved(db.attempts[ref.attempt], Ended(outcome)).(effect := effect);
    SetStatus(Place(db, ref.attempt, row, None, Idle), ref.request, Done(outcome))
  }

  // -------------------------------------------------------------- commands

  datatype Change = Change(db: Ledger, receiptDialog: Option<Id>, reference: Id, action: Option<Action>)

  function NewAction(kind: ActionKind, ref: AttemptRef, message: Id, target: Id, targetVersion: int): Action {
    Action(kind, ref, message, target, targetVersion, Pending, 0, None)
  }

  function CreateDialog(db: Ledger, d: Id): Ledger {
    db.(dialogs := db.dialogs[d := Dialog(1)], queueRevisions := db.queueRevisions[DialogScope(d) := 1])
  }

  function ApplyDialogCreate(db: Ledger, c: Command, d: Id): Result<Change>
    requires c.DialogCreate?
  {
    if c.registry != db.node.registry then Err(Stale)
    else if d in db.dialogs then Err(Unavailable)
    else Ok(Change(Announce(Tick(CreateDialog(db, d), false)), Some(d), d, None))
  }

  /** A message, its queued request and the next version of the dialog. */
  function Enqueue(db: Ledger, d: Id, m: Id, r: Id, text: Id): Ledger
    requires d in db.dialogs
  {
    var d1 := PutRequest(db, r, Request(d, m, db.node.nextQueue, 1, Queued));
    d1.(messages := db.messages[m := Message(d, db.node.nextMessage, 1, true, Waits, r, None, text)],
        dialogs := db.dialogs[d := Dialog(db.dialogs[d].version + 1)],
        node := db.node.(nextMessage := db.node.nextMessage + 1, nextQueue := db.node.nextQueue + 1,
                         pending := db.node.pending + 1))
  }

  function ApplyMessageEnqueue(db: Ledger, c: Command, m: Id, r: Id): Result<Change>
    requires c.MessageEnqueue?
  {
    if c.dialog !in db.dialogs then Err(Unavailable)
    else if c.dialogVersion != db.dialogs[c.dialog].version then Err(Stale)
    else if db.node.pending >= QUEUE_CAPACITY then Err(QueueFull)
    else if m in db.messages || r in db.requests then Err(Unavailable)
    else
      var e := Event(MessageAccepted(c.dialog), None, None, None, None, false);
      var d1 := Append(Tick(Enqueue(db, c.dialog, m, r, c.text), true), e);
      Ok(Change(Announce(Announce(d1)), Some(c.dialog), r, None))
  }

  function Withdraw(db: Ledger, r: Id): Ledger
    requires r in db.requests && db.requests[r].input in db.messages
  {
    var m := db.requests[r].input;
    SetStatus(db, r, Cancelled).(
      messages := db.messages[m := db.messages[m].(version := db.messages[m].version + 1, disposition := Withdrawn)],
      node := db.node.(pending := db.node.pending - 1))
  }

  function ApplyRequestCancel(db: Ledger, c: Command): Result<Change>
    requires c.RequestCancel?
  {
    if c.request !in db.requests then Err(Unavailable)
    else
      var row := db.requests[c.request];
      if row.version != c.requestVersion || row.status != Queued || row.input !in db.messages then Err(Stale)
      else
        var e := Event(DispositionChanged(row.input), None, None, None, None, false);
        var d1 := Append(Tick(Withdraw(db, c.request), true), e);
        Ok(Change(Announce(Announce(d1)), None, c.request, None))
  }

  function ApplyQueueResume(db: Ledger, c: Command): Result<Change>
    requires c.QueueResume?
  {
    if c.queueVersion != db.node.queueVersion then Err(Stale)
    else
      var d1 := SetPaused(db, false);
      var d2 := Tick(d1.(node := d1.node.(reasons := d1.node.reasons - {OperatorPause})), true);
      Ok(Change(Announce(Announce(d2)), None, 0, None))
  }

  function ApplyAttemptStop(db: Ledger, c: Command): Result<Change>
    requires c.AttemptStop?
  {
    if c.attempt !in db.attempts then Err(Unavailable)
    else
      var row := db.attempts[c.attempt];
      if c.generation != row.generation || db.node.active != Some(c.attempt) then Err(Stale)
      else if !Live(row.phase) || row.phase == Unknown then Err(Stale)
      else
        var ref := RefOf(db, c.attempt);
        var d1 := SetPaused(PutAttempt(db, c.attempt, Moved(row, Stopping)), true);
        var d2 := Tick(d1.(node := d1.node.(reasons := d1.node.reasons + {OperatorPause})), true);
        var d3 := Append(d2, AttemptEvent(OtherEvent, ref, None, None, false));
        Ok(Change(Announce(Announce(d3)), None, c.attempt, Some(NewAction(StopAttempt, ref, 0, 0, 0))))
  }

  /** `a` belongs to the newest request and has the newest generation among the
      attempts made for the input message `m`. */
  predicate Newest(db: Ledger, m: Id, a: Id) {
    && a in db.attempts && db.attempts[a].request in db.requests
    && db.requests[db.attempts[a].request].input == m
    && (forall r :: r in db.requests && db.requests[r].input == m ==>
          db.requests[r].queueSequence <= db.requests[db.attempts[a].request].queueSequence)
    && (forall b :: b in db.attempts && db.attempts[b].request in db.requests
                    && db.requests[db.attempts[b].request].input == m ==>
          db.attempts[b].generation <= db.attempts[a].generation)
  }

  predicate CleanFailure(db: Ledger, a: Id) {
    && a in db.attempts && db.attempts[a].request in db.requests
    && db.attempts[a].phase in {Ended(Failed), Ended(Interrupted)} && db.attempts[a].effect == NoEffect
    && db.requests[db.attempts[a].request].status in {Done(Failed), Done(Interrupted)}
  }

  /** Every later original input of the dialog ended in an effect-free failure. */
  predicate RetryEligible(db: Ledger, a: Id, d: Id, m: Id) {
    && Newest(db, m, a) && m in db.messages
    && forall n :: n in db.messages && db.messages[n].dialog == d && db.messages[n].user
                   && db.messages[n].sequence > db.messages[m].sequence
                   && (exists r :: r in db.requests && db.requests[r].input == n) ==>
         exists b :: b in db.attempts && Newest(db, n, b) && CleanFailure(db, b)
  }

  function EnqueueAgain(db: Ledger, d: Id, m: Id, r: Id): Ledger {
    var d1 := PutRequest(db, r, Request(d, m, db.node.nextQueue, 1, Queued));
    d1.(node := db.node.(nextQueue := db.node.nextQueue + 1, pending := db.node.pending + 1))
  }

  /** A request for the message is queued, in progress or lost. */
  predicate HasOpenRequest(db: Ledger, m: Id) {
    exists q ::
      q in db.requests && db.requests[q].input == m && db.requests[q].status in {Queued, InDispatch, Active, Lost}
  }

  function ApplyAttemptRetry(db: Ledger, c: Command, r: Id): Result<Change>
    requires c.AttemptRetry?
  {
    if c.attempt !in db.attempts || db.attempts[c.attempt].request !in db.requests then Err(Unavailable)
    else
      var row := db.attempts[c.attempt];
      var m := db.requests[row.request].input;
      if c.generation != row.generation then Err(Stale)
      else if row.phase !in {Ended(Failed), Ended(Interrupted)} then Err(Stale)
      else if row.effect == UnknownEffect || (row.effect == KnownEffect && !c.acknowledge) then Err(Stale)
      else if !RetryEligible(db, c.attempt, row.dialog, m) then Err(Stale)
      else if db.node.pending >= QUEUE_CAPACITY then Err(QueueFull)
      else if HasOpenRequest(db, m) then Err(Stale)
      else if r in db.requests then Err(Unavailable)
      else Ok(Change(Announce(Announce(Tick(EnqueueAgain(db, row.dialog, m, r), true))), None, r, None))
  }

  function ApplyMessageSteer(db: Ledger, c: Command): Result<Change>
    requires c.MessageSteer?
  {
    if c.attempt !in db.attempts || c.message !in db.messages
        || db.messages[c.message].dialog != c.dialog then Err(Unavailable)
    else
      var row := db.attempts[c.attempt];
      var message := db.messages[c.message];
      if row.generation != c.generation || message.version != c.messageVersion || row.dialog != c.dialog
         || db.node.active != Some(c.attempt) then Err(Stale)
      else if message.disposition != Waits || row.phase !in {Running, Waiting} then Err(Stale)
      else
        var steered := message.(version := message.version + 1, disposition := SteerPending);
        var d1 := Tick(PutMessage(db, c.message, steered), true);
        var d2 := Append(d1, Event(DispositionChanged(c.message), None, None, None, None, false));
        // The payload carries the request of the steered message.
        var ref := AttemptRef(c.dialog, message.request, c.attempt, row.generation);
        Ok(Change(Announce(d2), Some(c.dialog), c.attempt, Some(NewAction(SteerMessage, ref, c.message, 0, 0))))
  }

  function ApplyApproval(db: Ledger, c: Command): Result<Change>
    requires c.ApprovalRespond?
  {
    if c.approval !in db.approvals || db.approvals[c.approval].attempt != c.attempt
        || c.attempt !in db.attempts then Err(Unavailable)
    else
      var row := db.approvals[c.approval];
      if row.version != c.approvalVersion || db.attempts[c.attempt].generation != c.generation || row.status != Open
         || row.actionHash != c.actionHash then Err(Stale)
      else
        var d1 := PutApproval(db, c.approval, row.(version := row.version + 1, status := Responding));
        var action := NewAction(AnswerApproval, RefOf(db, c.attempt), 0, c.approval, row.version + 1);
        Ok(Change(d1, None, c.approval, Some(action)))
  }

  function ApplyInput(db: Ledger, c: Command, m: Id): Result<Change>
    requires c.InputRespond?
  {
    if c.input !in db.inputs || db.inputs[c.input].attempt != c.attempt
        || c.attempt !in db.attempts then Err(Unavailable)
    else
      var row := db.inputs[c.input];
      if row.version != c.inputVersion || db.attempts[c.attempt].generation != c.generation
          || row.status != Open then Err(Stale)
      else if m in db.messages then Err(Unavailable)
      else
        var ref := RefOf(db, c.attempt);
        var answer := Message(ref.dialog, db.node.nextMessage, 1, true, Applied, ref.request, Some(c.attempt), c.text);
        var d1 := AddMessage(db, m, answer);
        var d2 := PutInput(d1, c.input, row.(version := row.version + 1, status := Responding));
        Ok(Change(d2, None, m, Some(NewAction(AnswerInput, ref, m, c.input, row.version + 1))))
  }

  function Apply(db: Ledger, c: Command, x: Id, y: Id): Result<Change> {
    match c
    case DialogCreate(_) => ApplyDialogCreate(db, c, x)
    case MessageEnqueue(_, _, _) => ApplyMessageEnqueue(db, c, x, y)
    case RequestCancel(_, _) => ApplyRequestCancel(db, c)
    case QueueResume(_) => ApplyQueueResume(db, c)
    case AttemptStop(_, _) => ApplyAttemptStop(db, c)
    case AttemptRetry(_, _, _) => ApplyAttemptRetry(db, c, x)
    case MessageSteer(_, _, _, _, _) => ApplyMessageSteer(db, c)
    case ApprovalRespond(_, _, _, _, _, _) => ApplyApproval(db, c)
    case InputRespond(_, _, _, _, _) => ApplyInput(db, c, x)
    case DialogDelete(_, _) => Err(Forbidden)
  }

  /** The dialog a command addresses, through whatever row its target names. */
  function TargetDialog(db: Ledger, c: Command): Option<Id> {
    match c
    case DialogCreate(_) => None
    case QueueResume(_) => None
    case MessageEnqueue(d, _, _) => Some(d)
    case DialogDelete(d, _) => Some(d)
    case MessageSteer(d, _, _, _, _) => Some(d)
    case RequestCancel(r, _) => if r in db.requests then Some(db.requests[r].dialog) else None
    case AttemptStop(a, _) => if a in db.attempts then Some(db.attempts[a].dialog) else None
    case AttemptRetry(a, _, _) => if a in db.attempts then Some(db.attempts[a].dialog) else None
    case ApprovalRespond(p, a, _, _, _, _) => if a in db.attempts then Some(db.attempts[a].dialog) else None
    case InputRespond(i, a, _, _, _) => if a in db.attempts then Some(db.attempts[a].dialog) else None
  }

  predicate IsNodeCommand(c: Command) {
    c.DialogCreate? || c.QueueResume?
  }

  /** The target exists and its dialog has no tombstone. */
  predicate Authorized(db: Ledger, c: Command) {
    || IsNodeCommand(c)
    || (&& TargetDialog(db, c).Some? && TargetDialog(db, c).value in db.dialogs
        && TargetDialog(db, c).value !in db.tombstones
        && (c.ApprovalRespond? ==> c.approval in db.approvals && db.approvals[c.approval].attempt == c.attempt)
        && (c.InputRespond? ==> c.input in db.inputs && db.inputs[c.input].attempt == c.attempt))
  }

  /** Whether hold `op` stops the command: a node hold stops admission and resume,
      a dialog hold also stops enqueue and retry in its dialog. */
  predicate Stops(db: Ledger, op: Id, c: Command) {
    && HoldActive(db, op)
    && match c {
         case DialogCreate(_) => db.holds[op].request.scope.NodeScope?
         case QueueResume(_) => db.holds[op].request.scope.NodeScope?
         case MessageEnqueue(d, _, _) => Covers(db.holds[op].request.scope, d)
         case AttemptRetry(a, _, _) => a in db.attempts && Covers(db.holds[op].request.scope, db.attempts[a].dialog)
         case _ => false
       }
  }

  predicate IsAdmission(c: Command) {
    c.DialogCreate? || c.MessageEnqueue? || c.AttemptRetry?
  }

  function Lookup(db: Ledger, id: Id): Option<(Outcome, bool)> {
    if id in db.commands then Some((db.commands[id], true))
    else if id in db.rejections then Some((db.rejections[id], false))
    else None
  }

  /** The dialog a stored outcome belongs to. */
  function OutcomeDialog(db: Ledger, o: Outcome, accepted: bool): Option<Id> {
    if accepted && o.receipt.dialog.Some? then o.receipt.dialog else TargetDialog(db, o.command)
  }

  /** The stored outcome belongs to a dialog that has been deleted since. */
  predicate OutcomeDeleted(db: Ledger, o: Outcome, accepted: bool) {
    OutcomeDialog(db, o, accepted).Some? && OutcomeDialog(db, o, accepted).value in db.tombstones
  }

  function StorageGuard(db: Ledger, c: Command, space: bool): Ledger {
    if IsAdmission(c) || space then db
    else db.(node := db.node.(readiness := IsBlocked, reasons := db.node.reasons + {StorageUnavailable}))
  }

  /** The handler, its control action and the accepted command row. */
  function Execute(db: Ledger, id: Id, c: Command, x: Id, y: Id): Result<(Ledger, Receipt)> {
    match Apply(db, c, x, y)
    case Err(why) => Err(why)
    case Ok(change) =>
      match (if change.action.Some? then InsertAction(change.db, id, change.action.value) else Ok(change.db))
      case Err(why) => Err(why)
      case Ok(d) =>
        var receipt := Receipt(change.receiptDialog, change.reference, d.node.lastSeq);
        Ok((d.(commands := d.commands[id := Outcome(c, receipt)]), receipt))
  }

  /** SubmitCommand: `x` and `y` are the identifiers it may draw, `space` is the
      storage probe, `op` the covering hold the lookup returns when there is one. */
  function Submit(db: Ledger, id: Id, c: Command, x: Id, y: Id, space: bool, op: Id): (Ledger, Reply) {
    if c.DialogDelete? then (db, Failure(Forbidden))
    else if Lookup(db, id).Some? then
      var (o, accepted) := Lookup(db, id).value;
      if o.command != c then (db, Failure(IdConflict))
      else if OutcomeDeleted(db, o, accepted) then (db, Failure(NotFound))
      else (db, Replayed(o.receipt, accepted))
    else if !Authorized(db, c) then (db, Failure(NotFound))
    else if exists h :: h in db.holds && Stops(db, h, c) then
      if Stops(db, op, c) then
        var receipt := Receipt(None, op, 0);
        (db.(rejections := db.rejections[id := Outcome(c, receipt)]), Refused(receipt))
      else (db, Failure(Unavailable))
    else if IsAdmission(c) && !space then (db, Failure(Unavailable))
    else
      match Execute(StorageGuard(db, c, space), id, c, x, y)
      case Err(why) => (db, Failure(why))
      case Ok((d, receipt)) => (d, Admitted(receipt))
  }

  // -------------------------------------------------------------- dispatch

  /** What a dispatch works from: the candidate seen before the locks were taken,
      the prepared policy and the rows its failed-tail query returns. */
  datatype Candidate = Candidate(request: Id, dialog: Id, message: Id, queueSequence: int, stateVersion: int,
                                 policy: Id, tail: seq<Id>)

  predicate Dispatchable(db: Ledger, r: Id) {
    r in db.requests && db.requests[r].status == Queued && !Held(db, db.requests[r].dialog)
  }

  predicate FirstInLine(db: Ledger, r: Id) {
    && Dispatchable(db, r)
    && forall q :: q in db.requests && Dispatchable(db, q) ==>
         db.requests[r].queueSequence <= db.requests[q].queueSequence
  }

  predicate NextGeneration(db: Ledger, m: Id, g: int) {
    && g >= 1
    && (forall b :: b in db.attempts && db.attempts[b].request in db.requests
                    && db.requests[db.attempts[b].request].input == m ==>
          db.attempts[b].generation < g)
    && (g == 1 || exists b :: b in db.attempts && db.attempts[b].request in db.requests
                              && db.requests[db.attempts[b].request].input == m && db.attempts[b].generation == g - 1)
  }

  /** The attempt, its start action, and the request and message it consumes. */
  function Begin(db: Ledger, r: Id, a: Id, generation: int, policy: Id, proof: Option<TailProof>): Ledger
    requires r in db.requests && db.requests[r].input in db.messages
  {
    var row := db.requests[r];
    var message := db.messages[row.input];
    var attempt := Attempt(row.dialog, r, generation, 1, Dispatching, NoEffect, false, 0, policy, 0, None);
    var action := NewAction(DispatchStart, AttemptRef(row.dialog, r, a, generation), 0, 0, 0);
    var served := message.(version := message.version + 1, disposition := Applied, attempt := Some(a));
    SetStatus(db, r, InDispatch).(
        attempts := db.attempts[a := attempt],
        actions := db.actions[a := action.(row := db.nextRow, proof := proof)],
        nextRow := db.nextRow + 1,
        messages := if message.disposition == Waits then db.messages[row.input := served] else db.messages,
        node := db.node.(pending := db.node.pending - 1, active := Some(a), occupancy := Busy))
  }

  function NoteDispatch(db: Ledger, ref: AttemptRef, m: Id, waited: bool): Ledger {
    var d2 := Tick(db.(node := db.node.(readiness := IsReady, reasons := db.node.reasons - {PolicyUnavailable})), true);
    var d3 := if waited then Append(d2, Event(DispositionChanged(m), None, None, None, None, false)) else d2;
    Announce(Announce(Append(d3, AttemptEvent(OtherEvent, ref, None, None, false))))
  }

  /** DispatchNext under both locks: the candidate seen earlier must still be the
      first dispatchable request of an unchanged, unpaused, idle node. */
  function DispatchNext(db: Ledger, c: Candidate, a: Id, generation: int): Result<Ledger> {
    if db.node.stateVersion != c.stateVersion || db.node.paused || db.node.active.Some?
        || db.node.pending == 0 then Err(Stale)
    else if !FirstInLine(db, c.request) then Err(Stale)
    else
      var row := db.requests[c.request];
      if row.dialog != c.dialog || row.input != c.message || row.queueSequence != c.queueSequence
          || row.input !in db.messages then Err(Stale)
      else if !NextGeneration(db, row.input, generation) then Err(Stale)
      else if !TailQuery(db, row.dialog, row.input, c.tail) then Err(Stale)
      else if a in db.attempts || OtherLive(db, a) || a in db.actions then Err(Unavailable)
      else
        var ref := AttemptRef(row.dialog, c.request, a, generation);
        var begun := Begin(db, c.request, a, generation, c.policy, TailOf(db, row.dialog, row.input, c.tail));
        Ok(NoteDispatch(begun, ref, row.input, db.messages[row.input].disposition == Waits))
  }

  function BlockPolicy(db: Ledger): Ledger {
    if db.node.readiness == IsBlocked && PolicyUnavailable in db.node.reasons then db
    else
      var node := db.node.(readiness := IsBlocked, reasons := db.node.reasons + {PolicyUnavailable});
      Announce(Tick(db.(node := node), false))
  }

  // --------------------------------------------------------------- actions

  datatype Lane = StopLane | DispatchLane | ControlLane

  function LaneOf(k: ActionKind): Lane {
    match k
    case StopAttempt => StopLane
    case DispatchStart => DispatchLane
    case _ => ControlLane
  }

  predicate Claimable(db: Ledger, id: Id, lane: Lane) {
    && id in db.actions && db.actions[id].status == Pending && LaneOf(db.actions[id].kind) == lane
    && (lane == DispatchLane ==>
          && db.actions[id].ref.attempt in db.attempts
          && !Held(db, db.attempts[db.actions[id].ref.attempt].dialog))
  }

  /** claimAction takes the oldest claimable row of its lane. */
  predicate ClaimedNext(db: Ledger, id: Id) {
    && id in db.actions && Claimable(db, id, LaneOf(db.actions[id].kind))
    && forall j :: j in db.actions && Claimable(db, j, LaneOf(db.actions[id].kind)) ==>
         db.actions[id].row <= db.actions[j].row
  }

  function SetAction(db: Ledger, id: Id, from: ActionStatus, to: ActionStatus): Ledger {
    if id in db.actions && db.actions[id].status == from
    then db.(actions := db.actions[id := db.actions[id].(status := to)])
    else db
  }

  predicate KeyTaken(db: Ledger, a: Id, key: Key) {
    exists n :: n in db.events && db.events[n].attempt == Some(a) && db.events[n].key == Some(key)
  }

  predicate Recorded(db: Ledger, a: Id, key: Key, digest: Digest) {
    exists n :: n in db.events && db.events[n].attempt == Some(a) && db.events[n].key == Some(key)
        && db.events[n].digest == Some(digest)
  }

  function MarkStarted(db: Ledger, ref: AttemptRef): Result<Ledger> {
    if db.node.active != Some(ref.attempt) || ref.attempt !in db.attempts then Err(Stale)
    else
      var row := db.attempts[ref.attempt];
      if row.phase != Dispatching then Err(Stale)
      else if KeyTaken(db, ref.attempt, Key(false, KStarted)) then Err(Unavailable)
      else
        var d1 := SetStatus(PutAttempt(db, ref.attempt, Moved(row, Running).(started := true)), ref.request, Active);
        var e := AttemptEvent(OtherEvent, ref, Some(Key(false, KStarted)), Some(Whole(Started)), false);
        Ok(Announce(Append(Tick(d1, false), e)))
  }

  /** What a provider call came back with; `Nonsense` is an outcome outside the
      adapter contract. */
  datatype Verdict = Good | Fallback | Declines | Doubt | Nonsense

  function SteerEnd(v: Verdict): Disposition {
    match v
    case Good => Applied
    case Doubt => Uncertain
    case _ => Waits
  }

  /** The message and, when the steer is no longer queued work, its request. */
  function EndSteer(db: Ledger, m: Id, v: Verdict): Ledger
    requires m in db.messages
  {
    var message := db.messages[m];
    var d1 := if v == Good then SetStatus(db, message.request, Done(Completed))
              else if v == Doubt then SetStatus(db, message.request, Lost) else db;
    d1.(messages := db.messages[m := message.(version := message.version + 1, disposition := SteerEnd(v))],
        node := db.node.(pending := db.node.pending - (if v == Good || v == Doubt then 1 else 0)))
  }

  function FinishSteer(db: Ledger, ref: AttemptRef, m: Id, v: Verdict): Result<Ledger> {
    if m !in db.messages || db.messages[m].disposition != SteerPending then Err(Stale)
    else
      var d1 := Append(Tick(EndSteer(db, m, v), true), Event(DispositionChanged(m), None, None, None, None, false));
      match (if v == Doubt then SetUnknown(d1, ref, UnknownEffect) else Ok(d1))
      case Err(why) => Err(why)
      case Ok(d2) => Ok(Announce(d2))
  }

  function AnsweredStatus(v: Verdict): ReplyStatus {
    if v == Good then Resolved else if v == Doubt then Doubtful else Open
  }

  /** Writes the answer's status if the row still has the version answered. */
  function Answer(db: Ledger, action: Action, status: ReplyStatus): Ledger {
    if action.kind == AnswerApproval then
      if action.target in db.approvals && db.approvals[action.target].version == action.targetVersion
      then PutApproval(db, action.target, db.approvals[action.target].(status := status)) else db
    else
      if action.target in db.inputs && db.inputs[action.target].version == action.targetVersion
      then PutInput(db, action.target, db.inputs[action.target].(status := status)) else db
  }

  function FinishResponse(db: Ledger, action: Action, v: Verdict): Result<Ledger> {
    var d1 := Answer(db, action, AnsweredStatus(v));
    var d2 := if v == Good then Append(d1, AttemptEvent(OtherEvent, action.ref, None, None, false)) else d1;
    if v == Doubt then SetUnknown(d2, action.ref, UnknownEffect) else Ok(d2)
  }

  /** Observe with a confirmed failed terminal, the path of a refused start. */
  function ObserveRefused(db: Ledger, ref: AttemptRef): Result<Ledger> {
    if ref.attempt !in db.attempts || db.attempts[ref.attempt].dialog in db.tombstones then Err(NotFound)
    else
      var actual := RefOf(db, ref.attempt);
      if actual.generation != ref.generation || db.node.active != Some(ref.attempt) then
        var d1 := Append(db, AttemptEvent(OtherEvent, actual, None, None, true));
        Ok(d1.(late := d1.late + [LateRow(ref.attempt, Late, None, None, 0)]))
      else
        var d1 := EndAttempt(db, actual, Failed, NoEffect);
        var readiness := if d1.node.readiness == IsUnknown then IsBlocked else d1.node.readiness;
        var d2 := Tick(d1.(node := d1.node.(readiness := readiness)), false);
        Ok(Announce(Append(d2, AttemptEvent(OtherEvent, actual, None, None, false))))
  }

  // ---------------------------------------------------------------- events

  function BytesOf(e: AdapterEvent): int {
    match e
    case Delta(_, _, c) => c.bytes
    case Speaks(_, c) => c.bytes
    case ToolStarted(_, _, c) => c.bytes
    case ToolOutput(_, _, c) => c.bytes
    case ToolCompleted(_, _, _, c) => c.bytes
    case ApprovalRequested(_, _, _, c) => c.bytes
    case InputRequested(_, c) => c.bytes
    case Terminal(_, _, failure, output, _) =>
      (if output.Some? then output.value.bytes else 0) + (if failure.Some? then failure.value.bytes else 0)
    case _ => 0
  }

  function BaseOf(e: AdapterEvent, version: int): BaseKey {
    match e
    case Started => KStarted
    case WaitsFor(_) => KWaiting(version)
    case Delta(m, i, _) => KDelta(m, i)
    case Speaks(m, _) => KMessage(m)
    case ToolStarted(c, _, _) => KToolStarted(c)
    case ToolOutput(c, i, _) => KToolOutput(c, i)
    case ToolCompleted(c, _, _, _) => KToolCompleted(c)
    case ApprovalRequested(p, _, _, _) => KApproval(p)
    case InputRequested(i, _) => KInput(i)
    case Terminal(_, _, _, _, _) => KTerminal
    case LostTrack(_) => KUnknown
  }

  function KindOf(e: AdapterEvent): EventKind {
    if e.ToolCompleted? then ToolDone(e.effect) else OtherEvent
  }

  predicate Interactive(e: AdapterEvent) {
    e.WaitsFor? || e.ApprovalRequested? || e.InputRequested?
  }

  function ArchivedBytes(late: seq<LateRow>, a: Id): int {
    if |late| == 0 then 0 else
      var last := late[|late| - 1];
      ArchivedBytes(late[..|late| - 1], a) + (if last.attempt == a && last.key.Some? then last.outputBytes else 0)
  }

  predicate ToolKnown(db: Ledger, a: Id, call: Id) {
    call in db.tools && db.tools[call].attempt == a
  }

  /** The row checks that precede any projection of the event. */
  predicate WellBound(db: Ledger, a: Id, e: AdapterEvent) {
    match e
    case ToolOutput(c, _, _) => ToolKnown(db, a, c)
    case ToolCompleted(c, _, _, _) => ToolKnown(db, a, c)
    case ApprovalRequested(_, c, h, _) => ToolKnown(db, a, c) && db.tools[c].actionHash == h
    case _ => true
  }

  function ScheduleStop(db: Ledger, ref: AttemptRef, stop: Id): Result<Ledger> {
    if db.node.active != Some(ref.attempt) || ref.attempt !in db.attempts then Ok(db)
    else
      var row := db.attempts[ref.attempt];
      if row.generation != ref.generation || row.phase !in {Running, Waiting} then Ok(db)
      else
        var d1 := Tick(PutAttempt(db, ref.attempt, Moved(row, Stopping)), false);
        var d2 := Append(d1, AttemptEvent(OtherEvent, ref, None, None, false));
        InsertAction(d2, stop, NewAction(StopAttempt, RefOf(db, ref.attempt), 0, 0, 0))
  }

  // archivedProjectionExists

  predicate DigestRecorded(db: Ledger, a: Id, digest: Digest) {
    exists n :: n in db.events && db.events[n].attempt == Some(a) && db.events[n].key.Some?
        && db.events[n].digest == Some(digest)
  }

  predicate LateTaken(late: seq<LateRow>, a: Id, key: Key) {
    exists i :: 0 <= i < |late| && late[i].attempt == a && late[i].key == Some(key)
  }

  predicate LateRecorded(late: seq<LateRow>, a: Id, key: Key, digest: Digest) {
    exists i :: 0 <= i < |late| && late[i].attempt == a && late[i].key == Some(key) && late[i].digest == Some(digest)
  }

  /** Another event holds the live key; terminals, waits and lost tracks share none. */
  predicate LiveConflict(db: Ledger, a: Id, e: AdapterEvent, base: BaseKey) {
    !e.Terminal? && !e.WaitsFor? && !e.LostTrack? && KeyTaken(db, a, Key(false, base))
  }

  /** The payload a live terminal would be stored with, given what has been said. */
  function TerminalDigest(said: Option<Said>, e: AdapterEvent): Digest
    requires e.Terminal? && e.how.Terminates?
  {
    match e.how.outcome
    case Completed => CompletedWith(if said.Some? then Some(said.value.message) else None, e.usage)
    case Failed => FailedWith(e.failure, e.terminalEffect)
    case Interrupted => InterruptedWith(e.terminalEffect)
  }

  /** The output a terminal came with is that of the newest assistant message. */
  predicate SaysOutput(said: Option<Said>, e: AdapterEvent)
    requires e.Terminal?
  {
    e.how == Terminates(Completed) && e.output.Some? ==> said.Some? && said.value.text == e.output.value.value
  }

  /** activeTerminalProjectionDigest: the terminal is on record as the live one. */
  predicate LiveTerminal(db: Ledger, a: Id, e: AdapterEvent) {
    && e.Terminal? && e.how.Terminates? && a in db.attempts && SaysOutput(db.attempts[a].said, e)
    && Recorded(db, a, Key(false, KTerminal), TerminalDigest(db.attempts[a].said, e))
  }

  predicate ArchiveDuplicate(db: Ledger, a: Id, e: AdapterEvent, base: BaseKey) {
    || DigestRecorded(db, a, Whole(e))
    || LiveTerminal(db, a, e)
    || (!LiveConflict(db, a, e, base) && !KeyTaken(db, a, Key(true, base))
        && LateRecorded(db.late, a, Key(true, base), Whole(e)))
  }

  predicate ArchiveConflict(db: Ledger, a: Id, e: AdapterEvent, base: BaseKey) {
    || LiveConflict(db, a, e, base)
    || KeyTaken(db, a, Key(true, base))
    || LateTaken(db.late, a, Key(true, base))
  }

  /** prepareLateProjection knows no unknown terminal and no failure without one. */
  predicate Archivable(e: AdapterEvent) {
    e.Terminal? ==> e.how.Terminates? && (e.how.outcome == Failed ==> e.failure.Some?)
  }

  /** archiveAdapterEvent: the event reaches only the log and the late ledger,
      unless it first exceeds the budget of an attempt that still holds the slot. */
  function Archive(db: Ledger, ref: AttemptRef, e: AdapterEvent, valid: bool, kind: LateKind, stop: Id): Result<Ledger>
    requires ref.attempt in db.attempts
  {
    var row := db.attempts[ref.attempt];
    var base := BaseOf(e, row.version);
    if !valid || !WellBound(db, ref.attempt, e) || !Archivable(e) then Err(Unavailable)
    else if ArchiveDuplicate(db, ref.attempt, e, base) then Ok(db)
    else if ArchiveConflict(db, ref.attempt, e, base) then Err(IdConflict)
    else
      var archived := ArchivedBytes(db.late, ref.attempt);
      var charge := Budget.ChargeKind(row.outputBytes, archived, BytesOf(e));
      if charge.Invalid? then Err(Unavailable)
      else if charge.Exceeded? then Ok(db)
      else
        var key := Key(true, base);
        var logged := AttemptEvent(KindOf(e), ref, Some(key), Some(Whole(e)), true);
        var d1 := if kind == Late then Append(db, logged) else db;
        var bytes := Budget.LateBytes(row.outputBytes, archived, BytesOf(e));
        var d2 := d1.(late := d1.late + [LateRow(ref.attempt, kind, Some(key), Some(Whole(e)), bytes)]);
        if charge.NewlyExceeded? then ScheduleStop(d2, ref, stop) else Ok(d2)
  }

  /** Appends the projected event under its key; one_event_projection makes the
      key unique per attempt. */
  function Project(db: Ledger, ref: AttemptRef, kind: EventKind, key: Key, digest: Digest): Ledger {
    Append(Tick(db, false), AttemptEvent(kind, ref, Some(key), Some(digest), false))
  }

  function EnterWaiting(db: Ledger, ref: AttemptRef): Ledger
    requires ref.attempt in db.attempts
  {
    var d := PutAttempt(db, ref.attempt, Moved(db.attempts[ref.attempt], Waiting));
    Append(Tick(d, false), AttemptEvent(OtherEvent, ref, None, None, false))
  }

  function AssistantMessage(db: Ledger, ref: AttemptRef, text: Id): Message {
    Message(ref.dialog, db.node.nextMessage, 1, false, NoDisposition, 0, Some(ref.attempt), text)
  }

  /** A new assistant message, which is from now on the newest of its attempt. */
  function Speak(db: Ledger, ref: AttemptRef, m: Id, text: Id): Ledger
    requires ref.attempt in db.attempts
  {
    var row := db.attempts[ref.attempt].(said := Some(Said(m, text)));
    AddMessage(PutAttempt(db, ref.attempt, row), m, AssistantMessage(db, ref, text))
  }

  function PutTool(db: Ledger, c: Id, row: ToolCall): Ledger {
    db.(tools := db.tools[c := row])
  }

  function PutApproval(db: Ledger, p: Id, row: Approval): Ledger {
    db.(approvals := db.approvals[p := row])
  }

  function PutInput(db: Ledger, i: Id, row: Input): Ledger {
    db.(inputs := db.inputs[i := row])
  }

  /** A request for approval opens a row and suspends the attempt; past the budget
      it leaves only the limit marker. */
  function OpenApproval(db: Ledger, ref: AttemptRef, p: Id, row: Approval, exceeded: bool, marker: Id): Result<Ledger>
    requires ref.attempt in db.attempts
  {
    if exceeded then
      if marker in db.messages then Err(Unavailable)
      else Ok(Speak(db, ref, marker, LIMIT_TEXT))
    else if p in db.approvals || db.attempts[ref.attempt].phase !in {Running, Waiting} then Err(Unavailable)
    else Ok(EnterWaiting(PutApproval(db, p, row), ref))
  }

  function OpenInput(db: Ledger, ref: AttemptRef, i: Id, exceeded: bool): Result<Ledger>
    requires ref.attempt in db.attempts
  {
    if i in db.inputs then Err(Unavailable)
    else if exceeded then Ok(PutInput(db, i, Input(ref.attempt, 1, Open)))
    else if db.attempts[ref.attempt].phase !in {Running, Waiting} then Err(Unavailable)
    else Ok(EnterWaiting(PutInput(db, i, Input(ref.attempt, 1, Open)), ref))
  }

  /** The rows an accepted content event writes besides the log. */
  function WriteRows(db: Ledger, ref: AttemptRef, e: AdapterEvent, exceeded: bool, marker: Id): Result<Ledger>
    requires ref.attempt in db.attempts
  {
    match e
    case Speaks(m, c) =>
      if m in db.messages then Err(Unavailable)
      else Ok(Speak(db, ref, m, if exceeded then LIMIT_TEXT else c.value))
    case ToolStarted(c, h, _) =>
      if c in db.tools then Err(Unavailable)
      else Ok(PutTool(db, c, ToolCall(ref.attempt, h, 1, ToolRunning)))
    case ToolCompleted(c, status, _, _) =>
      if c !in db.tools then Err(Unavailable)
      else Ok(PutTool(db, c, db.tools[c].(version := db.tools[c].version + 1, status := status)))
    case ApprovalRequested(p, c, h, _) =>
      OpenApproval(db, ref, p, Approval(ref.attempt, c, h, 1, Open), exceeded, marker)
    case InputRequested(i, _) => OpenInput(db, ref, i, exceeded)
    case _ => Ok(db)
  }

  function ProjectContent(db: Ledger, ref: AttemptRef, e: AdapterEvent, valid: bool, marker: Id,
                          stop: Id): Result<Ledger>
    requires ref.attempt in db.attempts
  {
    var row := db.attempts[ref.attempt];
    var key := Key(false, BaseOf(e, row.version));
    if !valid || !WellBound(db, ref.attempt, e) then Err(Unavailable)
    else if Recorded(db, ref.attempt, key, Whole(e)) then Ok(db)
    else if KeyTaken(db, ref.attempt, key) then Err(IdConflict)
    else
      var archived := ArchivedBytes(db.late, ref.attempt);
      var charge := Budget.ChargeKind(row.outputBytes, archived, BytesOf(e));
      if charge.Invalid? then Err(Unavailable)
      else if charge.Exceeded? then Ok(db)
      else
        var used := Budget.LiveBytes(row.outputBytes, archived, BytesOf(e));
        var charged := PutAttempt(db, ref.attempt, row.(outputBytes := used));
        match WriteRows(charged, ref, e, charge.NewlyExceeded?, marker)
        case Err(why) => Err(why)
        case Ok(written) =>
          var projected := Project(written, ref, KindOf(e), key, Whole(e));
          if charge.NewlyExceeded? then ScheduleStop(projected, ref, stop) else Ok(projected)
  }

  predicate AnswersUnresolved(db: Ledger, a: Id) {
    exists c :: c in db.actions && db.actions[c].ref.attempt == a
                && db.actions[c].kind in {SteerMessage, AnswerApproval, AnswerInput} && Unresolved(db.actions[c].status)
  }

  /** The attempt's output budget is spent. */
  predicate OverBudget(db: Ledger, a: Id)
    requires a in db.attempts
  {
    Budget.Over(db.attempts[a].outputBytes, ArchivedBytes(db.late, a))
  }

  /** What the ledger demands of a terminal it ends an attempt by: a failure names
      what failed, and the output of a completion is the newest assistant message,
      unless the budget has cut that off. */
  predicate Acceptable(db: Ledger, a: Id, e: AdapterEvent)
    requires a in db.attempts && e.Terminal? && e.how.Terminates?
  {
    var said := db.attempts[a].said;
    match e.how.outcome
    case Completed =>
      || SaysOutput(said, e)
      || ((said.None? || said.value.text == LIMIT_TEXT) && OverBudget(db, a))
    case Failed => e.failure.Some?
    case Interrupted => true
  }

  function ReasonsAfter(reasons: set<Reason>, e: AdapterEvent): set<Reason>
    requires e.Terminal?
  {
    var kept := reasons - {ExecutionUnknown};
    if e.how == Terminates(Failed) && e.failure.Some? && e.failure.value.reason.Some?
    then kept + {e.failure.value.reason.value} else kept
  }

  /** prepareTerminalProjection and the rest of its transaction. */
  function ProjectTerminal(db: Ledger, ref: AttemptRef, e: AdapterEvent, valid: bool, stop: Id): Result<Ledger>
    requires ref.attempt in db.attempts && e.Terminal?
  {
    if AnswersUnresolved(db, ref.attempt) || e.terminalEffect == UnknownEffect then
      match SetUnknown(db, ref, UnknownEffect) {
        case Err(why) => Err(why)
        case Ok(d1) =>
          if ref.attempt in d1.attempts then Archive(d1, ref, e, valid, TerminalUnresolved, stop) else Err(Unavailable)
      }
    else if !valid then Err(Unavailable)
    else
      match e.how
      case TerminatesUnknown => SetUnknown(db, ref, e.terminalEffect)
      case Terminates(outcome) =>
        var key, digest := Key(false, KTerminal), TerminalDigest(db.attempts[ref.attempt].said, e);
        if !Acceptable(db, ref.attempt, e) then Err(Unavailable)
        else if Recorded(db, ref.attempt, key, digest) then Ok(db)
        else if KeyTaken(db, ref.attempt, key) then Err(IdConflict)
        else Ok(Announce(Project(Conclude(db, ref, e), ref, OtherEvent, key, digest)))
  }

  /** The attempt ends, and the node is ready again unless something else blocks it. */
  function Conclude(db: Ledger, ref: AttemptRef, e: AdapterEvent): Ledger
    requires ref.attempt in db.attempts && e.Terminal? && e.how.Terminates?
  {
    var d := EndAttempt(db, ref, e.how.outcome, e.terminalEffect);
    var reasons := ReasonsAfter(d.node.reasons, e);
    d.(node := d.node.(reasons := reasons, readiness := if reasons == {} then IsReady else IsBlocked))
  }

  /** projectAdapterEvent for the attempt that holds the slot. */
  function ProjectEvent(db: Ledger, ref: AttemptRef, e: AdapterEvent, valid: bool, marker: Id, stop: Id): Result<Ledger>
    requires ref.attempt in db.attempts
  {
    var row := db.attempts[ref.attempt];
    match e
    case Started =>
      if Recorded(db, ref.attempt, Key(false, KStarted), Whole(e)) then Ok(db)
      else if KeyTaken(db, ref.attempt, Key(false, KStarted)) then Err(IdConflict)
      else Ok(Project(db, ref, OtherEvent, Key(false, KStarted), Whole(e)))
    case WaitsFor(_) =>
      if !valid then Err(Unavailable)
      else if row.phase == Waiting then Ok(db)
      else if row.phase != Running then Err(Stale)
      else if KeyTaken(db, ref.attempt, Key(false, KWaiting(row.version + 1))) then Err(IdConflict)
      else
        var d1 := PutAttempt(db, ref.attempt, Moved(row, Waiting));
        Ok(Project(d1, ref, OtherEvent, Key(false, KWaiting(row.version + 1)), Whole(e)))
    case Terminal(_, _, _, _, _) => ProjectTerminal(db, ref, e, valid, stop)
    case LostTrack(effect) => SetUnknown(db, ref, effect)
    case _ => ProjectContent(db, ref, e, valid, marker, stop)
  }

  /** ObserveAdapterEvent. `valid` says that the event passes wire validation and
      that the artifacts it names are bound to the attempt. */
  function Observe(db: Ledger, ref: AttemptRef, e: AdapterEvent, valid: bool, marker: Id, stop: Id): Result<Ledger> {
    if ref.attempt !in db.attempts || db.attempts[ref.attempt].dialog in db.tombstones
        || RefOf(db, ref.attempt) != ref then Err(NotFound)
    else
      var phase := db.attempts[ref.attempt].phase;
      if phase in {Stopping, Unknown} && Interactive(e) then Archive(db, ref, e, valid, Suppressed, stop)
      else if db.node.active != Some(ref.attempt) || !Live(phase) then Archive(db, ref, e, valid, Late, stop)
      else ProjectEvent(db, ref, e, valid, marker, stop)
  }

  /** ReconcileUnknown with a terminal answer: guarded by every open effect. */
  predicate EffectsUnresolved(db: Ledger, a: Id) {
    || AnswersUnresolved(db, a)
    || (exists c :: c in db.tools && db.tools[c].attempt == a && db.tools[c].status == ToolRunning)
    || (exists p :: p in db.approvals && db.approvals[p].attempt == a && db.approvals[p].status != Resolved)
    || (exists i :: i in db.inputs && db.inputs[i].attempt == a && db.inputs[i].status != Resolved)
    || (exists n :: n in db.events && db.events[n].attempt == Some(a) && DoubtfulTool(db.events[n]))
  }

  /** ensureReconciledAssistantMessage: a completion's output is projected first as a
      message of its own, under a fresh id, unless it is the newest one already. */
  function EnsureSaid(db: Ledger, ref: AttemptRef, e: AdapterEvent, newId: Id, valid: bool, marker: Id,
                      stop: Id): Result<Ledger>
    requires ref.attempt in db.attempts && e.Terminal?
  {
    if SaysOutput(db.attempts[ref.attempt].said, e) then Ok(db)
    else ProjectContent(db, ref, Speaks(newId, e.output.value), valid, marker, stop)
  }

  function Reconcile(db: Ledger, ref: AttemptRef, newId: Id, e: AdapterEvent, valid: bool, marker: Id,
                     stop: Id): Result<Ledger> {
    if db.node.active != Some(ref.attempt) || ref.attempt !in db.attempts || RefOf(db, ref.attempt) != ref
       || db.attempts[ref.attempt].phase != Unknown then Err(Stale)
    else if !e.Terminal? || e.how.TerminatesUnknown? || e.terminalEffect == UnknownEffect then Err(Unavailable)
    else if EffectsUnresolved(db, ref.attempt) then Err(Stale)
    else
      match EnsureSaid(db, ref, e, newId, valid, marker, stop)
      case Err(why) => Err(why)
      case Ok(d1) => if ref.attempt in d1.attempts then ProjectTerminal(d1, ref, e, valid, stop) else Err(Unavailable)
  }

  /** The message and the event that mark the output limit. */
  function MarkLimit(db: Ledger, ref: AttemptRef, marker: Id, late: bool): Ledger
    requires ref.attempt in db.attempts
  {
    Append(Tick(Speak(db, ref, marker, LIMIT_TEXT), false),
        AttemptEvent(OtherEvent, ref, Some(Key(false, KLimit)), None, late))
  }

  /** StoreArtifact's charge and its event, or the limit marker and the stop. */
  function PublishArtifact(db: Ledger, ref: AttemptRef, bytes: int, marker: Id, stop: Id): Result<Ledger> {
    if ref.attempt !in db.attempts || db.attempts[ref.attempt].dialog in db.tombstones
       || RefOf(db, ref.attempt) != ref then Err(NotFound)
    else ChargeArtifact(db, ref, bytes, marker, stop)
  }

  function ChargeArtifact(db: Ledger, ref: AttemptRef, bytes: int, marker: Id, stop: Id): Result<Ledger>
    requires ref.attempt in db.attempts
  {
    var row := db.attempts[ref.attempt];
    var archived := ArchivedBytes(db.late, ref.attempt);
    var charge := Budget.ChargeKind(row.outputBytes, archived, bytes);
    var next := row.(outputBytes := Budget.LiveBytes(row.outputBytes, archived, bytes));
    if charge.Invalid? then Err(Unavailable)
    else if charge.Exceeded? then Ok(db)
    else if charge.Fits? then
      var charged := PutAttempt(db, ref.attempt, next.(artifacts := row.artifacts + 1));
      Ok(Append(charged, AttemptEvent(OtherEvent, ref, None, None, false)))
    else if marker in db.messages || KeyTaken(db, ref.attempt, Key(false, KLimit)) then Err(Unavailable)
    else
      var charged := PutAttempt(db, ref.attempt, next);
      ScheduleStop(MarkLimit(charged, ref, marker, db.node.active != Some(ref.attempt)), ref, stop)
  }

  // ----------------------------------------------------------------- holds

  function Revision(db: Ledger, scope: Scope): int {
    if scope in db.scopeRevisions then db.scopeRevisions[scope] else 0
  }

  /** A dispatch inside the scope has been decided but not yet started. */
  predicate PreStart(db: Ledger, scope: Scope) {
    exists a ::
      && a in db.attempts && db.attempts[a].phase == Dispatching && !db.attempts[a].started
      && Covers(scope, db.attempts[a].dialog)
      && exists c :: c in db.actions && db.actions[c].ref.attempt == a && db.actions[c].kind == DispatchStart
                     && db.actions[c].status in {Pending, Inflight}
  }

  predicate ScopeTaken(db: Ledger, scope: Scope) {
    exists op :: op in db.holds && op !in db.holdEnds
                 && (db.holds[op].request.scope.NodeScope? || scope.NodeScope? || db.holds[op].request.scope == scope)
  }

  function AddHold(db: Ledger, op: Id, request: InstallRequest): Ledger {
    db.(holds := db.holds[op := Hold(request, db.holdClock, request.scopeRevision + 1)], holdClock := db.holdClock + 1,
        scopeRevisions := db.scopeRevisions[request.scope := request.scopeRevision + 1])
  }

  function InstallHold(db: Ledger, op: Id, request: InstallRequest): Result<Ledger> {
    if op in db.holds then (if db.holds[op].request == request then Ok(db) else Err(IdConflict))
    else if request.epoch != db.node.epoch || request.registry != db.node.registry then Err(Stale)
    else if request.scope.DialogScope?
        && (request.scope.dialog !in db.dialogs || request.scope.dialog in db.tombstones) then Err(NotFound)
    else if PreStart(db, request.scope) then Err(Stale)
    else if ScopeTaken(db, request.scope) then Err(Stale)
    else if request.scopeRevision != Revision(db, request.scope) then Err(Stale)
    else Ok(AddHold(db, op, request))
  }

  function ReleaseHold(db: Ledger, op: Id, request: ReleaseRequest): Result<Ledger> {
    if op in db.holdEnds then (if db.holdEnds[op] == Released(request) then Ok(db) else Err(IdConflict))
    else if op !in db.holds then Err(NotFound)
    else
      var hold := db.holds[op];
      if request.epoch != db.node.epoch || request.epoch != hold.request.epoch
         || request.registry != db.node.registry || request.registry != hold.request.registry
         || request.scope != hold.request.scope || request.version != hold.version
         || request.scopeRevision != hold.scopeRevision
         || Revision(db, hold.request.scope) != hold.scopeRevision then Err(Stale)
      else Ok(db.(scopeRevisions := db.scopeRevisions[hold.request.scope := hold.scopeRevision + 1],
                  holdEnds := db.holdEnds[op := Released(request)]))
  }

  /** A live `tool.completed` projection whose effect is unknown. */
  predicate DoubtfulTool(e: Event) {
    e.key.Some? && !e.key.value.archive && e.key.value.base.KToolCompleted? && e.kind == ToolDone(UnknownEffect)
  }

  /** The rows of a dialog that QuiescenceProof and dialog.delete both demand to
      be settled. */
  predicate Settled(db: Ledger, d: Id) {
    && SettledRequests(db.requests, d)
    && SettledAttempts(db.attempts, d)
    && SettledActions(db.actions, db.attempts, d)
    && SettledTools(db.tools, db.attempts, d)
    && SettledApprovals(db.approvals, db.attempts, d)
    && SettledInputs(db.inputs, db.attempts, d)
    && SettledEvents(db.events, d)
  }

  predicate SettledRequests(requests: map<Id, Request>, d: Id) {
    forall r :: r in requests && requests[r].dialog == d ==> requests[r].status !in {InDispatch, Active, Lost}
  }

  predicate SettledAttempts(attempts: map<Id, Attempt>, d: Id) {
    forall a :: a in attempts && attempts[a].dialog == d ==>
        !Live(attempts[a].phase) && attempts[a].effect != UnknownEffect
  }

  predicate SettledActions(actions: map<Id, Action>, attempts: map<Id, Attempt>, d: Id) {
    forall c :: c in actions && Belongs(attempts, actions[c].ref.attempt, d) ==> !Unresolved(actions[c].status)
  }

  predicate SettledTools(tools: map<Id, ToolCall>, attempts: map<Id, Attempt>, d: Id) {
    forall t :: t in tools && Belongs(attempts, tools[t].attempt, d) ==> tools[t].status in {ToolSucceeded, ToolFailed}
  }

  predicate SettledApprovals(approvals: map<Id, Approval>, attempts: map<Id, Attempt>, d: Id) {
    forall p :: p in approvals && Belongs(attempts, approvals[p].attempt, d) ==> approvals[p].status == Resolved
  }

  predicate SettledInputs(inputs: map<Id, Input>, attempts: map<Id, Attempt>, d: Id) {
    forall i :: i in inputs && Belongs(attempts, inputs[i].attempt, d) ==> inputs[i].status == Resolved
  }

  predicate SettledEvents(events: map<int, Event>, d: Id) {
    forall n :: n in events && events[n].dialog == Some(d) ==> !DoubtfulTool(events[n])
  }

  predicate Belongs(attempts: map<Id, Attempt>, a: Id, d: Id) {
    a in attempts && attempts[a].dialog == d
  }

  predicate NoneQueued(requests: map<Id, Request>, d: Id) {
    forall r :: r in requests && requests[r].dialog == d ==> requests[r].status != Queued
  }

  /** The queued requests of the scope with their places in line: what the proof's
      digest is computed from. */
  function ParkedRequests(db: Ledger, scope: Scope): map<Id, int> {
    map r | r in db.requests && db.requests[r].status == Queued
        && Covers(scope, db.requests[r].dialog) :: db.requests[r].queueSequence
  }

  datatype Proof = Proof(op: Id, scope: Scope, version: int, queueRevision: int, parked: map<Id, int>)

  function QuiescenceProof(db: Ledger, op: Id): Result<Proof> {
    if !HoldActive(db, op) then Err(NotFound)
    else
      var hold := db.holds[op];
      var scope := hold.request.scope;
      if hold.request.epoch != db.node.epoch || hold.request.registry != db.node.registry then Err(Stale)
      else if Revision(db, scope) != hold.scopeRevision then Err(Stale)
      else if scope !in db.queueRevisions then Err(Unavailable)
      else if exists d :: d in db.dialogs && Covers(scope, d) && !Settled(db, d) then Err(Stale)
      else Ok(Proof(op, scope, hold.version, db.queueRevisions[scope], ParkedRequests(db, scope)))
  }

  function Bury(db: Ledger, d: Id): Ledger
    requires d in db.dialogs
  {
    db.(dialogs := db.dialogs[d := Dialog(db.dialogs[d].version + 1)], tombstones := db.tombstones + {d})
  }

  /** The command receipt, the end of the hold and the operation receipt. */
  function RecordDeletion(db: Ledger, op: Id, request: DeleteRequest, revision: int): Ledger {
    var d := request.dialog;
    var outcome := Outcome(DialogDelete(d, request.dialogVersion), Receipt(Some(d), d, db.node.lastSeq));
    db.(commands := db.commands[request.command := outcome],
        scopeRevisions := db.scopeRevisions[DialogScope(d) := revision],
        holdEnds := db.holdEnds[op := EndedByDelete(request)], deletions := db.deletions[op := request])
  }

  /** DeleteLogicalDialog: tombstone, command receipt, hold release and operation
      receipt in one commit. */
  function DeleteDialog(db: Ledger, op: Id, request: DeleteRequest): Result<Ledger> {
    if request.epoch != db.node.epoch || request.registry != db.node.registry then Err(Stale)
    else if op in db.deletions then (if db.deletions[op] == request then Ok(db) else Err(IdConflict))
    else if !HoldActive(db, op) then Err(Stale)
    else
      var hold := db.holds[op];
      var d := request.dialog;
      if hold.request.scope != DialogScope(d) || hold.version != request.version
         || hold.scopeRevision != request.scopeRevision
         || hold.request.epoch != request.epoch || hold.request.registry != request.registry
         || Revision(db, DialogScope(d)) != hold.scopeRevision then Err(Stale)
      else if Lookup(db, request.command).Some? then Err(IdConflict)
      else if d !in db.dialogs || d in db.tombstones then Err(NotFound)
      else if db.dialogs[d].version != request.dialogVersion then Err(Stale)
      else if !Settled(db, d) || !NoneQueued(db.requests, d) then Err(Stale)
      else
        var e := Event(DialogDeleted, None, Some(d), Some(Key(false, KDeleted)), None, false);
        var d1 := Append(Tick(Bury(db, d), false), e);
        Ok(RecordDeletion(d1, op, request, hold.scopeRevision + 1))
  }

  // -------------------------------------------------------------- recovery

  function Forget(actions: map<Id, Action>): map<Id, Action> {
    map c | c in actions ::
      if actions[c].status in {Pending, Inflight} then actions[c].(status := Unsettled) else actions[c]
  }

  /** recoverStartup; its two inconsistency errors are the `Err` results. */
  function Recover(db: Ledger): Result<Ledger> {
    var d1 := db.(actions := Forget(db.actions));
    if db.node.active.None? then Ok(d1)
    else
      var a := db.node.active.value;
      if a !in db.attempts then Err(NotFound)
      else if db.attempts[a].phase == Unknown then Ok(d1)
      else if !Live(db.attempts[a].phase) then Err(Unavailable)
      else SetUnknown(d1, RefOf(d1, a), UnknownEffect)
  }
}
