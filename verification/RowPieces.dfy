/** The building blocks that write control actions, effect rows and messages. */
module RowPieces {
  import opened LedgerTypes
  import opened Transactions
  import opened LedgerInvariant
  import opened Pieces

  // ---------------------------------------------------------------- actions

  /** A reference that belongs to a stored attempt, and for a steer to a stored
      message whose request no attempt owns. */
  ghost predicate Bound(action: Action, db: Ledger) {
    BoundRows(action, db.attempts, db.messages) && BoundAnswer(action, db.approvals, db.inputs)
  }

  ghost predicate BoundAnswer(action: Action, approvals: map<Id, Approval>, inputs: map<Id, Input>) {
    && (action.kind == AnswerApproval ==>
         action.target in approvals && approvals[action.target].attempt == action.ref.attempt)
    && (action.kind == AnswerInput ==> action.target in inputs && inputs[action.target].attempt == action.ref.attempt)
  }

  ghost predicate BoundRows(action: Action, attempts: map<Id, Attempt>, messages: map<Id, Message>) {
    var ref := action.ref;
    && ref.attempt in attempts && ref.dialog == attempts[ref.attempt].dialog
    && ref.generation == attempts[ref.attempt].generation
    && (action.kind != SteerMessage ==> ref.request == attempts[ref.attempt].request)
    && (action.kind == SteerMessage ==>
          && attempts[ref.attempt].started && Live(attempts[ref.attempt].phase)
          && action.message in messages && messages[action.message].dialog == ref.dialog
          && messages[action.message].request == ref.request && !HasAttempt(attempts, ref.request))
  }

  lemma InsertTables(db: Ledger, id: Id, action: Action, ex: Exempt)
    requires Core(db) && id !in db.actions && action.status == Pending && action.kind != DispatchStart
    requires Bound(action, db)
    ensures ActionRows(db.actions[id := action], db.attempts, db.messages)
    ensures StartRows(db.attempts, db.actions[id := action])
    ensures AnswerRows(db.actions[id := action], db.approvals, db.inputs)
    ensures SteerInv(db.actions[id := action], db.attempts)
    ensures HoldInv(db.attempts, db.actions[id := action], db.holds, db.holdEnds)
    ensures SameActions(db.actions, db.actions[id := action], action.ref.dialog)
    ensures GrowActions(db.actions, db.actions[id := action], if action.kind == SteerMessage then Registrar else ex)
  {
    hide LogInv, SlotInv, RequestRows, OrderInv, AttemptRows, EffectRows, MessageRows, KeyInv, PhaseRows, InputRows,
         RevisionInv, CountInv, HeldBy, HasAttempt;
  }

  lemma InsertKeeps(db: Ledger, id: Id, action: Action, x: Id, ex: Exempt)
    requires Core(db) && action.status == Pending && action.kind != DispatchStart && action.ref.dialog == x
    requires Bound(action, db) && (action.kind == SteerMessage ==> ex == Registrar)
    ensures InsertAction(db, id, action).Ok? ==> Keeps(db, InsertAction(db, id, action).value, x, ex)
  {
    hide LogInv, SlotInv, RequestRows, OrderInv, AttemptRows, ActionRows, EffectRows, MessageRows, KeyInv,
         AnswerRows, StartRows, PhaseRows, InputRows, RevisionInv, CountInv, SteerInv, HoldInv, SameRequests,
         SameAttempts, SameMessages, SameActions, SameApprovals, SameInputs, SameTools, SameEvents, QueueMoves,
         GrowActions, KeepStarted, KeepSteered, NoNewDebt;
    if id !in db.actions {
      InsertTables(db, id, action.(row := db.nextRow), ex);
      SameTables(db, x);
      SameCalm(db, ex);
    }
  }

  lemma ActionTables(db: Ledger, id: Id, action: Action)
    requires Core(db) && id in db.actions && action == db.actions[id].(status := action.status)
    requires db.actions[id].status in {Pending, Inflight}
    ensures ActionRows(db.actions[id := action], db.attempts, db.messages)
    ensures StartRows(db.attempts, db.actions[id := action])
    ensures AnswerRows(db.actions[id := action], db.approvals, db.inputs)
    ensures SteerInv(db.actions[id := action], db.attempts)
    ensures HoldInv(db.attempts, db.actions[id := action], db.holds, db.holdEnds)
    ensures SameActions(db.actions, db.actions[id := action], action.ref.dialog)
  {
    hide LogInv, SlotInv, RequestRows, OrderInv, AttemptRows, EffectRows, MessageRows, KeyInv, PhaseRows, InputRows,
         RevisionInv, CountInv, HeldBy, HasAttempt;
  }

  /** Claiming, requeueing and finishing an action. */
  lemma SetActionKeeps(db: Ledger, id: Id, from: ActionStatus, to: ActionStatus, x: Id)
    requires Core(db) && from in {Pending, Inflight} && (id in db.actions ==> db.actions[id].ref.dialog == x)
    ensures Core(SetAction(db, id, from, to)) && Moves(db, SetAction(db, id, from, to), x)
  {
    hide LogInv, SlotInv, RequestRows, OrderInv, AttemptRows, ActionRows, EffectRows, MessageRows, KeyInv,
         AnswerRows, StartRows, PhaseRows, InputRows, RevisionInv, CountInv, SteerInv, HoldInv, SameRequests,
         SameAttempts, SameMessages, SameActions, SameApprovals, SameInputs, SameTools, SameEvents, QueueMoves;
    SameTables(db, x);
    if id in db.actions && db.actions[id].status == from {
      ActionTables(db, id, db.actions[id].(status := to));
    }
  }

  // ------------------------------------------------------------ effect rows

  lemma EffectTables(db: Ledger, x: Id)
    requires EffectRows(db.approvals, db.inputs, db.tools, db.attempts)
    requires AnswerRows(db.actions, db.approvals, db.inputs)
    ensures forall t, row: ToolCall :: Belongs(db.attempts, row.attempt, x)
                                       && (t in db.tools ==> db.tools[t].attempt == row.attempt) ==>
      EffectRows(db.approvals, db.inputs, db.tools[t := row], db.attempts)
          && SameTools(db.tools, db.tools[t := row], db.attempts, x)
    ensures forall p, row: Approval :: Belongs(db.attempts, row.attempt, x)
                                       && (p in db.approvals ==> db.approvals[p].attempt == row.attempt) ==>
      EffectRows(db.approvals[p := row], db.inputs, db.tools, db.attempts)
          && AnswerRows(db.actions, db.approvals[p := row], db.inputs)
          && SameApprovals(db.approvals, db.approvals[p := row], db.attempts, x)
    ensures forall i, row: Input :: Belongs(db.attempts, row.attempt, x)
                                    && (i in db.inputs ==> db.inputs[i].attempt == row.attempt) ==>
      EffectRows(db.approvals, db.inputs[i := row], db.tools, db.attempts)
          && AnswerRows(db.actions, db.approvals, db.inputs[i := row])
          && SameInputs(db.inputs, db.inputs[i := row], db.attempts, x)
  {
  }

  lemma PutToolKeeps(db: Ledger, t: Id, row: ToolCall, x: Id, ex: Exempt)
    requires Core(db) && Belongs(db.attempts, row.attempt, x) && (t in db.tools ==> db.tools[t].attempt == row.attempt)
    ensures Keeps(db, PutTool(db, t, row), x, ex)
  {
    hide LogInv, SlotInv, RequestRows, OrderInv, AttemptRows, ActionRows, EffectRows, MessageRows, KeyInv,
         AnswerRows, StartRows, PhaseRows, InputRows, RevisionInv, CountInv, SteerInv, HoldInv, Belongs,
         SameRequests, SameAttempts, SameMessages, SameActions, SameApprovals, SameInputs, SameTools, SameEvents,
         QueueMoves, GrowActions, KeepStarted, KeepSteered, NoNewDebt;
    SameTables(db, x);
    SameCalm(db, ex);
    EffectTables(db, x);
  }

  lemma PutApprovalKeeps(db: Ledger, p: Id, row: Approval, x: Id, ex: Exempt)
    requires Core(db) && Belongs(db.attempts, row.attempt, x)
    requires (p in db.approvals ==> db.approvals[p].attempt == row.attempt)
    ensures Keeps(db, PutApproval(db, p, row), x, ex)
  {
    hide LogInv, SlotInv, RequestRows, OrderInv, AttemptRows, ActionRows, EffectRows, MessageRows, KeyInv,
         AnswerRows, StartRows, PhaseRows, InputRows, RevisionInv, CountInv, SteerInv, HoldInv, Belongs,
         SameRequests, SameAttempts, SameMessages, SameActions, SameApprovals, SameInputs, SameTools, SameEvents,
         QueueMoves, GrowActions, KeepStarted, KeepSteered, NoNewDebt;
    SameTables(db, x);
    SameCalm(db, ex);
    EffectTables(db, x);
  }

  lemma PutInputKeeps(db: Ledger, i: Id, row: Input, x: Id, ex: Exempt)
    requires Core(db) && Belongs(db.attempts, row.attempt, x)
    requires (i in db.inputs ==> db.inputs[i].attempt == row.attempt)
    ensures Keeps(db, PutInput(db, i, row), x, ex)
  {
    hide LogInv, SlotInv, RequestRows, OrderInv, AttemptRows, ActionRows, EffectRows, MessageRows, KeyInv,
         AnswerRows, StartRows, PhaseRows, InputRows, RevisionInv, CountInv, SteerInv, HoldInv, Belongs,
         SameRequests, SameAttempts, SameMessages, SameActions, SameApprovals, SameInputs, SameTools, SameEvents,
         QueueMoves, GrowActions, KeepStarted, KeepSteered, NoNewDebt;
    SameTables(db, x);
    SameCalm(db, ex);
    EffectTables(db, x);
  }

  // --------------------------------------------------------------- messages

  /** The tables that read messages, after one message row is written. */
  lemma MessageTables(db: Ledger, m: Id, row: Message)
    requires Core(db) && row.dialog in db.dialogs
    requires m in db.messages ==> row.dialog == db.messages[m].dialog && row.request == db.messages[m].request
    requires row.disposition in {Waits, SteerPending} ==>
        row.request in db.requests && db.requests[row.request].input == m
    requires row.disposition == Waits ==> row.request in db.requests && db.requests[row.request].status == Queued
    ensures RequestRows(db.requests, db.messages[m := row], db.dialogs)
    ensures ActionRows(db.actions, db.attempts, db.messages[m := row])
    ensures MessageRows(db.messages[m := row], db.dialogs)
    ensures InputRows(db.messages[m := row], db.requests, db.attempts)
    ensures SameMessages(db.messages, db.messages[m := row], row.dialog)
  {
    hide LogInv, SlotInv, AttemptRows, EffectRows, StartRows, PhaseRows, RevisionInv, CountInv, SteerInv, HoldInv,
         HasAttempt;
  }

  /** Outside the debt, a change of disposition does not enter the count. */
  lemma MessageCounts(db: Ledger, m: Id, row: Message, ex: Exempt)
    requires CountInv(db.node.pending, db.requests, db.messages, db.attempts)
    requires m in db.messages && db.messages[m].disposition == SteerPending ==>
               db.messages[m].request in db.requests && db.requests[db.messages[m].request].status == Queued
    requires row.disposition == SteerPending ==> row.request in db.requests && db.requests[row.request].status == Queued
    ensures CountInv(db.node.pending, db.requests, db.messages[m := row], db.attempts)
    ensures NoNewDebt(db.messages, db.requests, db.attempts, db.messages[m := row], db.requests, db.attempts, ex)
  {
    hide HasAttempt, QueuedIds;
    assert Debt(db.messages[m := row], db.requests, db.attempts) == Debt(db.messages, db.requests, db.attempts);
  }

  /** A new message outside the queue, a waiting one put under steering, or one
      that falls back from steering to waiting. */
  lemma PutMessageKeeps(db: Ledger, m: Id, row: Message, x: Id, ex: Exempt)
    requires Core(db) && row.dialog == x && x in db.dialogs
    requires m in db.messages ==> row.dialog == db.messages[m].dialog && row.request == db.messages[m].request
    requires m in db.messages ==>
      || (db.messages[m].disposition == Waits && row.disposition == SteerPending && ex in {Steerer, Registrar})
      || (&& db.messages[m].disposition == SteerPending && row.disposition == Waits && (ex.Steered? && ex.m == m)
          && row.request in db.requests && db.requests[row.request].status == Queued)
    requires m !in db.messages ==> row.disposition !in {Waits, SteerPending}
    ensures Keeps(db, PutMessage(db, m, row), x, ex)
  {
    hide LogInv, SlotInv, RequestRows, OrderInv, AttemptRows, ActionRows, EffectRows, MessageRows, KeyInv,
         AnswerRows, StartRows, PhaseRows, RevisionInv, CountInv, SteerInv, HoldInv, HasAttempt, SameRequests,
         SameAttempts, SameMessages, SameActions, SameApprovals, SameInputs, SameTools, SameEvents, QueueMoves,
         GrowActions, KeepStarted, NoNewDebt;
    SameTables(db, x);
    SameCalm(db, ex);
    MessageTables(db, m, row);
    MessageCounts(db, m, row, ex);
  }

  lemma AddMessageKeeps(db: Ledger, m: Id, row: Message, x: Id, ex: Exempt)
    requires Core(db) && row.dialog == x && x in db.dialogs && m !in db.messages
    requires row.disposition !in {Waits, SteerPending}
    ensures Keeps(db, AddMessage(db, m, row), x, ex)
  {
    hide Core, Moves, Calm;
    PutMessageKeeps(db, m, row, x, ex);
    var put := PutMessage(db, m, row);
    AsideKeeps(put, AddMessage(db, m, row), x, ex);
    Chain(db, put, AddMessage(db, m, row), x, ex);
  }
}
