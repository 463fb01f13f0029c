/** The building blocks that move work into and out of the queue. */
module QueuePieces {
  import opened LedgerTypes
  import opened Transactions
  import opened LedgerInvariant
  import opened Pieces
  import opened AttemptPieces

  // ---------------------------------------------------------------- dialogs

  lemma CreateTables(db: Ledger, d: Id)
    requires Core(db) && d !in db.dialogs
    ensures RequestRows(db.requests, db.messages, db.dialogs[d := Dialog(1)])
    ensures MessageRows(db.messages, db.dialogs[d := Dialog(1)])
    ensures RevisionInv(db.queueRevisions[DialogScope(d) := 1], db.dialogs[d := Dialog(1)])
    ensures QueueMoves(db.requests, db.queueRevisions, db.requests, db.queueRevisions[DialogScope(d) := 1])
  {
    hide LogInv, SlotInv, AttemptRows, ActionRows, EffectRows, StartRows, PhaseRows, InputRows, CountInv, SteerInv,
         HoldInv;
    assert DialogScope(d) !in db.queueRevisions;
  }

  lemma CreateKeeps(db: Ledger, d: Id, x: Id)
    requires Core(db) && d !in db.dialogs
    ensures Keeps(db, CreateDialog(db, d), x, Founder)
  {
    hide LogInv, SlotInv, RequestRows, OrderInv, AttemptRows, ActionRows, EffectRows, MessageRows, KeyInv,
         AnswerRows, StartRows, PhaseRows, InputRows, RevisionInv, CountInv, SteerInv, HoldInv, SameRequests,
         SameAttempts, SameMessages, SameActions, SameApprovals, SameInputs, SameTools, SameEvents, QueueMoves,
         GrowActions, KeepStarted, KeepSteered, NoNewDebt;
    SameTables(db, x);
    SameCalm(db, Founder);
    CreateTables(db, d);
  }

  // ------------------------------------------------------- into the queue

  lemma QueueGrowsBy(requests: map<Id, Request>, r: Id, row: Request)
    requires row.status == Queued && (r in requests ==> requests[r].status != Queued)
    ensures |QueuedIds(requests[r := row])| == |QueuedIds(requests)| + 1
  {
    assert QueuedIds(requests[r := row]) == QueuedIds(requests) + {r};
  }

  lemma QueueShrinksBy(requests: map<Id, Request>, r: Id, row: Request)
    requires r in requests && row.status != Queued
    ensures |QueuedIds(requests[r := row])| == |QueuedIds(requests)| - (if requests[r].status == Queued then 1 else 0)
  {
    assert QueuedIds(requests[r := row]) == QueuedIds(requests) - {r};
  }

  lemma DebtIgnoresNew(messages: map<Id, Message>, requests: map<Id, Request>, attempts: map<Id, Attempt>, r: Id,
                       row: Request)
    requires InputRows(messages, requests, attempts) && r !in requests
    ensures Debt(messages, requests[r := row], attempts) == Debt(messages, requests, attempts)
  {
    hide HasAttempt;
    forall m | m in messages && messages[m].disposition == SteerPending
      ensures messages[m].request != r
    {
    }
  }

  lemma SteeredIgnoresNew(messages: map<Id, Message>, requests: map<Id, Request>, r: Id, row: Request, ex: Exempt)
    requires r !in requests
    ensures KeepSteered(messages, requests, messages, requests[r := row], ex)
  {
  }

  lemma OwnersIgnoreNew(attempts: map<Id, Attempt>, requests: map<Id, Request>, r: Id, row: Request)
    requires AttemptRows(attempts, requests) && r !in requests
    ensures AttemptRows(attempts, requests[r := row])
  {
  }

  lemma LastInLine(requests: map<Id, Request>, next: int, r: Id, row: Request)
    requires OrderInv(requests, next) && r !in requests && row.queueSequence == next
    ensures OrderInv(requests[r := row], next + 1)
  {
  }

  /** One more queued request, whose message is either new or already spent. */
  lemma QueueGrows(db: Ledger, r: Id, row: Request, ex: Exempt)
    requires Core(db) && r !in db.requests && row.status == Queued && row.queueSequence == db.node.nextQueue
    requires db.node.pending < QUEUE_CAPACITY
    ensures CountInv(db.node.pending + 1, db.requests[r := row], db.messages, db.attempts)
    ensures AttemptRows(db.attempts, db.requests[r := row])
    ensures OrderInv(db.requests[r := row], db.node.nextQueue + 1)
    ensures KeepSteered(db.messages, db.requests, db.messages, db.requests[r := row], ex)
    ensures NoNewDebt(db.messages, db.requests, db.attempts, db.messages, db.requests[r := row], db.attempts, ex)
  {
    hide LogInv, SlotInv, RequestRows, OrderInv, AttemptRows, ActionRows, EffectRows, MessageRows, KeyInv,
         AnswerRows, StartRows, PhaseRows, InputRows, RevisionInv, SteerInv, HoldInv, HasAttempt, QueuedIds, Debt,
         KeepSteered;
    QueueGrowsBy(db.requests, r, row);
    DebtIgnoresNew(db.messages, db.requests, db.attempts, r, row);
    SteeredIgnoresNew(db.messages, db.requests, r, row, ex);
    OwnersIgnoreNew(db.attempts, db.requests, r, row);
    LastInLine(db.requests, db.node.nextQueue, r, row);
  }

  lemma EnqueueAgainTables(db: Ledger, m: Id, r: Id, row: Request)
    requires Core(db) && r !in db.requests && row.status == Queued && row.input == m && m in db.messages
    requires db.messages[m].dialog == row.dialog && HasAttempt(db.attempts, db.messages[m].request)
    ensures RequestRows(db.requests[r := row], db.messages, db.dialogs)
    ensures InputRows(db.messages, db.requests[r := row], db.attempts)
  {
    hide LogInv, SlotInv, AttemptRows, ActionRows, EffectRows, StartRows, PhaseRows, CountInv, SteerInv, HoldInv,
         RevisionInv, HasAttempt;
  }

  lemma EnqueueAgainKeeps(db: Ledger, d: Id, m: Id, r: Id, ex: Exempt)
    requires Core(db) && r !in db.requests && m in db.messages && db.messages[m].dialog == d
    requires HasAttempt(db.attempts, db.messages[m].request) && db.node.pending < QUEUE_CAPACITY
    ensures Keeps(db, EnqueueAgain(db, d, m, r), d, ex)
  {
    hide LogInv, SlotInv, RequestRows, OrderInv, AttemptRows, ActionRows, EffectRows, MessageRows, KeyInv,
         AnswerRows, StartRows, PhaseRows, InputRows, RevisionInv, CountInv, SteerInv, HoldInv, Bump, HasAttempt,
         SameRequests, SameAttempts, SameMessages, SameActions, SameApprovals, SameInputs, SameTools, SameEvents,
         QueueMoves, GrowActions, KeepStarted, KeepSteered, NoNewDebt;
    var row := Request(d, m, db.node.nextQueue, 1, Queued);
    SameTables(db, d);
    SameCalm(db, ex);
    Bumped(db.requests, db.queueRevisions, db.dialogs, r, row);
    QueueGrows(db, r, row, ex);
    EnqueueAgainTables(db, m, r, row);
  }

  lemma EnqueueTables(db: Ledger, d: Id, m: Id, r: Id, row: Request, message: Message, dialogs: map<Id, Dialog>)
    requires Core(db) && r !in db.requests && m !in db.messages && dialogs.Keys == db.dialogs.Keys && d in dialogs
    requires row.status == Queued && row.input == m && row.dialog == d && message.dialog == d && message.request == r
    requires message.disposition == Waits
    ensures RequestRows(db.requests[r := row], db.messages[m := message], dialogs)
    ensures MessageRows(db.messages[m := message], dialogs)
    ensures InputRows(db.messages[m := message], db.requests[r := row], db.attempts)
    ensures ActionRows(db.actions, db.attempts, db.messages[m := message])
    ensures SameMessages(db.messages, db.messages[m := message], d)
    ensures RevisionInv(db.queueRevisions, dialogs)
  {
    hide LogInv, SlotInv, AttemptRows, EffectRows, StartRows, PhaseRows, CountInv, SteerInv, HoldInv, HasAttempt;
  }

  lemma EnqueueCounts(pending: int, requests: map<Id, Request>, messages: map<Id, Message>,
                      attempts: map<Id, Attempt>, m: Id, message: Message)
    requires CountInv(pending, requests, messages, attempts) && m !in messages && message.disposition == Waits
    ensures CountInv(pending, requests, messages[m := message], attempts)
    ensures Debt(messages[m := message], requests, attempts) == Debt(messages, requests, attempts)
  {
    hide HasAttempt, QueuedIds;
    assert Debt(messages[m := message], requests, attempts) == Debt(messages, requests, attempts);
  }

  lemma EnqueueSteered(messages: map<Id, Message>, requests: map<Id, Request>, next: map<Id, Request>, m: Id,
                       message: Message, ex: Exempt)
    requires m !in messages && message.disposition != SteerPending
    requires KeepSteered(messages, requests, messages, next, ex)
    ensures KeepSteered(messages, requests, messages[m := message], next, ex)
  {
  }

  lemma EnqueueKeeps(db: Ledger, d: Id, m: Id, r: Id, text: Id, ex: Exempt)
    requires Core(db) && d in db.dialogs && r !in db.requests && m !in db.messages && db.node.pending < QUEUE_CAPACITY
    ensures Keeps(db, Enqueue(db, d, m, r, text), d, ex)
  {
    hide LogInv, SlotInv, RequestRows, OrderInv, AttemptRows, ActionRows, EffectRows, MessageRows, KeyInv,
         AnswerRows, StartRows, PhaseRows, InputRows, RevisionInv, CountInv, SteerInv, HoldInv, Bump, HasAttempt,
         SameRequests, SameAttempts, SameMessages, SameActions, SameApprovals, SameInputs, SameTools, SameEvents,
         QueueMoves, GrowActions, KeepStarted, KeepSteered, Debt;
    var row := Request(d, m, db.node.nextQueue, 1, Queued);
    var message := Message(d, db.node.nextMessage, 1, true, Waits, r, None, text);
    var dialogs := db.dialogs[d := Dialog(db.dialogs[d].version + 1)];
    assert dialogs.Keys == db.dialogs.Keys;
    SameTables(db, d);
    SameCalm(db, ex);
    EnqueueTables(db, d, m, r, row, message, dialogs);
    Bumped(db.requests, db.queueRevisions, dialogs, r, row);
    QueueGrows(db, r, row, ex);
    EnqueueCounts(db.node.pending + 1, db.requests[r := row], db.messages, db.attempts, m, message);
    EnqueueSteered(db.messages, db.requests, db.requests[r := row], m, message, ex);
  }

  // ----------------------------------------------------- out of the queue

  /** A request leaves the queue while its message takes a settled disposition. */
  lemma LeaveTables(db: Ledger, m: Id, message: Message, r: Id, row: Request)
    requires Core(db) && r in db.requests && row == db.requests[r].(status := row.status, version := row.version)
    requires row.status != Queued
    requires m in db.messages && db.requests[r].input == m
    requires message.dialog == db.messages[m].dialog && message.request == db.messages[m].request
    requires message.disposition !in {Waits, SteerPending}
    ensures RequestRows(db.requests[r := row], db.messages[m := message], db.dialogs)
    ensures OrderInv(db.requests[r := row], db.node.nextQueue)
    ensures AttemptRows(db.attempts, db.requests[r := row])
    ensures MessageRows(db.messages[m := message], db.dialogs)
    ensures ActionRows(db.actions, db.attempts, db.messages[m := message])
    ensures InputRows(db.messages[m := message], db.requests[r := row], db.attempts)
    ensures SameMessages(db.messages, db.messages[m := message], message.dialog)
  {
    hide LogInv, SlotInv, EffectRows, StartRows, PhaseRows, RevisionInv, CountInv, SteerInv, HoldInv, HasAttempt;
  }

  lemma DebtShrinksBy(messages: map<Id, Message>, requests: map<Id, Request>, attempts: map<Id, Attempt>, m: Id,
                      message: Message, r: Id, row: Request)
    requires InputRows(messages, requests, attempts) && r in requests && row.status != Queued
    requires requests[r].input == m && m in messages
    requires message.disposition !in {Waits, SteerPending}
    ensures Debt(messages[m := message], requests[r := row], attempts) <= Debt(messages, requests, attempts)
    ensures |Debt(messages[m := message], requests[r := row], attempts)| ==
        |Debt(messages, requests, attempts)| - (if m in Debt(messages, requests, attempts) then 1 else 0)
  {
    hide HasAttempt;
    forall n | n in messages && messages[n].disposition == SteerPending && n != m
      ensures messages[n].request != r
    {
    }
    assert Debt(messages[m := message], requests[r := row], attempts) == Debt(messages, requests, attempts) - {m};
  }

  /** A steered message in debt is not the input of a queued request. */
  lemma DebtNotQueued(messages: map<Id, Message>, requests: map<Id, Request>, attempts: map<Id, Attempt>, m: Id, r: Id)
    requires InputRows(messages, requests, attempts) && r in requests && requests[r].input == m
    requires requests[r].status == Queued
    ensures m !in Debt(messages, requests, attempts)
  {
    hide HasAttempt;
  }

  /** The counter loses one exactly when the queue or the debt does. */
  lemma LeaveCounts(db: Ledger, m: Id, message: Message, r: Id, row: Request, ex: Exempt)
    requires Core(db) && r in db.requests && row.status != Queued && m in db.messages && db.requests[r].input == m
    requires message.disposition !in {Waits, SteerPending}
    requires db.requests[r].status == Queued || m in Debt(db.messages, db.requests, db.attempts)
    ensures CountInv(db.node.pending - 1, db.requests[r := row], db.messages[m := message], db.attempts)
    ensures NoNewDebt(db.messages, db.requests, db.attempts, db.messages[m := message], db.requests[r := row],
        db.attempts, ex)
  {
    hide LogInv, SlotInv, RequestRows, OrderInv, AttemptRows, ActionRows, EffectRows, MessageRows, KeyInv,
         AnswerRows, StartRows, PhaseRows, InputRows, RevisionInv, SteerInv, HoldInv, HasAttempt, QueuedIds, Debt;
    QueueShrinksBy(db.requests, r, row);
    DebtShrinksBy(db.messages, db.requests, db.attempts, m, message, r, row);
    if db.requests[r].status == Queued {
      DebtNotQueued(db.messages, db.requests, db.attempts, m, r);
    }
  }

  lemma LeaveSteered(db: Ledger, m: Id, message: Message, r: Id, row: Request, ex: Exempt)
    requires InputRows(db.messages, db.requests, db.attempts) && AttemptRows(db.attempts, db.requests)
    requires r in db.requests && db.requests[r].input == m && row.dialog == db.requests[r].dialog
    requires row.status != Queued
    requires m in db.messages && message.request == db.messages[m].request && message.dialog == db.messages[m].dialog
    requires message.disposition == Withdrawn || (ex.Steered? && ex.m == m)
    requires message.disposition != SteerPending
    ensures KeepSteered(db.messages, db.requests, db.messages[m := message], db.requests[r := row], ex)
  {
  }

  lemma LeaveKeeps(db: Ledger, n: Ledger, m: Id, message: Message, r: Id, row: Request, x: Id, ex: Exempt)
    requires Core(db) && r in db.requests && row == db.requests[r].(status := row.status, version := row.version)
    requires row.status != Queued
    requires m in db.messages && db.requests[r].input == m && row.dialog == message.dialog == x
    requires message.dialog == db.messages[m].dialog && message.request == db.messages[m].request
    requires message.disposition !in {Waits, SteerPending}
    requires db.requests[r].status == Queued || m in Debt(db.messages, db.requests, db.attempts)
    requires message.disposition == Withdrawn || (ex.Steered? && ex.m == m)
    requires n ==
        PutRequest(db, r, row).(messages := db.messages[m := message], node := db.node.(pending := db.node.pending - 1))
    ensures Keeps(db, n, x, ex)
  {
    hide LogInv, SlotInv, RequestRows, OrderInv, AttemptRows, ActionRows, EffectRows, MessageRows, KeyInv,
         AnswerRows, StartRows, PhaseRows, InputRows, RevisionInv, CountInv, SteerInv, HoldInv, Bump, HasAttempt,
         Debt, SameRequests, SameAttempts, SameMessages, SameActions, SameApprovals, SameInputs, SameTools,
         SameEvents, QueueMoves, GrowActions, KeepStarted, KeepSteered, NoNewDebt;
    SameTables(db, x);
    SameCalm(db, ex);
    Bumped(db.requests, db.queueRevisions, db.dialogs, r, row);
    LeaveTables(db, m, message, r, row);
    LeaveCounts(db, m, message, r, row, ex);
    LeaveSteered(db, m, message, r, row, ex);
  }

  lemma WithdrawKeeps(db: Ledger, r: Id, x: Id, ex: Exempt)
    requires Core(db) && r in db.requests && db.requests[r].status == Queued && db.requests[r].dialog == x
    requires db.requests[r].input in db.messages
    ensures Keeps(db, Withdraw(db, r), x, ex)
  {
    hide LogInv, SlotInv, AttemptRows, ActionRows, EffectRows, MessageRows, KeyInv, AnswerRows, StartRows, PhaseRows,
         InputRows, RevisionInv, CountInv, SteerInv, HoldInv, Bump, Moves, Calm;
    var m := db.requests[r].input;
    var message := db.messages[m].(version := db.messages[m].version + 1, disposition := Withdrawn);
    var row := db.requests[r].(status := Cancelled, version := db.requests[r].version + 1);
    LeaveKeeps(db, Withdraw(db, r), m, message, r, row, x, ex);
  }
}
