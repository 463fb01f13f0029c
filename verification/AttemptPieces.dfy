/** The building blocks that write attempts, requests and the slot. */
module AttemptPieces {
  import opened LedgerTypes
  import opened Transactions
  import opened LedgerInvariant
  import opened Pieces

  // ------------------------------------------------------------ attempt row

  lemma HasAttemptSame(attempts: map<Id, Attempt>, a: Id, row: Attempt)
    requires a in attempts && row.request == attempts[a].request
    ensures forall r :: HasAttempt(attempts[a := row], r) == HasAttempt(attempts, r)
  {
    var next := attempts[a := row];
    forall r
      ensures HasAttempt(next, r) == HasAttempt(attempts, r)
    {
      if HasAttempt(attempts, r) {
        var b :| b in attempts && attempts[b].request == r;
        assert b in next && next[b].request == r;
      }
      if HasAttempt(next, r) {
        var b :| b in next && next[b].request == r;
        assert b in attempts && attempts[b].request == r;
      }
    }
  }

  /** A new version of a row: the same identity, and no way back to dispatching. */
  ghost predicate NextVersion(old_: Attempt, new_: Attempt) {
    && new_.dialog == old_.dialog && new_.request == old_.request && new_.generation == old_.generation
    && (old_.started ==> new_.started)
    && (new_.phase == Dispatching ==> old_.phase == Dispatching && !new_.started)
    && (new_.phase in {Running, Waiting} ==> new_.started)
    && PhaseRank(new_.phase) >= PhaseRank(old_.phase)
  }

  lemma AttemptTables(db: Ledger, a: Id, row: Attempt)
    requires Core(db) && a in db.attempts && NextVersion(db.attempts[a], row)
    ensures AttemptRows(db.attempts[a := row], db.requests)
    ensures ActionRows(db.actions, db.attempts[a := row], db.messages)
    ensures EffectRows(db.approvals, db.inputs, db.tools, db.attempts[a := row])
    ensures StartRows(db.attempts[a := row], db.actions) && PhaseRows(db.attempts[a := row])
    ensures HoldInv(db.attempts[a := row], db.actions, db.holds, db.holdEnds)
  {
    hide LogInv, SlotInv, RequestRows, OrderInv, MessageRows, KeyInv, AnswerRows, InputRows, RevisionInv, CountInv,
         SteerInv, HeldBy;
  }

  lemma AttemptCounts(db: Ledger, a: Id, row: Attempt, ex: Exempt)
    requires a in db.attempts && row.request == db.attempts[a].request
    requires InputRows(db.messages, db.requests, db.attempts)
    requires CountInv(db.node.pending, db.requests, db.messages, db.attempts)
    ensures InputRows(db.messages, db.requests, db.attempts[a := row])
    ensures CountInv(db.node.pending, db.requests, db.messages, db.attempts[a := row])
    ensures NoNewDebt(db.messages, db.requests, db.attempts, db.messages, db.requests, db.attempts[a := row], ex)
  {
    hide HasAttempt, QueuedIds;
    HasAttemptSame(db.attempts, a, row);
    assert Debt(db.messages, db.requests, db.attempts[a := row]) == Debt(db.messages, db.requests, db.attempts);
  }

  lemma AttemptSteers(db: Ledger, a: Id, row: Attempt)
    requires a in db.attempts && row.request == db.attempts[a].request && SteerInv(db.actions, db.attempts)
    requires !Live(row.phase) && Live(db.attempts[a].phase) ==> !AnswersUnresolved(db, a) || !db.attempts[a].started
    requires ActionRows(db.actions, db.attempts, db.messages)
    ensures SteerInv(db.actions, db.attempts[a := row])
  {
    hide HasAttempt;
    HasAttemptSame(db.attempts, a, row);
  }

  lemma AttemptMoves(attempts: map<Id, Attempt>, a: Id, row: Attempt, x: Id, ex: Exempt)
    requires a in attempts && row.dialog == attempts[a].dialog == x
    requires row.started == attempts[a].started || ex == Starter(a)
    requires attempts[a].phase.Ended? ==> row.phase == attempts[a].phase || ex == Revives(a)
    ensures SameAttempts(attempts, attempts[a := row], x) && KeepStarted(attempts, attempts[a := row], ex)
  {
  }

  lemma PlaceKeeps(db: Ledger, a: Id, row: Attempt, active: Option<Id>, occupancy: Occupancy, x: Id, ex: Exempt)
    requires Core(db) && a in db.attempts && NextVersion(db.attempts[a], row) && row.dialog == x
    requires row.started == db.attempts[a].started || ex == Starter(a)
    requires db.attempts[a].phase.Ended? ==> row.phase == db.attempts[a].phase || ex == Revives(a)
    requires SlotInv(db.attempts[a := row], active, occupancy)
    requires !Live(row.phase) && Live(db.attempts[a].phase) ==> !AnswersUnresolved(db, a) || !db.attempts[a].started
    ensures Keeps(db, Place(db, a, row, active, occupancy), x, ex)
  {
    hide LogInv, SlotInv, RequestRows, OrderInv, AttemptRows, ActionRows, EffectRows, MessageRows, KeyInv,
         AnswerRows, StartRows, PhaseRows, InputRows, RevisionInv, CountInv, SteerInv, HoldInv, AnswersUnresolved,
         SameRequests, SameAttempts, SameMessages, SameActions, SameApprovals, SameInputs, SameTools, SameEvents,
         QueueMoves, GrowActions, KeepStarted, KeepSteered, NoNewDebt;
    SameTables(db, x);
    SameCalm(db, ex);
    SameEffects(db, db.attempts[a := row], x);
    AttemptTables(db, a, row);
    AttemptCounts(db, a, row, ex);
    AttemptSteers(db, a, row);
    AttemptMoves(db.attempts, a, row, x, ex);
    AttemptKeys(db.events, db.attempts, a, row);
  }

  lemma AttemptKeys(events: map<int, Event>, attempts: map<Id, Attempt>, a: Id, row: Attempt)
    requires KeyInv(events, attempts) && a in attempts && PhaseRank(row.phase) >= PhaseRank(attempts[a].phase)
    ensures KeyInv(events, attempts[a := row])
  {
  }

  /** A new version of a row that stays in, or out of, the slot. */
  lemma PutAttemptKeeps(db: Ledger, a: Id, row: Attempt, x: Id, ex: Exempt)
    requires Core(db) && a in db.attempts && NextVersion(db.attempts[a], row) && row.dialog == x
    requires row.started == db.attempts[a].started || ex == Starter(a)
    requires db.attempts[a].phase.Ended? ==> row.phase == db.attempts[a].phase || ex == Revives(a)
    requires Live(row.phase) == Live(db.attempts[a].phase)
    ensures Keeps(db, PutAttempt(db, a, row), x, ex)
  {
    hide LogInv, RequestRows, OrderInv, AttemptRows, ActionRows, EffectRows, MessageRows, KeyInv, AnswerRows,
         StartRows, PhaseRows, InputRows, RevisionInv, CountInv, HoldInv, HasAttempt, Moves, Calm;
    PlaceKeeps(db, a, row, db.node.active, db.node.occupancy, x, ex);
    assert PutAttempt(db, a, row) == Place(db, a, row, db.node.active, db.node.occupancy);
  }

  // ------------------------------------------------------------ request row

  lemma Bumped(requests: map<Id, Request>, revisions: map<Scope, int>, dialogs: map<Id, Dialog>, r: Id, row: Request)
    requires RevisionInv(revisions, dialogs) && (r in requests ==> requests[r].dialog == row.dialog)
    ensures RevisionInv(Bump(Bump(revisions, NodeScope), DialogScope(row.dialog)), dialogs)
    ensures QueueMoves(requests, revisions, requests[r := row],
        Bump(Bump(revisions, NodeScope), DialogScope(row.dialog)))
    ensures SameRequests(requests, requests[r := row], row.dialog)
  {
    var next := Bump(Bump(revisions, NodeScope), DialogScope(row.dialog));
    forall s | s in revisions
      ensures s in next && next[s] == revisions[s] + (if Covers(s, row.dialog) then 1 else 0)
    {
      assert s == NodeScope || s == DialogScope(s.dialog);
    }
  }

  lemma StatusTables(db: Ledger, r: Id, row: Request)
    requires Core(db) && r in db.requests && row.dialog == db.requests[r].dialog && row.input == db.requests[r].input
    requires row.status != Queued && row.queueSequence == db.requests[r].queueSequence
    requires !(exists m :: m in db.messages && db.messages[m].disposition == Waits && db.messages[m].request == r)
    ensures RequestRows(db.requests[r := row], db.messages, db.dialogs)
    ensures OrderInv(db.requests[r := row], db.node.nextQueue)
    ensures AttemptRows(db.attempts, db.requests[r := row])
    ensures InputRows(db.messages, db.requests[r := row], db.attempts)
  {
    hide LogInv, SlotInv, ActionRows, EffectRows, MessageRows, KeyInv, AnswerRows, StartRows, PhaseRows, RevisionInv,
         CountInv, SteerInv, HoldInv, HasAttempt;
  }

  /** Writing a status over a request that is not in the queue leaves the count. */
  lemma StatusCounts(db: Ledger, r: Id, row: Request, ex: Exempt)
    requires CountInv(db.node.pending, db.requests, db.messages, db.attempts)
    requires r in db.requests && row.status != Queued && db.requests[r].status != Queued
    ensures CountInv(db.node.pending, db.requests[r := row], db.messages, db.attempts)
    ensures NoNewDebt(db.messages, db.requests, db.attempts, db.messages, db.requests[r := row], db.attempts, ex)
  {
    hide HasAttempt;
    assert QueuedIds(db.requests[r := row]) == QueuedIds(db.requests);
    assert Debt(db.messages, db.requests[r := row], db.attempts) == Debt(db.messages, db.requests, db.attempts);
  }

  lemma StatusSteered(messages: map<Id, Message>, requests: map<Id, Request>, r: Id, row: Request, ex: Exempt)
    requires r in requests && row.dialog == requests[r].dialog && row.status != Queued
    requires forall m ::
      && m in messages && messages[m].disposition == SteerPending && messages[m].request == r
      && !(ex.Steered? && ex.m == m) ==>
        requests[r].status != Queued
    ensures KeepSteered(messages, requests, messages, requests[r := row], ex)
  {
  }

  lemma StatusKeeps(db: Ledger, r: Id, status: RequestStatus, x: Id, ex: Exempt)
    requires Core(db) && r in db.requests && db.requests[r].dialog == x && db.requests[r].status != Queued
    requires status != Queued
    ensures Keeps(db, SetStatus(db, r, status), x, ex)
  {
    hide LogInv, SlotInv, RequestRows, OrderInv, AttemptRows, ActionRows, EffectRows, MessageRows, KeyInv,
         AnswerRows, StartRows, PhaseRows, RevisionInv, CountInv, SteerInv, HoldInv, HasAttempt, Bump, SameRequests,
         SameAttempts, SameMessages, SameActions, SameApprovals, SameInputs, SameTools, SameEvents, QueueMoves,
         GrowActions, KeepStarted, KeepSteered, NoNewDebt;
    var row := db.requests[r].(status := status, version := db.requests[r].version + 1);
    SameTables(db, x);
    SameCalm(db, ex);
    Bumped(db.requests, db.queueRevisions, db.dialogs, r, row);
    StatusTables(db, r, row);
    StatusCounts(db, r, row, ex);
    StatusSteered(db.messages, db.requests, r, row, ex);
  }

  // ------------------------------------------------------------ slot changes

  lemma Free(db: Ledger, a: Id, row: Attempt)
    requires a in db.attempts && SlotInv(db.attempts, db.node.active, db.node.occupancy)
    ensures !OtherLive(db, a) && Live(row.phase) ==> SlotInv(db.attempts[a := row], Some(a), Confused)
    ensures db.node.active == Some(a) && !Live(row.phase) ==> SlotInv(db.attempts[a := row], None, Idle)
    ensures db.node.active == Some(a) ==> Live(db.attempts[a].phase)
  {
  }

  /** Seizing the slot through a reference to the attempt's own request. */
  lemma SeizeKeeps(db: Ledger, ref: AttemptRef, effect: Effect, x: Id, ex: Exempt)
    requires Core(db) && ref.attempt in db.attempts && !OtherLive(db, ref.attempt)
    requires Live(db.attempts[ref.attempt].phase) || ex == Revives(ref.attempt)
    requires db.attempts[ref.attempt].dialog == x && ref.request in db.requests
    requires db.requests[ref.request].dialog == x && db.requests[ref.request].status != Queued
    ensures Keeps(db, Seize(db, ref, effect), x, ex)
  {
    hide LogInv, SlotInv, RequestRows, OrderInv, AttemptRows, ActionRows, EffectRows, MessageRows, KeyInv,
         AnswerRows, StartRows, PhaseRows, InputRows, RevisionInv, CountInv, SteerInv, HoldInv, HasAttempt,
         OtherLive, SetStatus, Moves, Calm, AnswersUnresolved;
    var row := Moved(db.attempts[ref.attempt], Unknown).(effect := effect);
    Free(db, ref.attempt, row);
    var placed := Place(db, ref.attempt, row, Some(ref.attempt), Confused);
    PlaceKeeps(db, ref.attempt, row, Some(ref.attempt), Confused, x, ex);
    StatusKeeps(placed, ref.request, Lost, x, ex);
    Chain(db, placed, SetStatus(placed, ref.request, Lost), x, ex);
  }

  lemma EndKeeps(db: Ledger, ref: AttemptRef, outcome: Ending, effect: Effect, x: Id, ex: Exempt)
    requires Core(db) && ref.attempt in db.attempts && db.node.active == Some(ref.attempt)
    requires !AnswersUnresolved(db, ref.attempt) || !db.attempts[ref.attempt].started
    requires db.attempts[ref.attempt].dialog == x && ref.request in db.requests
    requires db.requests[ref.request].dialog == x && db.requests[ref.request].status != Queued
    ensures Keeps(db, EndAttempt(db, ref, outcome, effect), x, ex)
  {
    hide LogInv, SlotInv, RequestRows, OrderInv, AttemptRows, ActionRows, EffectRows, MessageRows, KeyInv,
         AnswerRows, StartRows, PhaseRows, InputRows, RevisionInv, CountInv, SteerInv, HoldInv, HasAttempt,
         OtherLive, SetStatus, Moves, Calm, AnswersUnresolved;
    var row := Moved(db.attempts[ref.attempt], Ended(outcome)).(effect := effect);
    Free(db, ref.attempt, row);
    var placed := Place(db, ref.attempt, row, None, Idle);
    PlaceKeeps(db, ref.attempt, row, None, Idle, x, ex);
    StatusKeeps(placed, ref.request, Done(outcome), x, ex);
    Chain(db, placed, SetStatus(placed, ref.request, Done(outcome)), x, ex);
  }
}
