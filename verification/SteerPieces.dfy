/** The building blocks of steering and of dispatch. */
module SteerPieces {
  import opened LedgerTypes
  import opened Transactions
  import opened LedgerInvariant
  import opened Pieces
  import opened AttemptPieces
  import opened RowPieces
  import opened QueuePieces

  // ---------------------------------------------------------------- steering

  /** A message under steering owns its request: the request is queued, or it is
      the debt an answer outside the contract left behind. */
  lemma SteeredOwns(db: Ledger, m: Id)
    requires Core(db) && m in db.messages && db.messages[m].disposition == SteerPending
    requires !HasAttempt(db.attempts, db.messages[m].request)
    ensures var r := db.messages[m].request;
      r in db.requests && db.requests[r].input == m && db.requests[r].dialog == db.messages[m].dialog
    ensures db.requests[db.messages[m].request].status == Queued || m in Debt(db.messages, db.requests, db.attempts)
  {
    hide LogInv, SlotInv, AttemptRows, ActionRows, EffectRows, MessageRows, KeyInv, AnswerRows, StartRows, PhaseRows,
         RevisionInv, CountInv, SteerInv, HoldInv, HasAttempt;
  }

  lemma EndSteerKeeps(db: Ledger, m: Id, v: Verdict, x: Id)
    requires Core(db) && m in db.messages && db.messages[m].disposition == SteerPending && db.messages[m].dialog == x
    requires x in db.dialogs
    requires !HasAttempt(db.attempts, db.messages[m].request)
    requires v !in {Good, Doubt} ==>
        db.messages[m].request in db.requests && db.requests[db.messages[m].request].status == Queued
    ensures Keeps(db, EndSteer(db, m, v), x, Steered(m, false))
  {
    hide Core, Moves, Calm, Bump, HasAttempt, Debt;
    SteeredOwns(db, m);
    var message := db.messages[m].(version := db.messages[m].version + 1, disposition := SteerEnd(v));
    var r := db.messages[m].request;
    if v == Good || v == Doubt {
      var status := if v == Good then Done(Completed) else Lost;
      var row := db.requests[r].(status := status, version := db.requests[r].version + 1);
      LeaveKeeps(db, EndSteer(db, m, v), m, message, r, row, x, Steered(m, false));
    } else {
      PutMessageKeeps(db, m, message, x, Steered(m, false));
      assert EndSteer(db, m, v) == PutMessage(db, m, message);
    }
  }

  /** The queue and the debt trade one request; the counter stays. */
  lemma LoseCounts(db: Ledger, m: Id, r: Id, row: Request)
    requires InputRows(db.messages, db.requests, db.attempts)
    requires CountInv(db.node.pending, db.requests, db.messages, db.attempts)
    requires m in db.messages && db.messages[m].disposition == SteerPending && db.messages[m].request == r
    requires r in db.requests && db.requests[r].status == Queued && row.status != Queued && !HasAttempt(db.attempts, r)
    ensures CountInv(db.node.pending, db.requests[r := row], db.messages, db.attempts)
    ensures NoNewDebt(db.messages, db.requests, db.attempts, db.messages, db.requests[r := row], db.attempts,
        Steered(m, true))
  {
    hide HasAttempt, QueuedIds;
    QueueShrinksBy(db.requests, r, row);
    forall n | n in db.messages && db.messages[n].disposition == SteerPending && n != m
      ensures db.messages[n].request != r
    {
    }
    assert Debt(db.messages, db.requests[r := row], db.attempts) == Debt(db.messages, db.requests, db.attempts) + {m};
  }

  lemma LoseSteeredKeeps(db: Ledger, m: Id, r: Id, x: Id)
    requires Core(db) && m in db.messages && db.messages[m].disposition == SteerPending && db.messages[m].request == r
    requires r in db.requests && db.requests[r].status == Queued && db.requests[r].dialog == x
    requires !HasAttempt(db.attempts, r)
    ensures Keeps(db, SetStatus(db, r, Lost), x, Steered(m, true))
  {
    hide LogInv, SlotInv, RequestRows, OrderInv, AttemptRows, ActionRows, EffectRows, MessageRows, KeyInv,
         AnswerRows, StartRows, PhaseRows, RevisionInv, CountInv, SteerInv, HoldInv, HasAttempt, Bump, SameRequests,
         SameAttempts, SameMessages, SameActions, SameApprovals, SameInputs, SameTools, SameEvents, QueueMoves,
         GrowActions, KeepStarted, KeepSteered, NoNewDebt;
    var row := db.requests[r].(status := Lost, version := db.requests[r].version + 1);
    SameTables(db, x);
    SameCalm(db, Steered(m, true));
    Bumped(db.requests, db.queueRevisions, db.dialogs, r, row);
    StatusTables(db, r, row);
    LoseCounts(db, m, r, row);
    StatusSteered(db.messages, db.requests, r, row, Steered(m, true));
  }

  /** Seizing the slot through the reference of a steer. */
  lemma SeizeSteeredKeeps(db: Ledger, ref: AttemptRef, m: Id, effect: Effect, x: Id)
    requires Core(db) && ref.attempt in db.attempts && !OtherLive(db, ref.attempt)
    requires db.attempts[ref.attempt].dialog == x
    requires m in db.messages && db.messages[m].request == ref.request && !HasAttempt(db.attempts, ref.request)
    requires ref.request in db.requests && db.requests[ref.request].dialog == x
    requires db.requests[ref.request].status == Queued ==> db.messages[m].disposition == SteerPending
    requires Live(db.attempts[ref.attempt].phase)
    ensures Keeps(db, Seize(db, ref, effect), x, Steered(m, true))
  {
    hide LogInv, SlotInv, RequestRows, OrderInv, AttemptRows, ActionRows, EffectRows, MessageRows, KeyInv,
         AnswerRows, StartRows, PhaseRows, InputRows, RevisionInv, CountInv, SteerInv, HoldInv, HasAttempt,
         OtherLive, SetStatus, Moves, Calm, AnswersUnresolved;
    if db.requests[ref.request].status != Queued {
      SeizeKeeps(db, ref, effect, x, Steered(m, true));
    } else {
      var row := Moved(db.attempts[ref.attempt], Unknown).(effect := effect);
      Free(db, ref.attempt, row);
      HasAttemptSame(db.attempts, ref.attempt, row);
      var placed := Place(db, ref.attempt, row, Some(ref.attempt), Confused);
      PlaceKeeps(db, ref.attempt, row, Some(ref.attempt), Confused, x, Steered(m, true));
      LoseSteeredKeeps(placed, m, ref.request, x);
      Chain(db, placed, SetStatus(placed, ref.request, Lost), x, Steered(m, true));
    }
  }

  // ---------------------------------------------------------------- dispatch

  lemma NoSteers(db: Ledger, attempts: map<Id, Attempt>, actions: map<Id, Action>, a: Id)
    requires Core(db) && db.node.active.None?
    requires forall c :: c in actions && c != a ==> c in db.actions && actions[c] == db.actions[c]
    requires a in actions ==> actions[a].kind == DispatchStart
    ensures SteerInv(actions, attempts)
  {
    hide LogInv, RequestRows, OrderInv, AttemptRows, ActionRows, EffectRows, MessageRows, KeyInv, AnswerRows,
         StartRows, PhaseRows, InputRows, RevisionInv, CountInv, HoldInv, HasAttempt;
  }

  /** The rows a dispatch writes. */
  datatype Start = Start(r: Id, request: Request, a: Id, attempt: Attempt, action: Action, m: Id, message: Message)

  ghost predicate StartsFrom(db: Ledger, s: Start) {
    && s.r in db.requests && db.requests[s.r].status == Queued
    && s.request == db.requests[s.r].(status := InDispatch, version := s.request.version)
    && s.a !in db.attempts && s.a !in db.actions
    && s.attempt ==
    Attempt(s.request.dialog, s.r, s.attempt.generation, 1, Dispatching, NoEffect, false, 0, s.attempt.policy, 0, None)
    && s.action.kind == DispatchStart && s.action.status == Pending
    && s.action.ref == AttemptRef(s.request.dialog, s.r, s.a, s.attempt.generation)
    && s.m == s.request.input && s.m in db.messages
    && s.message.dialog == db.messages[s.m].dialog && s.message.request == db.messages[s.m].request
    && (if db.messages[s.m].disposition == Waits then s.message.disposition == Applied
         else s.message == db.messages[s.m])
  }

  lemma BeginRequests(db: Ledger, s: Start)
    requires Core(db) && StartsFrom(db, s)
    ensures RequestRows(db.requests[s.r := s.request], db.messages[s.m := s.message], db.dialogs)
    ensures OrderInv(db.requests[s.r := s.request], db.node.nextQueue)
    ensures AttemptRows(db.attempts[s.a := s.attempt], db.requests[s.r := s.request])
    ensures MessageRows(db.messages[s.m := s.message], db.dialogs)
    ensures SameMessages(db.messages, db.messages[s.m := s.message], s.request.dialog)
  {
    hide LogInv, SlotInv, ActionRows, EffectRows, StartRows, PhaseRows, InputRows, RevisionInv, CountInv, SteerInv,
         HoldInv, HasAttempt;
  }

  lemma BeginActions(db: Ledger, s: Start)
    requires Core(db) && StartsFrom(db, s) && db.node.active.None? && !Held(db, s.request.dialog)
    ensures ActionRows(db.actions[s.a := s.action], db.attempts[s.a := s.attempt], db.messages[s.m := s.message])
    ensures EffectRows(db.approvals, db.inputs, db.tools, db.attempts[s.a := s.attempt])
    ensures StartRows(db.attempts[s.a := s.attempt], db.actions[s.a := s.action])
    ensures PhaseRows(db.attempts[s.a := s.attempt])
    ensures AnswerRows(db.actions[s.a := s.action], db.approvals, db.inputs)
  {
    hide LogInv, SlotInv, RequestRows, OrderInv, AttemptRows, MessageRows, KeyInv, InputRows, RevisionInv, CountInv,
         SteerInv, HoldInv, HasAttempt, HeldBy;
  }

  lemma BeginHolds(db: Ledger, s: Start)
    requires Core(db) && StartsFrom(db, s) && db.node.active.None? && !Held(db, s.request.dialog)
    ensures SlotInv(db.attempts[s.a := s.attempt], Some(s.a), Busy)
    ensures HoldInv(db.attempts[s.a := s.attempt], db.actions[s.a := s.action], db.holds, db.holdEnds)
    ensures SteerInv(db.actions[s.a := s.action], db.attempts[s.a := s.attempt])
    ensures SameAttempts(db.attempts, db.attempts[s.a := s.attempt], s.request.dialog)
    ensures SameActions(db.actions, db.actions[s.a := s.action], s.request.dialog)
    ensures KeyInv(db.events, db.attempts[s.a := s.attempt])
    ensures GrowActions(db.actions, db.actions[s.a := s.action], Steered(s.m, false))
  {
    hide LogInv, RequestRows, OrderInv, AttemptRows, ActionRows, EffectRows, MessageRows, AnswerRows, StartRows,
         PhaseRows, InputRows, RevisionInv, CountInv, SteerInv, HasAttempt, HeldBy;
    NoSteers(db, db.attempts[s.a := s.attempt], db.actions[s.a := s.action], s.a);
  }

  lemma HasAttemptGrows(attempts: map<Id, Attempt>, a: Id, row: Attempt)
    requires a !in attempts
    ensures forall r :: HasAttempt(attempts[a := row], r) <==> HasAttempt(attempts, r) || r == row.request
  {
    var next := attempts[a := row];
    assert a in next && next[a].request == row.request;
    forall r | HasAttempt(attempts, r)
      ensures HasAttempt(next, r)
    {
      var b :| b in attempts && attempts[b].request == r;
      assert b in next && next[b].request == r;
    }
    forall r | HasAttempt(next, r) && r != row.request
      ensures HasAttempt(attempts, r)
    {
      var b :| b in next && next[b].request == r;
      assert b in attempts && attempts[b].request == r;
    }
  }

  lemma BeginDebt(messages: map<Id, Message>, requests: map<Id, Request>, attempts: map<Id, Attempt>, s: Start)
    requires s.r in requests && requests[s.r].status == Queued && s.request.status == InDispatch && s.a !in attempts
    requires s.attempt.request == s.r
    requires s.m in messages && s.message.request == messages[s.m].request
    requires s.message.disposition == messages[s.m].disposition
        || (messages[s.m].disposition == Waits && s.message.disposition == Applied)
    ensures Debt(messages[s.m := s.message], requests[s.r := s.request], attempts[s.a := s.attempt]) ==
        Debt(messages, requests, attempts)
  {
    hide HasAttempt;
    HasAttemptGrows(attempts, s.a, s.attempt);
    var next := messages[s.m := s.message];
    forall m | m in messages
      ensures m in Debt(next, requests[s.r := s.request], attempts[s.a := s.attempt]) <==>
          m in Debt(messages, requests, attempts)
    {
      var r := messages[m].request;
      assert next[m].request == r;
      assert HasAttempt(attempts[s.a := s.attempt], r) <==> HasAttempt(attempts, r) || r == s.r;
      assert r != s.r ==> (r in requests[s.r := s.request] <==> r in requests);
      assert (next[m].disposition == SteerPending) == (messages[m].disposition == SteerPending);
    }
  }

  lemma BeginInputs(db: Ledger, s: Start)
    requires Core(db) && StartsFrom(db, s)
    ensures InputRows(db.messages[s.m := s.message], db.requests[s.r := s.request], db.attempts[s.a := s.attempt])
  {
    hide LogInv, SlotInv, RequestRows, OrderInv, AttemptRows, ActionRows, EffectRows, MessageRows, KeyInv,
         AnswerRows, StartRows, PhaseRows, RevisionInv, CountInv, SteerInv, HoldInv, HasAttempt;
    HasAttemptGrows(db.attempts, s.a, s.attempt);
  }

  lemma BeginCounts(db: Ledger, s: Start)
    requires Core(db) && StartsFrom(db, s)
    ensures CountInv(db.node.pending - 1, db.requests[s.r := s.request], db.messages[s.m := s.message],
        db.attempts[s.a := s.attempt])
    ensures NoNewDebt(db.messages, db.requests, db.attempts, db.messages[s.m := s.message],
        db.requests[s.r := s.request], db.attempts[s.a := s.attempt], Steered(s.m, false))
  {
    hide LogInv, SlotInv, RequestRows, OrderInv, AttemptRows, ActionRows, EffectRows, MessageRows, KeyInv,
         AnswerRows, StartRows, PhaseRows, InputRows, RevisionInv, SteerInv, HoldInv, HasAttempt, QueuedIds, Debt;
    QueueShrinksBy(db.requests, s.r, s.request);
    BeginDebt(db.messages, db.requests, db.attempts, s);
  }

  lemma BeginSteered(db: Ledger, s: Start)
    requires Core(db) && StartsFrom(db, s)
    ensures KeepSteered(db.messages, db.requests, db.messages[s.m := s.message], db.requests[s.r := s.request],
        Steered(s.m, false))
    ensures KeepStarted(db.attempts, db.attempts[s.a := s.attempt], Steered(s.m, false))
  {
    hide LogInv, SlotInv, RequestRows, OrderInv, AttemptRows, ActionRows, EffectRows, MessageRows, KeyInv,
         AnswerRows, StartRows, PhaseRows, RevisionInv, CountInv, SteerInv, HoldInv, HasAttempt;
  }

  lemma BeginKeeps(db: Ledger, s: Start, n: Ledger)
    requires Core(db) && StartsFrom(db, s) && db.node.active.None? && !Held(db, s.request.dialog)
    requires n == PutRequest(db, s.r, s.request).(
      attempts := db.attempts[s.a := s.attempt], actions := db.actions[s.a := s.action],
      messages := db.messages[s.m := s.message], nextRow := n.nextRow,
      node := db.node.(pending := db.node.pending - 1, active := Some(s.a), occupancy := Busy))
    ensures Keeps(db, n, s.request.dialog, Steered(s.m, false))
  {
    hide LogInv, SlotInv, RequestRows, OrderInv, AttemptRows, ActionRows, EffectRows, MessageRows, KeyInv,
         AnswerRows, StartRows, PhaseRows, InputRows, RevisionInv, CountInv, SteerInv, HoldInv, HasAttempt, Bump,
         HeldBy, SameRequests, SameAttempts, SameMessages, SameActions, SameApprovals, SameInputs, SameTools,
         SameEvents, QueueMoves, GrowActions, KeepStarted, KeepSteered, NoNewDebt;
    var x := s.request.dialog;
    SameTables(db, x);
    SameEffects(db, db.attempts[s.a := s.attempt], x);
    Bumped(db.requests, db.queueRevisions, db.dialogs, s.r, s.request);
    BeginRequests(db, s);
    BeginActions(db, s);
    BeginHolds(db, s);
    BeginInputs(db, s);
    BeginCounts(db, s);
    BeginSteered(db, s);
  }
}
