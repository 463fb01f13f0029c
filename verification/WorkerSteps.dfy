/** Dispatch and the transactions of the action workers keep the invariant. */
module WorkerSteps {
  import opened LedgerTypes
  import opened LedgerTail
  import opened Transactions
  import opened LedgerInvariant
  import opened Pieces
  import opened AttemptPieces
  import opened RowPieces
  import opened SteerPieces
  import opened CommandSteps

  // ---------------------------------------------------------------- unknown

  /** The part of SetUnknown that follows the seizure. */
  lemma UnknownTail(db: Ledger, d: Ledger, ref: AttemptRef, x: Id, ex: Exempt)
    requires Keeps(db, d, x, ex) && ref.dialog == x
    ensures var node := d.node.(readiness := IsUnknown, reasons := d.node.reasons + {ExecutionUnknown});
      var e := AttemptEvent(OtherEvent, ref, None, None, false);
      Keeps(db, Announce(Append(Tick(d.(node := node), false), e)), x, ex)
  {
    hide Core, Moves, Calm, Append, Announce;
    var e := AttemptEvent(OtherEvent, ref, None, None, false);
    var d2 := Tick(d.(node := d.node.(readiness := IsUnknown, reasons := d.node.reasons + {ExecutionUnknown})), false);
    Aside(db, d, d2, x, ex);
    Appended(db, d2, e, x, ex);
    Announced(db, Append(d2, e), x, ex);
  }

  ghost predicate Names(db: Ledger, ref: AttemptRef, x: Id) {
    && ref.attempt in db.attempts && db.attempts[ref.attempt].dialog == x && ref.dialog == x
    && ref.request in db.requests && db.requests[ref.request].dialog == x
  }

  lemma SetUnknownKeeps(db: Ledger, ref: AttemptRef, effect: Effect, x: Id, ex: Exempt)
    requires Core(db) && Names(db, ref, x) && db.requests[ref.request].status != Queued
    requires Live(db.attempts[ref.attempt].phase) || ex == Revives(ref.attempt)
    ensures SetUnknown(db, ref, effect).Ok? ==> Keeps(db, SetUnknown(db, ref, effect).value, x, ex)
  {
    hide Core, Moves, Calm, Append, Announce, Seize, OtherLive, Tick;
    if SetUnknown(db, ref, effect).Ok? {
      if db.attempts[ref.attempt].phase == Unknown {
        KeepsSelf(db, x, ex);
      } else {
        SeizeKeeps(db, ref, effect, x, ex);
        UnknownTail(db, Seize(db, ref, effect), ref, x, ex);
      }
    }
  }

  /** The same through a steer, whose request may still be in the queue. */
  lemma SetUnknownSteered(db: Ledger, ref: AttemptRef, m: Id, effect: Effect, x: Id)
    requires Core(db) && Names(db, ref, x) && m in db.messages && db.messages[m].request == ref.request
    requires !HasAttempt(db.attempts, ref.request)
    requires db.requests[ref.request].status == Queued ==> db.messages[m].disposition == SteerPending
    requires Live(db.attempts[ref.attempt].phase)
    ensures SetUnknown(db, ref, effect).Ok? ==> Keeps(db, SetUnknown(db, ref, effect).value, x, Steered(m, true))
  {
    hide Core, Moves, Calm, Append, Announce, Seize, OtherLive, Tick, HasAttempt;
    if SetUnknown(db, ref, effect).Ok? {
      if db.attempts[ref.attempt].phase == Unknown {
        KeepsSelf(db, x, Steered(m, true));
      } else {
        SeizeSteeredKeeps(db, ref, m, effect, x);
        UnknownTail(db, Seize(db, ref, effect), ref, x, Steered(m, true));
      }
    }
  }

  /** A reference to an attempt through its own request. */
  lemma OwnNames(db: Ledger, ref: AttemptRef)
    requires Core(db) && ref.attempt in db.attempts && ref == RefOf(db, ref.attempt)
    ensures Names(db, ref, ref.dialog) && db.requests[ref.request].status != Queued
  {
    hide Core, HasAttempt;
    AttemptFacts(db, ref.attempt);
  }

  // --------------------------------------------------------------- dispatch

  lemma BeginStep(db: Ledger, r: Id, a: Id, g: int, policy: Id, proof: Option<TailProof>)
    requires Core(db) && r in db.requests && db.requests[r].status == Queued && db.requests[r].input in db.messages
    requires db.node.active.None? && a !in db.attempts && a !in db.actions && !Held(db, db.requests[r].dialog)
    ensures Keeps(db, Begin(db, r, a, g, policy, proof), db.requests[r].dialog, Steered(db.requests[r].input, false))
  {
    hide Core, Keeps, Bump, HeldBy;
    var s := Starting(db, r, a, g, policy, proof);
    BeginRows(db, r, a, g, policy, proof);
    BeginKeeps(db, s, Begin(db, r, a, g, policy, proof));
  }

  /** The rows that a dispatch writes. */
  function Starting(db: Ledger, r: Id, a: Id, g: int, policy: Id, proof: Option<TailProof>): Start
    requires r in db.requests && db.requests[r].input in db.messages
  {
    var row := db.requests[r];
    var message := db.messages[row.input];
    var attempt := Attempt(row.dialog, r, g, 1, Dispatching, NoEffect, false, 0, policy, 0, None);
    var action := NewAction(DispatchStart, AttemptRef(row.dialog, r, a, g), 0, 0, 0);
    var served := message.(version := message.version + 1, disposition := Applied, attempt := Some(a));
    Start(r, row.(status := InDispatch, version := row.version + 1), a, attempt,
          action.(row := db.nextRow, proof := proof), row.input,
          if message.disposition == Waits then served else message)
  }

  lemma BeginRows(db: Ledger, r: Id, a: Id, g: int, policy: Id, proof: Option<TailProof>)
    requires r in db.requests && db.requests[r].input in db.messages
    ensures var n, s := Begin(db, r, a, g, policy, proof), Starting(db, r, a, g, policy, proof);
      n == PutRequest(db, s.r, s.request).(
        attempts := db.attempts[s.a := s.attempt], actions := db.actions[s.a := s.action],
        messages := db.messages[s.m := s.message], nextRow := n.nextRow,
        node := db.node.(pending := db.node.pending - 1, active := Some(s.a), occupancy := Busy))
  {
    hide Bump;
    var s := Starting(db, r, a, g, policy, proof);
    assert db.messages[s.m := db.messages[s.m]] == db.messages;
  }

  lemma DispatchStep(db: Ledger, c: Candidate, a: Id, g: int)
    requires Core(db) && DispatchNext(db, c, a, g).Ok?
    ensures Keeps(db, DispatchNext(db, c, a, g).value, c.dialog, Steered(c.message, false))
    ensures c.request in db.requests && db.requests[c.request].status == Queued
    ensures db.requests[c.request].dialog == c.dialog
    ensures !Held(db, c.dialog) && db.node.active.None?
  {
    hide Core, Moves, Calm, Append, Announce, Begin, OtherLive, Tick, HeldBy, NextGeneration, TailQuery, TailOf;
    var x := c.dialog;
    var ex := Steered(c.message, false);
    var proof := TailOf(db, db.requests[c.request].dialog, db.requests[c.request].input, c.tail);
    BeginStep(db, c.request, a, g, c.policy, proof);
    var d1 := Begin(db, c.request, a, g, c.policy, proof);
    var d1b := d1.(node := d1.node.(readiness := IsReady, reasons := d1.node.reasons - {PolicyUnavailable}));
    Aside(db, d1, d1b, x, ex);
    var d2 := Tick(d1b, true);
    Ticked(db, d1b, true, x, ex);
    var e := Event(DispositionChanged(c.message), None, None, None, None, false);
    Appended(db, d2, e, x, ex);
    var d3 := if db.messages[c.message].disposition == Waits then Append(d2, e) else d2;
    var started := AttemptEvent(OtherEvent, AttemptRef(c.dialog, c.request, a, g), None, None, false);
    Appended(db, d3, started, x, ex);
    Announced(db, Append(d3, started), x, ex);
    Announced(db, Announce(Append(d3, started)), x, ex);
  }

  lemma BlockStep(db: Ledger, x: Id, ex: Exempt)
    requires Core(db)
    ensures Keeps(db, BlockPolicy(db), x, ex)
  {
    hide Core, Moves, Calm, Announce, Tick;
    KeepsSelf(db, x, ex);
    if !(db.node.readiness == IsBlocked && PolicyUnavailable in db.node.reasons) {
      var d1 := db.(node := db.node.(readiness := IsBlocked, reasons := db.node.reasons + {PolicyUnavailable}));
      AsideKeeps(db, d1, x, ex);
      Ticked(db, d1, false, x, ex);
      Announced(db, Tick(d1, false), x, ex);
    }
  }

  // ---------------------------------------------------------------- results

  lemma StartedStep(db: Ledger, ref: AttemptRef)
    requires Core(db) && MarkStarted(db, ref).Ok? && (ref.attempt in db.attempts ==> ref == RefOf(db, ref.attempt))
    ensures Keeps(db, MarkStarted(db, ref).value, ref.dialog, Starter(ref.attempt))
  {
    hide Core, Moves, Calm, Announce, Append, Tick, SetStatus, KeyTaken;
    var x := ref.dialog;
    var ex := Starter(ref.attempt);
    OwnNames(db, ref);
    var row := Moved(db.attempts[ref.attempt], Running).(started := true);
    PutAttemptKeeps(db, ref.attempt, row, x, ex);
    var d0 := PutAttempt(db, ref.attempt, row);
    StatusKeeps(d0, ref.request, Active, x, ex);
    var d1 := SetStatus(d0, ref.request, Active);
    Chain(db, d0, d1, x, ex);
    Ticked(db, d1, false, x, ex);
    var e := AttemptEvent(OtherEvent, ref, Some(Key(false, KStarted)), Some(Whole(Started)), false);
    Appended(db, Tick(d1, false), e, x, ex);
    Announced(db, Append(Tick(d1, false), e), x, ex);
  }

  /** A refused start ends the attempt that still holds the slot, as failed and without
      effect; for any other it leaves one late row, which charges nothing. */
  ghost predicate RefusalShows(db: Ledger, ref: AttemptRef, n: Ledger)
    requires ref.attempt in db.attempts
  {
    var row := db.attempts[ref.attempt];
    if row.generation == ref.generation && db.node.active == Some(ref.attempt) then
      && n.node.active.None? && n.late == db.late
      && n.attempts == db.attempts[ref.attempt := Moved(row, Ended(Failed)).(effect := NoEffect)]
    else
      && n.node.active == db.node.active && n.attempts == db.attempts && n.requests == db.requests
      && n.late == db.late + [LateRow(ref.attempt, Late, None, None, 0)]
  }

  lemma RefusalEnds(db: Ledger, ref: AttemptRef)
    requires ref.attempt in db.attempts && db.attempts[ref.attempt].generation == ref.generation
    requires db.node.active == Some(ref.attempt) && ObserveRefused(db, ref).Ok?
    ensures RefusalShows(db, ref, ObserveRefused(db, ref).value)
  {
    hide Append, SetStatus;
    var actual := RefOf(db, ref.attempt);
    var row := Moved(db.attempts[ref.attempt], Ended(Failed)).(effect := NoEffect);
    StatusRows(Place(db, ref.attempt, row, None, Idle), actual.request, Done(Failed));
    var d1 := EndAttempt(db, actual, Failed, NoEffect);
    var readiness := if d1.node.readiness == IsUnknown then IsBlocked else d1.node.readiness;
    var d2 := Tick(d1.(node := d1.node.(readiness := readiness)), false);
    var e := AttemptEvent(OtherEvent, actual, None, None, false);
    AppendFrame(d2, e);
    AppendFrame(Append(d2, e), Event(StateChanged, None, None, None, None, false));
  }

  lemma RefusalArchived(db: Ledger, ref: AttemptRef)
    requires ref.attempt in db.attempts && ObserveRefused(db, ref).Ok?
    requires db.attempts[ref.attempt].generation != ref.generation || db.node.active != Some(ref.attempt)
    ensures RefusalShows(db, ref, ObserveRefused(db, ref).value)
  {
    hide Append, EndAttempt, Announce, Tick;
    var e := AttemptEvent(OtherEvent, RefOf(db, ref.attempt), None, None, true);
    var d := Append(db, e);
    assert ObserveRefused(db, ref).value == d.(late := d.late + [LateRow(ref.attempt, Late, None, None, 0)]);
    AppendFrame(db, e);
  }

  lemma RefusalOutcome(db: Ledger, ref: AttemptRef)
    requires ObserveRefused(db, ref).Ok?
    ensures ref.attempt in db.attempts && RefusalShows(db, ref, ObserveRefused(db, ref).value)
  {
    hide RefusalShows, Append, EndAttempt, Announce, Tick;
    if db.attempts[ref.attempt].generation == ref.generation && db.node.active == Some(ref.attempt) {
      RefusalEnds(db, ref);
    } else {
      RefusalArchived(db, ref);
    }
  }

  lemma RefusedStep(db: Ledger, ref: AttemptRef, x: Id, ex: Exempt)
    requires Core(db) && ObserveRefused(db, ref).Ok?
    requires (ref.attempt in db.attempts ==> !db.attempts[ref.attempt].started && db.attempts[ref.attempt].dialog == x)
    ensures Keeps(db, ObserveRefused(db, ref).value, x, ex)
    ensures ref.attempt in db.attempts && RefusalShows(db, ref, ObserveRefused(db, ref).value)
  {
    hide Core, Moves, Calm, Announce, Append, EndAttempt, AnswersUnresolved, RefusalShows;
    RefusalOutcome(db, ref);
    var n := ObserveRefused(db, ref).value;
    var actual := RefOf(db, ref.attempt);
    if actual.generation != ref.generation || db.node.active != Some(ref.attempt) {
      var e := AttemptEvent(OtherEvent, actual, None, None, true);
      AppendKeeps(db, e, x, ex);
      Aside(db, Append(db, e), n, x, ex);
    } else {
      OwnNames(db, actual);
      EndKeeps(db, actual, Failed, NoEffect, x, ex);
      var d1 := EndAttempt(db, actual, Failed, NoEffect);
      var readiness := if d1.node.readiness == IsUnknown then IsBlocked else d1.node.readiness;
      var d2 := Tick(d1.(node := d1.node.(readiness := readiness)), false);
      Aside(db, d1, d2, x, ex);
      var e := AttemptEvent(OtherEvent, actual, None, None, false);
      Appended(db, d2, e, x, ex);
      Announced(db, Append(d2, e), x, ex);
    }
  }

  lemma AnswerKeeps(db: Ledger, action: Action, status: ReplyStatus, x: Id, ex: Exempt)
    requires Core(db) && action.kind in {AnswerApproval, AnswerInput}
    requires action.kind == AnswerApproval && action.target in db.approvals ==>
        Belongs(db.attempts, db.approvals[action.target].attempt, x)
    requires action.kind == AnswerInput && action.target in db.inputs ==>
        Belongs(db.attempts, db.inputs[action.target].attempt, x)
    ensures Keeps(db, Answer(db, action, status), x, ex)
  {
    hide Core, Keeps, Belongs, PutApproval, PutInput;
    KeepsSelf(db, x, ex);
    if action.kind == AnswerApproval {
      if action.target in db.approvals {
        PutApprovalKeeps(db, action.target, db.approvals[action.target].(status := status), x, ex);
      }
    } else if action.target in db.inputs {
      PutInputKeeps(db, action.target, db.inputs[action.target].(status := status), x, ex);
    }
  }

  lemma ActionFacts(db: Ledger, c: Id)
    requires Core(db) && c in db.actions
    ensures var action := db.actions[c];
      action.ref.attempt in db.attempts && action.ref.dialog == db.attempts[action.ref.attempt].dialog
    ensures db.actions[c].kind != SteerMessage ==> db.actions[c].ref == RefOf(db, db.actions[c].ref.attempt)
    ensures db.actions[c].kind == AnswerApproval ==>
      db.actions[c].target in db.approvals
          && Belongs(db.attempts, db.approvals[db.actions[c].target].attempt, db.actions[c].ref.dialog)
    ensures db.actions[c].kind == AnswerInput ==>
      db.actions[c].target in db.inputs
          && Belongs(db.attempts, db.inputs[db.actions[c].target].attempt, db.actions[c].ref.dialog)
  {
    hide LogInv, SlotInv, RequestRows, OrderInv, AttemptRows, MessageRows, KeyInv, StartRows, PhaseRows, InputRows,
         RevisionInv, CountInv, SteerInv, HoldInv;
  }

  /** An unresolved steer: its message, and a request no attempt owns. */
  lemma SteerFacts(db: Ledger, c: Id)
    requires Core(db) && c in db.actions && db.actions[c].kind == SteerMessage && Unresolved(db.actions[c].status)
    ensures var action := db.actions[c];
      && action.message in db.messages && db.messages[action.message].request == action.ref.request
      && db.messages[action.message].dialog == action.ref.dialog && action.ref.dialog in db.dialogs
      && !HasAttempt(db.attempts, action.ref.request)
      && action.ref.attempt in db.attempts && Live(db.attempts[action.ref.attempt].phase)
      && action.ref.dialog == db.attempts[action.ref.attempt].dialog
    ensures db.actions[c].ref.attempt in db.attempts && db.attempts[db.actions[c].ref.attempt].started
  {
    hide LogInv, SlotInv, RequestRows, OrderInv, AttemptRows, AnswerRows, StartRows, PhaseRows, InputRows,
         RevisionInv, CountInv, HoldInv, HasAttempt;
  }

  lemma KeptCore(db: Ledger, d: Ledger, x: Id, ex: Exempt)
    requires Keeps(db, d, x, ex)
    ensures Core(d)
  {
    hide Core, Moves, Calm;
  }

  lemma AnsweredRows(db: Ledger, action: Action, status: ReplyStatus)
    ensures var n := Answer(db, action, status); n.attempts == db.attempts && n.actions == db.actions
  {
    hide PutApproval, PutInput;
    if action.target in db.approvals {
      ApprovalRow(db, action.target, db.approvals[action.target].(status := status));
    }
    if action.target in db.inputs { InputRow(db, action.target, db.inputs[action.target].(status := status)); }
  }

  lemma ApprovalRow(db: Ledger, p: Id, row: Approval)
    ensures var n := PutApproval(db, p, row); n == db.(approvals := n.approvals)
  {
  }

  lemma InputRow(db: Ledger, i: Id, row: Input)
    ensures var n := PutInput(db, i, row); n == db.(inputs := n.inputs)
  {
  }

  lemma ResponseStep(db: Ledger, c: Id, v: Verdict)
    requires Core(db) && c in db.actions && db.actions[c].kind in {AnswerApproval, AnswerInput}
    requires FinishResponse(db, db.actions[c], v).Ok?
    ensures var action := db.actions[c];
      var ex := if v == Doubt then Revives(action.ref.attempt) else Nobody;
      Keeps(db, FinishResponse(db, action, v).value, action.ref.dialog, ex)
  {
    hide Core, Keeps, Append, SetUnknown, Belongs, Answer;
    var action := db.actions[c];
    var ex := if v == Doubt then Revives(action.ref.attempt) else Nobody;
    var x := action.ref.dialog;
    ActionFacts(db, c);
    AnswerKeeps(db, action, AnsweredStatus(v), x, ex);
    var d1 := Answer(db, action, AnsweredStatus(v));
    if v == Good {
      Appended(db, d1, AttemptEvent(OtherEvent, action.ref, None, None, false), x, ex);
    } else if v == Doubt {
      KeptCore(db, d1, x, ex);
      AnsweredRows(db, action, AnsweredStatus(v));
      OwnNames(d1, action.ref);
      SetUnknownKeeps(d1, action.ref, UnknownEffect, x, ex);
      Chain(db, d1, SetUnknown(d1, action.ref, UnknownEffect).value, x, ex);
    }
  }

  lemma SteerEnds(db: Ledger, m: Id, v: Verdict)
    requires m in db.messages && db.messages[m].request in db.requests
    ensures var n := EndSteer(db, m, v);
      && n.attempts == db.attempts && n.requests.Keys == db.requests.Keys
      && n.requests[db.messages[m].request].dialog == db.requests[db.messages[m].request].dialog
      && (v == Doubt ==> n.requests[db.messages[m].request].status == Lost)
  {
    hide Bump;
  }

  lemma FinishSteerStep(db: Ledger, c: Id, v: Verdict)
    requires Core(db) && c in db.actions && db.actions[c].kind == SteerMessage && Unresolved(db.actions[c].status)
    requires FinishSteer(db, db.actions[c].ref, db.actions[c].message, v).Ok?
    requires v !in {Good, Doubt} ==>
        db.actions[c].ref.request in db.requests && db.requests[db.actions[c].ref.request].status == Queued
    ensures var action := db.actions[c];
      var n := FinishSteer(db, action.ref, action.message, v).value;
      Keeps(db, n, action.ref.dialog, Steered(action.message, false))
  {
    hide Core, Moves, Calm, Append, Announce, SetUnknown, EndSteer, Tick, HasAttempt, Debt;
    var action := db.actions[c];
    var x := action.ref.dialog;
    var m := action.message;
    var ex := Steered(m, false);
    SteerFacts(db, c);
    SteeredOwns(db, m);
    EndSteerKeeps(db, m, v, x);
    SteerEnds(db, m, v);
    var d0 := EndSteer(db, m, v);
    var e := Event(DispositionChanged(m), None, None, None, None, false);
    Ticked(db, d0, true, x, ex);
    var d1 := Append(Tick(d0, true), e);
    Appended(db, Tick(d0, true), e, x, ex);
    if v == Doubt {
      TickSame(d0, e);
      SetUnknownKeeps(d1, action.ref, UnknownEffect, x, ex);
      var d2 := SetUnknown(d1, action.ref, UnknownEffect).value;
      Chain(db, d1, d2, x, ex);
      Announced(db, d2, x, ex);
    } else {
      Announced(db, d1, x, ex);
    }
  }

  lemma TickSame(d: Ledger, e: Event)
    ensures var n := Append(Tick(d, true), e); n.attempts == d.attempts && n.requests == d.requests
  {
  }

  /** The mark that precedes the verdict on an answer outside the contract. */
  lemma ContradictedStep(db: Ledger, c: Id)
    requires Core(db) && c in db.actions && db.actions[c].kind == SteerMessage && Unresolved(db.actions[c].status)
    requires UnderSteering(db.messages, db.requests, db.actions[c].message, false)
    requires MarkUnknown(db, db.actions[c].ref, UnknownEffect).Ok?
    ensures var action := db.actions[c];
      var n := MarkUnknown(db, action.ref, UnknownEffect).value;
      Keeps(db, n, action.ref.dialog, Steered(action.message, true))
  {
    hide Core, Keeps, SetUnknown, HasAttempt;
    SteerFacts(db, c);
    SetUnknownSteered(db, db.actions[c].ref, db.actions[c].message, UnknownEffect, db.actions[c].ref.dialog);
  }
}
