/** The building blocks of holds, deletion and recovery. */
module HoldPieces {
  import opened LedgerTypes
  import opened Transactions
  import opened LedgerInvariant
  import opened Pieces

  /** The pre-start barrier: whatever a new hold covers has no dispatch left that
      could still reach the provider. */
  lemma Barrier(db: Ledger, op: Id, hold: Hold)
    requires Core(db) && op !in db.holds && !PreStart(db, hold.request.scope)
    ensures HoldInv(db.attempts, db.actions, db.holds[op := hold], db.holdEnds)
  {
    hide LogInv, SlotInv, RequestRows, OrderInv, AttemptRows, ActionRows, EffectRows, MessageRows, KeyInv,
         AnswerRows, InputRows, RevisionInv, CountInv, SteerInv;
    forall a | a in db.attempts && db.attempts[a].phase == Dispatching && a in db.actions
        && db.actions[a].status in {Pending, Inflight}
      ensures !HeldBy(db.holds[op := hold], db.holdEnds, db.attempts[a].dialog)
    {
      assert !HeldBy(db.holds, db.holdEnds, db.attempts[a].dialog);
      assert !db.attempts[a].started && db.actions[a].kind == DispatchStart && db.actions[a].ref.attempt == a;
      assert !Covers(hold.request.scope, db.attempts[a].dialog);
    }
  }

  lemma Lifted(db: Ledger, op: Id, end: HoldEnd)
    requires HoldInv(db.attempts, db.actions, db.holds, db.holdEnds)
    ensures HoldInv(db.attempts, db.actions, db.holds, db.holdEnds[op := end])
  {
    forall d | HeldBy(db.holds, db.holdEnds[op := end], d)
      ensures HeldBy(db.holds, db.holdEnds, d)
    {
    }
  }

  lemma InstallKeeps(db: Ledger, op: Id, request: InstallRequest, x: Id)
    requires Core(db) && InstallHold(db, op, request).Ok?
    ensures Keeps(db, InstallHold(db, op, request).value, x, Registrar)
  {
    hide LogInv, SlotInv, RequestRows, OrderInv, AttemptRows, ActionRows, EffectRows, MessageRows, KeyInv,
         AnswerRows, StartRows, PhaseRows, InputRows, RevisionInv, CountInv, SteerInv, HoldInv, PreStart, ScopeTaken,
         SameRequests, SameAttempts, SameMessages, SameActions, SameApprovals, Revision, SameInputs, SameTools,
         SameEvents, QueueMoves, GrowActions, KeepStarted, KeepSteered, NoNewDebt;
    SameTables(db, x);
    SameCalm(db, Registrar);
    if op !in db.holds {
      Barrier(db, op, Hold(request, db.holdClock, request.scopeRevision + 1));
    }
  }

  lemma ReleaseKeeps(db: Ledger, op: Id, request: ReleaseRequest, x: Id)
    requires Core(db) && ReleaseHold(db, op, request).Ok?
    ensures Keeps(db, ReleaseHold(db, op, request).value, x, Registrar)
  {
    hide LogInv, SlotInv, RequestRows, OrderInv, AttemptRows, ActionRows, EffectRows, MessageRows, KeyInv,
         AnswerRows, StartRows, PhaseRows, InputRows, RevisionInv, CountInv, SteerInv, HoldInv, Revision,
         SameRequests, SameAttempts, SameMessages, SameActions, SameApprovals, SameInputs, SameTools, SameEvents,
         QueueMoves, GrowActions, KeepStarted, KeepSteered, NoNewDebt;
    SameTables(db, x);
    SameCalm(db, Registrar);
    Lifted(db, op, Released(request));
  }

  lemma BuryTables(db: Ledger, d: Id, dialog: Dialog)
    requires Core(db) && d in db.dialogs
    ensures RequestRows(db.requests, db.messages, db.dialogs[d := dialog])
    ensures MessageRows(db.messages, db.dialogs[d := dialog])
    ensures RevisionInv(db.queueRevisions, db.dialogs[d := dialog])
  {
    hide LogInv, SlotInv, AttemptRows, ActionRows, EffectRows, StartRows, PhaseRows, InputRows, CountInv, SteerInv,
         HoldInv;
  }

  lemma BuryKeeps(db: Ledger, d: Id, x: Id)
    requires Core(db) && d in db.dialogs
    ensures Keeps(db, Bury(db, d), x, Registrar)
  {
    hide LogInv, SlotInv, RequestRows, OrderInv, AttemptRows, ActionRows, EffectRows, MessageRows, KeyInv,
         AnswerRows, StartRows, PhaseRows, InputRows, RevisionInv, CountInv, SteerInv, HoldInv, SameRequests,
         SameAttempts, SameMessages, SameActions, SameApprovals, SameInputs, SameTools, SameEvents, QueueMoves,
         GrowActions, KeepStarted, KeepSteered, NoNewDebt;
    SameTables(db, x);
    SameCalm(db, Registrar);
    BuryTables(db, d, Dialog(db.dialogs[d].version + 1));
  }

  /** Ends a hold, with whatever else leaves the invariants' tables alone. */
  lemma LiftKeeps(db: Ledger, op: Id, end: HoldEnd, x: Id)
    requires Core(db)
    ensures Keeps(db, db.(holdEnds := db.holdEnds[op := end]), x, Registrar)
  {
    hide LogInv, SlotInv, RequestRows, OrderInv, AttemptRows, ActionRows, EffectRows, MessageRows, KeyInv,
         AnswerRows, StartRows, PhaseRows, InputRows, RevisionInv, CountInv, SteerInv, HoldInv, SameRequests,
         SameAttempts, SameMessages, SameActions, SameApprovals, SameInputs, SameTools, SameEvents, QueueMoves,
         GrowActions, KeepStarted, KeepSteered, NoNewDebt;
    SameTables(db, x);
    SameCalm(db, Registrar);
    Lifted(db, op, end);
  }

  lemma DeleteKeeps(db: Ledger, op: Id, request: DeleteRequest)
    requires Core(db) && DeleteDialog(db, op, request).Ok?
    ensures Keeps(db, DeleteDialog(db, op, request).value, request.dialog, Registrar)
  {
    hide Core, Moves, Calm, Settled, NoneQueued, Revision, Append;
    var n := DeleteDialog(db, op, request).value;
    var d := request.dialog;
    if op in db.deletions {
      KeepsSelf(db, d, Registrar);
    } else {
      var e := Event(DialogDeleted, None, Some(d), Some(Key(false, KDeleted)), None, false);
      var d1 := Bury(db, d);
      var d2 := Tick(d1, false);
      var d3 := Append(d2, e);
      var d4 := d3.(holdEnds := d3.holdEnds[op := EndedByDelete(request)]);
      BuryKeeps(db, d, d);
      AsideKeeps(d1, d2, d, Registrar);
      Chain(db, d1, d2, d, Registrar);
      AppendKeeps(d2, e, d, Registrar);
      Chain(db, d2, d3, d, Registrar);
      LiftKeeps(d3, op, EndedByDelete(request), d);
      Chain(db, d3, d4, d, Registrar);
      AsideKeeps(d4, n, d, Registrar);
      Chain(db, d4, n, d, Registrar);
    }
  }

  // --------------------------------------------------------------- recovery

  lemma ForgetKeeps(db: Ledger)
    requires Core(db)
    ensures Core(db.(actions := Forget(db.actions)))
  {
    hide LogInv, SlotInv, RequestRows, OrderInv, AttemptRows, EffectRows, MessageRows, KeyInv, PhaseRows, InputRows,
         RevisionInv, CountInv, HasAttempt, HeldBy;
  }
}
