/** No step disturbs a dialog that is deleted, or one that is settled while a hold
    covers it. */
module Quiescence {
  import opened LedgerTypes
  import opened Transactions
  import opened LedgerInvariant
  import Budget = OutputBudget
  import opened Pieces
  import opened CommandSteps
  import opened WorkerSteps
  import opened EventSteps
  import opened HoldPieces

  /** The step may have acted in `d` only if `d` is not deleted, and it left `d`
      settled if `d` was settled under a hold. */
  ghost predicate Spares(o: Ledger, n: Ledger, d: Id) {
    exists x :: SparesAs(o, n, d, x)
  }

  ghost predicate SparesAs(o: Ledger, n: Ledger, d: Id, x: Id) {
    Moves(o, n, x) && (x == d ==> d !in o.tombstones && (Settled(o, d) && Held(o, d) ==> Settled(n, d)))
  }

  // -------------------------------------------------- the other dialogs

  lemma SettledRows(o: Ledger, n: Ledger, x: Id, d: Id)
    requires SameRequests(o.requests, n.requests, x) && SameAttempts(o.attempts, n.attempts, x)
    requires SameEvents(o.events, n.events, x)
    requires SettledRequests(o.requests, d) && SettledAttempts(o.attempts, d) && SettledEvents(o.events, d) && d != x
    ensures SettledRequests(n.requests, d) && SettledAttempts(n.attempts, d) && SettledEvents(n.events, d)
    ensures NoneQueued(o.requests, d) ==> NoneQueued(n.requests, d)
  {
  }

  lemma SettledEffects(o: Ledger, n: Ledger, x: Id, d: Id)
    requires SameAttempts(o.attempts, n.attempts, x) && d != x && EffectRows(o.approvals, o.inputs, o.tools, o.attempts)
    requires SameApprovals(o.approvals, n.approvals, n.attempts, x) && SameInputs(o.inputs, n.inputs, n.attempts, x)
    requires SameTools(o.tools, n.tools, n.attempts, x)
    requires SettledTools(o.tools, o.attempts, d) && SettledApprovals(o.approvals, o.attempts, d)
    requires SettledInputs(o.inputs, o.attempts, d)
    ensures SettledTools(n.tools, n.attempts, d) && SettledApprovals(n.approvals, n.attempts, d)
    ensures SettledInputs(n.inputs, n.attempts, d)
  {
  }

  lemma SettledActs(o: Ledger, n: Ledger, x: Id, d: Id)
    requires SameAttempts(o.attempts, n.attempts, x) && SameActions(o.actions, n.actions, x) && d != x
    requires ActionRows(o.actions, o.attempts, o.messages) && ActionRows(n.actions, n.attempts, n.messages)
    requires SettledActions(o.actions, o.attempts, d)
    ensures SettledActions(n.actions, n.attempts, d)
  {
  }

  lemma SettledElsewhere(o: Ledger, n: Ledger, x: Id, d: Id)
    requires Core(o) && Core(n) && Moves(o, n, x) && d != x && Settled(o, d)
    ensures Settled(n, d) && (NoneQueued(o.requests, d) ==> NoneQueued(n.requests, d))
  {
    hide LogInv, SlotInv, RequestRows, OrderInv, AttemptRows, ActionRows, EffectRows, MessageRows, KeyInv,
         AnswerRows, StartRows, PhaseRows, InputRows, RevisionInv, CountInv, SteerInv, HoldInv, SameRequests,
         SameAttempts, SameMessages, SameActions, SameApprovals, SameInputs, SameTools, SameEvents, QueueMoves,
         SettledRequests, SettledAttempts, SettledActions, SettledTools, SettledApprovals, SettledInputs,
         SettledEvents, NoneQueued;
    SettledRows(o, n, x, d);
    SettledEffects(o, n, x, d);
    SettledActs(o, n, x, d);
  }

  // ------------------------------------------------------ evidence of work

  lemma LiveUnsettled(db: Ledger, a: Id)
    requires a in db.attempts && Live(db.attempts[a].phase)
    ensures !Settled(db, db.attempts[a].dialog)
  {
    hide SettledRequests, SettledActions, SettledTools, SettledApprovals, SettledInputs, SettledEvents;
    var d := db.attempts[a].dialog;
    assert !SettledAttempts(db.attempts, d);
  }

  lemma ActionUnsettled(db: Ledger, c: Id)
    requires Core(db) && c in db.actions && Unresolved(db.actions[c].status)
    ensures !Settled(db, db.actions[c].ref.dialog)
  {
    hide Core, SettledRequests, SettledAttempts, SettledTools, SettledApprovals, SettledInputs, SettledEvents;
    ActionFacts(db, c);
    assert !SettledActions(db.actions, db.attempts, db.actions[c].ref.dialog);
  }

  lemma TombstoneSettled(db: Ledger, d: Id)
    requires TombstoneInv(db) && d in db.tombstones
    ensures Settled(db, d) && NoneQueued(db.requests, d)
  {
    hide Settled, NoneQueued;
  }

  /** A step in a dialog with open work. */
  lemma SparesBusy(o: Ledger, n: Ledger, x: Id, d: Id)
    requires TombstoneInv(o) && Moves(o, n, x) && !Settled(o, x)
    ensures Spares(o, n, d)
  {
    hide Settled, Moves, NoneQueued;
    assert SparesAs(o, n, d, x) by {
      if x in o.tombstones { TombstoneSettled(o, x); }
    }
  }

  // ------------------------------------------------------------- commands

  /** The change a cancellation makes, table by table. */
  lemma CancelTables(db: Ledger, c: Command)
    requires c.RequestCancel? && ApplyRequestCancel(db, c).Ok? && LogInv(db.events, db.node.lastSeq)
    ensures var n := ApplyRequestCancel(db, c).value.db;
      && n.attempts == db.attempts && n.actions == db.actions && n.tools == db.tools && n.approvals == db.approvals
      && n.inputs == db.inputs
      && (forall r :: r in n.requests ==> r in db.requests && n.requests[r].dialog == db.requests[r].dialog
                                           && n.requests[r].status in {db.requests[r].status, Cancelled})
      && (forall k :: k in n.events && k !in db.events ==> n.events[k].dialog.None?)
      && (forall k :: k in db.events ==> k in n.events && n.events[k] == db.events[k])
    ensures ApplyRequestCancel(db, c).value.action.None?
  {
    hide Bump;
  }

  lemma CancelSettled(db: Ledger, n: Ledger, d: Id)
    requires n.attempts == db.attempts && n.actions == db.actions && n.tools == db.tools
    requires n.approvals == db.approvals && n.inputs == db.inputs
    requires forall r :: r in n.requests ==> r in db.requests && n.requests[r].dialog == db.requests[r].dialog
                                              && n.requests[r].status in {db.requests[r].status, Cancelled}
    requires forall k :: k in n.events && k !in db.events ==> n.events[k].dialog.None?
    requires forall k :: k in db.events ==> k in n.events && n.events[k] == db.events[k]
    requires Settled(db, d)
    ensures Settled(n, d)
  {
    hide SettledAttempts, SettledActions, SettledTools, SettledApprovals, SettledInputs;
  }

  /** Of the commands aimed at a settled dialog under a hold only a cancellation
      gets through. */
  lemma HeldCommand(db: Ledger, c: Command, a: Id, b: Id, d: Id)
    requires Core(db) && Authorized(db, c) && !IsNodeCommand(c) && Apply(db, c, a, b).Ok?
    requires TargetDialog(db, c) == Some(d)
    requires Settled(db, d) && Held(db, d) && forall h :: h in db.holds ==> !Stops(db, h, c)
    ensures c.RequestCancel?
  {
    hide Core, Settled, SettledRequests, SettledActions, SettledTools, SettledEvents, ApplyDialogCreate,
         ApplyRequestCancel, ApplyQueueResume;
    match c {
      case MessageEnqueue(_, _, _) => assert false;
      case AttemptRetry(_, _, _) => assert false;
      case AttemptStop(e, _) => LiveUnsettled(db, e);
      case MessageSteer(_, _, e, _, _) => LiveUnsettled(db, e);
      case ApprovalRespond(p, _, _, _, _, _) => OpenApprovalUnsettled(db, p);
      case InputRespond(i, _, _, _, _) => OpenInputUnsettled(db, i);
      case _ =>
    }
  }

  lemma OpenApprovalUnsettled(db: Ledger, p: Id)
    requires p in db.approvals && db.approvals[p].status != Resolved && db.approvals[p].attempt in db.attempts
    ensures !Settled(db, db.attempts[db.approvals[p].attempt].dialog)
  {
    hide SettledRequests, SettledAttempts, SettledActions, SettledTools, SettledInputs, SettledEvents;
    assert !SettledApprovals(db.approvals, db.attempts, db.attempts[db.approvals[p].attempt].dialog);
  }

  lemma OpenInputUnsettled(db: Ledger, i: Id)
    requires i in db.inputs && db.inputs[i].status != Resolved && db.inputs[i].attempt in db.attempts
    ensures !Settled(db, db.attempts[db.inputs[i].attempt].dialog)
  {
    hide SettledRequests, SettledAttempts, SettledActions, SettledTools, SettledApprovals, SettledEvents;
    assert !SettledInputs(db.inputs, db.attempts, db.attempts[db.inputs[i].attempt].dialog);
  }

  lemma GuardTables(db: Ledger, c: Command, space: bool)
    ensures StorageGuard(db, c, space) == db.(node := StorageGuard(db, c, space).node)
    ensures StorageGuard(db, c, space).node.lastSeq == db.node.lastSeq
  {
    hide IsAdmission;
    if !(IsAdmission(c) || space) {
      assert StorageGuard(db, c, space) ==
          db.(node := db.node.(readiness := IsBlocked, reasons := db.node.reasons + {StorageUnavailable}));
    }
  }

  lemma NodeIrrelevant(db: Ledger, node: NodeState, c: Command, d: Id)
    ensures var n := db.(node := node);
      && Settled(n, d) == Settled(db, d) && Held(n, d) == Held(db, d) && Authorized(n, c) == Authorized(db, c)
      && TargetDialog(n, c) == TargetDialog(db, c)
      && forall h :: Stops(n, h, c) == Stops(db, h, c)
  {
    hide SettledRequests, SettledAttempts, SettledActions, SettledTools, SettledApprovals, SettledInputs,
         SettledEvents, HeldBy;
  }

  lemma CancelledSettled(db: Ledger, id: Id, c: Command, a: Id, b: Id, d: Id)
    requires c.RequestCancel? && Execute(db, id, c, a, b).Ok? && LogInv(db.events, db.node.lastSeq) && Settled(db, d)
    ensures Settled(Execute(db, id, c, a, b).value.0, d)
  {
    hide Settled, ApplyRequestCancel, LogInv;
    CancelTables(db, c);
    CancelSettled(db, Execute(db, id, c, a, b).value.0, d);
  }

  lemma ExecuteSpares(db: Ledger, id: Id, c: Command, a: Id, b: Id, d: Id)
    requires Core(db) && Execute(db, id, c, a, b).Ok? && Authorized(db, c) && !IsNodeCommand(c)
    requires TargetDialog(db, c) == Some(d)
    requires Settled(db, d) && Held(db, d) && forall h :: h in db.holds ==> !Stops(db, h, c)
    ensures Settled(Execute(db, id, c, a, b).value.0, d)
  {
    hide Core, Settled, Held, Authorized, Stops, TargetDialog, Apply, LogInv;
    HeldCommand(db, c, a, b, d);
    CoreLog(db);
    CancelledSettled(db, id, c, a, b, d);
  }

  lemma CoreLog(db: Ledger)
    requires Core(db)
    ensures LogInv(db.events, db.node.lastSeq)
  {
    hide LogInv, SlotInv, RequestRows, OrderInv, AttemptRows, ActionRows, EffectRows, MessageRows, KeyInv,
         AnswerRows, StartRows, PhaseRows, InputRows, RevisionInv, CountInv, SteerInv, HoldInv;
  }

  lemma KeepsMoves(o: Ledger, n: Ledger, x: Id, ex: Exempt)
    requires Keeps(o, n, x, ex)
    ensures Moves(o, n, x) && Core(n)
  {
    hide Core, Moves, Calm;
  }

  /** The step acts elsewhere. */
  lemma SparesElsewhere(o: Ledger, n: Ledger, d: Id, x: Id)
    requires Moves(o, n, x) && x != d
    ensures Spares(o, n, d)
  {
    hide Moves, Settled, Held;
    assert SparesAs(o, n, d, x);
  }

  lemma SubmitSpares(db: Ledger, id: Id, c: Command, a: Id, b: Id, space: bool, op: Id, d: Id)
    requires Core(db)
    ensures Spares(db, Submit(db, id, c, a, b, space, op).0, d)
  {
    hide Core, Keeps, Moves, Spares, Settled, Held, Execute, Submit, Stops, Lookup, Accepts, NewSteers, StorageGuard;
    SubmitCases(db, id, c, a, b, space, op);
    var n := Submit(db, id, c, a, b, space, op).0;
    var d0 := StorageGuard(db, c, space);
    if n == db {
      SameTables(db, d + 1);
      SparesElsewhere(db, n, d, d + 1);
    } else if n == db.(rejections := db.rejections[id := Outcome(c, Receipt(None, op, 0))]) {
      Aside(db, db, n, d + 1, Registrar) by { KeepsSelf(db, d + 1, Registrar); }
      KeepsMoves(db, n, d + 1, Registrar);
      SparesElsewhere(db, n, d, d + 1);
    } else {
      var x := if IsNodeCommand(c) then d + 1 else TargetDialog(db, c).value;
      SubmitStep(db, id, c, a, b, space, op, x);
      KeepsMoves(db, n, x, Registrar);
      if x != d {
        SparesElsewhere(db, n, d, x);
      } else {
        SubmitSparesHere(db, id, c, a, b, space, d);
        assert SparesAs(db, n, d, d);
        SparesWitness(db, n, d, d);
      }
    }
  }

  lemma SparesWitness(o: Ledger, n: Ledger, d: Id, x: Id)
    requires SparesAs(o, n, d, x)
    ensures Spares(o, n, d)
  {
    hide SparesAs;
  }

  lemma SubmitSparesHere(db: Ledger, id: Id, c: Command, a: Id, b: Id, space: bool, d: Id)
    requires Core(db) && Execute(StorageGuard(db, c, space), id, c, a, b).Ok? && Authorized(db, c)
    requires !IsNodeCommand(c) && TargetDialog(db, c) == Some(d)
    requires forall h :: h in db.holds ==> !Stops(db, h, c)
    ensures Settled(db, d) && Held(db, d) ==> Settled(Execute(StorageGuard(db, c, space), id, c, a, b).value.0, d)
  {
    hide Core, Settled, Held, Execute, Stops, Authorized, TargetDialog, StorageGuard;
    GuardKeeps(db, c, space, d);
    GuardTables(db, c, space);
    NodeIrrelevant(db, StorageGuard(db, c, space).node, c, d);
    if Settled(db, d) && Held(db, d) {
      ExecuteSpares(StorageGuard(db, c, space), id, c, a, b, d);
    }
  }

  // --------------------------------------------------------------- events

  /** Outside the slot an event reaches only the log and the late ledger. */
  lemma ArchiveTables(db: Ledger, ref: AttemptRef, e: AdapterEvent, valid: bool, kind: LateKind, stop: Id)
    requires ref.attempt in db.attempts && db.node.active != Some(ref.attempt)
    requires Archive(db, ref, e, valid, kind, stop).Ok?
    ensures var n := Archive(db, ref, e, valid, kind, stop).value;
      && n == db.(events := n.events, late := n.late, node := db.node.(lastSeq := n.node.lastSeq))
      && (n.late == db.late
           || (|n.late| == |db.late| + 1 && n.late[..|db.late|] == db.late && n.late[|db.late|].attempt == ref.attempt))
      && (n.events == db.events ||
          exists event :: n.events == db.events[db.node.lastSeq + 1 := event] && event.attempt == Some(ref.attempt)
              && event.late
                          && event.key.Some? && event.key.value.archive && event.digest == Some(Whole(e)))
  {
    hide WellBound, ArchiveDuplicate, ArchiveConflict, ArchivedBytes, BytesOf, BaseOf, KindOf, ScheduleStop;
    var row := db.attempts[ref.attempt];
    var key := Key(true, BaseOf(e, row.version));
    var event := AttemptEvent(KindOf(e), ref, Some(key), Some(Whole(e)), true);
    var bytes := Budget.LateBytes(row.outputBytes, ArchivedBytes(db.late, ref.attempt), BytesOf(e));
    var entry := LateRow(ref.attempt, kind, Some(key), Some(Whole(e)), bytes);
    var d1 := if kind != Late then db else Append(db, event);
    var d2 := d1.(late := d1.late + [entry]);
    StopIdle(d2, ref, stop);
    assert Archive(db, ref, e, valid, kind, stop).value in {db, d2};
  }

  lemma StopIdle(db: Ledger, ref: AttemptRef, stop: Id)
    requires db.node.active != Some(ref.attempt)
    ensures ScheduleStop(db, ref, stop) == Ok(db)
  {
    hide InsertAction, Append, Tick;
  }

  /** Whatever the rows became, they are settled if the log gained no doubtful tool. */
  lemma LogSettled(o: Ledger, n: Ledger, d: Id)
    requires Settled(o, d) && n.requests == o.requests && n.attempts == o.attempts && n.actions == o.actions
    requires n.tools == o.tools && n.approvals == o.approvals && n.inputs == o.inputs
    requires forall k :: k in n.events ==> (k in o.events && n.events[k] == o.events[k]) || !DoubtfulTool(n.events[k])
    ensures Settled(n, d)
  {
    hide SettledRequests, SettledAttempts, SettledActions, SettledTools, SettledApprovals, SettledInputs;
  }

  lemma ObserveSpares(db: Ledger, ref: AttemptRef, e: AdapterEvent, valid: bool, marker: Id, stop: Id, d: Id)
    requires Core(db) && TombstoneInv(db) && Observe(db, ref, e, valid, marker, stop).Ok?
    ensures Spares(db, Observe(db, ref, e, valid, marker, stop).value, d)
  {
    hide Core, Keeps, Moves, Spares, Settled, Held, TombstoneInv, Archive, ProjectEvent, Interactive;
    ObserveStep(db, ref, e, valid, marker, stop);
    var n := Observe(db, ref, e, valid, marker, stop).value;
    KeepsMoves(db, n, ref.dialog, Nobody);
    if ref.dialog != d {
      SparesElsewhere(db, n, d, ref.dialog);
    } else if Live(db.attempts[ref.attempt].phase) {
      LiveUnsettled(db, ref.attempt);
      SparesBusy(db, n, d, d);
    } else {
      AttemptFacts(db, ref.attempt);
      ArchiveTables(db, ref, e, valid, Late, stop);
      if Settled(db, d) { LogSettled(db, n, d); }
      assert SparesAs(db, n, d, d);
      SparesWitness(db, n, d, d);
    }
  }

  /** The row differs in its counters and in what has been said. */
  predicate SameButOutput(o: Attempt, n: Attempt) {
    n == o.(outputBytes := n.outputBytes, artifacts := n.artifacts, said := n.said)
  }

  /** The rows an artifact for an attempt outside the slot may change. */
  ghost predicate OnlyOutput(o: Ledger, n: Ledger, a: Id) {
    && a in o.attempts && a in n.attempts && SameButOutput(o.attempts[a], n.attempts[a])
    && n == o.(attempts := o.attempts[a := n.attempts[a]], messages := n.messages, events := n.events, node := n.node)
    && (forall k :: k in n.events ==> (k in o.events && n.events[k] == o.events[k]) || !DoubtfulTool(n.events[k]))
  }

  lemma ArtifactTables(db: Ledger, ref: AttemptRef, bytes: int, marker: Id, stop: Id)
    requires ref.attempt in db.attempts && db.node.active != Some(ref.attempt)
    requires PublishArtifact(db, ref, bytes, marker, stop).Ok?
    ensures OnlyOutput(db, PublishArtifact(db, ref, bytes, marker, stop).value, ref.attempt)
  {
    hide ArchivedBytes, KeyTaken, MarkLimit, ScheduleStop, Append, PutAttempt, OnlyOutput;
    var row := db.attempts[ref.attempt];
    var next := row.(outputBytes := Budget.LiveBytes(row.outputBytes, ArchivedBytes(db.late, ref.attempt), bytes));
    var charged := PutAttempt(db, ref.attempt, next);
    OutputPut(db, ref.attempt, row);
    OutputPut(db, ref.attempt, next);
    LimitTables(charged, ref, marker);
    OutputTrans(db, charged, MarkLimit(charged, ref, marker, true), ref.attempt);
    StopIdle(MarkLimit(charged, ref, marker, true), ref, stop);
    var stored := PutAttempt(db, ref.attempt, next.(artifacts := row.artifacts + 1));
    OutputPut(db, ref.attempt, next.(artifacts := row.artifacts + 1));
    NotedTables(stored, ref);
    OutputTrans(db, stored, Append(stored, AttemptEvent(OtherEvent, ref, None, None, false)), ref.attempt);
  }

  lemma OutputPut(db: Ledger, a: Id, row: Attempt)
    requires a in db.attempts && SameButOutput(db.attempts[a], row)
    ensures var n := PutAttempt(db, a, row);
      && a in n.attempts && OnlyOutput(db, n, a) && n.node == db.node && (row == db.attempts[a] ==> n == db)
  {
    hide DoubtfulTool;
    assert row == db.attempts[a] ==> db.attempts[a := row] == db.attempts;
  }

  lemma OutputTrans(a: Ledger, b: Ledger, c: Ledger, x: Id)
    requires OnlyOutput(a, b, x) && OnlyOutput(b, c, x)
    ensures OnlyOutput(a, c, x)
  {
    hide DoubtfulTool;
  }

  lemma LimitTables(db: Ledger, ref: AttemptRef, marker: Id)
    requires ref.attempt in db.attempts
    ensures var n := MarkLimit(db, ref, marker, true);
      OnlyOutput(db, n, ref.attempt) && n.node.active == db.node.active
  {
  }

  lemma NotedTables(db: Ledger, ref: AttemptRef)
    requires ref.attempt in db.attempts
    ensures OnlyOutput(db, Append(db, AttemptEvent(OtherEvent, ref, None, None, false)), ref.attempt)
  {
    assert db.attempts[ref.attempt := db.attempts[ref.attempt]] == db.attempts;
  }

  lemma ArtifactSettled(o: Ledger, n: Ledger, a: Id, d: Id)
    requires Settled(o, d) && OnlyOutput(o, n, a)
    ensures Settled(n, d)
  {
    hide SettledRequests;
    forall b ensures Belongs(n.attempts, b, d) == Belongs(o.attempts, b, d) {
    }
  }

  lemma ArtifactSpares(db: Ledger, ref: AttemptRef, bytes: int, marker: Id, stop: Id, d: Id)
    requires Core(db) && TombstoneInv(db) && PublishArtifact(db, ref, bytes, marker, stop).Ok?
    ensures Spares(db, PublishArtifact(db, ref, bytes, marker, stop).value, d)
  {
    hide Core, Keeps, Moves, Spares, Settled, Held, TombstoneInv, PublishArtifact;
    ArtifactStep(db, ref, bytes, marker, stop);
    var n := PublishArtifact(db, ref, bytes, marker, stop).value;
    KeepsMoves(db, n, ref.dialog, Nobody);
    if ref.dialog != d {
      SparesElsewhere(db, n, d, ref.dialog);
    } else if Live(db.attempts[ref.attempt].phase) {
      LiveUnsettled(db, ref.attempt);
      SparesBusy(db, n, d, d);
    } else {
      AttemptFacts(db, ref.attempt);
      ArtifactTables(db, ref, bytes, marker, stop);
      if Settled(db, d) { ArtifactSettled(db, n, ref.attempt, d); }
      assert SparesAs(db, n, d, d);
      SparesWitness(db, n, d, d);
    }
  }

  lemma ReconcileSpares(db: Ledger, ref: AttemptRef, newId: Id, e: AdapterEvent, valid: bool, marker: Id, stop: Id,
                        d: Id)
    requires Core(db) && TombstoneInv(db) && Reconcile(db, ref, newId, e, valid, marker, stop).Ok?
    ensures Spares(db, Reconcile(db, ref, newId, e, valid, marker, stop).value, d)
  {
    hide Core, Keeps, Moves, Spares, Settled, Held, TombstoneInv, Reconcile;
    ReconcileStep(db, ref, newId, e, valid, marker, stop);
    var n := Reconcile(db, ref, newId, e, valid, marker, stop).value;
    KeepsMoves(db, n, ref.dialog, Nobody);
    LiveUnsettled(db, ref.attempt);
    SparesBusy(db, n, ref.dialog, d);
  }

  // -------------------------------------------------- dispatch and deletion

  lemma DispatchSpares(db: Ledger, c: Candidate, a: Id, g: int, d: Id)
    requires Core(db) && TombstoneInv(db) && DispatchNext(db, c, a, g).Ok?
    ensures Spares(db, DispatchNext(db, c, a, g).value, d)
  {
    hide Core, Keeps, Moves, Spares, Settled, Held, TombstoneInv, DispatchNext;
    DispatchStep(db, c, a, g);
    var n := DispatchNext(db, c, a, g).value;
    KeepsMoves(db, n, c.dialog, Steered(c.message, false));
    if c.dialog != d {
      SparesElsewhere(db, n, d, c.dialog);
    } else {
      if d in db.tombstones { TombstoneSettled(db, d); }
      assert SparesAs(db, n, d, d);
      SparesWitness(db, n, d, d);
    }
  }

  lemma DeleteTables(db: Ledger, op: Id, request: DeleteRequest)
    requires DeleteDialog(db, op, request).Ok? && op !in db.deletions
    ensures var n := DeleteDialog(db, op, request).value;
      var e := Event(DialogDeleted, None, Some(request.dialog), Some(Key(false, KDeleted)), None, false);
      && n.requests == db.requests && n.attempts == db.attempts && n.actions == db.actions && n.messages == db.messages
      && n.tools == db.tools && n.approvals == db.approvals && n.inputs == db.inputs
      && n.events == db.events[db.node.lastSeq + 1 := e]
      && n.tombstones == db.tombstones + {request.dialog} && request.dialog !in db.tombstones
      && request.dialog in db.dialogs
      && Settled(db, request.dialog) && NoneQueued(db.requests, request.dialog)
      && n.rejections == db.rejections && n.commands == db.commands[request.command := n.commands[request.command]]
      && Lookup(db, request.command).None?
      && n.commands[request.command].command == DialogDelete(request.dialog, request.dialogVersion)
  {
    hide Settled, NoneQueued, Revision;
  }

  lemma DeleteSpares(db: Ledger, op: Id, request: DeleteRequest, d: Id)
    requires Core(db) && DeleteDialog(db, op, request).Ok?
    ensures Spares(db, DeleteDialog(db, op, request).value, d)
  {
    hide Core, Keeps, Moves, Spares, Settled, Held, NoneQueued, Revision, Lookup;
    DeleteKeeps(db, op, request);
    var n := DeleteDialog(db, op, request).value;
    KeepsMoves(db, n, request.dialog, Registrar);
    if op in db.deletions {
      SameTables(db, d + 1);
      SparesElsewhere(db, n, d, d + 1);
    } else if request.dialog != d {
      SparesElsewhere(db, n, d, request.dialog);
    } else {
      DeleteTables(db, op, request);
      LogSettled(db, n, d);
      assert SparesAs(db, n, d, d);
      SparesWitness(db, n, d, d);
    }
  }
}
