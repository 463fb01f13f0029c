/** Every step of the supervisor keeps the system invariant and spares deleted and
    quiescent dialogs. */
module SystemSteps {
  import opened LedgerTypes
  import opened Transactions
  import opened LedgerInvariant
  import opened Supervisor
  import opened SystemInvariant
  import opened Quiescence
  import opened Pieces
  import opened SteerPieces
  import opened HoldPieces
  import opened CommandSteps
  import opened WorkerSteps
  import opened EventSteps

  ghost predicate SparesAll(o: Ledger, n: Ledger) {
    forall d :: Spares(o, n, d)
  }

  ghost function DebtOf(db: Ledger): set<Id> {
    Debt(db.messages, db.requests, db.attempts)
  }

  ghost predicate NodeHeld(db: Ledger) {
    exists op :: op in db.holds && op !in db.holdEnds && db.holds[op].request.scope.NodeScope?
  }

  /** Outcomes, holds and tombstones are never changed or withdrawn, and no dialog
      is founded under a node hold. */
  ghost predicate RecordsGrow(o: Ledger, n: Ledger) {
    && (forall i :: i in o.commands ==> i in n.commands && n.commands[i] == o.commands[i])
    && (forall i :: i in o.rejections ==> i in n.rejections && n.rejections[i] == o.rejections[i])
    && (forall i :: i in o.holds ==> i in n.holds && n.holds[i] == o.holds[i])
    && (forall i :: i in o.holdEnds ==> i in n.holdEnds && n.holdEnds[i] == o.holdEnds[i])
    && (forall i :: i in o.deletions ==> i in n.deletions && n.deletions[i] == o.deletions[i])
    && o.tombstones <= n.tombstones
    && (n.dialogs.Keys == o.dialogs.Keys || !NodeHeld(o))
  }

  lemma SameRecordsGrow(o: Ledger, n: Ledger)
    requires SameRecords(o, n) && n.dialogs.Keys == o.dialogs.Keys
    ensures RecordsGrow(o, n)
  {
    hide NodeHeld;
  }

  /** What the few irregular steps leave behind: messages in debt, ended attempts
      brought back, and steer actions that are resolved. */
  datatype Toll = Toll(owed: set<Id>, revived: set<Id>, loosed: set<Id>)

  const FREE := Toll({}, {}, {})

  ghost predicate EndedKept(o: map<Id, Attempt>, n: map<Id, Attempt>, revived: set<Id>) {
    forall a :: a in o && o[a].phase.Ended? && a !in revived ==> a in n && n[a].phase == o[a].phase
  }

  /** A steer that is not resolved yet. */
  predicate OpenSteer(actions: map<Id, Action>, c: Id, m: Id) {
    c in actions && actions[c].kind == SteerMessage && actions[c].message == m && Unresolved(actions[c].status)
  }

  /** An answer that has been taken up and is not resolved yet. */
  predicate OpenAnswer(actions: map<Id, Action>, c: Id, a: Id) {
    && c in actions && actions[c].kind in {AnswerApproval, AnswerInput} && actions[c].ref.attempt == a
    && actions[c].status in {Inflight, Unsettled}
  }

  ghost predicate Pinned(actions: map<Id, Action>, m: Id) {
    exists c :: OpenSteer(actions, c, m)
  }

  /** Open steers and answers stay open, and a message comes under steering with one. */
  ghost predicate PinsKept(o: Ledger, n: Ledger, loosed: set<Id>) {
    && (forall c, m :: OpenSteer(o.actions, c, m) && c !in loosed ==> OpenSteer(n.actions, c, m))
    && (forall c, a :: OpenAnswer(o.actions, c, a) && c !in loosed ==> OpenAnswer(n.actions, c, a))
    && (forall m :: ComesUnder(o.messages, n.messages, m) ==> Pinned(n.actions, m))
  }

  ghost predicate Within(o: Ledger, n: Ledger, toll: Toll) {
    && DebtOf(n) <= DebtOf(o) + toll.owed
    && EndedKept(o.attempts, n.attempts, toll.revived)
    && PinsKept(o, n, toll.loosed)
  }

  lemma WithinDebt(o: Ledger, n: Ledger, toll: Toll)
    requires Within(o, n, toll)
    ensures DebtOf(n) <= DebtOf(o) + toll.owed
  {
    hide DebtOf, EndedKept, PinsKept;
  }

  /** The promise of one step. */
  ghost predicate Safe(s: Sys, t: Sys, toll: Toll) {
    SysInv(t) && SparesAll(s.db, t.db) && RecordsGrow(s.db, t.db) && Within(s.db, t.db, toll)
  }

  function TollOf(ex: Exempt): Toll {
    Toll(if ex.Steered? && ex.owes then {ex.m} else {}, if ex.Revives? then {ex.a} else {}, {})
  }

  lemma KeepsEnded(o: Ledger, n: Ledger, x: Id, ex: Exempt)
    requires Keeps(o, n, x, ex)
    ensures DebtOf(n) <= DebtOf(o) + TollOf(ex).owed && EndedKept(o.attempts, n.attempts, TollOf(ex).revived)
    ensures forall c, m :: OpenSteer(o.actions, c, m) ==> OpenSteer(n.actions, c, m)
    ensures forall c, a :: OpenAnswer(o.actions, c, a) ==> OpenAnswer(n.actions, c, a)
  {
    hide Core, Moves, KeepSteered, SameRecords, Debt;
  }

  lemma KeepsPins(o: Ledger, n: Ledger, x: Id, ex: Exempt)
    requires Keeps(o, n, x, ex) && ex !in {Registrar, Steerer}
    ensures forall m :: !ComesUnder(o.messages, n.messages, m)
  {
    hide Core, Moves, GrowActions, KeepStarted, NoNewDebt, SameRecords, UnderSteering;
  }

  lemma KeepsWithin(o: Ledger, n: Ledger, x: Id, ex: Exempt)
    requires Keeps(o, n, x, ex) && ex !in {Registrar, Steerer}
    ensures Within(o, n, TollOf(ex))
  {
    hide Keeps, DebtOf, EndedKept, OpenSteer, ComesUnder;
    KeepsEnded(o, n, x, ex);
    KeepsPins(o, n, x, ex);
  }

  /** Records are written without touching messages. */
  lemma RecordsWithin(o: Ledger, n: Ledger, x: Id)
    requires Keeps(o, n, x, Registrar) && n.messages == o.messages
    ensures Within(o, n, FREE)
  {
    hide Keeps, DebtOf, EndedKept, OpenSteer;
    KeepsEnded(o, n, x, Registrar);
  }

  lemma SubmitWithin(o: Ledger, n: Ledger, x: Id, id: Id)
    requires Keeps(o, n, x, Registrar) && NewSteers(o, n, id)
    ensures Within(o, n, FREE)
  {
    hide Keeps, DebtOf, EndedKept, Steers;
    KeepsEnded(o, n, x, Registrar);
    forall m | ComesUnder(o.messages, n.messages, m)
      ensures Pinned(n.actions, m)
    {
      assert OpenSteer(n.actions, id, m);
    }
  }

  lemma SelfWithin(db: Ledger)
    ensures Within(db, db, FREE)
  {
    hide Debt;
  }

  // ----------------------------------------------------------- the ledger

  lemma TombstonesKept(o: Ledger, n: Ledger)
    requires Core(o) && TombstoneInv(o) && Core(n) && SparesAll(o, n)
    requires forall d :: d in n.tombstones && d !in o.tombstones ==>
        d in n.dialogs && Settled(n, d) && NoneQueued(n.requests, d)
    ensures TombstoneInv(n)
  {
    hide Core, Settled, NoneQueued;
    forall d | d in o.tombstones
      ensures d in n.dialogs && Settled(n, d) && NoneQueued(n.requests, d)
    {
      assert Spares(o, n, d);
      var x :| SparesAs(o, n, d, x);
      MovesDialogs(o, n, x);
      SettledElsewhere(o, n, x, d);
    }
  }

  lemma MovesDialogs(o: Ledger, n: Ledger, x: Id)
    requires Moves(o, n, x)
    ensures forall d :: d in o.dialogs ==> d in n.dialogs
  {
    hide SameRequests, SameAttempts, SameMessages, SameActions, SameApprovals, SameInputs, SameTools, SameEvents,
         QueueMoves;
  }

  lemma SameRecordsLedger(o: Ledger, n: Ledger)
    requires LedgerInv(o) && Core(n) && SameRecords(o, n) && SparesAll(o, n)
    ensures LedgerInv(n)
  {
    hide Core, SparesAll, TombstoneInv;
    TombstonesKept(o, n);
  }

  lemma KeepsRecords(o: Ledger, n: Ledger, x: Id, ex: Exempt)
    requires Keeps(o, n, x, ex) && ex !in {Registrar, Founder}
    ensures SameRecords(o, n) && Core(n) && Moves(o, n, x) && n.dialogs.Keys == o.dialogs.Keys
  {
    hide Core, Moves, GrowActions, KeepStarted, KeepSteered, NoNewDebt, SameRecords;
  }

  /** A transaction under the tasks that writes no records. */
  lemma PlainStep(s: Sys, n: Ledger, x: Id, ex: Exempt)
    requires SysInv(s) && Keeps(s.db, n, x, ex) && ex == Nobody && SparesAll(s.db, n)
    ensures Safe(s, s.(db := n), FREE)
  {
    hide Core, TaskInv, Keeps, SparesAll, TombstoneInv, SameRecords, SteersSettled, DebtOf, Within, RecordsGrow;
    KeepsRecords(s.db, n, x, ex);
    assert LedgerInv(n) by { SameRecordsLedger(s.db, n); }
    assert SteersSettled(s.db, n, s.tasks, ex) by { NobodySettled(s.db, n, s.tasks); }
    TasksKept(s.db, n, s.tasks, s.gate, s.calls, x, ex);
    KeepsWithin(s.db, n, x, ex);
    SameRecordsGrow(s.db, n);
  }

  lemma NobodySettled(o: Ledger, n: Ledger, tasks: map<Id, Pc>)
    ensures SteersSettled(o, n, tasks, Nobody)
  {
  }

  lemma StutterStep(s: Sys)
    requires SysInv(s)
    ensures Safe(s, s, FREE)
  {
    hide SysInv, Within;
    SameRecordsGrow(s.db, s.db);
    SelfWithin(s.db);
    forall d ensures Spares(s.db, s.db, d) {
      SameTables(s.db, d + 1);
      SparesElsewhere(s.db, s.db, d, d + 1);
    }
  }

  /** A step that touches the ledger in no dialog. */
  lemma NodeWide(o: Ledger, n: Ledger, ex: Exempt)
    requires forall x :: Keeps(o, n, x, ex)
    ensures SparesAll(o, n)
  {
    hide Keeps, Spares;
    forall d ensures Spares(o, n, d) {
      KeepsMoves(o, n, d + 1, ex);
      SparesElsewhere(o, n, d, d + 1);
    }
  }

  // ------------------------------------------------------------- commands

  lemma SubmitsStep(s: Sys, id: Id, c: Command, x: Id, y: Id, space: bool, op: Id)
    requires SysInv(s)
    ensures Safe(s, s.(db := Submit(s.db, id, c, x, y, space, op).0), FREE)
  {
    hide Core, TaskInv, TombstoneInv, Keeps, Submit, Spares, NewSteers, TargetDialog, DebtOf, Within, RecordsGrow;
    var n := Submit(s.db, id, c, x, y, space, op).0;
    forall d ensures Spares(s.db, n, d) { SubmitSpares(s.db, id, c, x, y, space, op, d); }
    var z := if TargetDialog(s.db, c).Some? then TargetDialog(s.db, c).value else 0;
    SubmitStep(s.db, id, c, x, y, space, op, z);
    KeepsMoves(s.db, n, z, Registrar);
    TombstonesKept(s.db, n);
    if n.actions == s.db.actions && n.messages == s.db.messages { NoNewSteers(s.db, n, id); }
    TasksRecorded(s.db, n, s.tasks, s.gate, s.calls, z, id);
    SubmitWithin(s.db, n, z, id);
    SubmitGrows(s.db, id, c, x, y, space, op, z);
  }

  lemma SubmitGrows(db: Ledger, id: Id, c: Command, x: Id, y: Id, space: bool, op: Id, z: Id)
    requires Core(db) && ActsIn(db, c, z)
    ensures RecordsGrow(db, Submit(db, id, c, x, y, space, op).0)
  {
    hide Core, Keeps, Submit, NewSteers, ActsIn, RecordsGrow, Accepts, Stops, Lookup;
    SubmitStep(db, id, c, x, y, space, op, z);
    SameRecordsGrow(db, db);
    var n := Submit(db, id, c, x, y, space, op).0;
    if n != db {
      if n == db.(rejections := db.rejections[id := Outcome(c, Receipt(None, op, 0))]) {
        RejectGrows(db, id, Outcome(c, Receipt(None, op, 0)));
      } else {
        AcceptGrows(db, n, id, c);
      }
    }
  }

  lemma RejectGrows(db: Ledger, id: Id, outcome: Outcome)
    requires Lookup(db, id).None?
    ensures RecordsGrow(db, db.(rejections := db.rejections[id := outcome]))
  {
    hide NodeHeld;
  }

  lemma AcceptGrows(db: Ledger, n: Ledger, id: Id, c: Command)
    requires Lookup(db, id).None? && Accepts(db, n, id, c) && forall h :: h in db.holds ==> !Stops(db, h, c)
    ensures RecordsGrow(db, n)
  {
  }

  lemma NoNewSteers(o: Ledger, n: Ledger, id: Id)
    requires n.actions == o.actions && n.messages == o.messages
    ensures NewSteers(o, n, id)
  {
  }

  // ------------------------------------------------------------- dispatch

  lemma NoSteering(db: Ledger, tasks: map<Id, Pc>)
    requires Core(db) && TaskRows(tasks, db.actions) && db.node.active.None?
    ensures forall c :: !Steering(tasks, db.actions, c)
  {
    hide LogInv, RequestRows, OrderInv, AttemptRows, ActionRows, EffectRows, MessageRows, KeyInv, AnswerRows,
         StartRows, PhaseRows, InputRows, RevisionInv, CountInv, HoldInv, HasAttempt;
  }

  lemma DispatchesStep(s: Sys, c: Candidate, a: Id, g: int)
    requires SysInv(s) && DispatchNext(s.db, c, a, g).Ok?
    ensures Safe(s, s.(db := DispatchNext(s.db, c, a, g).value), FREE)
  {
    hide Core, TombstoneInv, Keeps, DispatchNext, Spares, SameRecords, Held, GateInv, ReadyInv, CallInv, StartInv,
         SteerRows, SteerOnce, DebtOf, Within;
    var n := DispatchNext(s.db, c, a, g).value;
    var ex := Steered(c.message, false);
    DispatchStep(s.db, c, a, g);
    forall d ensures Spares(s.db, n, d) { DispatchSpares(s.db, c, a, g, d); }
    KeepsRecords(s.db, n, c.dialog, ex);
    SameRecordsLedger(s.db, n);
    NoSteering(s.db, s.tasks);
    TasksKept(s.db, n, s.tasks, s.gate, s.calls, c.dialog, ex);
    KeepsWithin(s.db, n, c.dialog, ex);
    SameRecordsGrow(s.db, n);
  }

  // --------------------------------------------------- events from outside

  lemma DeliverStep(s: Sys, ref: AttemptRef, e: AdapterEvent, valid: bool, marker: Id, stop: Id)
    requires SysInv(s) && Observe(s.db, ref, e, valid, marker, stop).Ok?
    ensures Safe(s, s.(db := Observe(s.db, ref, e, valid, marker, stop).value), FREE)
  {
    hide Core, TaskInv, TombstoneInv, Keeps, Observe, Spares, Safe;
    var n := Observe(s.db, ref, e, valid, marker, stop).value;
    ObserveStep(s.db, ref, e, valid, marker, stop);
    forall d ensures Spares(s.db, n, d) { ObserveSpares(s.db, ref, e, valid, marker, stop, d); }
    PlainStep(s, n, ref.dialog, Nobody);
  }

  lemma ReconcilesStep(s: Sys, ref: AttemptRef, newId: Id, e: AdapterEvent, valid: bool, marker: Id, stop: Id)
    requires SysInv(s) && Reconcile(s.db, ref, newId, e, valid, marker, stop).Ok?
    ensures Safe(s, s.(db := Reconcile(s.db, ref, newId, e, valid, marker, stop).value), FREE)
  {
    hide Core, TaskInv, TombstoneInv, Keeps, Reconcile, Spares, Safe;
    var n := Reconcile(s.db, ref, newId, e, valid, marker, stop).value;
    ReconcileStep(s.db, ref, newId, e, valid, marker, stop);
    forall d ensures Spares(s.db, n, d) { ReconcileSpares(s.db, ref, newId, e, valid, marker, stop, d); }
    PlainStep(s, n, ref.dialog, Nobody);
  }

  lemma ArtifactsStep(s: Sys, ref: AttemptRef, bytes: int, marker: Id, stop: Id)
    requires SysInv(s) && PublishArtifact(s.db, ref, bytes, marker, stop).Ok?
    ensures Safe(s, s.(db := PublishArtifact(s.db, ref, bytes, marker, stop).value), FREE)
  {
    hide Core, TaskInv, TombstoneInv, Keeps, PublishArtifact, Spares, Safe;
    var n := PublishArtifact(s.db, ref, bytes, marker, stop).value;
    ArtifactStep(s.db, ref, bytes, marker, stop);
    forall d ensures Spares(s.db, n, d) { ArtifactSpares(s.db, ref, bytes, marker, stop, d); }
    PlainStep(s, n, ref.dialog, Nobody);
  }

  lemma LoseTrackStep(s: Sys, a: Id)
    requires SysInv(s) && a in s.db.attempts && MarkUnknown(s.db, RefOf(s.db, a), UnknownEffect).Ok?
    ensures Safe(s, s.(db := MarkUnknown(s.db, RefOf(s.db, a), UnknownEffect).value), FREE)
  {
    hide Core, TaskInv, TombstoneInv, Keeps, SetUnknown, Spares, Safe, Settled, HasAttempt;
    var ref := RefOf(s.db, a);
    var n := MarkUnknown(s.db, ref, UnknownEffect).value;
    OwnNames(s.db, ref);
    AttemptFacts(s.db, a);
    SetUnknownKeeps(s.db, ref, UnknownEffect, ref.dialog, Nobody);
    KeepsMoves(s.db, n, ref.dialog, Nobody);
    LiveUnsettled(s.db, a);
    forall d ensures Spares(s.db, n, d) { SparesBusy(s.db, n, ref.dialog, d); }
    PlainStep(s, n, ref.dialog, Nobody);
  }

  lemma PolicyStep(s: Sys)
    requires SysInv(s)
    ensures Safe(s, s.(db := BlockPolicy(s.db)), FREE)
  {
    hide Core, TaskInv, TombstoneInv, Keeps, BlockPolicy, Spares, Safe;
    forall x ensures Keeps(s.db, BlockPolicy(s.db), x, Nobody) { BlockStep(s.db, x, Nobody); }
    NodeWide(s.db, BlockPolicy(s.db), Nobody);
    PlainStep(s, BlockPolicy(s.db), 0, Nobody);
  }

  // ---------------------------------------------------------------- holds

  /** Hold records change only while the gate is free. */
  lemma HoldStep(s: Sys, n: Ledger, x: Id)
    requires SysInv(s) && s.gate.None? && Keeps(s.db, n, x, Registrar) && SparesAll(s.db, n)
    requires n.actions == s.db.actions && n.messages == s.db.messages
    requires n.commands.Keys !! n.rejections.Keys && RecordsGrow(s.db, n)
    requires forall d :: d in n.tombstones && d !in s.db.tombstones ==>
        d in n.dialogs && Settled(n, d) && NoneQueued(n.requests, d)
    ensures Safe(s, s.(db := n), FREE)
  {
    hide Core, TaskInv, TombstoneInv, Keeps, SparesAll, NewSteers, Settled, NoneQueued, DebtOf, Within, RecordsGrow;
    KeepsMoves(s.db, n, x, Registrar);
    TombstonesKept(s.db, n);
    NoNewSteers(s.db, n, 0);
    TasksRecorded(s.db, n, s.tasks, s.gate, s.calls, x, 0);
    RecordsWithin(s.db, n, x);
  }

  lemma InstallStep(s: Sys, op: Id, request: InstallRequest)
    requires SysInv(s) && s.gate.None? && InstallHold(s.db, op, request).Ok?
    ensures Safe(s, s.(db := InstallHold(s.db, op, request).value), FREE)
  {
    hide Core, TaskInv, TombstoneInv, Keeps, Spares, Safe, Settled, NoneQueued, PreStart, ScopeTaken, Revision;
    var n := InstallHold(s.db, op, request).value;
    forall x ensures Keeps(s.db, n, x, Registrar) { InstallKeeps(s.db, op, request, x); }
    NodeWide(s.db, n, Registrar);
    HoldStep(s, n, 0);
  }

  lemma ReleaseStep(s: Sys, op: Id, request: ReleaseRequest)
    requires SysInv(s) && s.gate.None? && ReleaseHold(s.db, op, request).Ok?
    ensures Safe(s, s.(db := ReleaseHold(s.db, op, request).value), FREE)
  {
    hide Core, TaskInv, TombstoneInv, Keeps, Spares, Safe, Settled, NoneQueued, Revision;
    var n := ReleaseHold(s.db, op, request).value;
    forall x ensures Keeps(s.db, n, x, Registrar) { ReleaseKeeps(s.db, op, request, x); }
    NodeWide(s.db, n, Registrar);
    HoldStep(s, n, 0);
  }

  lemma DeleteStep(s: Sys, op: Id, request: DeleteRequest)
    requires SysInv(s) && s.gate.None? && DeleteDialog(s.db, op, request).Ok?
    ensures Safe(s, s.(db := DeleteDialog(s.db, op, request).value), FREE)
  {
    hide Core, TaskInv, TombstoneInv, Keeps, Spares, Safe, Settled, NoneQueued, Revision, DeleteDialog;
    var n := DeleteDialog(s.db, op, request).value;
    DeleteKeeps(s.db, op, request);
    forall d ensures Spares(s.db, n, d) { DeleteSpares(s.db, op, request, d); }
    if op in s.db.deletions {
      DeleteReplay(s.db, op, request);
      SameRecordsGrow(s.db, n);
    } else {
      DeleteTables(s.db, op, request);
      DeleteGrows(s.db, op, request);
      LogSettled(s.db, n, request.dialog);
      KeepsMoves(s.db, n, request.dialog, Registrar);
      MovesDialogs(s.db, n, request.dialog);
    }
    HoldStep(s, n, request.dialog);
  }

  lemma DeleteGrows(db: Ledger, op: Id, request: DeleteRequest)
    requires DeleteDialog(db, op, request).Ok? && op !in db.deletions
    ensures RecordsGrow(db, DeleteDialog(db, op, request).value)
  {
    hide Settled, NoneQueued, Revision, RecordsGrow, RecordDeletion;
    var e := Event(DialogDeleted, None, Some(request.dialog), Some(Key(false, KDeleted)), None, false);
    var d1 := Append(Tick(Bury(db, request.dialog), false), e);
    DeletionGrows(db, d1, op, request, db.holds[op].scopeRevision + 1);
  }

  lemma DeletionGrows(db: Ledger, d1: Ledger, op: Id, request: DeleteRequest, revision: int)
    requires d1.commands == db.commands && d1.rejections == db.rejections && d1.holds == db.holds
    requires d1.holdEnds == db.holdEnds && d1.deletions == db.deletions && op !in db.deletions
    requires db.tombstones <= d1.tombstones && d1.dialogs.Keys == db.dialogs.Keys && op !in db.holdEnds
    requires Lookup(db, request.command).None?
    ensures RecordsGrow(db, RecordDeletion(d1, op, request, revision))
  {
    hide NodeHeld;
  }

  lemma DeleteReplay(db: Ledger, op: Id, request: DeleteRequest)
    requires DeleteDialog(db, op, request).Ok? && op in db.deletions
    ensures DeleteDialog(db, op, request).value == db
  {
    hide Settled, NoneQueued, Revision;
  }
}
