/** What a command id is worth after its outcome has been committed: in every later
    state of the run it is answered from the record and changes nothing. */
module CommandReplay {
  import opened LedgerTypes
  import opened Transactions
  import opened Supervisor
  import opened LedgerInvariant
  import opened SystemInvariant
  import opened SystemSteps
  import opened Recovery
  import opened SupervisorTheorems

  // ---------------------------------------------------------------- history

  /** Outcomes, deletions, tombstones, the log, and the dialogs of requests and
      attempts are kept. */
  ghost predicate HistoryKept(o: Ledger, n: Ledger) {
    && (forall i :: i in o.commands ==> i in n.commands && n.commands[i] == o.commands[i])
    && (forall i :: i in o.rejections ==> i in n.rejections && n.rejections[i] == o.rejections[i])
    && (forall i :: i in o.deletions ==> i in n.deletions && n.deletions[i] == o.deletions[i])
    && o.tombstones <= n.tombstones
    && TargetsKept(o, n)
    && LogKept(o.events, n.events)
  }

  lemma PassesHistory(o: Ledger, n: Ledger)
    requires Passes(o, n, 0)
    ensures HistoryKept(o, n)
  {
    hide QueueMoves, Settled, Held, Frozen, LogKept, TargetsKept, NodeHeld;
  }

  lemma HistoryTrans(a: Ledger, b: Ledger, c: Ledger)
    requires HistoryKept(a, b) && HistoryKept(b, c)
    ensures HistoryKept(a, c)
  {
  }

  lemma {:induction false} HistoryRun(s: Sys, run: seq<Label>)
    requires SysInv(s)
    ensures HistoryKept(s.db, After(s, run).db) && SysInv(After(s, run))
    decreases |run|
  {
    hide SysInv, Do, Passes, HistoryKept;
    if run == [] {
      PassesSelf(s.db, 0);
      PassesHistory(s.db, s.db);
    } else {
      var before := After(s, run[..|run| - 1]);
      HistoryRun(s, run[..|run| - 1]);
      StepPasses(before, run[|run| - 1], 0);
      PassesHistory(before.db, Do(before, run[|run| - 1]).db);
      HistoryTrans(s.db, before.db, Do(before, run[|run| - 1]).db);
      AfterKeeps(s, run);
    }
  }

  lemma HistoryReached(s: Sys, t: Sys)
    requires SysInv(s) && Reaches(s, t)
    ensures HistoryKept(s.db, t.db) && SysInv(t)
  {
    hide SysInv, HistoryKept, After;
    var run :| t == After(s, run);
    HistoryRun(s, run);
  }

  // ---------------------------------------------------------------- outcomes

  /** The id has this outcome, and the outcome belongs to this dialog. */
  ghost predicate Stands(db: Ledger, id: Id, o: Outcome, accepted: bool, d: Option<Id>) {
    Lookup(db, id) == Some((o, accepted)) && OutcomeDialog(db, o, accepted) == d
  }

  /** The target of an authorized command, if it has one, is a row of the ledger. */
  lemma TargetStays(o: Ledger, n: Ledger, c: Command)
    requires TargetsKept(o, n) && (TargetDialog(o, c).Some? || IsNodeCommand(c))
    ensures TargetDialog(n, c) == TargetDialog(o, c)
  {
  }

  lemma StandsOn(a: Ledger, b: Ledger, id: Id, o: Outcome, accepted: bool, d: Option<Id>)
    requires HistoryKept(a, b) && Stands(a, id, o, accepted, d) && b.commands.Keys !! b.rejections.Keys
    requires TargetDialog(a, o.command).Some? || IsNodeCommand(o.command)
    ensures Stands(b, id, o, accepted, d)
  {
    hide TargetDialog, TargetsKept, LogKept, IsNodeCommand;
    TargetStays(a, b, o.command);
  }

  /** A submission that is decided leaves its outcome on record. */
  lemma Decided(db: Ledger, id: Id, c: Command, x: Id, y: Id, space: bool, op: Id)
    requires var reply := Submit(db, id, c, x, y, space, op).1; reply.Admitted? || reply.Refused?
    ensures var (n, reply) := Submit(db, id, c, x, y, space, op);
      && Lookup(n, id) == Some((Outcome(c, reply.receipt), reply.Admitted?))
      && (TargetDialog(db, c).Some? || IsNodeCommand(c))
  {
    hide Execute, Stops, StorageGuard, OutcomeDeleted, TargetDialog, IsAdmission;
    if Execute(StorageGuard(db, c, space), id, c, x, y).Ok? { ExecuteRecords(StorageGuard(db, c, space), id, c, x, y); }
  }

  lemma ExecuteRecords(db: Ledger, id: Id, c: Command, x: Id, y: Id)
    requires Execute(db, id, c, x, y).Ok?
    ensures var (n, receipt) := Execute(db, id, c, x, y).value;
      id in n.commands && n.commands[id] == Outcome(c, receipt)
  {
    hide Apply, InsertAction;
  }

  lemma RecordsDisjoint(s: Sys)
    requires SysInv(s)
    ensures s.db.commands.Keys !! s.db.rejections.Keys
  {
    hide Core, TombstoneInv, TaskInv;
  }

  /** The state after a decided submission, as one step of the system. */
  lemma Submitted(s: Sys, id: Id, c: Command, x: Id, y: Id, space: bool, op: Id)
    requires SysInv(s) && s.running
    ensures var t := s.(db := Submit(s.db, id, c, x, y, space, op).0); SysInv(t) && HistoryKept(s.db, t.db)
  {
    hide SysInv, Submit, HistoryKept, Passes, Within;
    var l := Submits(id, c, x, y, space, op);
    SubmitsDo(s, l);
    StepKeeps(s, l);
    StepPasses(s, l, 0);
    PassesHistory(s.db, Do(s, l).db);
  }

  lemma SubmitsDo(s: Sys, l: Label)
    requires s.running && l.Submits?
    ensures Do(s, l) == s.(db := Submit(s.db, l.id, l.command, l.x, l.y, l.space, l.op).0)
  {
    hide Submit;
  }

  /** What every later submission under a decided id is answered with. */
  ghost predicate Answered(db: Ledger, id: Id, o: Outcome, accepted: bool, d: Option<Id>, c: Command, n: Ledger,
                           reply: Reply) {
    var gone := d.Some? && d.value in db.tombstones;
    && n == db
    && (reply == Failure(Forbidden) <==> c.DialogDelete?)
    && (reply == Failure(IdConflict) <==> !c.DialogDelete? && c != o.command)
    && (reply == Failure(NotFound) <==> !c.DialogDelete? && c == o.command && gone)
    && (reply == Replayed(o.receipt, accepted) <==> !c.DialogDelete? && c == o.command && !gone)
  }

  lemma StandingAnswers(db: Ledger, id: Id, o: Outcome, accepted: bool, d: Option<Id>, c: Command, x: Id, y: Id,
                        space: bool, op: Id)
    requires Stands(db, id, o, accepted, d)
    ensures var (n, reply) := Submit(db, id, c, x, y, space, op); Answered(db, id, o, accepted, d, c, n, reply)
  {
    hide Lookup, OutcomeDialog, Execute, Authorized, Stops, StorageGuard;
  }

  /** A deletion that names a command id already on record commits nothing. */
  lemma SpentForDeletion(db: Ledger, id: Id, op: Id, request: DeleteRequest)
    requires Lookup(db, id).Some? && request.command == id
    ensures Commits(db, DeleteDialog(db, op, request)) == db
  {
    hide Lookup, Settled, Revision, NoneQueued, RecordDeletion, Append, Tick, Bury;
  }

  // ---------------------------------------------------------------- theorems

  /** A command id decided once is decided for good: in every state that any run
      reaches afterwards, a submission under the same id changes nothing. The same
      command gets its original receipt, or not-found once the dialog the outcome
      was recorded for is deleted; any other command gets a conflict. */
  lemma Resubmission(s: Sys, id: Id, c: Command, x: Id, y: Id, space: bool, op: Id, t: Sys, c2: Command, x2: Id,
                     y2: Id, space2: bool, op2: Id)
    requires Reachable(s) && s.running
    requires var reply := Submit(s.db, id, c, x, y, space, op).1; reply.Admitted? || reply.Refused?
    requires Reaches(s.(db := Submit(s.db, id, c, x, y, space, op).0), t)
    ensures var (after, reply) := Submit(s.db, id, c, x, y, space, op);
      var outcome := Outcome(c, reply.receipt);
      var (n, reply2) := Submit(t.db, id, c2, x2, y2, space2, op2);
      Answered(t.db, id, outcome, reply.Admitted?, OutcomeDialog(after, outcome, reply.Admitted?), c2, n, reply2)
    ensures forall hold, request: DeleteRequest :: request.command == id ==>
        Commits(t.db, DeleteDialog(t.db, hold, request)) == t.db
  {
    hide Reachable, Reaches, SysInv, Submit, HistoryKept, OutcomeDialog, Lookup, DeleteDialog, Answered,
         TargetDialog, IsNodeCommand;
    ReachableSafe(s);
    Submitted(s, id, c, x, y, space, op);
    Decided(s.db, id, c, x, y, space, op);
    var (after, reply) := Submit(s.db, id, c, x, y, space, op);
    var o := Outcome(c, reply.receipt);
    TargetKept(s.db, after, c);
    var d := OutcomeDialog(after, o, reply.Admitted?);
    HistoryReached(s.(db := after), t);
    RecordsDisjoint(t);
    StandsOn(after, t.db, id, o, reply.Admitted?, d);
    StandingAnswers(t.db, id, o, reply.Admitted?, d, c2, x2, y2, space2, op2);
    forall hold, request: DeleteRequest | request.command == id
      ensures Commits(t.db, DeleteDialog(t.db, hold, request)) == t.db
    {
      SpentForDeletion(t.db, id, hold, request);
    }
  }

  lemma TargetKept(o: Ledger, n: Ledger, c: Command)
    requires HistoryKept(o, n) && (TargetDialog(o, c).Some? || IsNodeCommand(c))
    ensures TargetDialog(n, c) == TargetDialog(o, c)
  {
    hide TargetDialog, TargetsKept, LogKept, IsNodeCommand;
    TargetStays(o, n, c);
  }

  /** A fresh deletion leaves its command, its operation and a tombstone on record. */
  lemma Deleted(db: Ledger, op: Id, request: DeleteRequest)
    requires DeleteDialog(db, op, request).Ok? && op !in db.deletions
    ensures var n := DeleteDialog(db, op, request).value;
      && Lookup(n, request.command).Some? && Lookup(n, request.command).value.1
      && Lookup(n, request.command).value.0.command == DialogDelete(request.dialog, request.dialogVersion)
      && Lookup(n, request.command).value.0.receipt.dialog == Some(request.dialog)
      && op in n.deletions && n.deletions[op] == request && request.dialog in n.tombstones
  {
    hide Settled, Revision, NoneQueued;
  }

  lemma DeletesDo(s: Sys, l: Label)
    requires s.running && s.gate.None? && l.Delete? && DeleteDialog(s.db, l.op, l.deletion).Ok?
    ensures Do(s, l) == s.(db := DeleteDialog(s.db, l.op, l.deletion).value)
  {
    hide DeleteDialog;
  }

  lemma SpentForSubmission(db: Ledger, id: Id, c: Command, x: Id, y: Id, space: bool, op: Id)
    requires Lookup(db, id).Some? && Lookup(db, id).value.0.command.DialogDelete?
    ensures Submit(db, id, c, x, y, space, op) == (db, Failure(if c.DialogDelete? then Forbidden else IdConflict))
  {
    hide Lookup, OutcomeDeleted, Execute, Authorized, Stops, StorageGuard;
  }

  lemma DeletedAgain(db: Ledger, op: Id, request: DeleteRequest, again: DeleteRequest)
    requires op in db.deletions && db.deletions[op] == request
    ensures DeleteDialog(db, op, again) ==
      if again.epoch != db.node.epoch || again.registry != db.node.registry then Err(Stale)
      else if again == request then Ok(db) else Err(IdConflict)
  {
    hide Lookup, Settled, Revision, NoneQueued, RecordDeletion, Append, Tick, Bury;
  }

  /** The id of a committed deletion is spent the same way: as a command it gets a
      conflict in every later state, a deletion that names it commits nothing, and
      its operation answers a repeat of the same request, and only that. */
  lemma DeletionReplay(s: Sys, op: Id, request: DeleteRequest, t: Sys, c: Command, x: Id, y: Id, space: bool, op2: Id,
                       again: DeleteRequest)
    requires Reachable(s) && s.running && s.gate.None? && DeleteDialog(s.db, op, request).Ok? && op !in s.db.deletions
    requires Reaches(s.(db := DeleteDialog(s.db, op, request).value), t)
    ensures Submit(t.db, request.command, c, x, y, space, op2) ==
        (t.db, Failure(if c.DialogDelete? then Forbidden else IdConflict))
    ensures again.command == request.command ==> Commits(t.db, DeleteDialog(t.db, op2, again)) == t.db
    ensures Commits(t.db, DeleteDialog(t.db, op, again)) == t.db
    ensures DeleteDialog(t.db, op, again).Ok? <==>
        again == request && request.epoch == t.db.node.epoch && request.registry == t.db.node.registry
    ensures request.dialog in t.db.tombstones
  {
    hide Reachable, Reaches, SysInv, Submit, HistoryKept, OutcomeDialog, Lookup, DeleteDialog, Within;
    ReachableSafe(s);
    var l := Delete(op, request);
    DeletesDo(s, l);
    StepKeeps(s, l);
    var after := DeleteDialog(s.db, op, request).value;
    Deleted(s.db, op, request);
    HistoryReached(s.(db := after), t);
    RecordsDisjoint(t);
    StillDeleted(after, t.db, op, request);
    SpentForSubmission(t.db, request.command, c, x, y, space, op2);
    DeletedAgain(t.db, op, request, again);
    if again.command == request.command { SpentForDeletion(t.db, request.command, op2, again); }
  }

  lemma StillDeleted(o: Ledger, n: Ledger, op: Id, request: DeleteRequest)
    requires HistoryKept(o, n) && n.commands.Keys !! n.rejections.Keys && op in o.deletions
    requires request.dialog in o.tombstones
    requires Lookup(o, request.command).Some?
    ensures op in n.deletions && n.deletions[op] == o.deletions[op] && request.dialog in n.tombstones
    ensures Lookup(n, request.command) == Lookup(o, request.command)
  {
    hide TargetsKept, LogKept;
  }
}
