/** The node in place: transactions that change the ledger step by step and then
    commit, proved against the functions the run theorems are about. A method that
    returns false has rolled back. */
module Node {
  import opened LedgerTypes
  import opened LedgerInvariant
  import opened LedgerTail
  import opened Transactions
  import opened Recovery
  import opened Queries
  import opened FailedTail
  import Pieces

  class HarnessNode {
    var db: Ledger

    constructor (initial: Ledger)
      ensures db == initial
    {
      db := initial;
    }

    // -------------------------------------------------------------- commands

    /** SubmitCommand: an id that has an outcome is answered from it; otherwise the
        command is rejected under a hold, refused, or executed and recorded. */
    method SubmitCommand(id: Id, c: Command, x: Id, y: Id, space: bool) returns (reply: Reply, hold: Option<Id>)
      modifies this
      ensures (db, reply) == Submit(old(db), id, c, x, y, space, if hold.Some? then hold.value else 0)
    {
      hide Authorized, Stops, OutcomeDeleted, Apply, StorageGuard, InsertAction, IsAdmission;
      if c.DialogDelete? { return Failure(Forbidden), None; }
      if id in db.commands || id in db.rejections {
        var accepted := id in db.commands;
        var stored := if accepted then db.commands[id] else db.rejections[id];
        if stored.command != c { return Failure(IdConflict), None; }
        if OutcomeDeleted(db, stored, accepted) { return Failure(NotFound), None; }
        return Replayed(stored.receipt, accepted), None;
      }
      if !Authorized(db, c) { return Failure(NotFound), None; }
      hold := StoppingHold(db, c);
      if hold.Some? {
        var receipt := Receipt(None, hold.value, 0);
        db := db.(rejections := db.rejections[id := Outcome(c, receipt)]);
        return Refused(receipt), hold;
      }
      if IsAdmission(c) && !space { return Failure(Unavailable), None; }
      var tx := StorageGuard(db, c, space);
      var change := Apply(tx, c, x, y);
      if change.Err? { return Failure(change.why), None; }
      tx := change.value.db;
      if change.value.action.Some? {
        var inserted := InsertAction(tx, id, change.value.action.value);
        if inserted.Err? { return Failure(inserted.why), None; }
        tx := inserted.value;
      }
      var receipt := Receipt(change.value.receiptDialog, change.value.reference, tx.node.lastSeq);
      tx := tx.(commands := tx.commands[id := Outcome(c, receipt)]);
      db := tx;
      return Admitted(receipt), None;
    }

    // -------------------------------------------------------------- dispatch

    /** DispatchNext under both locks: the first unheld request is looked up again and
        compared with the candidate. Queue sequences are unique by the schema. */
    method DispatchCandidate(c: Candidate, a: Id) returns (ok: bool, generation: int)
      requires DistinctPlaces(db.requests) && TailQuery(db, c.dialog, c.message, c.tail)
      modifies this
      ensures ok == DispatchNext(old(db), c, a, generation).Ok?
      ensures db == if ok then DispatchNext(old(db), c, a, generation).value else old(db)
    {
      hide FirstInLine, Dispatchable, NextGeneration, OtherLive, Begin, NoteDispatch, TailQuery, TailOf;
      generation := 0;
      if db.node.stateVersion != c.stateVersion || db.node.paused || db.node.active.Some?
          || db.node.pending == 0 { return false, 0; }
      var first := FirstQueued(db);
      if first.None? || first.value != c.request {
        NotFirst(db, c.request, first);
        return false, 0;
      }
      FirstStored(db, c.request);
      var row := db.requests[c.request];
      if row.dialog != c.dialog || row.input != c.message || row.queueSequence != c.queueSequence
          || row.input !in db.messages { return false, 0; }
      generation := GenerationAfter(db, row.input);
      var live := AnotherLive(db, a);
      if a in db.attempts || live || a in db.actions { return false, generation; }
      var proof := FailedTailProof(db, row.dialog, row.input, c.tail);
      var tx := BeginAttempt(c.request, a, generation, c.policy, proof);
      var ref := AttemptRef(row.dialog, c.request, a, generation);
      db := NoteDispatch(tx, ref, row.input, db.messages[row.input].disposition == Waits);
      return true, generation;
    }

    /** The rows of a dispatch, one after the other. */
    method BeginAttempt(r: Id, a: Id, generation: int, policy: Id, proof: Option<TailProof>) returns (tx: Ledger)
      requires r in db.requests && db.requests[r].input in db.messages
      ensures tx == Begin(db, r, a, generation, policy, proof)
    {
      hide Bump;
      var row := db.requests[r];
      tx := PutRequest(db, r, row.(status := InDispatch, version := row.version + 1));
      var attempt := Attempt(row.dialog, r, generation, 1, Dispatching, NoEffect, false, 0, policy, 0, None);
      tx := tx.(attempts := tx.attempts[a := attempt]);
      var action := NewAction(DispatchStart, AttemptRef(row.dialog, r, a, generation), 0, 0, 0);
      tx := tx.(actions := tx.actions[a := action.(row := tx.nextRow, proof := proof)]);
      tx := tx.(nextRow := tx.nextRow + 1);
      var message := tx.messages[row.input];
      if message.disposition == Waits {
        var served := message.(version := message.version + 1, disposition := Applied, attempt := Some(a));
        tx := tx.(messages := tx.messages[row.input := served]);
      }
      tx := tx.(node := tx.node.(pending := tx.node.pending - 1, active := Some(a), occupancy := Busy));
    }

    // --------------------------------------------------------------- actions

    /** claimAction: the oldest pending action of the lane, outside every hold. */
    method ClaimAction(lane: Lane) returns (claimed: Option<Id>)
      modifies this
      ensures claimed.None? ==> db == old(db) && forall c :: c in db.actions ==> !Claimable(db, c, lane)
      ensures claimed.Some? ==>
        ClaimedNext(old(db), claimed.value) && LaneOf(old(db).actions[claimed.value].kind) == lane
      ensures claimed.Some? ==> db == SetAction(old(db), claimed.value, Pending, Inflight)
    {
      hide HeldBy;
      var left := db.actions.Items;
      claimed := None;
      while left != {}
        invariant left <= db.actions.Items && db == old(db)
        invariant claimed.None? ==> forall c :: c in db.actions && (c, db.actions[c]) !in left ==>
            !Claimable(db, c, lane)
        invariant claimed.Some? ==> claimed.value in db.actions && Claimable(db, claimed.value, lane)
        invariant claimed.Some? ==>
          forall c :: c in db.actions && (c, db.actions[c]) !in left && Claimable(db, c, lane) ==>
            db.actions[claimed.value].row <= db.actions[c].row
        decreases |left|
      {
        var item :| item in left;
        var (c, action) := item;
        if action.status == Pending && LaneOf(action.kind) == lane
            && (claimed.None? || action.row < db.actions[claimed.value].row) {
          if lane != DispatchLane {
            claimed := Some(c);
          } else if action.ref.attempt in db.attempts {
            var hold := CoveringHold(db, db.attempts[action.ref.attempt].dialog);
            if hold.None? { claimed := Some(c); }
          }
        }
        left := left - {item};
      }
      if claimed.Some? {
        var c := claimed.value;
        db := db.(actions := db.actions[c := db.actions[c].(status := Inflight)]);
      }
    }

    /** markStarted */
    method Start(ref: AttemptRef) returns (ok: bool)
      modifies this
      ensures ok == MarkStarted(old(db), ref).Ok?
      ensures db == if ok then MarkStarted(old(db), ref).value else old(db)
    {
      hide KeyTaken, Bump;
      if db.node.active != Some(ref.attempt) || ref.attempt !in db.attempts
          || db.attempts[ref.attempt].phase != Dispatching { return false; }
      var used := KeyUsed(db, ref.attempt, Key(false, KStarted));
      if used { return false; }
      var tx := db;
      var row := tx.attempts[ref.attempt];
      var started := row.(version := row.version + 1, phase := Running, started := true);
      tx := tx.(attempts := tx.attempts[ref.attempt := started]);
      tx := SetStatus(tx, ref.request, Active);
      tx := tx.(node := tx.node.(stateVersion := tx.node.stateVersion + 1));
      tx := Append(tx, AttemptEvent(OtherEvent, ref, Some(Key(false, KStarted)), Some(Whole(Started)), false));
      db := Announce(tx);
      return true;
    }

    /** markAttemptUnknown around setAttemptUnknown. */
    method MarkAttemptUnknown(ref: AttemptRef, effect: Effect) returns (ok: bool)
      modifies this
      ensures ok == MarkUnknown(old(db), ref, effect).Ok?
      ensures db == if ok then MarkUnknown(old(db), ref, effect).value else old(db)
    {
      hide OtherLive, Seize, Append, Announce, Tick;
      if db.node.active != Some(ref.attempt) || ref.attempt !in db.attempts
          || db.attempts[ref.attempt].generation != ref.generation { return false; }
      if db.attempts[ref.attempt].phase == Unknown { return true; }
      var live := AnotherLive(db, ref.attempt);
      if live { return false; }
      var tx := SeizeSlot(ref, effect);
      tx := Tick(tx.(node := tx.node.(readiness := IsUnknown, reasons := tx.node.reasons + {ExecutionUnknown})), false);
      tx := Append(tx, AttemptEvent(OtherEvent, ref, None, None, false));
      db := Announce(tx);
      return true;
    }

    method SeizeSlot(ref: AttemptRef, effect: Effect) returns (tx: Ledger)
      requires ref.attempt in db.attempts
      ensures tx == Seize(db, ref, effect)
    {
      hide SetStatus;
      tx := db;
      var row := tx.attempts[ref.attempt];
      var lost := row.(version := row.version + 1, phase := Unknown, effect := effect);
      tx := tx.(attempts := tx.attempts[ref.attempt := lost]);
      tx := tx.(node := tx.node.(active := Some(ref.attempt), occupancy := Confused));
      tx := SetStatus(tx, ref.request, Lost);
    }

    /** finishSteer */
    method SettleSteer(ref: AttemptRef, m: Id, v: Verdict) returns (ok: bool)
      modifies this
      ensures ok == FinishSteer(old(db), ref, m, v).Ok?
      ensures db == if ok then FinishSteer(old(db), ref, m, v).value else old(db)
    {
      hide SetUnknown, EndSteer, Append, Announce, Tick;
      if m !in db.messages || db.messages[m].disposition != SteerPending { return false; }
      var tx := EndSteering(m, v);
      tx := Append(Tick(tx, true), Event(DispositionChanged(m), None, None, None, None, false));
      if v == Verdict.Doubt {
        var marked := SetUnknown(tx, ref, UnknownEffect);
        if marked.Err? { return false; }
        tx := marked.value;
      }
      db := Announce(tx);
      return true;
    }

    /** The rows of a settled steer, one after the other. */
    method EndSteering(m: Id, v: Verdict) returns (tx: Ledger)
      requires m in db.messages
      ensures tx == EndSteer(db, m, v)
    {
      hide SetStatus;
      tx := db;
      var message, to := db.messages[m], Waits;
      if v == Good {
        to := Applied;
        tx := SetStatus(tx, message.request, Done(Completed));
      } else if v == Verdict.Doubt {
        to := Uncertain;
        tx := SetStatus(tx, message.request, Lost);
      }
      Pieces.StatusRows(db, message.request, Done(Completed));
      Pieces.StatusRows(db, message.request, Lost);
      if v == Good || v == Verdict.Doubt { tx := tx.(node := tx.node.(pending := tx.node.pending - 1)); }
      tx := tx.(messages := tx.messages[m := message.(version := message.version + 1, disposition := to)]);
    }

    // ----------------------------------------------------------------- holds

    method Install(op: Id, request: InstallRequest) returns (ok: bool)
      modifies this
      ensures ok == InstallHold(old(db), op, request).Ok?
      ensures db == if ok then InstallHold(old(db), op, request).value else old(db)
    {
      hide PreStart, ScopeTaken, Revision, AddHold;
      if op in db.holds { return db.holds[op].request == request; }
      if request.epoch != db.node.epoch || request.registry != db.node.registry { return false; }
      if request.scope.DialogScope?
          && (request.scope.dialog !in db.dialogs || request.scope.dialog in db.tombstones) { return false; }
      var starting := StartInProgress(db, request.scope);
      if starting { return false; }
      var held := ScopeHeld(db, request.scope);
      if held { return false; }
      if request.scopeRevision != Revision(db, request.scope) { return false; }
      db := InsertHold(op, request);
      return true;
    }

    /** The rows of a new hold, one after the other. */
    method InsertHold(op: Id, request: InstallRequest) returns (tx: Ledger)
      ensures tx == AddHold(db, op, request)
    {
      tx := db;
      tx := tx.(holds := tx.holds[op := Hold(request, tx.holdClock, request.scopeRevision + 1)]);
      tx := tx.(holdClock := tx.holdClock + 1);
      tx := tx.(scopeRevisions := tx.scopeRevisions[request.scope := request.scopeRevision + 1]);
    }

    method Release(op: Id, request: ReleaseRequest) returns (ok: bool)
      modifies this
      ensures ok == ReleaseHold(old(db), op, request).Ok?
      ensures db == if ok then ReleaseHold(old(db), op, request).value else old(db)
    {
      hide Revision;
      if op in db.holdEnds { return db.holdEnds[op] == Released(request); }
      if op !in db.holds { return false; }
      var hold := db.holds[op];
      if request.epoch != db.node.epoch || request.epoch != hold.request.epoch
         || request.registry != db.node.registry || request.registry != hold.request.registry
         || request.scope != hold.request.scope || request.version != hold.version
         || request.scopeRevision != hold.scopeRevision
         || Revision(db, hold.request.scope) != hold.scopeRevision { return false; }
      var tx := db;
      tx := tx.(scopeRevisions := tx.scopeRevisions[hold.request.scope := hold.scopeRevision + 1]);
      tx := tx.(holdEnds := tx.holdEnds[op := Released(request)]);
      db := tx;
      return true;
    }

    method DeleteLogicalDialog(op: Id, request: DeleteRequest) returns (ok: bool)
      modifies this
      ensures ok == DeleteDialog(old(db), op, request).Ok?
      ensures db == if ok then DeleteDialog(old(db), op, request).value else old(db)
    {
      hide Settled, NoneQueued, Revision, Lookup, Append, Tick, Bury, RecordDeletion;
      if request.epoch != db.node.epoch || request.registry != db.node.registry { return false; }
      if op in db.deletions { return db.deletions[op] == request; }
      if op !in db.holds || op in db.holdEnds { return false; }
      var hold, d := db.holds[op], request.dialog;
      if hold.request.scope != DialogScope(d) || hold.version != request.version
         || hold.scopeRevision != request.scopeRevision
         || hold.request.epoch != request.epoch || hold.request.registry != request.registry
         || Revision(db, DialogScope(d)) != hold.scopeRevision { return false; }
      if Lookup(db, request.command).Some? || d !in db.dialogs || d in db.tombstones
          || db.dialogs[d].version != request.dialogVersion { return false; }
      var settled := DialogSettled(db, d);
      if !settled { return false; }
      var tx := db;
      tx := Tick(Bury(tx, d), false);
      tx := Append(tx, Event(DialogDeleted, None, Some(d), Some(Key(false, KDeleted)), None, false));
      db := InsertReceipts(tx, op, request, hold.scopeRevision + 1);
      return true;
    }

    method InsertReceipts(from: Ledger, op: Id, request: DeleteRequest, revision: int) returns (tx: Ledger)
      ensures tx == RecordDeletion(from, op, request, revision)
    {
      var d := request.dialog;
      tx := from;
      var outcome := Outcome(DialogDelete(d, request.dialogVersion), Receipt(Some(d), d, tx.node.lastSeq));
      tx := tx.(commands := tx.commands[request.command := outcome]);
      tx := tx.(scopeRevisions := tx.scopeRevisions[DialogScope(d) := revision]);
      tx := tx.(holdEnds := tx.holdEnds[op := EndedByDelete(request)]);
      tx := tx.(deletions := tx.deletions[op := request]);
    }

    // -------------------------------------------------------------- recovery

    /** The update over every unfinished action. */
    method ForgetActions(stored: map<Id, Action>) returns (actions: map<Id, Action>)
      ensures actions == Forget(stored)
    {
      actions := stored;
      var left := stored.Items;
      while left != {}
        invariant left <= stored.Items && actions.Keys == stored.Keys
        invariant forall c :: c in stored ==>
            actions[c] == if (c, stored[c]) in left then stored[c] else Forget(stored)[c]
        decreases |left|
      {
        var item :| item in left;
        var (c, action) := item;
        if action.status in {Pending, Inflight} { actions := actions[c := action.(status := Unsettled)]; }
        left := left - {item};
      }
      assert actions.Keys == Forget(stored).Keys;
      assert forall c :: c in actions ==> actions[c] == Forget(stored)[c];
    }

    /** recoverStartup: unfinished actions become unsettled, one after the other, and
        a live attempt becomes unknown. On a ledger that keeps the invariant neither
        of its inconsistency errors can occur. */
    method RecoverStartup() returns (ok: bool)
      modifies this
      ensures ok == Recover(old(db)).Ok?
      ensures db == if ok then Recover(old(db)).value else old(db)
      ensures Core(old(db)) ==> ok && Core(db)
    {
      hide Core, SetUnknown, Forget;
      if Recoverable(db) { RecoverWorks(db); }
      var actions := ForgetActions(db.actions);
      var tx := db.(actions := actions);
      if tx.node.active.None? {
        db := tx;
        return true;
      }
      var a := tx.node.active.value;
      if a !in tx.attempts { return false; }
      if tx.attempts[a].phase == Unknown {
        db := tx;
        return true;
      }
      if !Live(tx.attempts[a].phase) { return false; }
      var marked := SetUnknown(tx, RefOf(tx, a), UnknownEffect);
      if marked.Err? { return false; }
      db := marked.value;
      return true;
    }
  }

  ghost predicate Recoverable(db: Ledger) {
    Core(db)
  }

  /** The schema's uniqueness of queue sequences. */
  predicate DistinctPlaces(requests: map<Id, Request>) {
    forall q, r :: q in requests && r in requests && requests[q].queueSequence == requests[r].queueSequence ==> q == r
  }

  lemma NotFirst(db: Ledger, r: Id, first: Option<Id>)
    requires DistinctPlaces(db.requests) && first != Some(r) && (first.Some? ==> FirstInLine(db, first.value))
    requires first.None? ==> forall q :: q in db.requests ==> !Dispatchable(db, q)
    ensures !FirstInLine(db, r)
  {
    hide HeldBy;
  }
}
