/** The queries the transactions ask of the ledger, as loops over its rows. */
module Queries {
  import opened LedgerTypes
  import opened Transactions

  /** Whether some row satisfies the condition: SELECT COUNT(*), compared with 0. */
  method AnyRow<T(==)>(rows: map<Id, T>, want: (Id, T) -> bool) returns (found: bool)
    ensures found <==> exists k :: k in rows && want(k, rows[k])
  {
    var left := rows.Items;
    while left != {}
      invariant left <= rows.Items
      invariant forall k :: k in rows && (k, rows[k]) !in left ==> !want(k, rows[k])
      decreases |left|
    {
      var item :| item in left;
      var (k, row) := item;
      if want(k, row) {
        assert k in rows && rows[k] == row;
        return true;
      }
      left := left - {item};
    }
    return false;
  }

  // ------------------------------------------------------------------ holds

  /** A hold without an outcome that covers the dialog, if there is one. */
  method CoveringHold(db: Ledger, dialog: Id) returns (op: Option<Id>)
    ensures op.Some? ==> HoldActive(db, op.value) && Covers(db.holds[op.value].request.scope, dialog)
    ensures op.None? <==> !Held(db, dialog)
  {
    var left := db.holds.Items;
    while left != {}
      invariant left <= db.holds.Items
      invariant forall h :: h in db.holds && (h, db.holds[h]) !in left && h !in db.holdEnds ==>
          !Covers(db.holds[h].request.scope, dialog)
      decreases |left|
    {
      var item :| item in left;
      var (h, hold) := item;
      if h !in db.holdEnds && (hold.request.scope.NodeScope? || hold.request.scope.dialog == dialog) { return Some(h); }
      left := left - {item};
    }
    return None;
  }

  /** The hold that a command is rejected under, if there is one. */
  method StoppingHold(db: Ledger, c: Command) returns (op: Option<Id>)
    ensures op.Some? ==> op.value in db.holds && Stops(db, op.value, c)
    ensures op.None? ==> forall h :: h in db.holds ==> !Stops(db, h, c)
  {
    var dialog: Option<Id> := None;
    match c {
      case DialogCreate(_) =>
      case QueueResume(_) =>
      case MessageEnqueue(d, _, _) => dialog := Some(d);
      case AttemptRetry(a, _, _) =>
        if a !in db.attempts { return None; }
        dialog := Some(db.attempts[a].dialog);
      case _ => return None;
    }
    var left := db.holds.Items;
    while left != {}
      invariant left <= db.holds.Items
      invariant forall h :: h in db.holds && (h, db.holds[h]) !in left ==> !Stops(db, h, c)
      decreases |left|
    {
      var item :| item in left;
      var (h, hold) := item;
      if h !in db.holdEnds
          && (hold.request.scope.NodeScope? || Some(hold.request.scope.dialog) == dialog) { return Some(h); }
      left := left - {item};
    }
    return None;
  }

  method ScopeHeld(db: Ledger, scope: Scope) returns (held: bool)
    ensures held == ScopeTaken(db, scope)
  {
    held := AnyRow(db.holds, (h: Id, hold: Hold) =>
      h !in db.holdEnds && (hold.request.scope.NodeScope? || scope.NodeScope? || hold.request.scope == scope));
  }

  /** A dispatch in the scope is decided and not started: attempts joined with their
      control actions. */
  method StartInProgress(db: Ledger, scope: Scope) returns (found: bool)
    ensures found == PreStart(db, scope)
  {
    var left := db.attempts.Items;
    while left != {}
      invariant left <= db.attempts.Items
      invariant forall a :: a in db.attempts && (a, db.attempts[a]) !in left ==> !Beginning(db, scope, a)
      decreases |left|
    {
      var item :| item in left;
      var (a, row) := item;
      if row.phase == Dispatching && !row.started && Covers(scope, row.dialog) {
        var open := AnyRow(db.actions, (c: Id, action: Action) =>
          action.ref.attempt == a && action.kind == DispatchStart && action.status in {Pending, Inflight});
        if open {
          assert Beginning(db, scope, a);
          return true;
        }
      }
      left := left - {item};
    }
    return false;
  }

  ghost predicate Beginning(db: Ledger, scope: Scope, a: Id) {
    && a in db.attempts && db.attempts[a].phase == Dispatching && !db.attempts[a].started
    && Covers(scope, db.attempts[a].dialog)
    && exists c :: c in db.actions && db.actions[c].ref.attempt == a && db.actions[c].kind == DispatchStart
                   && db.actions[c].status in {Pending, Inflight}
  }

  // --------------------------------------------------------------- dispatch

  /** The first queued request outside every hold, if there is one. */
  method FirstQueued(db: Ledger) returns (r: Option<Id>)
    ensures r.Some? ==> FirstInLine(db, r.value)
    ensures r.None? ==> forall q :: q in db.requests ==> !Dispatchable(db, q)
  {
    hide HeldBy;
    var left := db.requests.Items;
    r := None;
    while left != {}
      invariant left <= db.requests.Items
      invariant r.Some? ==> Dispatchable(db, r.value)
      invariant forall q :: q in db.requests && (q, db.requests[q]) !in left && Dispatchable(db, q) ==>
        r.Some? && db.requests[r.value].queueSequence <= db.requests[q].queueSequence
      decreases |left|
    {
      var item :| item in left;
      var (q, row) := item;
      if row.status == Queued && (r.None? || row.queueSequence < db.requests[r.value].queueSequence) {
        var hold := CoveringHold(db, row.dialog);
        if hold.None? { r := Some(q); }
      }
      left := left - {item};
    }
  }

  lemma FirstStored(db: Ledger, r: Id)
    requires FirstInLine(db, r)
    ensures r in db.requests
  {
    hide HeldBy;
  }

  /** The generation after the highest one made for the input message. */
  method GenerationAfter(db: Ledger, m: Id) returns (g: int)
    ensures NextGeneration(db, m, g)
  {
    var left := db.attempts.Items;
    var highest := 0;
    while left != {}
      invariant left <= db.attempts.Items && highest >= 0
      invariant forall b :: b in db.attempts && (b, db.attempts[b]) !in left && MadeFor(db, b, m) ==>
          db.attempts[b].generation <= highest
      invariant highest == 0 ||
        exists b :: b in db.attempts && MadeFor(db, b, m) && db.attempts[b].generation == highest
      decreases |left|
    {
      var item :| item in left;
      var (b, row) := item;
      if row.request in db.requests && db.requests[row.request].input == m && row.generation > highest {
        highest := row.generation;
        assert MadeFor(db, b, m);
      }
      left := left - {item};
    }
    return highest + 1;
  }

  predicate MadeFor(db: Ledger, b: Id, m: Id) {
    b in db.attempts && db.attempts[b].request in db.requests && db.requests[db.attempts[b].request].input == m
  }

  method AnotherLive(db: Ledger, a: Id) returns (found: bool)
    ensures found == OtherLive(db, a)
  {
    found := AnyRow(db.attempts, (b: Id, row: Attempt) => b != a && Live(row.phase));
  }

  /** Whether the attempt has an event under this projection key. */
  method KeyUsed(db: Ledger, a: Id, key: Key) returns (found: bool)
    ensures found == KeyTaken(db, a, key)
  {
    found := AnyRow(db.events, (n: Id, e: Event) => e.attempt == Some(a) && e.key == Some(key));
  }

  // ------------------------------------------------------------- settlement

  /** No tool call, approval, input or doubtful tool result of the dialog is open. */
  method EffectsSettled(db: Ledger, d: Id) returns (settled: bool)
    ensures settled == (&& SettledTools(db.tools, db.attempts, d) && SettledApprovals(db.approvals, db.attempts, d)
                        && SettledInputs(db.inputs, db.attempts, d) && SettledEvents(db.events, d))
  {
    var attempts := db.attempts;
    var running := (t: Id, row: ToolCall) =>
      Belongs(attempts, row.attempt, d) && row.status !in {ToolSucceeded, ToolFailed};
    var open := AnyRow(db.tools, running);
    if open { return false; }
    open := AnyRow(db.approvals, (p: Id, row: Approval) => Belongs(attempts, row.attempt, d) && row.status != Resolved);
    if open { return false; }
    open := AnyRow(db.inputs, (i: Id, row: Input) => Belongs(attempts, row.attempt, d) && row.status != Resolved);
    if open { return false; }
    open := AnyRow(db.events, (n: Id, e: Event) => e.dialog == Some(d) && DoubtfulTool(e));
    return !open;
  }

  /** Whether the dialog has nothing queued, live, open or in doubt: the counts of
      dialog.delete, one table after the other. */
  method DialogSettled(db: Ledger, d: Id) returns (settled: bool)
    ensures settled == (Settled(db, d) && NoneQueued(db.requests, d))
  {
    hide SettledTools, SettledApprovals, SettledInputs, SettledEvents;
    var attempts := db.attempts;
    var unserved := (r: Id, row: Request) => row.dialog == d && row.status in {Queued, InDispatch, Active, Lost};
    var open := AnyRow(db.requests, unserved);
    if open { return false; }
    var live := (a: Id, row: Attempt) => row.dialog == d && (Live(row.phase) || row.effect == UnknownEffect);
    open := AnyRow(attempts, live);
    if open { return false; }
    open := AnyRow(db.actions, (c: Id, row: Action) => Belongs(attempts, row.ref.attempt, d) && Unresolved(row.status));
    if open { return false; }
    settled := EffectsSettled(db, d);
  }
}
