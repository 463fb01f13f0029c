/** Startup recovery, and what one step of any kind means for one dialog. */
module Recovery {
  import opened LedgerTypes
  import opened Transactions
  import opened LedgerInvariant
  import opened Supervisor
  import opened SystemInvariant
  import opened TaskSteps
  import opened Quiescence
  import opened Pieces
  import opened HoldPieces
  import opened WorkerSteps
  import opened SystemSteps

  // Each: neither table has a row of dialog `d` that the other lacks or has changed.

  ghost predicate FrozenRequests(o: map<Id, Request>, n: map<Id, Request>, d: Id) {
    && (forall r :: r in o && o[r].dialog == d ==> r in n && n[r] == o[r])
    && (forall r :: r in n && n[r].dialog == d ==> r in o && n[r] == o[r])
  }

  ghost predicate FrozenAttempts(o: map<Id, Attempt>, n: map<Id, Attempt>, d: Id) {
    && (forall a :: a in o && o[a].dialog == d ==> a in n && n[a] == o[a])
    && (forall a :: a in n && n[a].dialog == d ==> a in o && n[a] == o[a])
  }

  ghost predicate FrozenMessages(o: map<Id, Message>, n: map<Id, Message>, d: Id) {
    && (forall m :: m in o && o[m].dialog == d ==> m in n && n[m] == o[m])
    && (forall m :: m in n && n[m].dialog == d ==> m in o && n[m] == o[m])
  }

  ghost predicate FrozenActions(o: map<Id, Action>, n: map<Id, Action>, d: Id) {
    && (forall c :: c in o && o[c].ref.dialog == d ==> c in n && n[c] == o[c])
    && (forall c :: c in n && n[c].ref.dialog == d ==> c in o && n[c] == o[c])
  }

  ghost predicate FrozenApprovals(o: map<Id, Approval>, n: map<Id, Approval>, oldA: map<Id, Attempt>,
                                  newA: map<Id, Attempt>, d: Id) {
    && (forall p :: p in o && Belongs(oldA, o[p].attempt, d) ==> p in n && n[p] == o[p])
    && (forall p :: p in n && Belongs(newA, n[p].attempt, d) ==> p in o && n[p] == o[p])
  }

  ghost predicate FrozenInputs(o: map<Id, Input>, n: map<Id, Input>, oldA: map<Id, Attempt>, newA: map<Id, Attempt>,
                               d: Id) {
    && (forall i :: i in o && Belongs(oldA, o[i].attempt, d) ==> i in n && n[i] == o[i])
    && (forall i :: i in n && Belongs(newA, n[i].attempt, d) ==> i in o && n[i] == o[i])
  }

  ghost predicate FrozenTools(o: map<Id, ToolCall>, n: map<Id, ToolCall>, oldA: map<Id, Attempt>,
                              newA: map<Id, Attempt>, d: Id) {
    && (forall t :: t in o && Belongs(oldA, o[t].attempt, d) ==> t in n && n[t] == o[t])
    && (forall t :: t in n && Belongs(newA, n[t].attempt, d) ==> t in o && n[t] == o[t])
  }

  ghost predicate Frozen(o: Ledger, n: Ledger, d: Id) {
    && FrozenRequests(o.requests, n.requests, d)
    && FrozenAttempts(o.attempts, n.attempts, d)
    && FrozenMessages(o.messages, n.messages, d)
    && FrozenActions(o.actions, n.actions, d)
    && FrozenApprovals(o.approvals, n.approvals, o.attempts, n.attempts, d)
    && FrozenInputs(o.inputs, n.inputs, o.attempts, n.attempts, d)
    && FrozenTools(o.tools, n.tools, o.attempts, n.attempts, d)
  }

  lemma MovesFrozenRows(o: Ledger, n: Ledger, x: Id, d: Id)
    requires x != d && SameRequests(o.requests, n.requests, x) && SameAttempts(o.attempts, n.attempts, x)
    requires SameMessages(o.messages, n.messages, x) && SameActions(o.actions, n.actions, x)
    ensures FrozenRequests(o.requests, n.requests, d) && FrozenAttempts(o.attempts, n.attempts, d)
    ensures FrozenMessages(o.messages, n.messages, d) && FrozenActions(o.actions, n.actions, d)
  {
  }

  lemma MovesFrozenEffects(o: Ledger, n: Ledger, x: Id, d: Id)
    requires x != d && SameAttempts(o.attempts, n.attempts, x) && SameApprovals(o.approvals, n.approvals, n.attempts, x)
    requires SameInputs(o.inputs, n.inputs, n.attempts, x) && SameTools(o.tools, n.tools, n.attempts, x)
    ensures FrozenApprovals(o.approvals, n.approvals, o.attempts, n.attempts, d)
    ensures FrozenInputs(o.inputs, n.inputs, o.attempts, n.attempts, d)
    ensures FrozenTools(o.tools, n.tools, o.attempts, n.attempts, d)
  {
  }

  lemma MovesFrozen(o: Ledger, n: Ledger, x: Id, d: Id)
    requires Moves(o, n, x) && x != d
    ensures Frozen(o, n, d)
  {
    hide SameRequests, SameAttempts, SameMessages, SameActions, SameApprovals, SameInputs, SameTools, SameEvents,
         QueueMoves, FrozenRequests, FrozenAttempts, FrozenMessages, FrozenActions, FrozenApprovals, FrozenInputs,
         FrozenTools;
    MovesFrozenRows(o, n, x, d);
    MovesFrozenEffects(o, n, x, d);
  }

  lemma FrozenRowsTrans(a: Ledger, b: Ledger, c: Ledger, d: Id)
    requires FrozenRequests(a.requests, b.requests, d) && FrozenRequests(b.requests, c.requests, d)
    requires FrozenAttempts(a.attempts, b.attempts, d) && FrozenAttempts(b.attempts, c.attempts, d)
    requires FrozenMessages(a.messages, b.messages, d) && FrozenMessages(b.messages, c.messages, d)
    requires FrozenActions(a.actions, b.actions, d) && FrozenActions(b.actions, c.actions, d)
    ensures FrozenRequests(a.requests, c.requests, d) && FrozenAttempts(a.attempts, c.attempts, d)
    ensures FrozenMessages(a.messages, c.messages, d) && FrozenActions(a.actions, c.actions, d)
  {
  }

  lemma ApprovalsTrans(a: map<Id, Approval>, b: map<Id, Approval>, c: map<Id, Approval>, a1: map<Id, Attempt>,
                       a2: map<Id, Attempt>, a3: map<Id, Attempt>, d: Id)
    requires FrozenAttempts(a1, a2, d) && FrozenAttempts(a2, a3, d) && FrozenApprovals(a, b, a1, a2, d)
    requires FrozenApprovals(b, c, a2, a3, d)
    ensures FrozenApprovals(a, c, a1, a3, d)
  {
    hide FrozenAttempts, Belongs;
    forall t ensures Belongs(a1, t, d) == Belongs(a2, t, d) == Belongs(a3, t, d) {
      BelongsFrozen(a1, a2, t, d);
      BelongsFrozen(a2, a3, t, d);
    }
  }

  lemma InputsTrans(a: map<Id, Input>, b: map<Id, Input>, c: map<Id, Input>, a1: map<Id, Attempt>,
                    a2: map<Id, Attempt>, a3: map<Id, Attempt>, d: Id)
    requires FrozenAttempts(a1, a2, d) && FrozenAttempts(a2, a3, d) && FrozenInputs(a, b, a1, a2, d)
    requires FrozenInputs(b, c, a2, a3, d)
    ensures FrozenInputs(a, c, a1, a3, d)
  {
    hide FrozenAttempts, Belongs;
    forall t ensures Belongs(a1, t, d) == Belongs(a2, t, d) == Belongs(a3, t, d) {
      BelongsFrozen(a1, a2, t, d);
      BelongsFrozen(a2, a3, t, d);
    }
  }

  lemma ToolsTrans(a: map<Id, ToolCall>, b: map<Id, ToolCall>, c: map<Id, ToolCall>, a1: map<Id, Attempt>,
                   a2: map<Id, Attempt>, a3: map<Id, Attempt>, d: Id)
    requires FrozenAttempts(a1, a2, d) && FrozenAttempts(a2, a3, d) && FrozenTools(a, b, a1, a2, d)
    requires FrozenTools(b, c, a2, a3, d)
    ensures FrozenTools(a, c, a1, a3, d)
  {
    hide FrozenAttempts, Belongs;
    forall t ensures Belongs(a1, t, d) == Belongs(a2, t, d) == Belongs(a3, t, d) {
      BelongsFrozen(a1, a2, t, d);
      BelongsFrozen(a2, a3, t, d);
    }
  }

  lemma BelongsFrozen(o: map<Id, Attempt>, n: map<Id, Attempt>, a: Id, d: Id)
    requires FrozenAttempts(o, n, d)
    ensures Belongs(o, a, d) == Belongs(n, a, d)
  {
  }

  lemma FrozenTrans(a: Ledger, b: Ledger, c: Ledger, d: Id)
    requires Frozen(a, b, d) && Frozen(b, c, d)
    ensures Frozen(a, c, d)
  {
    hide FrozenRequests, FrozenAttempts, FrozenMessages, FrozenActions, FrozenApprovals, FrozenInputs, FrozenTools;
    FrozenRowsTrans(a, b, c, d);
    ApprovalsTrans(a.approvals, b.approvals, c.approvals, a.attempts, b.attempts, c.attempts, d);
    InputsTrans(a.inputs, b.inputs, c.inputs, a.attempts, b.attempts, c.attempts, d);
    ToolsTrans(a.tools, b.tools, c.tools, a.attempts, b.attempts, c.attempts, d);
  }

  // ---------------------------------------------------------------- restart

  lemma ForgetSettled(db: Ledger, d: Id)
    requires Settled(db, d)
    ensures Settled(db.(actions := Forget(db.actions)), d)
  {
    hide SettledRequests, SettledAttempts, SettledTools, SettledApprovals, SettledInputs, SettledEvents;
  }

  lemma ForgetFrozen(db: Ledger, d: Id)
    requires SettledActions(db.actions, db.attempts, d) && ActionRows(db.actions, db.attempts, db.messages)
    ensures Frozen(db, db.(actions := Forget(db.actions)), d)
  {
  }

  /** The outcome of recovery: every action resolved or unsettled, and at most one
      attempt newly unknown. */
  ghost predicate Recovers(db: Ledger, n: Ledger) {
    var d1 := db.(actions := Forget(db.actions));
    n == d1
        || (db.node.active.Some? && db.node.active.value in db.attempts && Live(db.attempts[db.node.active.value].phase)
                && Keeps(d1, n, db.attempts[db.node.active.value].dialog, Nobody) && n.actions == d1.actions)
  }

  lemma SlotFacts(db: Ledger)
    requires Core(db)
    ensures db.node.active.Some? ==>
        db.node.active.value in db.attempts && Live(db.attempts[db.node.active.value].phase)
    ensures db.node.active.Some? ==> !OtherLive(db, db.node.active.value)
  {
    hide LogInv, RequestRows, OrderInv, AttemptRows, ActionRows, EffectRows, MessageRows, KeyInv, AnswerRows,
         StartRows, PhaseRows, InputRows, RevisionInv, CountInv, SteerInv, HoldInv;
  }

  /** Both inconsistency errors of recovery are unreachable. */
  lemma RecoverWorks(db: Ledger)
    requires Core(db)
    ensures Recover(db).Ok? && Core(Recover(db).value) && Recovers(db, Recover(db).value)
  {
    hide Core, Moves, Calm, OtherLive, SetUnknown, Forget, HasAttempt;
    ForgetKeeps(db);
    SlotFacts(db);
    var d1 := db.(actions := Forget(db.actions));
    if db.node.active.Some? && db.attempts[db.node.active.value].phase != Unknown {
      SlotFacts(d1);
      var ref := RefOf(d1, db.node.active.value);
      OwnNames(d1, ref);
      SetUnknownKeeps(d1, ref, UnknownEffect, ref.dialog, Nobody);
      SetUnknownOk(d1, ref);
    }
  }

  lemma SetUnknownOk(db: Ledger, ref: AttemptRef)
    requires ref.attempt in db.attempts && ref == RefOf(db, ref.attempt) && !OtherLive(db, ref.attempt)
    ensures SetUnknown(db, ref, UnknownEffect).Ok? && SetUnknown(db, ref, UnknownEffect).value.actions == db.actions
  {
    hide OtherLive;
    SeizeActions(db, ref);
  }

  lemma SeizeActions(db: Ledger, ref: AttemptRef)
    requires ref.attempt in db.attempts
    ensures Seize(db, ref, UnknownEffect).actions == db.actions
  {
    hide Bump;
  }

  lemma Forgotten(actions: map<Id, Action>)
    ensures forall c :: c in Forget(actions) ==> Forget(actions)[c].status !in {Pending, Inflight}
  {
  }

  /** A settled dialog does not notice a restart. */
  lemma RestartQuiet(db: Ledger, n: Ledger, d: Id)
    requires Core(db) && Recovers(db, n) && Settled(db, d)
    ensures Settled(n, d) && Frozen(db, n, d) && (NoneQueued(db.requests, d) ==> NoneQueued(n.requests, d))
  {
    hide Core, Settled, Frozen, Moves, Calm, Forget, NoneQueued;
    var d1 := db.(actions := Forget(db.actions));
    ForgetKeeps(db);
    ForgetSettled(db, d);
    assert Frozen(db, d1, d) by { ForgetFrozenFrom(db, d); }
    if n != d1 {
      var a := db.node.active.value;
      LiveUnsettled(db, a);
      SettledElsewhere(d1, n, db.attempts[a].dialog, d);
      MovesFrozen(d1, n, db.attempts[a].dialog, d);
      FrozenTrans(db, d1, n, d);
    }
  }

  lemma ForgetFrozenFrom(db: Ledger, d: Id)
    requires Core(db) && Settled(db, d)
    ensures Frozen(db, db.(actions := Forget(db.actions)), d)
  {
    hide LogInv, SlotInv, RequestRows, OrderInv, AttemptRows, ActionRows, EffectRows, MessageRows, KeyInv,
         AnswerRows, StartRows, PhaseRows, InputRows, RevisionInv, CountInv, SteerInv, HoldInv, Frozen, Forget,
         SettledRequests, SettledAttempts, SettledActions, SettledTools, SettledApprovals, SettledInputs,
         SettledEvents;
    ForgetFrozen(db, d);
  }

  lemma RecoverRecords(db: Ledger, n: Ledger)
    requires Recovers(db, n)
    ensures SameRecords(db, n) && DebtOf(n) <= DebtOf(db) && (forall a :: a in db.attempts ==> a in n.attempts)
    ensures n.actions == Forget(db.actions)
    ensures QueueMoves(db.requests, db.queueRevisions, n.requests, n.queueRevisions)
    ensures n.dialogs.Keys == db.dialogs.Keys
  {
    hide Core, GrowActions, KeepSteered, Forget, Debt, SameRequests, SameAttempts, SameMessages, SameActions,
         SameApprovals, SameInputs, SameTools, SameEvents;
    SameTables(db, 0);
  }

  /** Recovery ends nothing, revives nothing and resolves no steer. */
  lemma RecoverWithin(db: Ledger, n: Ledger)
    requires Recovers(db, n)
    ensures Within(db, n, FREE)
  {
    hide Core, Moves, Calm, Debt, DebtOf, EndedKept;
    var d1 := db.(actions := Forget(db.actions));
    ForgetWithin(db);
    if n != d1 {
      KeepsWithin(d1, n, db.attempts[db.node.active.value].dialog, Nobody);
      WithinTrans(db, d1, n);
    }
  }

  lemma ForgetWithin(db: Ledger)
    ensures Within(db, db.(actions := Forget(db.actions)), FREE)
  {
    hide Debt;
  }

  lemma WithinTrans(a: Ledger, b: Ledger, c: Ledger)
    requires Within(a, b, FREE) && Within(b, c, FREE) && b.messages == a.messages
    ensures Within(a, c, FREE)
  {
    hide DebtOf, OpenSteer;
  }

  lemma RestartLedger(db: Ledger)
    requires LedgerInv(db)
    ensures Recover(db).Ok? && LedgerInv(Recover(db).value)
  {
    hide Core, Settled, NoneQueued, Recover, Recovers, DebtOf, Within, QueueMoves, Frozen;
    RecoverWorks(db);
    var n := Recover(db).value;
    RecoverRecords(db, n);
    forall d | d in n.tombstones
      ensures d in n.dialogs && Settled(n, d) && NoneQueued(n.requests, d)
    {
      RestartQuiet(db, n, d);
    }
  }

  lemma RestartStep(s: Sys)
    requires SysInv(s) && !s.running
    ensures Recover(s.db).Ok? && SysInv(s.(db := Recover(s.db).value, running := true))
    ensures Within(s.db, Recover(s.db).value, FREE)
  {
    hide Core, TombstoneInv, TaskInv, Recover, Recovers, DebtOf, Within, QueueMoves, Forget;
    RestartLedger(s.db);
    RecoverWorks(s.db);
    var n := Recover(s.db).value;
    RecoverRecords(s.db, n);
    Forgotten(s.db.actions);
    RestartTasks(s.db, n, s.calls);
    RecoverWithin(s.db, n);
  }
}
