/** What holds of the ledger together with the running tasks, the start gate and
    the history of provider calls. */
module SystemInvariant {
  import opened LedgerTypes
  import opened Transactions
  import opened LedgerInvariant
  import opened Supervisor
  import opened CommandSteps

  ghost predicate PcFits(kind: ActionKind, pc: Pc) {
    match pc
    case Called => kind != DispatchStart
    case Contradicted => kind in {SteerMessage, AnswerApproval, AnswerInput}
    case Settle(_) => kind in {SteerMessage, AnswerApproval, AnswerInput}
    case Unsure => kind in {DispatchStart, StopAttempt}
    case Finish(status) => status in {Acknowledged, Rejected, Unsettled}
    case _ => kind == DispatchStart
  }

  ghost predicate TaskRows(tasks: map<Id, Pc>, actions: map<Id, Action>) {
    forall c :: c in tasks ==>
      && c in actions && PcFits(actions[c].kind, tasks[c])
      && (tasks[c] != GaveIn ==> actions[c].status == Inflight)
  }

  /** The gate is held by exactly the dispatch that has passed it. */
  ghost predicate GateInv(tasks: map<Id, Pc>, actions: map<Id, Action>, gate: Option<Id>) {
    && (gate.Some? ==> gate.value in tasks)
    && (forall c :: c in tasks && c in actions ==>
         (gate == Some(c) <==> actions[c].kind == DispatchStart && tasks[c] != AwaitGate))
  }

  /** No hold covers a dispatch that is about to call the provider. */
  ghost predicate ReadyInv(tasks: map<Id, Pc>, actions: map<Id, Action>, holds: map<Id, Hold>, ends: map<Id, HoldEnd>) {
    forall c :: c in tasks && c in actions && (tasks[c].Ready? || tasks[c].Vetted?) ==>
        !HeldBy(holds, ends, actions[c].ref.dialog)
  }

  predicate BeforeCall(pc: Pc) {
    pc in {AwaitGate, Gated, Authenticated} || pc.Ready? || pc.Vetted?
  }

  /** An attempt is started or resumed at most once, and not before its action has
      been claimed for good. */
  ghost predicate CallInv(calls: multiset<Id>, tasks: map<Id, Pc>, actions: map<Id, Action>,
                          attempts: map<Id, Attempt>) {
    forall a :: a in calls ==>
      && calls[a] == 1 && a in attempts
      && (a in actions ==> actions[a].status != Pending)
      && (a in tasks ==> !BeforeCall(tasks[a]))
  }

  predicate BeforeStart(pc: Pc) {
    BeforeCall(pc) || pc.InCall? || pc in {Accepted, Declined}
  }

  /** The dispatch of this attempt has not reported a start. */
  ghost predicate Unstarted(tasks: map<Id, Pc>, actions: map<Id, Action>, c: Id) {
    c in actions && actions[c].kind == DispatchStart
        && (actions[c].status == Pending || (c in tasks && BeforeStart(tasks[c])))
  }

  ghost predicate StartInv(tasks: map<Id, Pc>, actions: map<Id, Action>, attempts: map<Id, Attempt>) {
    forall c :: Unstarted(tasks, actions, c) && c in attempts ==> !attempts[c].started
  }

  /** A steer whose verdict has not been committed. */
  ghost predicate Steering(tasks: map<Id, Pc>, actions: map<Id, Action>, c: Id) {
    && c in actions && actions[c].kind == SteerMessage
    && (actions[c].status == Pending || (c in tasks && (tasks[c] in {Called, Contradicted} || tasks[c].Settle?)))
  }

  ghost predicate Clean(tasks: map<Id, Pc>, c: Id) {
    c in tasks ==> tasks[c] != Settle(Doubt)
  }

  ghost predicate SteerRows(tasks: map<Id, Pc>, actions: map<Id, Action>, messages: map<Id, Message>,
                            requests: map<Id, Request>) {
    forall c :: Steering(tasks, actions, c) ==> UnderSteering(messages, requests, actions[c].message, Clean(tasks, c))
  }

  ghost predicate SteerOnce(tasks: map<Id, Pc>, actions: map<Id, Action>) {
    forall c, e ::
      Steering(tasks, actions, c) && Steering(tasks, actions, e) && actions[c].message == actions[e].message ==> c == e
  }

  ghost predicate TaskInv(db: Ledger, tasks: map<Id, Pc>, gate: Option<Id>, calls: multiset<Id>) {
    && TaskRows(tasks, db.actions)
    && GateInv(tasks, db.actions, gate)
    && ReadyInv(tasks, db.actions, db.holds, db.holdEnds)
    && CallInv(calls, tasks, db.actions, db.attempts)
    && StartInv(tasks, db.actions, db.attempts)
    && SteerRows(tasks, db.actions, db.messages, db.requests)
    && SteerOnce(tasks, db.actions)
  }

  ghost predicate SysInv(s: Sys) {
    && LedgerInv(s.db)
    && TaskInv(s.db, s.tasks, s.gate, s.calls)
    && (!s.running ==> s.tasks == map[] && s.gate.None?)
  }

  // --------------------------------------------- a transaction under the tasks

  lemma ActionsKept(o: Ledger, n: Ledger, tasks: map<Id, Pc>, gate: Option<Id>, calls: multiset<Id>, ex: Exempt)
    requires TaskRows(tasks, o.actions) && GateInv(tasks, o.actions, gate)
    requires CallInv(calls, tasks, o.actions, o.attempts)
    requires GrowActions(o.actions, n.actions, ex) && KeepStarted(o.attempts, n.attempts, ex)
    requires StartRows(o.attempts, o.actions)
    ensures TaskRows(tasks, n.actions) && GateInv(tasks, n.actions, gate)
    ensures CallInv(calls, tasks, n.actions, n.attempts)
  {
  }

  lemma ReadyKept(o: Ledger, n: Ledger, tasks: map<Id, Pc>, gate: Option<Id>, ex: Exempt)
    requires TaskRows(tasks, o.actions) && GateInv(tasks, o.actions, gate)
    requires ReadyInv(tasks, o.actions, o.holds, o.holdEnds)
    requires GrowActions(o.actions, n.actions, ex) && (gate.None? || (n.holds == o.holds && n.holdEnds == o.holdEnds))
    ensures ReadyInv(tasks, n.actions, n.holds, n.holdEnds)
  {
    hide HeldBy;
  }

  lemma StartKept(o: Ledger, n: Ledger, tasks: map<Id, Pc>, ex: Exempt)
    requires TaskRows(tasks, o.actions) && StartInv(tasks, o.actions, o.attempts) && StartRows(o.attempts, o.actions)
    requires GrowActions(o.actions, n.actions, ex) && KeepStarted(o.attempts, n.attempts, ex)
    requires ex.Starter? ==> ex.a in o.actions && !Unstarted(tasks, o.actions, ex.a)
    ensures StartInv(tasks, n.actions, n.attempts)
  {
  }

  /** The steers that a transaction may disturb are accounted for by the caller. */
  ghost predicate SteersSettled(o: Ledger, n: Ledger, tasks: map<Id, Pc>, ex: Exempt) {
    ex.Steered? ==> forall c :: Steering(tasks, o.actions, c) && o.actions[c].message == ex.m ==>
        UnderSteering(n.messages, n.requests, ex.m, Clean(tasks, c))
  }

  lemma SteersKept(o: Ledger, n: Ledger, tasks: map<Id, Pc>, ex: Exempt)
    requires TaskRows(tasks, o.actions) && SteerRows(tasks, o.actions, o.messages, o.requests)
    requires SteerOnce(tasks, o.actions)
    requires GrowActions(o.actions, n.actions, ex) && KeepSteered(o.messages, o.requests, n.messages, n.requests, ex)
    requires ex != Registrar && SteersSettled(o, n, tasks, ex)
    ensures SteerRows(tasks, n.actions, n.messages, n.requests) && SteerOnce(tasks, n.actions)
  {
    hide UnderSteering, Clean;
    forall c | Steering(tasks, n.actions, c)
      ensures Steering(tasks, o.actions, c) && n.actions[c] == o.actions[c]
    {
    }
  }

  /** A steer after a submission is an old one, or the new one of a message that was
      waiting. */
  lemma SteerOrigins(o: Ledger, n: Ledger, tasks: map<Id, Pc>, id: Id, c: Id)
    requires TaskRows(tasks, o.actions) && GrowActions(o.actions, n.actions, Registrar) && NewSteers(o, n, id)
    requires Steering(tasks, n.actions, c)
    ensures c in o.actions ==> Steering(tasks, o.actions, c) && n.actions[c] == o.actions[c]
    ensures c !in o.actions ==> c == id && c !in tasks && Steers(o, n, n.actions[c].message)
  {
    hide Steers;
  }

  lemma JoinedRow(o: Ledger, n: Ledger, tasks: map<Id, Pc>, id: Id, c: Id)
    requires TaskRows(tasks, o.actions) && SteerRows(tasks, o.actions, o.messages, o.requests)
    requires GrowActions(o.actions, n.actions, Registrar) && NewSteers(o, n, id) && Steering(tasks, n.actions, c)
    requires KeepSteered(o.messages, o.requests, n.messages, n.requests, Registrar)
    ensures UnderSteering(n.messages, n.requests, n.actions[c].message, Clean(tasks, c))
  {
    hide NewSteers, GrowActions, TaskRows;
    SteerOrigins(o, n, tasks, id, c);
    if c in o.actions {
      assert UnderSteering(o.messages, o.requests, o.actions[c].message, Clean(tasks, c));
    }
  }

  lemma JoinedOnce(o: Ledger, n: Ledger, tasks: map<Id, Pc>, id: Id, c: Id, e: Id)
    requires TaskRows(tasks, o.actions) && SteerRows(tasks, o.actions, o.messages, o.requests)
    requires SteerOnce(tasks, o.actions) && GrowActions(o.actions, n.actions, Registrar) && NewSteers(o, n, id)
    requires Steering(tasks, n.actions, c) && Steering(tasks, n.actions, e)
    requires n.actions[c].message == n.actions[e].message
    ensures c == e
  {
    hide NewSteers, GrowActions, TaskRows;
    SteerOrigins(o, n, tasks, id, c);
    SteerOrigins(o, n, tasks, id, e);
    if c in o.actions { assert UnderSteering(o.messages, o.requests, o.actions[c].message, Clean(tasks, c)); }
    if e in o.actions { assert UnderSteering(o.messages, o.requests, o.actions[e].message, Clean(tasks, e)); }
  }

  /** A new steer joins the others: its message was waiting, so none had it. */
  lemma SteerJoins(o: Ledger, n: Ledger, tasks: map<Id, Pc>, id: Id)
    requires TaskRows(tasks, o.actions) && SteerRows(tasks, o.actions, o.messages, o.requests)
    requires SteerOnce(tasks, o.actions)
    requires GrowActions(o.actions, n.actions, Registrar)
    requires KeepSteered(o.messages, o.requests, n.messages, n.requests, Registrar)
    requires NewSteers(o, n, id)
    ensures SteerRows(tasks, n.actions, n.messages, n.requests) && SteerOnce(tasks, n.actions)
  {
    hide NewSteers, GrowActions, TaskRows, KeepSteered, UnderSteering, Clean;
    forall c | Steering(tasks, n.actions, c)
      ensures UnderSteering(n.messages, n.requests, n.actions[c].message, Clean(tasks, c))
    {
      JoinedRow(o, n, tasks, id, c);
    }
    forall c, e | Steering(tasks, n.actions, c) && Steering(tasks, n.actions, e)
        && n.actions[c].message == n.actions[e].message
      ensures c == e
    {
      JoinedOnce(o, n, tasks, id, c, e);
    }
  }

  /** Any transaction that leaves the tasks alone. */
  lemma TasksKept(o: Ledger, n: Ledger, tasks: map<Id, Pc>, gate: Option<Id>, calls: multiset<Id>, x: Id, ex: Exempt)
    requires Core(o) && TaskInv(o, tasks, gate, calls) && Keeps(o, n, x, ex) && ex != Registrar
    requires SteersSettled(o, n, tasks, ex)
    requires ex.Starter? ==> ex.a in o.actions && !Unstarted(tasks, o.actions, ex.a)
    ensures TaskInv(n, tasks, gate, calls)
  {
    hide LogInv, SlotInv, RequestRows, OrderInv, AttemptRows, ActionRows, EffectRows, MessageRows, KeyInv,
         AnswerRows, StartRows, PhaseRows, InputRows, RevisionInv, CountInv, SteerInv, HoldInv, Moves, GrowActions,
         KeepStarted, KeepSteered, NoNewDebt, TaskRows, GateInv, ReadyInv, CallInv, StartInv, SteerRows, SteerOnce,
         SteersSettled, Unstarted;
    ActionsKept(o, n, tasks, gate, calls, ex);
    ReadyKept(o, n, tasks, gate, ex);
    StartKept(o, n, tasks, ex);
    SteersKept(o, n, tasks, ex);
  }

  /** A transaction that writes records: under the gate, or leaving the holds. */
  lemma TasksRecorded(o: Ledger, n: Ledger, tasks: map<Id, Pc>, gate: Option<Id>, calls: multiset<Id>, x: Id, id: Id)
    requires Core(o) && TaskInv(o, tasks, gate, calls) && Keeps(o, n, x, Registrar) && NewSteers(o, n, id)
    requires gate.None? || (n.holds == o.holds && n.holdEnds == o.holdEnds)
    ensures TaskInv(n, tasks, gate, calls)
  {
    hide LogInv, SlotInv, RequestRows, OrderInv, AttemptRows, ActionRows, EffectRows, MessageRows, KeyInv,
         AnswerRows, StartRows, PhaseRows, InputRows, RevisionInv, CountInv, SteerInv, HoldInv, Moves, GrowActions,
         KeepStarted, KeepSteered, NoNewDebt, TaskRows, GateInv, ReadyInv, CallInv, StartInv, SteerRows, SteerOnce,
         NewSteers;
    ActionsKept(o, n, tasks, gate, calls, Registrar);
    ReadyKept(o, n, tasks, gate, Registrar);
    StartKept(o, n, tasks, Registrar);
    SteerJoins(o, n, tasks, id);
  }

  // ------------------------------------------------------- a task moves alone

  /** From one program counter to the next without a transaction: where a task may
      go so that nothing the invariant says of it is lost. */
  ghost predicate MayGo(kind: ActionKind, from: Pc, to: Pc) {
    && PcFits(kind, to) && from != GaveIn && to != AwaitGate && !to.Ready? && (to.Vetted? ==> from.Ready?)
    && (kind == DispatchStart ==> from != AwaitGate)
    && (BeforeCall(to) ==> BeforeCall(from))
    && (BeforeStart(to) ==> BeforeStart(from))
    && (to in {Called, Contradicted} || to.Settle? ==> from in {Called, Contradicted} || (from.Settle? && from == to))
    && (from == Settle(Doubt) ==> to == Settle(Doubt) || (!to.Settle? && to !in {Called, Contradicted}))
  }

  lemma GoKeeps(db: Ledger, tasks: map<Id, Pc>, gate: Option<Id>, calls: multiset<Id>, c: Id, pc: Pc)
    requires TaskInv(db, tasks, gate, calls) && c in tasks && c in db.actions && MayGo(db.actions[c].kind, tasks[c], pc)
    ensures TaskInv(db, tasks[c := pc], gate, calls)
  {
    hide HeldBy;
    var next := tasks[c := pc];
    assert SteerRows(next, db.actions, db.messages, db.requests) && SteerOnce(next, db.actions) by {
      GoSteers(db, tasks, c, pc);
    }
  }

  lemma GoSteers(db: Ledger, tasks: map<Id, Pc>, c: Id, pc: Pc)
    requires SteerRows(tasks, db.actions, db.messages, db.requests) && SteerOnce(tasks, db.actions)
    requires TaskRows(tasks, db.actions)
    requires c in tasks && c in db.actions && MayGo(db.actions[c].kind, tasks[c], pc)
    ensures SteerRows(tasks[c := pc], db.actions, db.messages, db.requests) && SteerOnce(tasks[c := pc], db.actions)
  {
    var next := tasks[c := pc];
    forall e | Steering(next, db.actions, e)
      ensures Steering(tasks, db.actions, e)
      ensures UnderSteering(db.messages, db.requests, db.actions[e].message, Clean(next, e))
    {
    }
  }
}
