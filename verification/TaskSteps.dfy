/** The steps of a claimed action: claiming, the gate, the call and its end. */
module TaskSteps {
  import opened LedgerTypes
  import opened Transactions
  import opened LedgerInvariant
  import opened Supervisor
  import opened SystemInvariant

  /** What a status change of one action leaves alone. */
  ghost predicate OneAction(old_: map<Id, Action>, new_: map<Id, Action>, c: Id) {
    && c in old_ && new_.Keys == old_.Keys && new_[c] == old_[c].(status := new_[c].status)
    && (forall e :: e in old_ && e != c ==> new_[e] == old_[e])
  }

  lemma OneUpdate(actions: map<Id, Action>, c: Id, to: ActionStatus)
    requires c in actions
    ensures OneAction(actions, actions[c := actions[c].(status := to)], c) && OneAction(actions, actions, c)
  {
  }

  lemma SetActionOne(db: Ledger, c: Id, from: ActionStatus, to: ActionStatus)
    requires c in db.actions
    ensures OneAction(db.actions, SetAction(db, c, from, to).actions, c)
    ensures db.actions[c].status == from ==> SetAction(db, c, from, to).actions[c].status == to
    ensures var n := SetAction(db, c, from, to); n == db.(actions := n.actions)
  {
    hide OneAction;
    OneUpdate(db.actions, c, to);
    if db.actions[c].status == from {
      assert SetAction(db, c, from, to) == db.(actions := db.actions[c := db.actions[c].(status := to)]);
    }
  }

  /** The steers other than `c` do not notice. */
  lemma OtherSteers(tasks: map<Id, Pc>, next: map<Id, Pc>, old_: map<Id, Action>, new_: map<Id, Action>,
                    messages: map<Id, Message>, requests: map<Id, Request>, c: Id)
    requires OneAction(old_, new_, c) && SteerRows(tasks, old_, messages, requests) && SteerOnce(tasks, old_)
    requires forall e :: e != c ==> (e in next <==> e in tasks) && (e in tasks ==> next[e] == tasks[e])
    requires Steering(next, new_, c) ==> Steering(tasks, old_, c) && (Clean(next, c) ==> Clean(tasks, c))
    ensures SteerRows(next, new_, messages, requests) && SteerOnce(next, new_)
  {
    forall e | Steering(next, new_, e)
      ensures Steering(tasks, old_, e) && new_[e].message == old_[e].message && (Clean(next, e) ==> Clean(tasks, e))
    {
    }
  }

  lemma ClaimTables(n: Ledger, db: Ledger, tasks: map<Id, Pc>, gate: Option<Id>, calls: multiset<Id>, c: Id, pc: Pc)
    requires TaskRows(tasks, db.actions) && GateInv(tasks, db.actions, gate)
    requires CallInv(calls, tasks, db.actions, db.attempts)
    requires StartInv(tasks, db.actions, db.attempts) && ReadyInv(tasks, db.actions, db.holds, db.holdEnds)
    requires OneAction(db.actions, n.actions, c) && db.actions[c].status == Pending
    requires n.actions[c].status == Inflight && c !in tasks
    requires pc == if db.actions[c].kind == DispatchStart then AwaitGate else Called
    ensures TaskRows(tasks[c := pc], n.actions) && GateInv(tasks[c := pc], n.actions, gate)
    ensures CallInv(calls, tasks[c := pc], n.actions, db.attempts) && StartInv(tasks[c := pc], n.actions, db.attempts)
    ensures ReadyInv(tasks[c := pc], n.actions, db.holds, db.holdEnds)
  {
    hide HeldBy;
  }

  lemma ClaimTask(db: Ledger, tasks: map<Id, Pc>, gate: Option<Id>, calls: multiset<Id>, c: Id)
    requires TaskInv(db, tasks, gate, calls) && c in db.actions && db.actions[c].status == Pending && c !in tasks
    ensures TaskInv(SetAction(db, c, Pending, Inflight),
        tasks[c := if db.actions[c].kind == DispatchStart then AwaitGate else Called], gate, calls)
  {
    hide HeldBy, UnderSteering, SteerRows, SteerOnce, SetAction, TaskRows, GateInv, CallInv, StartInv, ReadyInv;
    var n := SetAction(db, c, Pending, Inflight);
    var pc := if db.actions[c].kind == DispatchStart then AwaitGate else Called;
    SetActionOne(db, c, Pending, Inflight);
    ClaimTables(n, db, tasks, gate, calls, c, pc);
    OtherSteers(tasks, tasks[c := pc], db.actions, n.actions, db.messages, db.requests, c);
  }

  lemma UnworkedTables(n: Ledger, db: Ledger, tasks: map<Id, Pc>, gate: Option<Id>, calls: multiset<Id>, c: Id)
    requires TaskRows(tasks, db.actions) && GateInv(tasks, db.actions, gate)
    requires CallInv(calls, tasks, db.actions, db.attempts)
    requires StartInv(tasks, db.actions, db.attempts) && ReadyInv(tasks, db.actions, db.holds, db.holdEnds)
    requires OneAction(db.actions, n.actions, c) && db.actions[c].status == Pending
    requires n.actions[c].status == Inflight && c !in tasks
    ensures TaskRows(tasks, n.actions) && GateInv(tasks, n.actions, gate)
    ensures CallInv(calls, tasks, n.actions, db.attempts) && StartInv(tasks, n.actions, db.attempts)
    ensures ReadyInv(tasks, n.actions, db.holds, db.holdEnds)
  {
    hide HeldBy;
  }

  /** The action is in flight without a task. */
  lemma UnworkedTask(db: Ledger, tasks: map<Id, Pc>, gate: Option<Id>, calls: multiset<Id>, c: Id)
    requires TaskInv(db, tasks, gate, calls) && c in db.actions && db.actions[c].status == Pending && c !in tasks
    ensures TaskInv(SetAction(db, c, Pending, Inflight), tasks, gate, calls)
  {
    hide HeldBy, UnderSteering, SteerRows, SteerOnce, SetAction, TaskRows, GateInv, CallInv, StartInv, ReadyInv;
    var n := SetAction(db, c, Pending, Inflight);
    SetActionOne(db, c, Pending, Inflight);
    UnworkedTables(n, db, tasks, gate, calls, c);
    OtherSteers(tasks, tasks, db.actions, n.actions, db.messages, db.requests, c);
  }

  lemma GateTask(db: Ledger, tasks: map<Id, Pc>, calls: multiset<Id>, c: Id)
    requires TaskInv(db, tasks, None, calls) && c in db.actions && c in tasks && tasks[c] == AwaitGate
    ensures TaskInv(db, tasks[c := Gated], Some(c), calls)
  {
    hide HeldBy, UnderSteering, SteerRows, SteerOnce;
    OtherSteers(tasks, tasks[c := Gated], db.actions, db.actions, db.messages, db.requests, c);
  }

  lemma RequeueTask(db: Ledger, tasks: map<Id, Pc>, gate: Option<Id>, calls: multiset<Id>, c: Id)
    requires TaskInv(db, tasks, gate, calls) && c in db.actions && c in tasks && tasks[c] == Gated
    ensures TaskInv(SetAction(db, c, Inflight, Pending), tasks[c := GaveIn], gate, calls)
  {
    hide HeldBy, UnderSteering, SteerRows, SteerOnce, SetAction;
    var n := SetAction(db, c, Inflight, Pending);
    SetActionOne(db, c, Inflight, Pending);
    OtherSteers(tasks, tasks[c := GaveIn], db.actions, n.actions, db.messages, db.requests, c);
  }

  lemma ReadyTask(db: Ledger, tasks: map<Id, Pc>, gate: Option<Id>, calls: multiset<Id>, c: Id, brief: Brief)
    requires TaskInv(db, tasks, gate, calls) && c in db.actions && c in tasks && tasks[c] == Authenticated
    requires !HeldBy(db.holds, db.holdEnds, db.actions[c].ref.dialog)
    ensures TaskInv(db, tasks[c := Ready(brief)], gate, calls)
  {
    hide HeldBy, UnderSteering, SteerRows, SteerOnce;
    OtherSteers(tasks, tasks[c := Ready(brief)], db.actions, db.actions, db.messages, db.requests, c);
  }

  lemma IssueTask(db: Ledger, tasks: map<Id, Pc>, gate: Option<Id>, calls: multiset<Id>, c: Id)
    requires TaskInv(db, tasks, gate, calls) && c in db.actions && c in tasks && tasks[c].Vetted?
    requires db.actions[c].ref.attempt == c && c in db.attempts
    ensures TaskInv(db, tasks[c := InCall(tasks[c].brief, tasks[c].proof)], gate, calls + multiset{c})
  {
    hide HeldBy, UnderSteering, SteerRows, SteerOnce;
    OtherSteers(tasks, tasks[c := InCall(tasks[c].brief, tasks[c].proof)], db.actions, db.actions, db.messages,
        db.requests, c);
  }

  lemma FinishTables(n: Ledger, db: Ledger, tasks: map<Id, Pc>, next: map<Id, Pc>, gate: Option<Id>,
                     calls: multiset<Id>, c: Id)
    requires TaskRows(tasks, db.actions) && GateInv(tasks, db.actions, gate)
    requires CallInv(calls, tasks, db.actions, db.attempts)
    requires StartInv(tasks, db.actions, db.attempts) && ReadyInv(tasks, db.actions, db.holds, db.holdEnds)
    requires OneAction(db.actions, n.actions, c) && n.actions[c].status != Pending && c in tasks && tasks[c].Finish?
    requires next == if db.actions[c].kind == DispatchStart then tasks[c := GaveIn] else tasks - {c}
    ensures TaskRows(next, n.actions) && GateInv(next, n.actions, gate)
    ensures CallInv(calls, next, n.actions, db.attempts) && StartInv(next, n.actions, db.attempts)
    ensures ReadyInv(next, n.actions, db.holds, db.holdEnds)
  {
    hide HeldBy;
  }

  lemma FinishTask(db: Ledger, tasks: map<Id, Pc>, gate: Option<Id>, calls: multiset<Id>, c: Id, n: Ledger)
    requires TaskInv(db, tasks, gate, calls) && c in db.actions && c in tasks && tasks[c].Finish?
    requires n == db || n == SetAction(db, c, Inflight, tasks[c].status)
    ensures TaskInv(n, if db.actions[c].kind == DispatchStart then tasks[c := GaveIn] else tasks - {c}, gate, calls)
  {
    hide HeldBy, UnderSteering, SteerRows, SteerOnce, SetAction, GateInv, CallInv, StartInv, ReadyInv;
    var next := if db.actions[c].kind == DispatchStart then tasks[c := GaveIn] else tasks - {c};
    SetActionOne(db, c, Inflight, tasks[c].status);
    FinishTables(n, db, tasks, next, gate, calls, c);
    OtherSteers(tasks, next, db.actions, n.actions, db.messages, db.requests, c);
  }

  lemma LetGoTask(db: Ledger, tasks: map<Id, Pc>, gate: Option<Id>, calls: multiset<Id>, c: Id)
    requires TaskInv(db, tasks, gate, calls) && c in db.actions && c in tasks && tasks[c] == GaveIn
    ensures TaskInv(db, tasks - {c}, None, calls)
  {
    hide HeldBy, UnderSteering, SteerRows, SteerOnce;
    OtherSteers(tasks, tasks - {c}, db.actions, db.actions, db.messages, db.requests, c);
  }

  lemma CrashTasks(db: Ledger, tasks: map<Id, Pc>, gate: Option<Id>, calls: multiset<Id>)
    requires TaskInv(db, tasks, gate, calls)
    ensures TaskInv(db, map[], None, calls)
  {
    hide HeldBy;
    forall c | Steering(map[], db.actions, c)
      ensures Steering(tasks, db.actions, c) && Clean(tasks, c)
    {
    }
  }

  /** After recovery nothing is pending and no task runs. */
  lemma RestartTasks(db: Ledger, n: Ledger, calls: multiset<Id>)
    requires TaskInv(db, map[], None, calls)
    requires forall c :: c in n.actions ==> n.actions[c].status !in {Pending, Inflight}
    requires forall a :: a in db.attempts ==> a in n.attempts
    ensures TaskInv(n, map[], None, calls)
  {
  }
}
