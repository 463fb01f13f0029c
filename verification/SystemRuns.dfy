/** The steps of the action workers, crashes and recovery, and then every run. */
module SystemRuns {
  import opened LedgerTypes
  import opened LedgerTail
  import opened Transactions
  import opened LedgerInvariant
  import opened Supervisor
  import opened SystemInvariant
  import opened TaskSteps
  import opened Quiescence
  import opened Pieces
  import opened RowPieces
  import opened SteerPieces
  import opened CommandSteps
  import opened WorkerSteps
  import opened SystemSteps

  /** A step of the tasks alone. */
  lemma TasksStep(s: Sys, tasks: map<Id, Pc>, gate: Option<Id>, calls: multiset<Id>)
    requires SysInv(s) && s.running && TaskInv(s.db, tasks, gate, calls)
    ensures Safe(s, s.(tasks := tasks, gate := gate, calls := calls), FREE)
  {
    hide LedgerInv, TaskInv, SparesAll, DebtOf, Within, RecordsGrow;
    StutterStep(s);
  }

  lemma GoStep(s: Sys, c: Id, pc: Pc)
    requires SysInv(s) && s.running && c in s.tasks && c in s.db.actions && MayGo(s.db.actions[c].kind, s.tasks[c], pc)
    ensures Safe(s, Goto(s, c, pc), FREE)
  {
    hide LedgerInv, TaskInv, Safe, MayGo;
    GoKeeps(s.db, s.tasks, s.gate, s.calls, c, pc);
    TasksStep(s, s.tasks[c := pc], s.gate, s.calls);
  }

  /** A transaction of a task that holds an unresolved action. */
  lemma WorkStep(s: Sys, n: Ledger, tasks: map<Id, Pc>, c: Id, toll: Toll)
    requires SysInv(s) && s.running && c in s.db.actions && Unresolved(s.db.actions[c].status)
    requires Core(n) && Moves(s.db, n, s.db.actions[c].ref.dialog) && SameRecords(s.db, n)
    requires TaskInv(n, tasks, s.gate, s.calls)
    requires Within(s.db, n, toll) && n.dialogs.Keys == s.db.dialogs.Keys
    ensures Safe(s, s.(db := n, tasks := tasks), toll)
  {
    hide Core, TaskInv, TombstoneInv, Spares, Moves, Settled, SameRecords, DebtOf, Within, RecordsGrow;
    ActionUnsettled(s.db, c);
    SameRecordsGrow(s.db, n);
    forall d ensures Spares(s.db, n, d) { SparesBusy(s.db, n, s.db.actions[c].ref.dialog, d); }
    SameRecordsLedger(s.db, n);
  }

  /** A change of one action's status among what is open. */
  lemma StatusOpens(actions: map<Id, Action>, c: Id, from: ActionStatus, to: ActionStatus)
    requires c in actions && actions[c].status == from && Unresolved(from)
    requires to == Pending ==> !OpenAnswer(actions, c, actions[c].ref.attempt)
    ensures var n := actions[c := actions[c].(status := to)];
      && (forall e, m :: OpenSteer(actions, e, m) && (Unresolved(to) || e != c) ==> OpenSteer(n, e, m))
      && (forall e, a :: OpenAnswer(actions, e, a) && (Unresolved(to) || e != c) ==> OpenAnswer(n, e, a))
  {
  }

  lemma ActionsWithin(db: Ledger, n: Ledger, loosed: set<Id>)
    requires n == db.(actions := n.actions)
    requires forall e, m :: OpenSteer(db.actions, e, m) && e !in loosed ==> OpenSteer(n.actions, e, m)
    requires forall e, a :: OpenAnswer(db.actions, e, a) && e !in loosed ==> OpenAnswer(n.actions, e, a)
    ensures Within(db, n, Toll({}, {}, loosed))
  {
    hide OpenSteer, OpenAnswer;
  }

  lemma SetActionWithin(db: Ledger, c: Id, from: ActionStatus, to: ActionStatus)
    requires c in db.actions && Unresolved(from)
    requires to == Pending ==> !OpenAnswer(db.actions, c, db.actions[c].ref.attempt)
    ensures Within(db, SetAction(db, c, from, to), if Unresolved(to) then FREE else Toll({}, {}, {c}))
  {
    hide Within, OpenSteer, OpenAnswer;
    var loosed := if Unresolved(to) then {} else {c};
    if db.actions[c].status == from {
      StatusOpens(db.actions, c, from, to);
      ActionsWithin(db, SetAction(db, c, from, to), loosed);
    } else {
      ActionsWithin(db, db, loosed);
    }
  }

  lemma SetActionRecords(db: Ledger, c: Id, from: ActionStatus, to: ActionStatus)
    ensures SameRecords(db, SetAction(db, c, from, to)) && SetAction(db, c, from, to).dialogs == db.dialogs
  {
  }

  lemma ClaimStep(s: Sys, c: Id)
    requires SysInv(s) && s.running && ClaimedNext(s.db, c) && c !in s.tasks
    ensures Safe(s, Do(s, Claim(c)), FREE)
  {
    hide Core, TaskInv, TombstoneInv, Safe, Moves, SameRecords, SetAction, HeldBy;
    SetActionKeeps(s.db, c, Pending, Inflight, s.db.actions[c].ref.dialog);
    SetActionRecords(s.db, c, Pending, Inflight);
    SetActionWithin(s.db, c, Pending, Inflight);
    ClaimTask(s.db, s.tasks, s.gate, s.calls, c);
    var first := if s.db.actions[c].kind == DispatchStart then AwaitGate else Called;
    WorkStep(s, SetAction(s.db, c, Pending, Inflight), s.tasks[c := first], c, FREE);
  }

  /** A claim whose reply is lost leaves an action in flight that nobody works on. */
  lemma ClaimLost(s: Sys, c: Id)
    requires SysInv(s) && s.running && ClaimedNext(s.db, c) && c !in s.tasks
    ensures Safe(s, s.(db := SetAction(s.db, c, Pending, Inflight)), FREE)
  {
    hide Core, TaskInv, TombstoneInv, Safe, Moves, SameRecords, SetAction, HeldBy;
    SetActionKeeps(s.db, c, Pending, Inflight, s.db.actions[c].ref.dialog);
    SetActionRecords(s.db, c, Pending, Inflight);
    SetActionWithin(s.db, c, Pending, Inflight);
    UnworkedTask(s.db, s.tasks, s.gate, s.calls, c);
    WorkStep(s, SetAction(s.db, c, Pending, Inflight), s.tasks, c, FREE);
  }

  lemma TaskFacts(s: Sys, c: Id)
    requires TaskInv(s.db, s.tasks, s.gate, s.calls) && c in s.tasks
    ensures c in s.db.actions && PcFits(s.db.actions[c].kind, s.tasks[c])
    ensures (s.tasks[c] != GaveIn ==> s.db.actions[c].status == Inflight)
    ensures s.db.actions[c].kind == DispatchStart && s.tasks[c] != AwaitGate ==> s.gate == Some(c)
  {
    hide ReadyInv, CallInv, StartInv, SteerRows, SteerOnce;
  }

  lemma DispatchFacts(db: Ledger, c: Id)
    requires Core(db) && c in db.actions && db.actions[c].kind == DispatchStart
    ensures db.actions[c].ref.attempt == c && c in db.attempts && db.actions[c].ref == RefOf(db, c)
    ensures db.actions[c].status in {Pending, Inflight} && db.attempts[c].phase == Dispatching ==>
        !HeldBy(db.holds, db.holdEnds, db.actions[c].ref.dialog)
  {
    hide LogInv, SlotInv, RequestRows, OrderInv, AttemptRows, EffectRows, MessageRows, KeyInv, AnswerRows, PhaseRows,
         InputRows, RevisionInv, CountInv, SteerInv, HeldBy;
  }

  lemma AuthenticateStep(s: Sys, c: Id, ready: bool, ok: bool)
    requires SysInv(s) && s.running && At(s, c, Gated)
    ensures Safe(s, Do(s, Authenticate(c, ready, ok)), FREE)
  {
    hide Core, TaskInv, TombstoneInv, Safe, Moves, SameRecords, SetAction;
    TaskFacts(s, c);
    if ready {
      GoStep(s, c, Authenticated);
    } else if ok {
      SetActionKeeps(s.db, c, Inflight, Pending, s.db.actions[c].ref.dialog);
      SetActionRecords(s.db, c, Inflight, Pending);
      SetActionWithin(s.db, c, Inflight, Pending);
      RequeueTask(s.db, s.tasks, s.gate, s.calls, c);
      WorkStep(s, SetAction(s.db, c, Inflight, Pending), s.tasks[c := GaveIn], c, FREE);
    } else {
      GoStep(s, c, GaveIn);
    }
  }

  lemma ReadAttemptStep(s: Sys, c: Id)
    requires SysInv(s) && s.running && At(s, c, Authenticated)
    ensures Safe(s, Do(s, ReadAttempt(c)), FREE)
  {
    hide Core, TaskInv, TombstoneInv, Safe, HeldBy;
    TaskFacts(s, c);
    DispatchFacts(s.db, c);
    if HasInput(s.db, c) && s.db.attempts[c].phase == Dispatching {
      ReadyTask(s.db, s.tasks, s.gate, s.calls, c, BriefOf(s.db, c));
      TasksStep(s, s.tasks[c := Ready(BriefOf(s.db, c))], s.gate, s.calls);
    } else {
      GoStep(s, c, Unsure);
    }
  }

  lemma IssueStep(s: Sys, c: Id)
    requires SysInv(s) && s.running && Poised(s, c)
    ensures Safe(s, Do(s, Issue(c)), FREE)
  {
    hide Core, TaskInv, TombstoneInv, Safe, HeldBy;
    TaskFacts(s, c);
    DispatchFacts(s.db, c);
    IssueTask(s.db, s.tasks, s.gate, s.calls, c);
    TasksStep(s, s.tasks[c := InCall(s.tasks[c].brief, s.tasks[c].proof)], s.gate, s.calls + multiset{c});
  }

  lemma ReturnStep(s: Sys, c: Id, v: Verdict)
    requires SysInv(s) && s.running && OnCall(s, c)
    ensures Safe(s, Do(s, Return(c, v)), FREE)
  {
    hide Core, TaskInv, TombstoneInv, Safe, MayGo, AfterCall;
    TaskFacts(s, c);
    AnswerFits(s.db.actions[c].kind, s.tasks[c], v);
    GoStep(s, c, AfterCall(s.db.actions[c].kind, v));
  }

  lemma AnswerFits(kind: ActionKind, from: Pc, v: Verdict)
    requires PcFits(kind, from) && (from.InCall? || from == Called)
    ensures MayGo(kind, from, AfterCall(kind, v))
  {
  }

  // ------------------------------------------------------------ commits

  /** The task moves on first, then its transaction commits under it. */
  lemma CommitUnder(s: Sys, c: Id, pc: Pc, n: Ledger, ex: Exempt)
    requires SysInv(s) && s.running && c in s.tasks && c in s.db.actions && s.tasks[c] != GaveIn
    requires MayGo(s.db.actions[c].kind, s.tasks[c], pc)
    requires Keeps(s.db, n, s.db.actions[c].ref.dialog, ex) && ex !in {Registrar, Founder, Steerer}
    requires SteersSettled(s.db, n, s.tasks[c := pc], ex)
    requires ex.Starter? ==> ex.a in s.db.actions && !Unstarted(s.tasks[c := pc], s.db.actions, ex.a)
    ensures Safe(s, Goto(s.(db := n), c, pc), TollOf(ex))
  {
    hide Core, TaskInv, TombstoneInv, Keeps, SameRecords, SteersSettled, Safe, MayGo, Moves, Unstarted;
    var x := s.db.actions[c].ref.dialog;
    TaskFacts(s, c);
    KeepsRecords(s.db, n, x, ex);
    GoKeeps(s.db, s.tasks, s.gate, s.calls, c, pc);
    TasksKept(s.db, n, s.tasks[c := pc], s.gate, s.calls, x, ex);
    KeepsWithin(s.db, n, x, ex);
    WorkStep(s, n, s.tasks[c := pc], c, TollOf(ex));
  }

  lemma CommitAccepted(s: Sys, c: Id, ok: bool)
    requires SysInv(s) && s.running && At(s, c, Accepted)
    ensures Safe(s, CommitTask(s, c, ok), FREE)
  {
    hide Core, TaskInv, TombstoneInv, Keeps, Safe, MarkStarted;
    TaskFacts(s, c);
    DispatchFacts(s.db, c);
    var ref := s.db.actions[c].ref;
    if ok && MarkStarted(s.db, ref).Ok? {
      StartedStep(s.db, ref);
      CommitUnder(s, c, Finish(Acknowledged), MarkStarted(s.db, ref).value, Starter(c));
    } else {
      GoStep(s, c, Unsure);
    }
  }

  lemma UnheardStep(s: Sys, c: Id)
    requires SysInv(s) && s.running
    ensures Safe(s, LoseReply(s, c), FREE)
  {
    hide Core, TaskInv, TombstoneInv, Keeps, Safe, MarkStarted, ClaimedNext, SetAction;
    StutterStep(s);
    if At(s, c, Accepted) {
      TaskFacts(s, c);
      DispatchFacts(s.db, c);
      var ref := s.db.actions[c].ref;
      if MarkStarted(s.db, ref).Ok? {
        StartedStep(s.db, ref);
        CommitUnder(s, c, Unsure, MarkStarted(s.db, ref).value, Starter(c));
      } else {
        GoStep(s, c, Unsure);
      }
    } else if ClaimedNext(s.db, c) && c !in s.tasks {
      ClaimLost(s, c);
    }
  }

  lemma StartFacts(s: Sys, c: Id)
    requires SysInv(s) && At(s, c, Declined) && c in s.db.attempts
    ensures !s.db.attempts[c].started
  {
    hide LedgerInv, GateInv, ReadyInv, CallInv, SteerRows, SteerOnce;
    assert Unstarted(s.tasks, s.db.actions, c);
  }

  lemma CommitDeclined(s: Sys, c: Id, ok: bool)
    requires SysInv(s) && s.running && At(s, c, Declined)
    ensures Safe(s, CommitTask(s, c, ok), FREE)
  {
    hide Core, TaskInv, TombstoneInv, Keeps, Safe, ObserveRefused;
    TaskFacts(s, c);
    DispatchFacts(s.db, c);
    StartFacts(s, c);
    var ref := s.db.actions[c].ref;
    if ok && ObserveRefused(s.db, ref).Ok? {
      RefusedStep(s.db, ref, ref.dialog, Nobody);
      CommitUnder(s, c, Finish(Rejected), ObserveRefused(s.db, ref).value, Nobody);
    } else {
      GoStep(s, c, Finish(Rejected));
    }
  }

  /** Marks the attempt unknown through the action's own reference. */
  lemma CommitMark(s: Sys, c: Id, pc: Pc)
    requires SysInv(s) && s.running && c in s.tasks && c in s.db.actions && s.tasks[c] != GaveIn
    requires MayGo(s.db.actions[c].kind, s.tasks[c], pc)
    requires s.db.actions[c].kind != SteerMessage && MarkUnknown(s.db, s.db.actions[c].ref, UnknownEffect).Ok?
    ensures Safe(s, Goto(s.(db := MarkUnknown(s.db, s.db.actions[c].ref, UnknownEffect).value), c, pc), FREE)
  {
    hide Core, TaskInv, TombstoneInv, Keeps, Safe, SetUnknown, MayGo, Belongs, HasAttempt;
    var ref := s.db.actions[c].ref;
    ActionFacts(s.db, c);
    OwnNames(s.db, ref);
    AttemptFacts(s.db, ref.attempt);
    SetUnknownKeeps(s.db, ref, UnknownEffect, ref.dialog, Nobody);
    CommitUnder(s, c, pc, SetUnknown(s.db, ref, UnknownEffect).value, Nobody);
  }

  lemma CommitUnsure(s: Sys, c: Id, ok: bool)
    requires SysInv(s) && s.running && At(s, c, Unsure)
    ensures Safe(s, CommitTask(s, c, ok), FREE)
  {
    hide Core, TaskInv, TombstoneInv, Keeps, Safe, MarkUnknown;
    TaskFacts(s, c);
    if ok && MarkUnknown(s.db, s.db.actions[c].ref, UnknownEffect).Ok? {
      CommitMark(s, c, Finish(Unsettled));
    } else {
      GoStep(s, c, Finish(Unsettled));
    }
  }

  lemma SteeringFacts(s: Sys, c: Id)
    requires SysInv(s) && c in s.tasks && c in s.db.actions && s.db.actions[c].kind == SteerMessage
    requires (s.tasks[c] == Contradicted || s.tasks[c].Settle?)
    ensures UnderSteering(s.db.messages, s.db.requests, s.db.actions[c].message, Clean(s.tasks, c))
    ensures forall e :: Steering(s.tasks, s.db.actions, e) && s.db.actions[e].message == s.db.actions[c].message ==>
        e == c
  {
    hide LedgerInv, GateInv, ReadyInv, CallInv, StartInv, UnderSteering, Clean;
    assert Steering(s.tasks, s.db.actions, c);
  }

  /** Of the steers on the message of `c` only `c` itself is open. */
  lemma OnlySteer(db: Ledger, n: Ledger, tasks: map<Id, Pc>, c: Id, pc: Pc, owes: bool)
    requires TaskRows(tasks, db.actions) && c in tasks && c in db.actions && tasks[c] != GaveIn
    requires forall e :: Steering(tasks, db.actions, e) && db.actions[e].message == db.actions[c].message ==> e == c
    requires pc.Finish? || (pc == Settle(Doubt) && UnderSteering(n.messages, n.requests, db.actions[c].message, false))
    ensures SteersSettled(db, n, tasks[c := pc], Steered(db.actions[c].message, owes))
  {
    forall e | Steering(tasks[c := pc], db.actions, e) && e != c
      ensures Steering(tasks, db.actions, e)
    {
    }
  }

  /** The mark that follows a steer answered outside the contract takes the
      steered request out of the queue: the attempt is not unknown yet, and the
      request is still queued. */
  predicate Strands(s: Sys, c: Id) {
    && At(s, c, Contradicted) && s.db.actions[c].kind == SteerMessage
    && s.db.actions[c].ref.attempt in s.db.attempts && s.db.attempts[s.db.actions[c].ref.attempt].phase != Unknown
    && s.db.actions[c].ref.request in s.db.requests && s.db.requests[s.db.actions[c].ref.request].status == Queued
  }

  function Stranded(s: Sys, c: Id): set<Id> {
    if Strands(s, c) then {s.db.actions[c].message} else {}
  }

  /** A mark that strands nothing writes over a request outside the queue. */
  lemma HarmlessMark(s: Sys, c: Id)
    requires Core(s.db) && At(s, c, Contradicted) && s.db.actions[c].kind == SteerMessage
    requires Unresolved(s.db.actions[c].status) && !Strands(s, c)
    requires UnderSteering(s.db.messages, s.db.requests, s.db.actions[c].message, false)
    requires MarkUnknown(s.db, s.db.actions[c].ref, UnknownEffect).Ok?
    ensures var action := s.db.actions[c];
      var n := MarkUnknown(s.db, action.ref, UnknownEffect).value;
      Keeps(s.db, n, action.ref.dialog, Steered(action.message, false))
  {
    hide Core, Keeps, HasAttempt, Append, Announce, Tick, Seize, OtherLive;
    var ref := s.db.actions[c].ref;
    SteerFacts(s.db, c);
    if s.db.attempts[ref.attempt].phase == Unknown {
      KeepsSelf(s.db, ref.dialog, Steered(s.db.actions[c].message, false));
    } else {
      SetUnknownKeeps(s.db, ref, UnknownEffect, ref.dialog, Steered(s.db.actions[c].message, false));
    }
  }

  lemma ContradictedSteer(s: Sys, c: Id)
    requires SysInv(s) && s.running && At(s, c, Contradicted) && s.db.actions[c].kind == SteerMessage
    requires MarkUnknown(s.db, s.db.actions[c].ref, UnknownEffect).Ok?
    ensures var n := MarkUnknown(s.db, s.db.actions[c].ref, UnknownEffect).value;
      Safe(s, Goto(s.(db := n), c, Settle(Doubt)), Toll(Stranded(s, c), {}, {}))
  {
    hide Core, TombstoneInv, Keeps, Safe, SetUnknown, HasAttempt, GateInv, ReadyInv, CallInv, StartInv, SteerRows,
         SteerOnce, Steering, SteersSettled;
    var action := s.db.actions[c];
    SteeringFacts(s, c);
    ContradictedStep(s.db, c);
    var n := MarkUnknown(s.db, action.ref, UnknownEffect).value;
    SteerFacts(s.db, c);
    LostSteer(s.db, action.ref, action.message);
    var owes := Strands(s, c);
    if !owes { HarmlessMark(s, c); }
    OnlySteer(s.db, n, s.tasks, c, Settle(Doubt), owes);
    CommitUnder(s, c, Settle(Doubt), n, Steered(action.message, owes));
  }

  lemma LostSteer(db: Ledger, ref: AttemptRef, m: Id)
    requires UnderSteering(db.messages, db.requests, m, false) && db.messages[m].request == ref.request
    requires SetUnknown(db, ref, UnknownEffect).Ok?
    ensures var n := SetUnknown(db, ref, UnknownEffect).value; UnderSteering(n.messages, n.requests, m, false)
  {
    hide OtherLive, Bump;
  }

  lemma NotSteer(s: Sys, c: Id)
    requires c in s.db.actions && s.db.actions[c].kind != SteerMessage
    ensures !Strands(s, c)
  {
  }

  lemma NotContradicted(s: Sys, c: Id)
    requires c in s.tasks && s.tasks[c] != Contradicted
    ensures !Strands(s, c)
  {
  }

  lemma SafeWider(s: Sys, t: Sys, toll: Toll)
    requires Safe(s, t, FREE)
    ensures Safe(s, t, toll)
  {
    hide SysInv, SparesAll, DebtOf, RecordsGrow, OpenSteer, Pinned, ComesUnder;
  }

  lemma CommitContradicted(s: Sys, c: Id, ok: bool)
    requires SysInv(s) && s.running && At(s, c, Contradicted)
    ensures Safe(s, CommitTask(s, c, ok), if ok then Toll(Stranded(s, c), {}, {}) else FREE)
  {
    hide Core, TaskInv, TombstoneInv, Keeps, Safe, MarkUnknown, Strands;
    TaskFacts(s, c);
    if ok && MarkUnknown(s.db, s.db.actions[c].ref, UnknownEffect).Ok? {
      if s.db.actions[c].kind == SteerMessage {
        ContradictedSteer(s, c);
      } else {
        NotSteer(s, c);
        CommitMark(s, c, Settle(Doubt));
      }
    } else {
      GoStep(s, c, Settle(Doubt));
      SafeWider(s, Goto(s, c, Settle(Doubt)), if ok then Toll(Stranded(s, c), {}, {}) else FREE);
    }
  }

  lemma SettleSteer(s: Sys, c: Id, v: Verdict)
    requires SysInv(s) && s.running && At(s, c, Settle(v)) && s.db.actions[c].kind == SteerMessage
    requires FinishSteer(s.db, s.db.actions[c].ref, s.db.actions[c].message, v).Ok?
    ensures var n := FinishSteer(s.db, s.db.actions[c].ref, s.db.actions[c].message, v).value;
      Safe(s, Goto(s.(db := n), c, Finish(StatusFor(v))), FREE)
  {
    hide Core, TombstoneInv, Keeps, Safe, HasAttempt, FinishSteer, GateInv, ReadyInv, CallInv, StartInv, SteerRows,
         SteerOnce, Steering, SteersSettled;
    var action := s.db.actions[c];
    SteeringFacts(s, c);
    SteerFacts(s.db, c);
    SteerOpen(s.db, action.ref, action.message, v);
    FinishSteerStep(s.db, c, v);
    var n := FinishSteer(s.db, action.ref, action.message, v).value;
    OnlySteer(s.db, n, s.tasks, c, Finish(StatusFor(v)), false);
    CommitUnder(s, c, Finish(StatusFor(v)), n, Steered(action.message, false));
  }

  lemma SteerOpen(db: Ledger, ref: AttemptRef, m: Id, v: Verdict)
    requires FinishSteer(db, ref, m, v).Ok?
    ensures m in db.messages && db.messages[m].disposition == SteerPending
  {
    hide EndSteer, SetUnknown;
  }

  /** The attempt a doubtful answer may bring back. */
  function Revivals(s: Sys, c: Id): set<Id> {
    if At(s, c, Settle(Doubt)) && s.db.actions[c].kind in {AnswerApproval, AnswerInput}
        then {s.db.actions[c].ref.attempt} else {}
  }

  /** The action that a finishing commit resolves. */
  function Loosened(s: Sys, c: Id): set<Id> {
    if c in s.tasks && s.tasks[c].Finish? && !Unresolved(s.tasks[c].status) then {c} else {}
  }

  function CommitToll(s: Sys, c: Id, ok: bool): Toll {
    if ok then Toll(Stranded(s, c), Revivals(s, c), Loosened(s, c)) else FREE
  }

  lemma CommitSettle(s: Sys, c: Id, v: Verdict, ok: bool)
    requires SysInv(s) && s.running && At(s, c, Settle(v))
    ensures Safe(s, CommitTask(s, c, ok), if ok then Toll({}, Revivals(s, c), {}) else FREE)
  {
    hide Core, TaskInv, TombstoneInv, Keeps, Safe, FinishSteer, FinishResponse;
    TaskFacts(s, c);
    var action := s.db.actions[c];
    if action.kind == SteerMessage {
      if ok && FinishSteer(s.db, action.ref, action.message, v).Ok? {
        SettleSteer(s, c, v);
      } else {
        GoStep(s, c, Finish(StatusFor(v)));
      }
    } else if ok && FinishResponse(s.db, action, v).Ok? {
      ResponseStep(s.db, c, v);
      var ex := if v == Doubt then Revives(action.ref.attempt) else Nobody;
      CommitUnder(s, c, Finish(StatusFor(v)), FinishResponse(s.db, action, v).value, ex);
    } else {
      GoStep(s, c, Finish(StatusFor(v)));
      SafeWider(s, Goto(s, c, Finish(StatusFor(v))), if ok then Toll({}, Revivals(s, c), {}) else FREE);
    }
  }

  lemma CommitFinish(s: Sys, c: Id, status: ActionStatus, ok: bool)
    requires SysInv(s) && s.running && At(s, c, Finish(status))
    ensures Safe(s, CommitTask(s, c, ok), if ok then Toll({}, {}, Loosened(s, c)) else FREE)
  {
    hide Core, TaskInv, TombstoneInv, Safe, Moves, SameRecords, SetAction;
    TaskFacts(s, c);
    var x := s.db.actions[c].ref.dialog;
    var n := if ok then SetAction(s.db, c, Inflight, status) else s.db;
    SetActionKeeps(s.db, c, Inflight, status, x);
    SetActionRecords(s.db, c, Inflight, status);
    SetActionWithin(s.db, c, Inflight, status);
    SameTables(s.db, x);
    SameRecordsSelf(s.db);
    SelfWithin(s.db);
    FinishTask(s.db, s.tasks, s.gate, s.calls, c, n);
    var tasks := if s.db.actions[c].kind == DispatchStart then s.tasks[c := GaveIn] else s.tasks - {c};
    WorkStep(s, n, tasks, c, if ok then Toll({}, {}, Loosened(s, c)) else FREE);
  }

  lemma SameRecordsSelf(db: Ledger)
    ensures SameRecords(db, db)
  {
  }

  lemma CommitStep(s: Sys, c: Id, ok: bool)
    requires SysInv(s) && s.running && c in s.tasks && c in s.db.actions
    ensures Safe(s, CommitTask(s, c, ok), CommitToll(s, c, ok))
  {
    hide SysInv, Safe, MarkStarted, ObserveRefused, MarkUnknown, FinishSteer, FinishResponse, SetAction, Strands;
    if s.tasks[c] != Contradicted { NotContradicted(s, c); }
    match s.tasks[c]
    case Accepted => CommitAccepted(s, c, ok);
    case Declined => CommitDeclined(s, c, ok);
    case Unsure => CommitUnsure(s, c, ok);
    case Contradicted => CommitContradicted(s, c, ok);
    case Settle(v) => CommitSettle(s, c, v, ok);
    case Finish(status) => CommitFinish(s, c, status, ok);
    case _ => {
      StutterStep(s);
      SafeWider(s, s, CommitToll(s, c, ok));
    }
  }
}
