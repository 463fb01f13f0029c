/** Guarantees that relate two states of a run: quiescence, deletion, command
    outcomes and the queue. */
module RunTheorems {
  import opened LedgerTypes
  import opened LedgerTail
  import opened Transactions
  import opened LedgerInvariant
  import opened Supervisor
  import opened SystemInvariant
  import opened Quiescence
  import AttemptPieces
  import CommandSteps
  import opened Pieces
  import opened WorkerSteps
  import opened SystemSteps
  import opened SystemRuns
  import opened Recovery
  import opened SupervisorTheorems

  // ------------------------------------------------------------ quiescence

  /** The hold has no outcome in any state from `s` to the end of the run. */
  ghost predicate HeldThroughout(s: Sys, run: seq<Label>, op: Id) {
    forall i :: 0 <= i <= |run| ==> HoldActive(After(s, run[..i]).db, op)
  }

  /** Every dialog in the scope of the hold is settled, and the scope is the same. */
  ghost predicate QuietScope(db: Ledger, op: Id, hold: Hold) {
    && op in db.holds && db.holds[op] == hold
    && forall d :: d in db.dialogs && Covers(hold.request.scope, d) ==> Settled(db, d)
  }

  lemma QuietStep(s: Sys, l: Label, op: Id, hold: Hold)
    requires SysInv(s) && HoldActive(s.db, op) && QuietScope(s.db, op, hold)
    requires hold.request.scope.DialogScope? ==> hold.request.scope.dialog in s.db.dialogs
    ensures QuietScope(Do(s, l).db, op, hold)
  {
    hide SysInv, Do, Settled, Frozen, QueueMoves, LogKept, TargetsKept;
    var n := Do(s, l).db;
    StepPasses(s, l, 0);
    forall d | d in n.dialogs && Covers(hold.request.scope, d)
      ensures Settled(n, d)
    {
      assert d in s.db.dialogs;
      StepPasses(s, l, d);
    }
  }

  lemma DialogsGrow(s: Sys, l: Label, d: Id)
    requires SysInv(s) && d in s.db.dialogs
    ensures d in Do(s, l).db.dialogs
  {
    hide SysInv, Do, DebtOf, Within, RecordsGrow, Recover, Moves, Strands, Settled, Held;
    if s.running {
      RunningStep(s, l);
      assert Spares(s.db, Do(s, l).db, 0);
      var x :| SparesAs(s.db, Do(s, l).db, 0, x);
      MovesDialogs(s.db, Do(s, l).db, x);
    } else {
      RestartStep(s);
      Stopped(s, l);
      RestartDialogs(s);
    }
  }

  lemma RestartDialogs(s: Sys)
    requires SysInv(s) && Recover(s.db).Ok?
    ensures Recover(s.db).value.dialogs.Keys == s.db.dialogs.Keys
  {
    hide Core, TombstoneInv, TaskInv, Recover, Recovers, DebtOf, Within, QueueMoves, Forget;
    RecoverWorks(s.db);
    RecoverRecords(s.db, Recover(s.db).value);
  }

  lemma {:induction false} QuietRun(s: Sys, run: seq<Label>, op: Id, hold: Hold)
    requires SysInv(s) && HeldThroughout(s, run, op) && QuietScope(s.db, op, hold)
    requires hold.request.scope.DialogScope? ==> hold.request.scope.dialog in s.db.dialogs
    ensures QuietScope(After(s, run).db, op, hold)
    ensures hold.request.scope.DialogScope? ==> hold.request.scope.dialog in After(s, run).db.dialogs
    decreases |run|
  {
    hide SysInv, Do, QuietScope, HoldActive;
    if run != [] {
      var before := run[..|run| - 1];
      forall i | 0 <= i <= |before| ensures HoldActive(After(s, before[..i]).db, op) {
        assert before[..i] == run[..i];
      }
      QuietRun(s, before, op, hold);
      AfterKeeps(s, before);
      assert run[..|before|] == before;
      QuietStep(After(s, before), run[|run| - 1], op, hold);
      if hold.request.scope.DialogScope? { DialogsGrow(After(s, before), run[|run| - 1], hold.request.scope.dialog); }
    }
  }

  /** Once a quiescence proof succeeds, every later state under the same hold keeps
      the scope free of live attempts and of unsettled rows, whatever steps are
      taken, crashes included. */
  lemma QuiescenceStable(s: Sys, run: seq<Label>, t: Sys, op: Id)
    requires Reachable(s) && QuiescenceProof(s.db, op).Ok? && t == After(s, run) && HeldThroughout(s, run, op)
    ensures op in t.db.holds && t.db.holds[op] == s.db.holds[op]
    ensures forall d :: d in t.db.dialogs && Covers(s.db.holds[op].request.scope, d) ==>
        Settled(t.db, d) && ActiveElsewhere(t.db, d)
  {
    hide Reachable, After, SysInv, HeldThroughout, Settled, Revision;
    ReachableSafe(s);
    ProofScope(s, op);
    QuietRun(s, run, op, s.db.holds[op]);
    AfterKeeps(s, run);
    SlotLive(t);
    if t.db.node.active.Some? { LiveUnsettled(t.db, t.db.node.active.value); }
  }

  /** The slot is empty, or held by an attempt of another dialog. */
  predicate ActiveElsewhere(db: Ledger, d: Id) {
    db.node.active.Some? ==> db.node.active.value in db.attempts && db.attempts[db.node.active.value].dialog != d
  }

  lemma SlotLive(s: Sys)
    requires SysInv(s)
    ensures s.db.node.active.Some? ==>
        s.db.node.active.value in s.db.attempts && Live(s.db.attempts[s.db.node.active.value].phase)
  {
    hide Core, TombstoneInv, TaskInv;
    SlotFacts(s.db);
  }

  /** The proof's scope has a queue revision, so its dialog exists. */
  lemma ProofScope(s: Sys, op: Id)
    requires SysInv(s) && QuiescenceProof(s.db, op).Ok?
    ensures op in s.db.holds && HoldActive(s.db, op) && QuietScope(s.db, op, s.db.holds[op])
    ensures s.db.holds[op].request.scope.DialogScope? ==> s.db.holds[op].request.scope.dialog in s.db.dialogs
  {
    hide Settled, Revision, TaskInv, TombstoneInv, LogInv, SlotInv, AttemptRows, RequestRows, OrderInv, ActionRows,
         EffectRows, MessageRows, KeyInv, AnswerRows, StartRows, PhaseRows, InputRows, CountInv, SteerInv, HoldInv;
  }

  // ------------------------------------------------------- parked requests

  lemma {:induction false} QueueRun(s: Sys, run: seq<Label>)
    requires SysInv(s)
    ensures var t := After(s, run); QueueMoves(s.db.requests, s.db.queueRevisions, t.db.requests, t.db.queueRevisions)
    decreases |run|
  {
    hide SysInv, Do, QueueMoves, RecordsGrow, Frozen, Settled, Held, LogKept, TargetsKept;
    if run == [] {
      QueueSelf(s.db);
    } else {
      var before := After(s, run[..|run| - 1]);
      QueueRun(s, run[..|run| - 1]);
      AfterKeeps(s, run[..|run| - 1]);
      StepPasses(before, run[|run| - 1], 0);
      var t := Do(before, run[|run| - 1]);
      QueueMovesTrans(s.db.requests, s.db.queueRevisions, before.db.requests, before.db.queueRevisions, t.db.requests,
          t.db.queueRevisions);
    }
  }

  lemma QueueSelf(db: Ledger)
    ensures QueueMoves(db.requests, db.queueRevisions, db.requests, db.queueRevisions)
  {
  }

  /** Two proofs of one scope with the same queue revision list the same parked
      requests, however far apart they were taken. */
  lemma ParkedByRevision(s: Sys, t: Sys, op1: Id, op2: Id)
    requires Reachable(s) && Reaches(s, t) && QuiescenceProof(s.db, op1).Ok? && QuiescenceProof(t.db, op2).Ok?
    requires QuiescenceProof(s.db, op1).value.scope == QuiescenceProof(t.db, op2).value.scope
    requires QuiescenceProof(s.db, op1).value.queueRevision == QuiescenceProof(t.db, op2).value.queueRevision
    ensures QuiescenceProof(s.db, op1).value.parked == QuiescenceProof(t.db, op2).value.parked
  {
    hide Reachable, After, SysInv, Settled, Revision;
    ReachableSafe(s);
    var run :| t == After(s, run);
    QueueRun(s, run);
    ParkedSame(s.db, t.db, QuiescenceProof(s.db, op1).value.scope);
  }

  lemma ParkedSame(o: Ledger, n: Ledger, scope: Scope)
    requires QueueMoves(o.requests, o.queueRevisions, n.requests, n.queueRevisions)
    requires scope in o.queueRevisions && scope in n.queueRevisions
    requires n.queueRevisions[scope] == o.queueRevisions[scope]
    ensures ParkedRequests(o, scope) == ParkedRequests(n, scope)
  {
    forall r
      ensures r in ParkedRequests(o, scope) <==> r in ParkedRequests(n, scope)
      ensures r in ParkedRequests(o, scope) ==> ParkedRequests(o, scope)[r] == ParkedRequests(n, scope)[r]
    {
      assert r in o.requests && Covers(scope, o.requests[r].dialog) ==>
          r in n.requests && n.requests[r] == o.requests[r];
      assert r in n.requests && Covers(scope, n.requests[r].dialog) ==>
          r in o.requests && n.requests[r] == o.requests[r];
    }
  }

  // --------------------------------------------------------------- deletion

  lemma {:induction false} FrozenRun(s: Sys, run: seq<Label>, d: Id)
    requires SysInv(s) && d in s.db.tombstones
    ensures Frozen(s.db, After(s, run).db, d) && d in After(s, run).db.tombstones
    decreases |run|
  {
    hide SysInv, Do, QueueMoves, Frozen, Settled, Held, LogKept, TargetsKept;
    if run == [] {
      FrozenSelf(s.db, d);
    } else {
      var before := After(s, run[..|run| - 1]);
      FrozenRun(s, run[..|run| - 1], d);
      AfterKeeps(s, run[..|run| - 1]);
      StepPasses(before, run[|run| - 1], d);
      FrozenTrans(s.db, before.db, Do(before, run[|run| - 1]).db, d);
    }
  }

  lemma FrozenSelf(db: Ledger, d: Id)
    ensures Frozen(db, db, d)
  {
  }

  /** A deleted dialog is frozen: no later step changes, adds or removes any of its
      requests, attempts, messages, control actions, approvals, inputs or tool
      calls, and it never has a queued request or a live attempt. */
  lemma DeletedFrozen(s: Sys, t: Sys, d: Id)
    requires Reachable(s) && d in s.db.tombstones && Reaches(s, t)
    ensures Frozen(s.db, t.db, d)
    ensures forall r :: r in t.db.requests && t.db.requests[r].dialog == d ==> t.db.requests[r].status != Queued
    ensures forall a :: a in t.db.attempts && t.db.attempts[a].dialog == d ==> !Live(t.db.attempts[a].phase)
  {
    hide Reachable, After, SysInv, Frozen;
    ReachableSafe(s);
    var run :| t == After(s, run);
    FrozenRun(s, run, d);
    AfterKeeps(s, run);
    Buried(t, d);
  }

  lemma Buried(s: Sys, d: Id)
    requires SysInv(s) && d in s.db.tombstones
    ensures NoneQueued(s.db.requests, d) && SettledAttempts(s.db.attempts, d)
  {
    hide Core, TaskInv, NoneQueued, SettledAttempts, SettledRequests, SettledActions, SettledTools, SettledApprovals,
         SettledInputs, SettledEvents;
    TombstoneSettled(s.db, d);
  }

  // --------------------------------------------------------------- outcomes

  /** A command id has at most one outcome, accepted or rejected, and keeps it in
      every later state. */
  lemma OneOutcome(s: Sys, t: Sys, id: Id)
    requires Reachable(s) && Reaches(s, t)
    ensures !(id in s.db.commands && id in s.db.rejections)
    ensures Lookup(s.db, id).Some? ==> Lookup(t.db, id) == Lookup(s.db, id)
  {
    hide Reachable, After, TaskInv, Core, TombstoneInv, Lookup;
    ReachableSafe(s);
    var run :| t == After(s, run);
    OutcomeRun(s, run, id);
  }

  lemma {:induction false} OutcomeRun(s: Sys, run: seq<Label>, id: Id)
    requires SysInv(s)
    ensures Lookup(s.db, id).Some? ==> Lookup(After(s, run).db, id) == Lookup(s.db, id)
    decreases |run|
  {
    hide Do, TaskInv, Core, TombstoneInv, Passes, Lookup;
    if run != [] {
      var before := After(s, run[..|run| - 1]);
      OutcomeRun(s, run[..|run| - 1], id);
      AfterKeeps(s, run[..|run| - 1]);
      StepPasses(before, run[|run| - 1], 0);
      PassesRecords(before.db, Do(before, run[|run| - 1]).db);
      StepLedger(before, run[|run| - 1]);
      OutcomeKept(before.db, Do(before, run[|run| - 1]).db, id);
    }
  }

  lemma PassesRecords(o: Ledger, n: Ledger)
    requires Passes(o, n, 0)
    ensures RecordsGrow(o, n)
  {
    hide RecordsGrow, QueueMoves, Settled, Held, Frozen, LogKept, TargetsKept;
  }

  lemma StepLedger(s: Sys, l: Label)
    requires SysInv(s)
    ensures Do(s, l).db.commands.Keys !! Do(s, l).db.rejections.Keys
  {
    hide Do, Core, TaskInv, TombstoneInv, DebtOf, Within, Strands;
    StepKeeps(s, l);
  }

  lemma OutcomeKept(o: Ledger, n: Ledger, id: Id)
    requires RecordsGrow(o, n) && o.commands.Keys !! o.rejections.Keys && n.commands.Keys !! n.rejections.Keys
    ensures Lookup(o, id).Some? ==> Lookup(n, id) == Lookup(o, id)
  {
    hide NodeHeld;
  }

  // ------------------------------------------------------------------ queue

  /** The pending counter is the number of queued requests. */
  ghost predicate Balanced(db: Ledger) {
    db.node.pending == |QueuedIds(db.requests)|
  }

  lemma CountFacts(s: Sys)
    requires SysInv(s)
    ensures s.db.node.pending == |QueuedIds(s.db.requests)| + |DebtOf(s.db)| && 0 <= s.db.node.pending <= QUEUE_CAPACITY
    ensures Balanced(s.db) <==> DebtOf(s.db) == {}
  {
    hide LogInv, SlotInv, AttemptRows, RequestRows, OrderInv, ActionRows, EffectRows, MessageRows, KeyInv,
         AnswerRows, StartRows, PhaseRows, InputRows, RevisionInv, SteerInv, HoldInv, TombstoneInv, TaskInv,
         QueuedIds, Debt;
  }

  /** In every run the counter is the length of the queue plus the number of steered
      messages whose request was lost without an attempt, and within 0..100. */
  lemma QueueConserved(s: Sys)
    requires Reachable(s)
    ensures s.db.node.pending == |QueuedIds(s.db.requests)| + |Debt(s.db.messages, s.db.requests, s.db.attempts)|
    ensures 0 <= s.db.node.pending <= 100
  {
    hide Reachable, SysInv, QueuedIds, Debt;
    ReachableSafe(s);
    CountFacts(s);
  }

  /** The commit of a mark that strands a queued request. */
  predicate Unbalances(s: Sys, l: Label) {
    s.running && l.Commit? && l.ok && Strands(s, l.c)
  }

  lemma StrandedInDebt(db: Ledger, ref: AttemptRef, m: Id)
    requires m in db.messages && db.messages[m].disposition == SteerPending && db.messages[m].request == ref.request
    requires !HasAttempt(db.attempts, ref.request) && ref.request in db.requests
    requires ref.attempt in db.attempts && db.attempts[ref.attempt].phase != Unknown
    requires SetUnknown(db, ref, UnknownEffect).Ok?
    ensures m in DebtOf(SetUnknown(db, ref, UnknownEffect).value)
  {
    hide OtherLive, Bump, HasAttempt;
    var n := SetUnknown(db, ref, UnknownEffect).value;
    var row := n.attempts[ref.attempt];
    SeizedRows(db, ref);
    AttemptPieces.HasAttemptSame(db.attempts, ref.attempt, row);
  }

  lemma SeizedRows(db: Ledger, ref: AttemptRef)
    requires ref.attempt in db.attempts && db.attempts[ref.attempt].phase != Unknown && ref.request in db.requests
    requires SetUnknown(db, ref, UnknownEffect).Ok?
    ensures var n := SetUnknown(db, ref, UnknownEffect).value;
      && n.messages == db.messages && ref.attempt in n.attempts
      && n.attempts == db.attempts[ref.attempt := n.attempts[ref.attempt]]
      && n.attempts[ref.attempt].request == db.attempts[ref.attempt].request
      && ref.request in n.requests && n.requests[ref.request].status == Lost
  {
    hide OtherLive, Bump;
  }

  lemma StrandingStep(s: Sys, l: Label)
    requires SysInv(s) && Unbalances(s, l)
    ensures DebtOf(Do(s, l).db) != {}
  {
    hide Core, TombstoneInv, HasAttempt, SetUnknown, DebtOf, Within, OtherLive, GateInv, ReadyInv, CallInv, StartInv,
         SteerRows, SteerOnce, Steering;
    var action := s.db.actions[l.c];
    SteerFacts(s.db, l.c);
    SteeringFacts(s, l.c);
    CommandSteps.AttemptFacts(s.db, action.ref.attempt);
    SlotFacts(s.db);
    MarkOk(s.db, l.c);
    StrandedInDebt(s.db, action.ref, action.message);
  }

  lemma MarkOk(db: Ledger, c: Id)
    requires Core(db) && c in db.actions && db.actions[c].ref.attempt in db.attempts
    requires !OtherLive(db, db.actions[c].ref.attempt)
    ensures SetUnknown(db, db.actions[c].ref, UnknownEffect).Ok?
  {
    hide LogInv, SlotInv, AttemptRows, RequestRows, OrderInv, EffectRows, MessageRows, KeyInv, AnswerRows, StartRows,
         PhaseRows, InputRows, RevisionInv, SteerInv, HoldInv, CountInv, OtherLive, Append, Announce, Seize, Tick;
  }

  /** From a balanced state of any run a step leads to a balanced state if and only
      if it is not the commit of a mark that strands a queued request. */
  lemma BalanceStep(s: Sys, l: Label)
    requires Reachable(s) && Balanced(s.db)
    ensures Balanced(Do(s, l).db) <==> !Unbalances(s, l)
  {
    hide Reachable, SysInv, Do, DebtOf, Within, Strands, Balanced;
    ReachableSafe(s);
    CountFacts(s);
    StepKeeps(s, l);
    WithinDebt(s.db, Do(s, l).db, TollBy(s, l));
    CountFacts(Do(s, l));
    if Unbalances(s, l) { StrandingStep(s, l); }
  }

  predicate IsSteer(s: Sys, c: Id) {
    c in s.db.actions && s.db.actions[c].kind == SteerMessage
  }

  /** A steer call answered outside the adapter contract. */
  predicate BadSteer(s: Sys, l: Label) {
    l.Return? && l.verdict == Nonsense && IsSteer(s, l.c)
  }

  /** No steer call of the run was answered outside the adapter contract. */
  ghost predicate InContract(s: Sys, run: seq<Label>) {
    forall i :: 0 <= i < |run| ==> !BadSteer(After(s, run[..i]), run[i])
  }

  ghost predicate NoContradiction(s: Sys) {
    forall c :: c in s.tasks && IsSteer(s, c) ==> s.tasks[c] != Contradicted
  }

  /** Tasks reach `Contradicted` only through the return of a call. */
  lemma ContradictionsComeFromCalls(s: Sys, l: Label)
    requires SysInv(s) && NoContradiction(s) && !BadSteer(s, l)
    ensures NoContradiction(Do(s, l))
  {
    hide SysInv, Do;
    forall c | c in Do(s, l).tasks && IsSteer(Do(s, l), c)
      ensures Do(s, l).tasks[c] != Contradicted
    {
      if Do(s, l).tasks[c] == Contradicted { TaskCame(s, l, c); }
    }
  }

  lemma TaskCame(s: Sys, l: Label, c: Id)
    requires SysInv(s) && c in Do(s, l).tasks && Do(s, l).tasks[c] == Contradicted && IsSteer(Do(s, l), c)
    requires !BadSteer(s, l)
    ensures c in s.tasks && s.tasks[c] == Contradicted && IsSteer(s, c)
  {
    hide Do, LedgerInv, TaskInv;
    CameFrom(s, l, c);
    SysLedger(s);
    TaskFacts(s, c);
    ActionKept(s, l, c);
  }

  lemma CameFrom(s: Sys, l: Label, c: Id)
    requires c in Do(s, l).tasks && Do(s, l).tasks[c] == Contradicted
    ensures c in s.tasks
    ensures (s.tasks[c] == Contradicted
        || (l.Return? && l.c == c && c in s.db.actions && (l.verdict == Nonsense || !IsSteer(s, c))))
  {
    hide LedgerInv, Submit, DispatchNext, Observe, MarkUnknown, Reconcile, PublishArtifact, SetAction, ClaimedNext,
         InstallHold, ReleaseHold, DeleteDialog, BlockPolicy, Recover, MarkStarted, ObserveRefused, FinishSteer,
         FinishResponse, TaskInv, CommitTask, Rechecked, HasInput;
    if s.running && l.Commit? && l.c in s.tasks && l.c in s.db.actions { CommitCame(s, l.c, l.ok, c); }
  }

  lemma CommitCame(s: Sys, e: Id, ok: bool, c: Id)
    requires e in s.tasks && e in s.db.actions && c in CommitTask(s, e, ok).tasks
    requires CommitTask(s, e, ok).tasks[c] == Contradicted
    ensures c in s.tasks && s.tasks[c] == Contradicted
  {
    hide MarkStarted, ObserveRefused, FinishSteer, FinishResponse, MarkUnknown, SetAction;
  }

  /** A step leaves what an action is and what it refers to. */
  lemma ActionKept(s: Sys, l: Label, c: Id)
    requires SysInv(s) && c in s.db.actions
    ensures var n := Do(s, l).db;
      c in n.actions && n.actions[c].kind == s.db.actions[c].kind && n.actions[c].ref == s.db.actions[c].ref
  {
    hide SysInv, Do, DebtOf, Within, RecordsGrow, Recover, Strands, Settled, Held, Moves;
    if s.running {
      RunningStep(s, l);
      assert Spares(s.db, Do(s, l).db, 0);
      var x :| SparesAs(s.db, Do(s, l).db, 0, x);
      MovesActions(s.db, Do(s, l).db, x, c);
    } else {
      RestartStep(s);
      Stopped(s, l);
      RestartActions(s, c);
    }
  }

  lemma MovesActions(o: Ledger, n: Ledger, x: Id, c: Id)
    requires Moves(o, n, x) && c in o.actions
    ensures c in n.actions && n.actions[c].kind == o.actions[c].kind && n.actions[c].ref == o.actions[c].ref
  {
    hide SameRequests, SameAttempts, SameMessages, SameApprovals, SameInputs, SameTools, SameEvents, QueueMoves;
  }

  lemma RestartActions(s: Sys, c: Id)
    requires SysInv(s) && Recover(s.db).Ok? && c in s.db.actions
    ensures var n := Recover(s.db).value;
      c in n.actions && n.actions[c].kind == s.db.actions[c].kind && n.actions[c].ref == s.db.actions[c].ref
  {
    hide Core, TombstoneInv, TaskInv, Recover, Recovers, DebtOf, Within, QueueMoves;
    RecoverWorks(s.db);
    RecoverRecords(s.db, Recover(s.db).value);
  }

  lemma {:induction false} ContractRun(epoch: int, registry: int, run: seq<Label>)
    requires InContract(Initial(epoch, registry), run)
    ensures var s := After(Initial(epoch, registry), run); NoContradiction(s) && DebtOf(s.db) == {}
    decreases |run|
  {
    hide SysInv, Do, DebtOf, Within, NoContradiction, BadSteer, Initial;
    if run == [] {
      EmptyLedger(epoch, registry);
      EmptyTasks(epoch, registry);
    } else {
      var before := run[..|run| - 1];
      forall i | 0 <= i < |before| ensures !BadSteer(After(Initial(epoch, registry), before[..i]), before[i]) {
        assert before[..i] == run[..i];
      }
      ContractRun(epoch, registry, before);
      RunsSafe(epoch, registry, before);
      var s := After(Initial(epoch, registry), before);
      ContradictionsComeFromCalls(s, run[|run| - 1]);
      StepKeeps(s, run[|run| - 1]);
      WithinDebt(s.db, Do(s, run[|run| - 1]).db, TollBy(s, run[|run| - 1]));
      NothingStranded(s, run[|run| - 1]);
    }
  }

  lemma EmptyTasks(epoch: int, registry: int)
    ensures NoContradiction(Initial(epoch, registry))
  {
  }

  lemma NothingStranded(s: Sys, l: Label)
    requires NoContradiction(s)
    ensures TollBy(s, l).owed == {}
  {
  }

  /** While every steer is answered within the contract, the pending counter is
      exactly the number of queued requests. */
  lemma QueueBalanced(epoch: int, registry: int, run: seq<Label>)
    requires InContract(Initial(epoch, registry), run)
    ensures Balanced(After(Initial(epoch, registry), run).db)
  {
    hide Initial, After, SysInv, DebtOf, Within, Balanced;
    ContractRun(epoch, registry, run);
    RunsSafe(epoch, registry, run);
    CountFacts(After(Initial(epoch, registry), run));
  }

  // --------------------------------------------------------------- in line

  /** A dispatch serves, of all queued requests outside every hold, the one that is
      strictly first in line, and puts its attempt into the empty slot. */
  lemma DispatchInOrder(s: Sys, c: Candidate, a: Id, g: int)
    requires Reachable(s) && DispatchNext(s.db, c, a, g).Ok?
    ensures c.request in s.db.requests && s.db.requests[c.request].status == Queued
    ensures !Held(s.db, s.db.requests[c.request].dialog)
    ensures forall q :: q in s.db.requests && q != c.request && s.db.requests[q].status == Queued
                        && !Held(s.db, s.db.requests[q].dialog) ==>
      s.db.requests[c.request].queueSequence < s.db.requests[q].queueSequence
    ensures s.db.node.active.None? && DispatchNext(s.db, c, a, g).value.node.active == Some(a)
  {
    hide Reachable, SysInv, HeldBy, NextGeneration, OtherLive, Begin, TailQuery, TailOf;
    ReachableSafe(s);
    SysOrder(s);
    BegunSlot(s.db, c.request, a, g, c.policy, TailOf(s.db, c.dialog, c.message, c.tail));
  }

  lemma BegunSlot(db: Ledger, r: Id, a: Id, g: int, policy: Id, proof: Option<TailProof>)
    requires r in db.requests && db.requests[r].input in db.messages
    ensures Begin(db, r, a, g, policy, proof).node.active == Some(a)
  {
  }

  lemma SysOrder(s: Sys)
    requires SysInv(s)
    ensures OrderInv(s.db.requests, s.db.node.nextQueue)
  {
    hide LogInv, SlotInv, AttemptRows, ActionRows, EffectRows, MessageRows, KeyInv, AnswerRows, StartRows, PhaseRows,
         InputRows, CountInv, SteerInv, HoldInv, TaskInv, TombstoneInv, RevisionInv, OrderInv;
  }
}
