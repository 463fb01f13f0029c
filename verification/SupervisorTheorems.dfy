/** What the supervisor guarantees of every run: any sequence of commands, worker
    steps, provider answers, deliveries, storage faults, crashes and restarts. */
module SupervisorTheorems {
  import opened LedgerTypes
  import opened LedgerTail
  import opened Transactions
  import opened LedgerInvariant
  import opened Supervisor
  import opened SystemInvariant
  import opened TaskSteps
  import opened Quiescence
  import opened SystemSteps
  import opened SystemRuns
  import opened Recovery

  // ------------------------------------------------------------ one step

  ghost function TollBy(s: Sys, l: Label): Toll {
    if s.running && l.Commit? && l.c in s.tasks && l.c in s.db.actions then CommitToll(s, l.c, l.ok) else FREE
  }

  lemma GateLabels(s: Sys, l: Label)
    requires SysInv(s) && s.running
    requires l.Claim? || l.TakeGate? || l.Authenticate? || l.ReadAttempt? || l.LetGo?
    ensures Safe(s, Do(s, l), FREE)
  {
    hide LedgerInv, TaskInv, Safe, ClaimedNext, HeldBy;
    StutterStep(s);
    match l
    case Claim(c) => if ClaimedNext(s.db, c) && c !in s.tasks { ClaimStep(s, c); }
    case TakeGate(c) =>
      if At(s, c, AwaitGate) && s.gate.None? {
        GateTask(s.db, s.tasks, s.calls, c);
        TasksStep(s, s.tasks[c := Gated], Some(c), s.calls);
      }
    case Authenticate(c, ready, ok) => if At(s, c, Gated) { AuthenticateStep(s, c, ready, ok); }
    case ReadAttempt(c) => if At(s, c, Authenticated) { ReadAttemptStep(s, c); }
    case LetGo(c) =>
      if At(s, c, GaveIn) {
        LetGoTask(s.db, s.tasks, s.gate, s.calls, c);
        TasksStep(s, s.tasks - {c}, None, s.calls);
      }
    case _ =>
  }

  lemma GiveUpStep(s: Sys, c: Id)
    requires SysInv(s) && s.running && Briefed(s, c)
    ensures Safe(s, Goto(s, c, Unsure), FREE)
  {
    hide LedgerInv, TaskInv, Safe;
    TaskFacts(s, c);
    GoStep(s, c, Unsure);
  }

  lemma RecheckStep(s: Sys, c: Id, tail: seq<Id>, ok: bool)
    requires SysInv(s) && s.running && Briefed(s, c)
    ensures Safe(s, Do(s, Recheck(c, tail, ok)), FREE)
  {
    hide LedgerInv, TaskInv, Safe, Rechecked;
    var brief := s.tasks[c].brief;
    TaskFacts(s, c);
    GoStep(s, c, Vetted(brief, Rechecked(s.db, s.db.actions[c], brief.context.message, tail, ok)));
  }

  lemma CallLabels(s: Sys, l: Label)
    requires SysInv(s) && s.running
    requires l.GiveUp? || l.Recheck? || l.Issue? || l.Return?
    ensures Safe(s, Do(s, l), FREE)
  {
    hide LedgerInv, TaskInv, Safe, Rechecked, AfterCall, SysInv;
    StutterStep(s);
    match l
    case GiveUp(c) => if Briefed(s, c) { GiveUpStep(s, c); }
    case Recheck(c, tail, ok) => if Briefed(s, c) { RecheckStep(s, c, tail, ok); }
    case Issue(c) => if Poised(s, c) { IssueStep(s, c); }
    case Return(c, v) => if OnCall(s, c) { ReturnStep(s, c, v); }
    case _ =>
  }

  lemma LedgerLabels(s: Sys, l: Label)
    requires SysInv(s) && s.running
    requires l.Submits? || l.Dispatch? || l.Deliver? || l.LoseTrack? || l.ReconcileAnswer? || l.Artifact?
        || l.Install? || l.Release? || l.Delete? || l.PolicyFailure?
    ensures Safe(s, Do(s, l), FREE)
  {
    hide LedgerInv, TaskInv, Safe, Submit, DispatchNext, Observe, MarkUnknown, Reconcile, PublishArtifact,
         InstallHold, ReleaseHold, DeleteDialog, BlockPolicy, SysInv;
    StutterStep(s);
    match l
    case Submits(id, c, x, y, space, op) => SubmitsStep(s, id, c, x, y, space, op);
    case Dispatch(candidate, a, g) =>
      if s.gate.None? && DispatchNext(s.db, candidate, a, g).Ok? { DispatchesStep(s, candidate, a, g); }
    case Deliver(ref, e, valid, marker, stop) =>
      if Observe(s.db, ref, e, valid, marker, stop).Ok? { DeliverStep(s, ref, e, valid, marker, stop); }
    case LoseTrack(a) =>
      if a in s.db.attempts && MarkUnknown(s.db, RefOf(s.db, a), UnknownEffect).Ok? { LoseTrackStep(s, a); }
    case ReconcileAnswer(ref, newId, e, valid, marker, stop) =>
      if Reconcile(s.db, ref, newId, e, valid, marker, stop).Ok? {
        ReconcilesStep(s, ref, newId, e, valid, marker, stop);
      }
    case Artifact(ref, bytes, marker, stop) =>
      if PublishArtifact(s.db, ref, bytes, marker, stop).Ok? { ArtifactsStep(s, ref, bytes, marker, stop); }
    case Install(op, request) => if s.gate.None? && InstallHold(s.db, op, request).Ok? { InstallStep(s, op, request); }
    case Release(op, request) => if s.gate.None? && ReleaseHold(s.db, op, request).Ok? { ReleaseStep(s, op, request); }
    case Delete(op, request) => if s.gate.None? && DeleteDialog(s.db, op, request).Ok? { DeleteStep(s, op, request); }
    case PolicyFailure => PolicyStep(s);
    case _ =>
  }

  lemma CrashStep(s: Sys)
    requires SysInv(s)
    ensures Safe(s, s.(tasks := map[], gate := None, running := false), FREE)
  {
    hide LedgerInv, TaskInv, SparesAll, DebtOf, Within, RecordsGrow;
    StutterStep(s);
    CrashTasks(s.db, s.tasks, s.gate, s.calls);
  }

  /** Every step of a running node. */
  lemma RunningStep(s: Sys, l: Label)
    requires SysInv(s) && s.running
    ensures Safe(s, Do(s, l), TollBy(s, l))
  {
    hide SysInv, Safe, CommitTask, Strands, Submit, DispatchNext, Observe, MarkUnknown, Reconcile, PublishArtifact,
         SetAction, ClaimedNext, AfterCall, InstallHold, ReleaseHold, DeleteDialog, BlockPolicy, LoseReply;
    match l
    case Commit(c, ok) =>
      if c in s.tasks && c in s.db.actions {
        CommitStep(s, c, ok);
      } else {
        StutterStep(s);
      }
    case Unheard(c) => UnheardStep(s, c);
    case Crash => CrashStep(s);
    case Restart => StutterStep(s);
    case Submits(_, _, _, _, _, _) => LedgerLabels(s, l);
    case Dispatch(_, _, _) => LedgerLabels(s, l);
    case Deliver(_, _, _, _, _) => LedgerLabels(s, l);
    case LoseTrack(_) => LedgerLabels(s, l);
    case ReconcileAnswer(_, _, _, _, _, _) => LedgerLabels(s, l);
    case Artifact(_, _, _, _) => LedgerLabels(s, l);
    case Install(_, _) => LedgerLabels(s, l);
    case Release(_, _) => LedgerLabels(s, l);
    case Delete(_, _) => LedgerLabels(s, l);
    case PolicyFailure => LedgerLabels(s, l);
    case GiveUp(_) => CallLabels(s, l);
    case Recheck(_, _, _) => CallLabels(s, l);
    case Issue(_) => CallLabels(s, l);
    case Return(_, _) => CallLabels(s, l);
    case _ => GateLabels(s, l);
  }

  lemma StepKeeps(s: Sys, l: Label)
    requires SysInv(s)
    ensures SysInv(Do(s, l)) && Within(s.db, Do(s, l).db, TollBy(s, l))
  {
    hide SysInv, Do, DebtOf, Within, Recover, SparesAll, Strands;
    if s.running {
      RunningStep(s, l);
    } else {
      RestartStep(s);
      Stopped(s, l);
      SelfWithin(s.db);
    }
  }

  lemma Stopped(s: Sys, l: Label)
    requires !s.running && Recover(s.db).Ok?
    ensures Do(s, l) == if l.Restart? then s.(db := Recover(s.db).value, running := true) else s
  {
    hide Recover;
  }

  // ------------------------------------------------------------- every run

  lemma EmptyLedger(epoch: int, registry: int)
    ensures SysInv(Initial(epoch, registry)) && DebtOf(Initial(epoch, registry).db) == {}
  {
    hide Core, TaskInv, DebtOf, Within;
    EmptyCore(epoch, registry);
    EmptyTaskInv(epoch, registry);
  }

  lemma EmptyCore(epoch: int, registry: int)
    ensures Core(Initial(epoch, registry).db) && DebtOf(Initial(epoch, registry).db) == {}
  {
    var s := Initial(epoch, registry);
    assert QueuedIds(s.db.requests) == {};
    assert Debt(s.db.messages, s.db.requests, s.db.attempts) == {};
  }

  lemma EmptyTaskInv(epoch: int, registry: int)
    ensures var s := Initial(epoch, registry); TaskInv(s.db, s.tasks, s.gate, s.calls)
  {
  }

  lemma {:induction false} RunsSafe(epoch: int, registry: int, run: seq<Label>)
    ensures SysInv(After(Initial(epoch, registry), run))
    decreases |run|
  {
    hide SysInv, Do, DebtOf, Within, Initial;
    if run == [] {
      EmptyLedger(epoch, registry);
    } else {
      RunsSafe(epoch, registry, run[..|run| - 1]);
      StepKeeps(After(Initial(epoch, registry), run[..|run| - 1]), run[|run| - 1]);
    }
  }

  // ----------------------------------------------- from any state to a later one

  ghost predicate LogKept(o: map<int, Event>, n: map<int, Event>) {
    forall k :: k in o ==> k in n && n[k] == o[k]
  }

  /** Requests and attempts stay, each in its dialog. */
  ghost predicate TargetsKept(o: Ledger, n: Ledger) {
    && (forall r :: r in o.requests ==> r in n.requests && n.requests[r].dialog == o.requests[r].dialog)
    && (forall a :: a in o.attempts ==> a in n.attempts && n.attempts[a].dialog == o.attempts[a].dialog)
  }

  /** What a step, and so a run, leaves in place for one dialog. */
  ghost predicate Passes(o: Ledger, n: Ledger, d: Id) {
    && RecordsGrow(o, n)
    && TargetsKept(o, n)
    && LogKept(o.events, n.events)
    && QueueMoves(o.requests, o.queueRevisions, n.requests, n.queueRevisions)
    && (d in o.tombstones ==> Frozen(o, n, d))
    && (Settled(o, d) && Held(o, d) ==> Settled(n, d))
  }

  lemma MovesParts(o: Ledger, n: Ledger, x: Id)
    requires Moves(o, n, x)
    ensures LogKept(o.events, n.events) && QueueMoves(o.requests, o.queueRevisions, n.requests, n.queueRevisions)
    ensures TargetsKept(o, n)
  {
    hide SameMessages, SameActions, SameApprovals, SameInputs, SameTools, QueueMoves;
  }

  lemma SparesPasses(s: Sys, t: Sys, toll: Toll, d: Id)
    requires SysInv(s) && Safe(s, t, toll)
    ensures Passes(s.db, t.db, d)
  {
    hide Core, TaskInv, TombstoneInv, Moves, Settled, Held, Frozen, QueueMoves, LogKept, TargetsKept, RecordsGrow,
         DebtOf, Within;
    assert Spares(s.db, t.db, d);
    var x :| SparesAs(s.db, t.db, d, x);
    MovesParts(s.db, t.db, x);
    if x != d {
      MovesFrozen(s.db, t.db, x, d);
      if Settled(s.db, d) { SettledElsewhere(s.db, t.db, x, d); }
    }
  }

  lemma RestartPasses(db: Ledger, d: Id)
    requires LedgerInv(db) && Recover(db).Ok?
    ensures Passes(db, Recover(db).value, d)
  {
    hide Core, TombstoneInv, Settled, Held, Frozen, QueueMoves, RecordsGrow, DebtOf, Within, Recover, Recovers,
         NoneQueued, Forget, LogKept, TargetsKept;
    RecoverWorks(db);
    var n := Recover(db).value;
    RecoverRecords(db, n);
    SameRecordsGrow(db, n);
    RecoverLog(db, n);
    if d in db.tombstones { TombstoneSettled(db, d); }
    if Settled(db, d) { RestartQuiet(db, n, d); }
  }

  lemma RecoverLog(db: Ledger, n: Ledger)
    requires Recovers(db, n)
    ensures LogKept(db.events, n.events) && TargetsKept(db, n)
  {
    hide Core, Calm, SameMessages, SameActions, SameApprovals, SameInputs, SameTools, QueueMoves, Forget;
  }

  lemma PassesSelf(db: Ledger, d: Id)
    ensures Passes(db, db, d)
  {
    hide Settled, NodeHeld;
  }

  lemma StepPasses(s: Sys, l: Label, d: Id)
    requires SysInv(s)
    ensures Passes(s.db, Do(s, l).db, d)
  {
    hide SysInv, Do, Recover, Passes, Safe, LedgerInv, DebtOf, Within, Strands;
    if s.running {
      RunningStep(s, l);
      SparesPasses(s, Do(s, l), TollBy(s, l), d);
    } else {
      RestartStep(s);
      Stopped(s, l);
      PassesSelf(s.db, d);
      SysLedger(s);
      RestartPasses(s.db, d);
    }
  }

  lemma SysLedger(s: Sys)
    requires SysInv(s)
    ensures LedgerInv(s.db) && TaskInv(s.db, s.tasks, s.gate, s.calls)
  {
    hide LedgerInv, TaskInv;
  }

  lemma {:induction false} AfterKeeps(s: Sys, run: seq<Label>)
    requires SysInv(s)
    ensures SysInv(After(s, run))
    decreases |run|
  {
    hide SysInv, Do, DebtOf, Within;
    if run != [] {
      AfterKeeps(s, run[..|run| - 1]);
      StepKeeps(After(s, run[..|run| - 1]), run[|run| - 1]);
    }
  }

  /** One step of a run, as the step that leads from one prefix to the next. */
  lemma AfterStep(s: Sys, run: seq<Label>, i: int)
    requires 0 <= i < |run|
    ensures After(s, run[..i + 1]) == Do(After(s, run[..i]), run[i])
  {
    hide Do;
    var prefix := run[..i + 1];
    assert prefix[..|prefix| - 1] == run[..i];
  }

  // ------------------------------------------------------------- theorems

  lemma ReachableSafe(s: Sys)
    requires Reachable(s)
    ensures SysInv(s)
  {
    hide SysInv, Initial, After;
    var epoch, registry, run :| s == After(Initial(epoch, registry), run);
    RunsSafe(epoch, registry, run);
  }

  /** A committed hold is never crossed: a step that issues a Start or Resume call
      for an attempt does so in a state in which no hold without an outcome covers
      the attempt's dialog. */
  lemma HoldNeverCrossed(s: Sys, l: Label, a: Id)
    requires Reachable(s) && Do(s, l).calls[a] > s.calls[a]
    ensures a in s.db.attempts
    ensures forall op :: HoldActive(s.db, op) ==> !Covers(s.db.holds[op].request.scope, s.db.attempts[a].dialog)
  {
    hide SysInv, Reachable;
    ReachableSafe(s);
    CallsGrow(s, l, a);
    ReadyUnheld(s, l.c);
  }

  /** Only the call step of a ready dispatch adds to the history of calls. */
  lemma CallsGrow(s: Sys, l: Label, a: Id)
    requires Do(s, l).calls[a] > s.calls[a]
    ensures s.running && l.Issue? && Poised(s, l.c) && s.db.actions[l.c].ref.attempt == a
  {
    hide Submit, DispatchNext, Observe, MarkUnknown, Reconcile, PublishArtifact, SetAction, ClaimedNext, AfterCall,
         InstallHold, ReleaseHold, DeleteDialog, BlockPolicy, Recover, MarkStarted, ObserveRefused, FinishSteer,
         FinishResponse, Rechecked, HasInput;
  }

  lemma ReadyUnheld(s: Sys, c: Id)
    requires SysInv(s) && Poised(s, c)
    ensures var a := s.db.actions[c].ref.attempt; a in s.db.attempts && !Held(s.db, s.db.attempts[a].dialog)
  {
    hide Core, TombstoneInv, HeldBy, CallInv, StartInv, SteerRows, SteerOnce, GateInv;
    DispatchFacts(s.db, c);
  }

  /** In every run with crashes an attempt is started or resumed at most once, and
      no request has two attempts: at most one call per request. */
  lemma AtMostOnceStart(s: Sys)
    requires Reachable(s)
    ensures forall a :: s.calls[a] <= 1 && (a in s.calls ==> a in s.db.attempts)
    ensures forall a, b ::
      a in s.db.attempts && b in s.db.attempts && s.db.attempts[a].request == s.db.attempts[b].request ==> a == b
  {
    hide Reachable;
    ReachableSafe(s);
    hide LogInv, SlotInv, RequestRows, OrderInv, ActionRows, EffectRows, MessageRows, KeyInv, AnswerRows, StartRows,
         PhaseRows, InputRows, RevisionInv, CountInv, SteerInv, HoldInv, TombstoneInv, TaskRows, GateInv, ReadyInv,
         StartInv, SteerRows, SteerOnce;
    assert CallInv(s.calls, s.tasks, s.db.actions, s.db.attempts);
  }

  /** The slot names an attempt exactly when that attempt is the one live attempt,
      occupancy says the same, and a restart always recovers. */
  lemma SingleSlot(s: Sys)
    requires Reachable(s)
    ensures forall a :: s.db.node.active == Some(a) <==> a in s.db.attempts && Live(s.db.attempts[a].phase)
    ensures (s.db.node.occupancy == Idle <==> s.db.node.active.None?) && Recover(s.db).Ok?
  {
    hide Reachable, Recover;
    ReachableSafe(s);
    hide LogInv, AttemptRows, RequestRows, OrderInv, ActionRows, EffectRows, MessageRows, KeyInv, AnswerRows,
         StartRows, PhaseRows, InputRows, RevisionInv, CountInv, SteerInv, HoldInv, TombstoneInv, TaskInv, Recovers;
    RecoverWorks(s.db);
  }

  /** The stored event numbers are exactly 1 to the counter, and no later step
      changes or removes a stored event. */
  lemma LogContiguous(s: Sys, l: Label)
    requires Reachable(s)
    ensures forall k :: k in s.db.events <==> 1 <= k <= s.db.node.lastSeq
    ensures forall k :: k in s.db.events ==> k in Do(s, l).db.events && Do(s, l).db.events[k] == s.db.events[k]
  {
    hide Reachable, Do;
    ReachableSafe(s);
    hide SlotInv, AttemptRows, RequestRows, OrderInv, ActionRows, EffectRows, MessageRows, KeyInv, AnswerRows,
         StartRows, PhaseRows, InputRows, RevisionInv, CountInv, SteerInv, HoldInv, TombstoneInv, TaskInv,
         RecordsGrow, QueueMoves, Settled, Frozen, TargetsKept;
    StepPasses(s, l, 0);
  }
}
