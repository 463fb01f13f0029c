/** Every step of the supervisor in these terms: either it is quiet, or it is about the
    attempt an adapter event, a reconciliation or an artifact names, or it is the end of
    a refused start. */
module StepTraces {
  import opened LedgerTypes
  import opened LedgerTail
  import opened Transactions
  import opened LedgerInvariant
  import opened Supervisor
  import opened SystemInvariant
  import opened Traces
  import opened EventTraces

  /** The attempt a step is about. */
  function Subject(l: Label): Option<Id> {
    match l
    case Deliver(ref, _, _, _, _) => Some(ref.attempt)
    case ReconcileAnswer(ref, _, _, _, _, _) => Some(ref.attempt)
    case Artifact(ref, _, _, _) => Some(ref.attempt)
    case _ => None
  }

  /** The bytes a step offers to the account of that attempt. */
  function OfferedBy(l: Label): int {
    match l
    case Deliver(_, e, _, _, _) => BytesOf(e)
    case ReconcileAnswer(_, _, e, _, _, _) => SaidBytes(e)
    case Artifact(_, bytes, _, _) => bytes
    case _ => 0
  }

  predicate About(s: Sys, l: Label, a: Id) {
    s.running && Subject(l) == Some(a)
  }

  /** The commit that observes a refused start of attempt `a`. */
  predicate Refusing(s: Sys, l: Label, a: Id) {
    s.running && l.Commit? && At(s, l.c, Declined) && s.db.actions[l.c].ref.attempt == a
  }

  ghost predicate Stepped(s: Sys, l: Label) {
    var n := Do(s, l).db;
    || Quiet(s.db, n)
    || (Subject(l).Some? && s.running && Traced(s.db, n, Subject(l).value, OfferedBy(l)))
    || (exists a :: Refusing(s, l, a) && Unpaid(s.db, n) && Silent(s.db, n, a))
  }

  // ---------------------------------------------------------------- holds

  /** A transaction on holds, revisions, deletions and dialogs alone. */
  lemma StoredQuiet(o: Ledger, n: Ledger)
    requires n.messages == o.messages && n.node == o.node && n.requests == o.requests && n.attempts == o.attempts
    requires n.approvals == o.approvals && n.inputs == o.inputs && n.events == o.events && n.late == o.late
    ensures Quiet(o, n)
  {
    hide Telling, Quiet;
    UntouchedQuiet(o, n);
  }

  lemma InstallQuiet(db: Ledger, op: Id, request: InstallRequest)
    ensures Quiet(db, Commits(db, InstallHold(db, op, request)))
  {
    hide PreStart, ScopeTaken, Revision, Quiet;
    StoredQuiet(db, Commits(db, InstallHold(db, op, request)));
  }

  lemma ReleaseQuiet(db: Ledger, op: Id, request: ReleaseRequest)
    ensures Quiet(db, Commits(db, ReleaseHold(db, op, request)))
  {
    hide Revision, Quiet;
    StoredQuiet(db, Commits(db, ReleaseHold(db, op, request)));
  }

  lemma DeleteQuiet(db: Ledger, op: Id, request: DeleteRequest)
    ensures Quiet(db, Commits(db, DeleteDialog(db, op, request)))
  {
    hide Settled, NoneQueued, Revision, Lookup, Quiet, Append, Tick, RecordDeletion, Bury;
    QuietSelf(db);
    if DeleteDialog(db, op, request) != Ok(db) && DeleteDialog(db, op, request).Ok? {
      var d := request.dialog;
      var e := Event(DialogDeleted, None, Some(d), Some(Key(false, KDeleted)), None, false);
      var d1 := Append(Tick(Bury(db, d), false), e);
      assert Quiet(db, d1) by { BuriedQuiet(db, d, e); }
      DeletedQuiet(d1, op, request, db.holds[op].scopeRevision + 1);
      QuietTrans(db, d1, RecordDeletion(d1, op, request, db.holds[op].scopeRevision + 1));
    }
  }

  lemma BuriedQuiet(db: Ledger, d: Id, e: Event)
    requires d in db.dialogs && !Telling(e)
    ensures Quiet(db, Append(Tick(Bury(db, d), false), e))
  {
    hide Quiet, Append, Tick, Telling;
    StoredQuiet(db, Bury(db, d));
    TickQuiet(Bury(db, d), false);
    QuietTrans(db, Bury(db, d), Tick(Bury(db, d), false));
    AppendQuiet(Tick(Bury(db, d), false), e);
    QuietTrans(db, Tick(Bury(db, d), false), Append(Tick(Bury(db, d), false), e));
  }

  lemma DeletedQuiet(db: Ledger, op: Id, request: DeleteRequest, revision: int)
    ensures Quiet(db, RecordDeletion(db, op, request, revision))
  {
    hide Quiet;
    StoredQuiet(db, RecordDeletion(db, op, request, revision));
  }

  lemma BlockQuiet(db: Ledger)
    ensures Quiet(db, BlockPolicy(db))
  {
    hide Quiet, Announce, Tick;
    QuietSelf(db);
    var d := db.(node := db.node.(readiness := IsBlocked, reasons := db.node.reasons + {PolicyUnavailable}));
    NodeQuiet(db, d);
    TickQuiet(d, false);
    QuietTrans(db, d, Tick(d, false));
    AnnounceQuiet(Tick(d, false));
    QuietTrans(db, Tick(d, false), Announce(Tick(d, false)));
  }

  lemma RecoverQuiet(db: Ledger)
    ensures Quiet(db, Commits(db, Recover(db)))
  {
    hide SetUnknown, Forget, Quiet, Telling;
    QuietSelf(db);
    var d1 := db.(actions := Forget(db.actions));
    UntouchedQuiet(db, d1);
    if db.node.active.Some? && db.node.active.value in db.attempts {
      var ref := RefOf(d1, db.node.active.value);
      UnknownQuiet(d1, ref, UnknownEffect);
      QuietTrans(db, d1, Commits(d1, SetUnknown(d1, ref, UnknownEffect)));
    }
  }

  lemma LostQuiet(db: Ledger, ref: AttemptRef)
    ensures Quiet(db, Commits(db, MarkUnknown(db, ref, UnknownEffect)))
  {
    hide SetUnknown, Quiet;
    QuietSelf(db);
    UnknownQuiet(db, ref, UnknownEffect);
  }

  // ---------------------------------------------------------------- steps

  lemma FitFacts(s: Sys, a: Id)
    requires SysInv(s) && a in s.db.attempts
    ensures Core(s.db) && Fit(s.db, a) && PhaseFits(s.db.attempts[a])
  {
    hide SlotInv, RequestRows, OrderInv, AttemptRows, ActionRows, EffectRows, MessageRows, KeyInv, AnswerRows,
         StartRows, InputRows, RevisionInv, CountInv, SteerInv, HoldInv, TaskInv, TombstoneInv;
  }

  lemma StoreStep(s: Sys, l: Label)
    requires s.running && (l.Install? || l.Release? || l.Delete? || l.PolicyFailure? || l.Submits? || l.Dispatch?)
    ensures Quiet(s.db, Do(s, l).db)
  {
    hide Submit, DispatchNext, InstallHold, ReleaseHold, DeleteDialog, BlockPolicy, Quiet;
    QuietSelf(s.db);
    match l
    case Submits(id, c, x, y, space, op) => SubmitQuiet(s.db, id, c, x, y, space, op);
    case Dispatch(candidate, a, g) => DispatchQuiet(s.db, candidate, a, g);
    case Install(op, request) => InstallQuiet(s.db, op, request);
    case Release(op, request) => ReleaseQuiet(s.db, op, request);
    case Delete(op, request) => DeleteQuiet(s.db, op, request);
    case PolicyFailure => BlockQuiet(s.db);
  }

  lemma SubjectStep(s: Sys, l: Label)
    requires SysInv(s) && s.running && Subject(l).Some? && Subject(l).value in s.db.attempts
    ensures Traced(s.db, Do(s, l).db, Subject(l).value, OfferedBy(l))
  {
    hide SysInv, Core, Fit, PhaseFits, Observe, Reconcile, PublishArtifact, Traced, BytesOf, SaidBytes;
    FitFacts(s, Subject(l).value);
    match l
    case Deliver(ref, e, valid, marker, stop) => ObserveTraced(s.db, ref, e, valid, marker, stop);
    case ReconcileAnswer(ref, newId, e, valid, marker, stop) =>
      ReconcileTraced(s.db, ref, newId, e, valid, marker, stop);
    case Artifact(ref, bytes, marker, stop) => ArtifactTraced(s.db, ref, bytes, marker, stop);
  }

  lemma NobodyStep(s: Sys, l: Label)
    requires s.running && Subject(l).Some? && Subject(l).value !in s.db.attempts
    ensures Do(s, l) == s
  {
    hide Archive, ProjectEvent, EnsureSaid, ProjectTerminal, EffectsUnresolved, ChargeArtifact;
  }

  /** The steps of the tasks, a lost track and a crash. */
  lemma WorkStep(s: Sys, l: Label)
    requires s.running && Subject(l).None? && !(l.Commit? || l.Unheard?)
    requires !(l.Install? || l.Release? || l.Delete? || l.PolicyFailure? || l.Submits? || l.Dispatch?)
    ensures Quiet(s.db, Do(s, l).db)
  {
    hide SetAction, ClaimedNext, AfterCall, Rechecked, HasInput, Quiet, MarkUnknown;
    QuietSelf(s.db);
    match l
    case Claim(c) => ActionQuiet(s.db, c, Pending, Inflight);
    case Authenticate(c, _, _) => ActionQuiet(s.db, c, Inflight, Pending);
    case LoseTrack(a) => if a in s.db.attempts { LostQuiet(s.db, RefOf(s.db, a)); }
    case _ =>
  }

  lemma UnheardQuiet(s: Sys, c: Id)
    ensures Quiet(s.db, LoseReply(s, c).db)
  {
    hide MarkStarted, ClaimedNext, SetAction, Quiet;
    QuietSelf(s.db);
    ActionQuiet(s.db, c, Pending, Inflight);
    if c in s.db.actions { StartQuiet(s.db, s.db.actions[c].ref); }
  }

  lemma CommitStepped(s: Sys, l: Label)
    requires s.running && l.Commit?
    ensures Stepped(s, l)
  {
    hide CommitTask, Quiet, Unpaid, Silent, Traced;
    QuietSelf(s.db);
    if l.c in s.tasks && l.c in s.db.actions {
      CommitTrace(s, l.c, l.ok);
      assert s.tasks[l.c] == Declined ==> Refusing(s, l, s.db.actions[l.c].ref.attempt);
    }
  }

  /** Every step is quiet, about the attempt it names, or the end of a refused start. */
  lemma EveryStep(s: Sys, l: Label)
    requires SysInv(s)
    ensures Stepped(s, l)
  {
    hide SysInv, Do, Quiet, Traced, Unpaid, Silent, Refusing, OfferedBy;
    QuietSelf(s.db);
    if !s.running {
      RestartQuiet(s, l);
    } else if Subject(l).Some? {
      if Subject(l).value in s.db.attempts { SubjectStep(s, l); } else { NobodyStep(s, l); }
    } else if l.Install? || l.Release? || l.Delete? || l.PolicyFailure? || l.Submits? || l.Dispatch? {
      StoreStep(s, l);
    } else if l.Commit? {
      CommitStepped(s, l);
    } else if l.Unheard? {
      UnheardDone(s, l);
    } else {
      WorkStep(s, l);
    }
  }

  lemma UnheardDone(s: Sys, l: Label)
    requires s.running && l.Unheard?
    ensures Quiet(s.db, Do(s, l).db)
  {
    hide LoseReply, Quiet;
    UnheardQuiet(s, l.c);
  }

  lemma RestartQuiet(s: Sys, l: Label)
    requires !s.running
    ensures Quiet(s.db, Do(s, l).db)
  {
    hide Recover, Quiet;
    QuietSelf(s.db);
    RecoverQuiet(s.db);
  }
}
