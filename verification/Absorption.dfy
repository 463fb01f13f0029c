/** Two promises that hold but for one kind of step each: an attempt that has ended
    stays ended, and a message under steering has a steer that is not resolved. */
module Absorption {
  import opened LedgerTypes
  import opened LedgerTail
  import opened Transactions
  import opened LedgerInvariant
  import opened Supervisor
  import opened SystemInvariant
  import opened CommandSteps
  import opened WorkerSteps
  import opened SystemSteps
  import opened SystemRuns
  import opened SupervisorTheorems
  import opened RunTheorems

  // ------------------------------------------------------- ended attempts

  predicate Answers(s: Sys, c: Id, a: Id) {
    c in s.db.actions && s.db.actions[c].kind in {AnswerApproval, AnswerInput} && s.db.actions[c].ref.attempt == a
  }

  /** The commit of a doubtful answer for attempt `a` while the slot is empty. */
  predicate Reviving(s: Sys, l: Label, a: Id) {
    s.running && l.Commit? && l.ok && At(s, l.c, Settle(Doubt)) && Answers(s, l.c, a) && s.db.node.active.None?
  }

  predicate KeepsPhase(s: Sys, l: Label, a: Id)
    requires a in s.db.attempts
  {
    a in Do(s, l).db.attempts && Do(s, l).db.attempts[a].phase == s.db.attempts[a].phase
  }

  lemma EndedWithin(o: Ledger, n: Ledger, toll: Toll, a: Id)
    requires Within(o, n, toll) && a in o.attempts && o.attempts[a].phase.Ended? && a !in toll.revived
    ensures a in n.attempts && n.attempts[a].phase == o.attempts[a].phase
  {
    hide DebtOf, PinsKept;
  }

  /** With the slot taken a doubtful answer for another attempt is rolled back. */
  lemma SlotRefuses(db: Ledger, action: Action)
    requires OtherLive(db, action.ref.attempt) && action.ref.attempt in db.attempts
    requires db.attempts[action.ref.attempt].phase.Ended?
    ensures !FinishResponse(db, action, Doubt).Ok?
  {
    hide Answer, Seize, Announce, Tick, Append;
    AnsweredRows(db, action, Doubtful);
  }

  /** With the slot free it puts the attempt there. */
  lemma SlotAccepts(db: Ledger, action: Action)
    requires action.ref.attempt in db.attempts && db.attempts[action.ref.attempt].phase.Ended?
    requires db.attempts[action.ref.attempt].generation == action.ref.generation && !OtherLive(db, action.ref.attempt)
    ensures var r := FinishResponse(db, action, Doubt);
      r.Ok? && action.ref.attempt in r.value.attempts && r.value.attempts[action.ref.attempt].phase == Unknown
  {
    hide Answer, OtherLive, Bump;
    var d1 := Answer(db, action, Doubtful);
    AnsweredRows(db, action, Doubtful);
    SameLive(db, d1, action.ref.attempt);
    SeizedPhase(d1, action.ref);
  }

  lemma SameLive(o: Ledger, n: Ledger, a: Id)
    requires n.attempts == o.attempts
    ensures OtherLive(n, a) == OtherLive(o, a)
  {
  }

  lemma SeizedPhase(db: Ledger, ref: AttemptRef)
    requires ref.attempt in db.attempts && db.attempts[ref.attempt].phase != Unknown
    requires SetUnknown(db, ref, UnknownEffect).Ok?
    ensures var n := SetUnknown(db, ref, UnknownEffect).value;
      ref.attempt in n.attempts && n.attempts[ref.attempt].phase == Unknown
  {
    hide OtherLive, Bump;
  }

  lemma SlotIsLive(db: Ledger, a: Id)
    requires Core(db) && a in db.attempts && db.attempts[a].phase.Ended?
    ensures db.node.active.Some? <==> OtherLive(db, a)
  {
    hide LogInv, RequestRows, OrderInv, AttemptRows, ActionRows, EffectRows, MessageRows, KeyInv, AnswerRows,
         StartRows, PhaseRows, InputRows, RevisionInv, CountInv, SteerInv, HoldInv;
    if db.node.active.Some? { assert db.node.active.value != a; }
  }

  /** The commit of a doubtful answer. */
  lemma DoubtCommit(s: Sys, c: Id)
    requires s.running && At(s, c, Settle(Doubt)) && s.db.actions[c].kind in {AnswerApproval, AnswerInput}
    ensures Do(s, Commit(c, true)).db == Commits(s.db, FinishResponse(s.db, s.db.actions[c], Doubt))
  {
    hide FinishResponse, FinishSteer, MarkStarted, ObserveRefused, MarkUnknown, SetAction;
  }

  lemma DoubtDecides(s: Sys, l: Label, a: Id)
    requires SysInv(s) && a in s.db.attempts && s.db.attempts[a].phase.Ended?
    requires s.running && l.Commit? && l.ok && At(s, l.c, Settle(Doubt)) && Answers(s, l.c, a)
    ensures KeepsPhase(s, l, a) <==> s.db.node.active.Some?
  {
    hide Do, Core, TombstoneInv, TaskInv, FinishResponse, OtherLive;
    DoubtCommit(s, l.c);
    ActionFacts(s.db, l.c);
    SlotIsLive(s.db, a);
    if s.db.node.active.Some? {
      SlotRefuses(s.db, s.db.actions[l.c]);
    } else {
      SlotAccepts(s.db, s.db.actions[l.c]);
    }
  }

  lemma NotRevived(s: Sys, l: Label, a: Id)
    requires !(s.running && l.Commit? && l.ok && At(s, l.c, Settle(Doubt)) && Answers(s, l.c, a))
    ensures a !in TollBy(s, l).revived
  {
    hide Strands;
  }

  /** From any state of any run a step leaves an ended attempt ended, with the same
      outcome, if and only if it is not the commit of a doubtful answer for that
      attempt while the slot is empty. */
  lemma EndedAbsorbing(s: Sys, l: Label, a: Id)
    requires Reachable(s) && a in s.db.attempts && s.db.attempts[a].phase.Ended?
    ensures KeepsPhase(s, l, a) <==> !Reviving(s, l, a)
  {
    hide Reachable, SysInv, Do, Within, Answers, TollBy;
    ReachableSafe(s);
    EndedStep(s, l, a);
  }

  lemma EndedStep(s: Sys, l: Label, a: Id)
    requires SysInv(s) && a in s.db.attempts && s.db.attempts[a].phase.Ended?
    ensures KeepsPhase(s, l, a) <==> !Reviving(s, l, a)
  {
    hide SysInv, Do, Within, Answers, TollBy;
    StepKeeps(s, l);
    if s.running && l.Commit? && l.ok && At(s, l.c, Settle(Doubt)) && Answers(s, l.c, a) {
      DoubtDecides(s, l, a);
    } else {
      NotRevived(s, l, a);
      EndedWithin(s.db, Do(s, l).db, TollBy(s, l), a);
    }
  }

  // ------------------------------------------------------ runs without doubt

  predicate InDoubt(pc: Pc) {
    pc == Contradicted || pc == Settle(Doubt)
  }

  /** An answer for attempt `a` whose call did not come back accepted or declined. */
  predicate DoubtfulReturn(s: Sys, l: Label, a: Id) {
    l.Return? && l.verdict !in {Good, Declines} && Answers(s, l.c, a)
  }

  /** No answer for `a` waits to be settled in doubt. */
  ghost predicate Undoubted(s: Sys, a: Id) {
    forall c :: c in s.tasks && Answers(s, c, a) ==> !InDoubt(s.tasks[c])
  }

  ghost predicate NeverDoubted(s: Sys, run: seq<Label>, a: Id) {
    forall i :: 0 <= i < |run| ==> !DoubtfulReturn(After(s, run[..i]), run[i], a)
  }

  /** A task comes to be in doubt only through the return of a call, and stays so. */
  lemma DoubtCame(s: Sys, l: Label, c: Id)
    requires c in Do(s, l).tasks && InDoubt(Do(s, l).tasks[c])
    ensures (c in s.tasks && InDoubt(s.tasks[c]))
        || (l.Return? && l.c == c && l.verdict !in {Good, Declines} && c in s.tasks)
  {
    hide Submit, DispatchNext, Observe, MarkUnknown, Reconcile, PublishArtifact, SetAction, ClaimedNext, InstallHold,
         ReleaseHold, DeleteDialog, BlockPolicy, Recover, MarkStarted, ObserveRefused, FinishSteer, FinishResponse,
         CommitTask, Rechecked, HasInput;
    if s.running && l.Commit? && l.c in s.tasks && l.c in s.db.actions { DoubtCommitted(s, l.c, l.ok, c); }
  }

  lemma DoubtCommitted(s: Sys, e: Id, ok: bool, c: Id)
    requires e in s.tasks && e in s.db.actions && c in CommitTask(s, e, ok).tasks
    requires InDoubt(CommitTask(s, e, ok).tasks[c])
    ensures c in s.tasks && InDoubt(s.tasks[c])
  {
    hide MarkStarted, ObserveRefused, FinishSteer, FinishResponse, MarkUnknown, SetAction;
  }

  lemma StillAnswers(s: Sys, l: Label, c: Id, a: Id)
    requires SysInv(s) && c in s.tasks && Answers(Do(s, l), c, a)
    ensures Answers(s, c, a)
  {
    hide Do, LedgerInv, TaskInv;
    TaskKnown(s, c);
    ActionKept(s, l, c);
  }

  lemma TaskKnown(s: Sys, c: Id)
    requires SysInv(s) && c in s.tasks
    ensures c in s.db.actions
  {
    hide LedgerInv, GateInv, ReadyInv, CallInv, StartInv, SteerRows, SteerOnce;
  }

  lemma UndoubtedStep(s: Sys, l: Label, a: Id)
    requires SysInv(s) && Undoubted(s, a) && !DoubtfulReturn(s, l, a)
    ensures Undoubted(Do(s, l), a)
  {
    hide SysInv, Do, InDoubt, Answers;
    forall c | c in Do(s, l).tasks && Answers(Do(s, l), c, a)
      ensures !InDoubt(Do(s, l).tasks[c])
    {
      if InDoubt(Do(s, l).tasks[c]) {
        DoubtCame(s, l, c);
        StillAnswers(s, l, c, a);
      }
    }
  }

  lemma UndoubtedHolds(s: Sys, l: Label, a: Id)
    requires Undoubted(s, a)
    ensures !Reviving(s, l, a)
  {
  }

  lemma {:induction false} EndedRun(s: Sys, run: seq<Label>, a: Id)
    requires SysInv(s) && a in s.db.attempts && s.db.attempts[a].phase.Ended? && Undoubted(s, a)
    requires NeverDoubted(s, run, a)
    ensures var t := After(s, run);
      Undoubted(t, a) && a in t.db.attempts && t.db.attempts[a].phase == s.db.attempts[a].phase
    decreases |run|
  {
    hide SysInv, Do, Undoubted, DoubtfulReturn, Reviving;
    if run != [] {
      var before := run[..|run| - 1];
      forall i | 0 <= i < |before| ensures !DoubtfulReturn(After(s, before[..i]), before[i], a) {
        assert before[..i] == run[..i];
      }
      EndedRun(s, before, a);
      var t := After(s, before);
      AfterKeeps(s, before);
      UndoubtedStep(t, run[|run| - 1], a);
      UndoubtedHolds(t, run[|run| - 1], a);
      EndedStep(t, run[|run| - 1], a);
    }
  }

  /** An attempt that has ended keeps its outcome along every run in which no answer
      for it is in doubt at the start and none comes back in doubt on the way. */
  lemma EndedForGood(s: Sys, run: seq<Label>, t: Sys, a: Id)
    requires Reachable(s) && t == After(s, run) && a in s.db.attempts && s.db.attempts[a].phase.Ended?
    requires Undoubted(s, a) && NeverDoubted(s, run, a)
    ensures a in t.db.attempts && t.db.attempts[a].phase == s.db.attempts[a].phase
  {
    hide Reachable, SysInv, After, Undoubted, NeverDoubted;
    ReachableSafe(s);
    EndedRun(s, run, a);
  }

  // -------------------------------------------------- messages under steering

  /** Every message under steering has a steer that is not resolved. */
  ghost predicate AllPinned(db: Ledger) {
    forall m :: m in db.messages && db.messages[m].disposition == SteerPending ==> Pinned(db.actions, m)
  }

  /** The commit that resolves the only open steer of a message still under steering. */
  ghost predicate Orphans(s: Sys, l: Label) {
    && s.running && l.Commit? && l.ok && l.c in s.tasks && l.c in s.db.actions && l.c in Loosened(s, l.c)
    && s.db.actions[l.c].kind == SteerMessage
    && var m := s.db.actions[l.c].message;
      && m in s.db.messages && s.db.messages[m].disposition == SteerPending
      && forall e :: OpenSteer(s.db.actions, e, m) ==> e == l.c
  }

  lemma PinsWithin(o: Ledger, n: Ledger, toll: Toll)
    requires Within(o, n, toll)
    ensures PinsKept(o, n, toll.loosed)
  {
    hide DebtOf, EndedKept, PinsKept;
  }

  lemma LooseOnly(s: Sys, l: Label)
    ensures forall c :: c in TollBy(s, l).loosed ==>
        s.running && l == Commit(c, true) && c in s.tasks && c in s.db.actions && c in Loosened(s, c)
  {
    hide Strands, Revivals;
  }

  lemma PinsHold(s: Sys, l: Label)
    requires SysInv(s) && AllPinned(s.db) && !Orphans(s, l)
    ensures AllPinned(Do(s, l).db)
  {
    hide SysInv, Do, Within, TollBy, Loosened;
    var n := Do(s, l).db;
    StepKeeps(s, l);
    PinsWithin(s.db, n, TollBy(s, l));
    LooseOnly(s, l);
    forall m | m in n.messages && n.messages[m].disposition == SteerPending
      ensures Pinned(n.actions, m)
    {
      if !ComesUnder(s.db.messages, n.messages, m) {
        StillPinned(s, l, n, m, TollBy(s, l).loosed);
      }
    }
  }

  lemma StillPinned(s: Sys, l: Label, n: Ledger, m: Id, loosed: set<Id>)
    requires PinsKept(s.db, n, loosed) && Pinned(s.db.actions, m) && !Orphans(s, l)
    requires m in s.db.messages && s.db.messages[m].disposition == SteerPending
    requires forall c :: c in loosed ==>
        s.running && l == Commit(c, true) && c in s.tasks && c in s.db.actions && c in Loosened(s, c)
    ensures Pinned(n.actions, m)
  {
    hide Loosened, ComesUnder;
    var c :| OpenSteer(s.db.actions, c, m);
    if c in loosed {
      var e :| OpenSteer(s.db.actions, e, m) && e != c;
      assert OpenSteer(n.actions, e, m);
    } else {
      assert OpenSteer(n.actions, c, m);
    }
  }

  lemma PinBreaks(s: Sys, l: Label)
    requires SysInv(s) && Orphans(s, l)
    ensures !AllPinned(Do(s, l).db)
  {
    hide LedgerInv, TaskInv;
    TaskFacts(s, l.c);
    FinishCommit(s, l.c);
    var m := s.db.actions[l.c].message;
    var n := Do(s, l).db;
    forall c ensures !OpenSteer(n.actions, c, m) {
      assert !OpenSteer(s.db.actions, c, m) || c == l.c;
    }
  }

  lemma FinishCommit(s: Sys, c: Id)
    requires s.running && c in s.tasks && c in s.db.actions && s.tasks[c].Finish?
    ensures Do(s, Commit(c, true)).db == SetAction(s.db, c, Inflight, s.tasks[c].status)
  {
    hide FinishResponse, FinishSteer, MarkStarted, ObserveRefused, MarkUnknown, SetAction;
  }

  /** From a state of any run in which every message under steering has an open
      steer, a step leads to such a state if and only if it is not the commit that
      resolves the last open steer of a message whose own update did not commit. */
  lemma PinStep(s: Sys, l: Label)
    requires Reachable(s) && AllPinned(s.db)
    ensures AllPinned(Do(s, l).db) <==> !Orphans(s, l)
  {
    hide Reachable, SysInv, Do, AllPinned, Orphans;
    ReachableSafe(s);
    if Orphans(s, l) { PinBreaks(s, l); } else { PinsHold(s, l); }
  }
}
