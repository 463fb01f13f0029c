/** What every reachable state keeps about the words and the ends of attempts: which
    message is an attempt's newest, and that a completed attempt says nothing more,
    unless it is back in the slot or past its budget. */
module TerminalRuns {
  import opened LedgerTypes
  import opened LedgerTail
  import opened Transactions
  import opened LedgerInvariant
  import opened Supervisor
  import opened SystemInvariant
  import opened SystemSteps
  import opened SystemRuns
  import opened SupervisorTheorems
  import opened CommandReplay
  import opened Absorption
  import EventSteps
  import opened Traces
  import opened EventTraces
  import opened StepTraces
  import opened BudgetRuns

  /** Rows that wait for an answer belong to a started attempt, or to one past its budget. */
  ghost predicate WaitsBegun(db: Ledger) {
    && (forall p :: p in db.approvals ==> db.approvals[p].attempt in db.attempts
                                          && db.attempts[db.approvals[p].attempt].started)
    && (forall i :: i in db.inputs ==> db.inputs[i].attempt in db.attempts
                                       && Begun(db, db.inputs[i].attempt))
  }

  predicate Begun(db: Ledger, a: Id)
    requires a in db.attempts
  {
    db.attempts[a].started || Over(db, a)
  }

  /** The log entry is the live end of a completed attempt. */
  predicate Completes(e: Event) {
    EndsLive(e) && e.attempt.Some? && e.digest.Some? && e.digest.value.CompletedWith?
  }

  /** A completed attempt has said nothing since; one that is back had begun. */
  predicate EndStands(db: Ledger, e: Event)
    requires Completes(e)
  {
    var a := e.attempt.value;
    && a in db.attempts
    && if Live(db.attempts[a].phase) then Begun(db, a) else NewestWord(db, a) == e.digest.value.message || Over(db, a)
  }

  ghost predicate EndsStand(db: Ledger) {
    forall k :: k in db.events && Completes(db.events[k]) ==> EndStands(db, db.events[k])
  }

  /** A terminal is stored with all it says only where it was archived. */
  ghost predicate ArchivedEnds(db: Ledger) {
    forall k :: k in db.events && db.events[k].digest.Some? && db.events[k].digest.value.Whole?
                && db.events[k].digest.value.event.Terminal? ==>
      db.events[k].key == Some(Key(true, KTerminal))
  }

  ghost predicate Telltales(db: Ledger) {
    Indexed(db) && WaitsBegun(db) && EndsStand(db) && ArchivedEnds(db)
  }

  // ------------------------------------------------------------------ messages

  lemma IndexedStep(s: Sys, l: Label)
    requires SysInv(s) && Indexed(s.db)
    ensures Indexed(Do(s, l).db) && AssistantsKept(s.db.messages, Do(s, l).db.messages)
  {
    hide SysInv, Do, Indexed, AssistantsKept, Unpaid, Meters, Fair, Charges, UserOnly, RowsMild, TellsMild,
         AttemptsMild, SameCharges;
    EveryStep(s, l);
    if Quiet(s.db, Do(s, l).db) { QuietIndexed(s.db, Do(s, l).db); }
  }

  // ------------------------------------------------------------- single steps

  lemma OverStays(s: Sys, l: Label, a: Id)
    requires SysInv(s) && Sound(s.db) && Over(s.db, a)
    ensures Over(Do(s, l).db, a)
  {
    hide SysInv, Do, Sound, ArchivedBytes;
    StepMeters(s, l);
  }

  /** Attempts stay, and so do their starts. */
  lemma StartStays(s: Sys, l: Label, a: Id)
    requires SysInv(s) && a in s.db.attempts
    ensures var n := Do(s, l).db; a in n.attempts && (s.db.attempts[a].started ==> n.attempts[a].started)
  {
    hide SysInv, Do, Indexed, AssistantsKept, Unpaid, Meters, Fair, Charges, UserOnly, RowsMild, TellsMild, SameCharges;
    EveryStep(s, l);
  }

  lemma BegunStays(s: Sys, l: Label, a: Id)
    requires SysInv(s) && Sound(s.db) && a in s.db.attempts && Begun(s.db, a)
    ensures a in Do(s, l).db.attempts && Begun(Do(s, l).db, a)
  {
    hide SysInv, Do, Sound, Over;
    StartStays(s, l, a);
    if Over(s.db, a) { OverStays(s, l, a); }
  }

  lemma NewWait(s: Sys, l: Label)
    requires SysInv(s)
    ensures var n := Do(s, l).db;
      && (forall p :: p in n.approvals ==>
            (p in s.db.approvals && s.db.approvals[p].attempt == n.approvals[p].attempt)
            || (n.approvals[p].attempt in n.attempts && n.attempts[n.approvals[p].attempt].started))
      && (forall i :: i in n.inputs ==>
            (i in s.db.inputs && s.db.inputs[i].attempt == n.inputs[i].attempt)
            || (n.inputs[i].attempt in n.attempts && Begun(n, n.inputs[i].attempt)))
  {
    hide SysInv, Do, Indexed, AssistantsKept, Unpaid, Meters, Charges, UserOnly, TellsMild, AttemptsMild, SameCharges,
         Over, KeyTaken, TellsFair;
    EveryStep(s, l);
  }

  lemma WaitsStep(s: Sys, l: Label)
    requires SysInv(s) && Sound(s.db) && WaitsBegun(s.db)
    ensures WaitsBegun(Do(s, l).db)
  {
    hide SysInv, Do, Sound, Begun;
    NewWait(s, l);
    var n := Do(s, l).db;
    forall p | p in n.approvals
      ensures n.approvals[p].attempt in n.attempts && n.attempts[n.approvals[p].attempt].started
    {
      if p in s.db.approvals && s.db.approvals[p].attempt == n.approvals[p].attempt {
        StartStays(s, l, s.db.approvals[p].attempt);
      }
    }
    forall i | i in n.inputs ensures n.inputs[i].attempt in n.attempts && Begun(n, n.inputs[i].attempt) {
      if i in s.db.inputs && s.db.inputs[i].attempt == n.inputs[i].attempt {
        BegunStays(s, l, s.db.inputs[i].attempt);
      }
    }
  }

  /** A new telling event is the fair one of the step's attempt. */
  lemma NewTold(s: Sys, l: Label, k: int)
    requires SysInv(s) && k in Do(s, l).db.events && Telling(Do(s, l).db.events[k])
    ensures var n := Do(s, l).db;
      || (k in s.db.events && s.db.events[k] == n.events[k])
      || (exists a :: TellsFair(s.db, n, a, n.events[k]))
  {
    hide SysInv, Do, Indexed, AssistantsKept, Unpaid, Meters, Charges, UserOnly, AttemptsMild, SameCharges, Telling,
         TellsFair, RowFair, RowsMild;
    EveryStep(s, l);
  }

  lemma ArchivedStep(s: Sys, l: Label)
    requires SysInv(s) && ArchivedEnds(s.db)
    ensures ArchivedEnds(Do(s, l).db)
  {
    hide SysInv, Do, Over, KeyTaken;
    var n := Do(s, l).db;
    forall k | k in n.events && n.events[k].digest.Some? && n.events[k].digest.value.Whole?
               && n.events[k].digest.value.event.Terminal?
      ensures n.events[k].key == Some(Key(true, KTerminal))
    {
      NewTold(s, l, k);
    }
  }

  // -------------------------------------------------------------------- ends

  /** An attempt that is brought back had begun: an answer is made only to a row of it. */
  lemma RevivedBegun(s: Sys, l: Label, a: Id)
    requires SysInv(s) && WaitsBegun(s.db) && Reviving(s, l, a)
    ensures a in s.db.attempts && Begun(s.db, a)
  {
    hide Begun, Do, TaskInv, TombstoneInv, LogInv, SlotInv, RequestRows, OrderInv, AttemptRows, ActionRows, EffectRows,
         MessageRows, KeyInv, StartRows, PhaseRows, InputRows, RevisionInv, CountInv, SteerInv, HoldInv;
    var action := s.db.actions[l.c];
    if action.kind == AnswerApproval {
      assert s.db.approvals[action.target].attempt == a;
      assert Begun(s.db, a) by { StartedBegun(s.db, a); }
    } else {
      assert s.db.inputs[action.target].attempt == a;
    }
  }

  lemma StartedBegun(db: Ledger, a: Id)
    requires a in db.attempts && db.attempts[a].started
    ensures Begun(db, a)
  {
  }

  /** An attempt ends only for want of a live end in the log, or because its start was
      refused. */
  lemma EndsOnce(s: Sys, l: Label, a: Id)
    requires SysInv(s) && a in s.db.attempts && Live(s.db.attempts[a].phase)
    requires a in Do(s, l).db.attempts && !Live(Do(s, l).db.attempts[a].phase)
    ensures !KeyTaken(s.db, a, Key(false, KTerminal)) || Refusing(s, l, a)
  {
    hide SysInv, Do, Indexed, AssistantsKept, Unpaid, Meters, Charges, UserOnly, SameCharges, Telling, TellsFair,
         WaitsFair, RowsMild, TellsMild, KeyTaken, Over;
    EveryStep(s, l);
  }

  lemma RefusedUnstarted(s: Sys, l: Label, a: Id)
    requires SysInv(s) && Refusing(s, l, a) && a in s.db.attempts
    ensures !s.db.attempts[a].started
  {
    hide Core, TombstoneInv, GateInv, ReadyInv, CallInv, SteerRows, SteerOnce, Do;
    TaskFacts(s, l.c);
    DispatchFacts(s.db, l.c);
    StartFacts(s, l.c);
  }

  /** An ended attempt that stays ended says nothing new, unless it is past its budget. */
  lemma EndedMute(s: Sys, l: Label, a: Id)
    requires SysInv(s) && Sound(s.db) && a in s.db.attempts && !Live(s.db.attempts[a].phase)
    ensures var n := Do(s, l).db;
      a in n.attempts && (n.attempts[a].said == s.db.attempts[a].said || Over(n, a))
  {
    hide SysInv, Do, Indexed, AssistantsKept, Unpaid, Meters, Charges, UserOnly, SameCharges, Telling, TellsFair,
         WaitsFair, RowsMild, TellsMild, KeyTaken, Over, Sound;
    StartStays(s, l, a);
    EveryStep(s, l);
  }

  lemma EndKept(s: Sys, l: Label, e: Event)
    requires SysInv(s) && Sound(s.db) && WaitsBegun(s.db) && Completes(e) && EndStands(s.db, e)
    requires KeyTaken(s.db, e.attempt.value, Key(false, KTerminal))
    ensures EndStands(Do(s, l).db, e)
  {
    hide SysInv, Do, Sound, WaitsBegun, Over, KeyTaken, Reviving, Refusing;
    var a := e.attempt.value;
    StartStays(s, l, a);
    var n := Do(s, l).db;
    if Over(s.db, a) {
      OverStays(s, l, a);
    } else if Live(s.db.attempts[a].phase) {
      if Live(n.attempts[a].phase) {
        BegunStays(s, l, a);
      } else {
        EndsOnce(s, l, a);
        RefusedUnstarted(s, l, a);
      }
    } else {
      EndedMute(s, l, a);
      if Live(n.attempts[a].phase) {
        EndedStep(s, l, a);
        RevivedBegun(s, l, a);
        BegunStays(s, l, a);
      }
    }
  }

  lemma NewEnd(o: Ledger, n: Ledger, a: Id, e: Event)
    requires TellsFair(o, n, a, e) && Completes(e)
    ensures EndStands(n, e)
  {
    hide Over, KeyTaken;
  }

  lemma EndsStep(s: Sys, l: Label)
    requires SysInv(s) && Sound(s.db) && WaitsBegun(s.db) && EndsStand(s.db)
    ensures EndsStand(Do(s, l).db)
  {
    hide SysInv, Do, Sound, WaitsBegun, EndStands, TellsFair;
    var n := Do(s, l).db;
    forall k | k in n.events && Completes(n.events[k]) ensures EndStands(n, n.events[k]) {
      NewTold(s, l, k);
      if k in s.db.events && s.db.events[k] == n.events[k] {
        EndKept(s, l, n.events[k]);
      } else {
        var a :| TellsFair(s.db, n, a, n.events[k]);
        NewEnd(s.db, n, a, n.events[k]);
      }
    }
  }

  // ------------------------------------------------------------ open answers

  /** An answer for attempt `a` was taken up and will not be resolved: its task is gone
      or about to leave it unsettled. */
  ghost predicate Doubted(s: Sys, a: Id) {
    exists c :: OpenAnswer(s.db.actions, c, a) && Undecided(s.tasks, c)
  }

  predicate Undecided(tasks: map<Id, Pc>, c: Id) {
    c in tasks ==> tasks[c] == Finish(Unsettled)
  }

  lemma ClaimPending(db: Ledger, c: Id)
    requires ClaimedNext(db, c)
    ensures c in db.actions && db.actions[c].status == Pending
  {
  }

  lemma StaysUndecided(s: Sys, l: Label, c: Id, a: Id)
    requires OpenAnswer(s.db.actions, c, a) && Undecided(s.tasks, c)
    ensures Undecided(Do(s, l).tasks, c)
  {
    hide Submit, DispatchNext, Observe, MarkUnknown, Reconcile, PublishArtifact, SetAction, ClaimedNext, InstallHold,
         ReleaseHold, DeleteDialog, BlockPolicy, Recover, MarkStarted, ObserveRefused, FinishSteer, FinishResponse,
         CommitTask, Rechecked, HasInput, LoseReply;
    if s.running && l.Claim? && ClaimedNext(s.db, l.c) { ClaimPending(s.db, l.c); }
    if s.running && l.Unheard? { UnheardUndecided(s, l.c, c); }
    if s.running && l.Commit? && l.c in s.tasks && l.c in s.db.actions { CommitUndecided(s, l.c, l.ok, c); }
  }

  lemma UnheardUndecided(s: Sys, e: Id, c: Id)
    requires Undecided(s.tasks, c)
    ensures Undecided(LoseReply(s, e).tasks, c)
  {
    hide MarkStarted, ClaimedNext, SetAction;
  }

  lemma CommitUndecided(s: Sys, e: Id, ok: bool, c: Id)
    requires e in s.tasks && e in s.db.actions && Undecided(s.tasks, c)
    requires c in s.db.actions && s.db.actions[c].kind in {AnswerApproval, AnswerInput}
    ensures Undecided(CommitTask(s, e, ok).tasks, c)
  {
    hide MarkStarted, ObserveRefused, FinishSteer, FinishResponse, MarkUnknown, SetAction;
  }

  lemma StaysOpen(s: Sys, l: Label, c: Id, a: Id)
    requires SysInv(s) && OpenAnswer(s.db.actions, c, a)
    requires c in s.tasks && s.tasks[c].Finish? ==> Unresolved(s.tasks[c].status)
    ensures OpenAnswer(Do(s, l).db.actions, c, a)
  {
    hide SysInv, Do, TollBy, OpenAnswer, OpenSteer, DebtOf, EndedKept;
    StepKeeps(s, l);
    LooseOnly(s, l);
  }

  lemma DoubtedStep(s: Sys, l: Label, a: Id)
    requires SysInv(s) && Doubted(s, a)
    ensures Doubted(Do(s, l), a)
  {
    hide SysInv, Do, OpenAnswer;
    var c :| OpenAnswer(s.db.actions, c, a) && Undecided(s.tasks, c);
    StaysOpen(s, l, c, a);
    StaysUndecided(s, l, c, a);
  }

  /** The commit that brings an attempt back leaves its answer unsettled. */
  lemma RevivedDoubted(s: Sys, l: Label, a: Id)
    requires SysInv(s) && Reviving(s, l, a)
    ensures Doubted(Do(s, l), a)
  {
    hide SysInv, Do;
    assert OpenAnswer(s.db.actions, l.c, a) by { AnswerOpen(s, l.c); }
    StaysOpen(s, l, l.c, a);
    DoubtTask(s, l.c);
  }

  lemma AnswerOpen(s: Sys, c: Id)
    requires SysInv(s) && At(s, c, Settle(Doubt))
    ensures s.db.actions[c].status == Inflight
  {
    hide LedgerInv, GateInv, ReadyInv, CallInv, StartInv, SteerRows, SteerOnce;
  }

  lemma DoubtTask(s: Sys, c: Id)
    requires s.running && At(s, c, Settle(Doubt))
    ensures Undecided(Do(s, Commit(c, true)).tasks, c)
  {
    hide FinishResponse, FinishSteer, MarkStarted, ObserveRefused, MarkUnknown, SetAction;
  }

  /** A completed attempt in the slot has an answer that will not be resolved. */
  ghost predicate Doubts(s: Sys) {
    forall k :: k in s.db.events && Completes(s.db.events[k]) && Held(s.db, s.db.events[k]) ==>
      Doubted(s, s.db.events[k].attempt.value)
  }

  predicate Held(db: Ledger, e: Event)
    requires Completes(e)
  {
    e.attempt.value in db.attempts && Live(db.attempts[e.attempt.value].phase)
  }

  lemma NewEndFree(o: Ledger, n: Ledger, a: Id, e: Event)
    requires TellsFair(o, n, a, e) && Completes(e)
    ensures !Held(n, e)
  {
    hide Over, KeyTaken;
  }

  lemma DoubtsStep(s: Sys, l: Label)
    requires SysInv(s) && EndsStand(s.db) && Doubts(s)
    ensures Doubts(Do(s, l))
  {
    hide SysInv, Do, TellsFair, Doubted, Begun, NewestWord, Over, Reviving;
    var n := Do(s, l).db;
    forall k | k in n.events && Completes(n.events[k]) && Held(n, n.events[k])
      ensures Doubted(Do(s, l), n.events[k].attempt.value)
    {
      var a := n.events[k].attempt.value;
      NewTold(s, l, k);
      if k in s.db.events && s.db.events[k] == n.events[k] {
        if Live(s.db.attempts[a].phase) {
          DoubtedStep(s, l, a);
        } else {
          EndedStep(s, l, a);
          RevivedDoubted(s, l, a);
        }
      } else {
        var x :| TellsFair(s.db, n, x, n.events[k]);
        NewEndFree(s.db, n, x, n.events[k]);
      }
    }
  }

  // -------------------------------------------------------------------- runs

  lemma TelltalesStep(s: Sys, l: Label)
    requires SysInv(s) && Sound(s.db) && Telltales(s.db)
    ensures Telltales(Do(s, l).db) && AssistantsKept(s.db.messages, Do(s, l).db.messages)
  {
    hide SysInv, Do, Sound, Indexed, WaitsBegun, EndsStand, ArchivedEnds, AssistantsKept;
    IndexedStep(s, l);
    WaitsStep(s, l);
    EndsStep(s, l);
    ArchivedStep(s, l);
  }

  lemma {:induction false} TelltalesRun(s: Sys, run: seq<Label>)
    requires SysInv(s) && Sound(s.db) && Telltales(s.db) && Doubts(s)
    ensures var t := After(s, run); Telltales(t.db) && Doubts(t) && AssistantsKept(s.db.messages, t.db.messages)
    decreases |run|
  {
    hide SysInv, Do, Sound, Doubts, Indexed, WaitsBegun, EndsStand, ArchivedEnds;
    if run != [] {
      var before := run[..|run| - 1];
      TelltalesRun(s, before);
      AfterKeeps(s, before);
      RunMeters(s, before);
      TelltalesStep(After(s, before), run[|run| - 1]);
      DoubtsStep(After(s, before), run[|run| - 1]);
    }
  }

  lemma ReachableTelltales(s: Sys)
    requires Reachable(s)
    ensures Telltales(s.db) && Doubts(s)
  {
    hide After, SysInv, Sound, Telltales, Doubts, Initial;
    var epoch, registry, run :| s == After(Initial(epoch, registry), run);
    StartSafe(epoch, registry);
    StartTelltales(epoch, registry);
    TelltalesRun(Initial(epoch, registry), run);
  }

  lemma StartTelltales(epoch: int, registry: int)
    ensures var s := Initial(epoch, registry); Telltales(s.db) && Doubts(s) && Sound(s.db)
  {
  }

  // ---------------------------------------------------------------- theorems

  /** In every reachable state the message an attempt's row names is its newest
      assistant message, and an attempt without one has said nothing. */
  lemma SaidIsNewest(s: Sys, a: Id, m: Id)
    requires Reachable(s) && a in s.db.attempts && m in s.db.messages
    requires !s.db.messages[m].user && s.db.messages[m].attempt == Some(a)
    ensures var said := s.db.attempts[a].said;
      && said.Some? && said.value.message in s.db.messages
      && s.db.messages[said.value.message].attempt == Some(a) && !s.db.messages[said.value.message].user
      && s.db.messages[said.value.message].text == said.value.text
      && s.db.messages[m].sequence <= s.db.messages[said.value.message].sequence
  {
    hide Reachable, WaitsBegun, EndsStand, ArchivedEnds, Doubts;
    ReachableTelltales(s);
    assert Spoken(s.db, m) && Names(s.db, a);
  }

  /** Assistant messages never change. */
  lemma WordsKept(s: Sys, t: Sys, m: Id)
    requires Reachable(s) && Reaches(s, t) && m in s.db.messages && !s.db.messages[m].user
    ensures m in t.db.messages && t.db.messages[m] == s.db.messages[m]
  {
    hide Reachable, After, SysInv, Sound, Telltales, Doubts;
    ReachableTelltales(s);
    ReachableSound(s);
    var run :| t == After(s, run);
    TelltalesRun(s, run);
  }

  lemma CompletesWhen(db: Ledger, a: Id, m: Option<Id>, usage: Id) returns (k: int)
    requires Recorded(db, a, Key(false, KTerminal), CompletedWith(m, usage))
    ensures k in db.events && Completes(db.events[k]) && db.events[k].attempt == Some(a)
  {
    k :| k in db.events && db.events[k].attempt == Some(a) && db.events[k].key == Some(Key(false, KTerminal))
        && db.events[k].digest == Some(CompletedWith(m, usage));
  }

  /** A completed attempt that is back in the slot has an answer outstanding that will
      never be resolved, so a terminal for it is only ever archived. */
  lemma RevivedUnresolved(s: Sys, a: Id, m: Option<Id>, usage: Id)
    requires Reachable(s) && Recorded(s.db, a, Key(false, KTerminal), CompletedWith(m, usage))
    requires a in s.db.attempts && Live(s.db.attempts[a].phase)
    ensures AnswersUnresolved(s.db, a)
  {
    hide Reachable, Telltales, Recorded;
    ReachableTelltales(s);
    var k := CompletesWhen(s.db, a, m, usage);
    assert Held(s.db, s.db.events[k]);
    var c :| OpenAnswer(s.db.actions, c, a) && Undecided(s.tasks, c);
  }

  /** A started attempt that is back after its completion never leaves the slot again. */
  lemma RevivedStays(s: Sys, t: Sys, a: Id, m: Option<Id>, usage: Id)
    requires Reachable(s) && Reaches(s, t) && Recorded(s.db, a, Key(false, KTerminal), CompletedWith(m, usage))
    requires a in s.db.attempts && Live(s.db.attempts[a].phase) && s.db.attempts[a].started
    ensures t.db.node.active == Some(a) && a in t.db.attempts && t.db.attempts[a].phase == Unknown
  {
    hide Reachable, After, SysInv, Recorded;
    ReachableSafe(s);
    var run :| t == After(s, run);
    EventSteps.RecordedTaken(s.db, a, Key(false, KTerminal), CompletedWith(m, usage));
    StaysRun(s, run, a);
    AfterKeeps(s, run);
    StuckFacts(t, a);
  }

  /** The attempt has a live end on record and is live all the same. */
  ghost predicate Stuck(db: Ledger, a: Id) {
    && a in db.attempts && Live(db.attempts[a].phase) && db.attempts[a].started
    && KeyTaken(db, a, Key(false, KTerminal))
  }

  lemma StuckFacts(s: Sys, a: Id)
    requires SysInv(s) && Stuck(s.db, a)
    ensures s.db.node.active == Some(a) && s.db.attempts[a].phase == Unknown
  {
    hide TaskInv, TombstoneInv, LogInv, RequestRows, OrderInv, AttemptRows, ActionRows, EffectRows, MessageRows,
         AnswerRows, StartRows, PhaseRows, InputRows, RevisionInv, CountInv, SteerInv, HoldInv, TerminalOnce;
    var k :| k in s.db.events && s.db.events[k].attempt == Some(a) && s.db.events[k].key == Some(Key(false, KTerminal));
    assert Marks(s.db.events[k]);
  }

  lemma StuckStep(s: Sys, l: Label, a: Id)
    requires SysInv(s) && Stuck(s.db, a)
    ensures Stuck(Do(s, l).db, a)
  {
    hide SysInv, Do, KeyTaken, Refusing, HistoryKept, Passes;
    StartStays(s, l, a);
    StepPasses(s, l, 0);
    PassesHistory(s.db, Do(s, l).db);
    TakenKept(s.db, Do(s, l).db, a);
    if !Live(Do(s, l).db.attempts[a].phase) {
      EndsOnce(s, l, a);
      RefusedUnstarted(s, l, a);
    }
  }

  lemma TakenKept(o: Ledger, n: Ledger, a: Id)
    requires HistoryKept(o, n) && KeyTaken(o, a, Key(false, KTerminal))
    ensures KeyTaken(n, a, Key(false, KTerminal))
  {
    hide TargetsKept;
    var k :| k in o.events && o.events[k].attempt == Some(a) && o.events[k].key == Some(Key(false, KTerminal));
    assert k in n.events && n.events[k] == o.events[k];
  }

  lemma {:induction false} StaysRun(s: Sys, run: seq<Label>, a: Id)
    requires SysInv(s) && Stuck(s.db, a)
    ensures Stuck(After(s, run).db, a)
    decreases |run|
  {
    hide SysInv, Do, Stuck;
    if run != [] {
      StaysRun(s, run[..|run| - 1], a);
      AfterKeeps(s, run[..|run| - 1]);
      StuckStep(After(s, run[..|run| - 1]), run[|run| - 1], a);
    }
  }
}
