/** A run that brings an ended attempt back: an approval is requested, the attempt
    ends, the approval is answered, and the answer's call comes back in doubt. An
    event archived in between is then projected when it is delivered again; and once
    the attempt has spoken, so is its own completion archived as a new observation. */
module RevivalWitness {
  import opened LedgerTypes
  import opened Transactions
  import opened LedgerInvariant
  import opened Supervisor
  import opened SystemInvariant
  import opened SupervisorTheorems
  import opened EventTheorems
  import Quiescence
  import opened EventTraces
  import opened Redelivery
  import opened Absorption
  import opened FirstAttempt

  const NOTHING := Content(0, 0)
  const TOOL := ToolStarted(50, 60, NOTHING)
  const ASK := ApprovalRequested(51, 50, 60, NOTHING)
  const END := Terminal(Terminates(Completed), NoEffect, None, None, NO_USAGE)
  const SPEECH := Speaks(80, NOTHING)
  const DELTA := Delta(70, 0, NOTHING)
  const RESPOND := ApprovalRespond(51, 40, 1, 1, 60, true)

  const LATE_KEY := Key(true, KDelta(70, 0))
  const LATE_EVENT := AttemptEvent(OtherEvent, FIRST, Some(LATE_KEY), Some(Whole(DELTA)), true)
  const LATE_ROW := LateRow(40, Late, Some(LATE_KEY), Some(Whole(DELTA)), 0)

  // ------------------------------------------------------------- the stages

  /** Attempt 40 is the only one, uncharged, and only these keys are in the log. */
  ghost predicate Stage(db: Ledger, phase: Phase, used: int, keys: set<Key>) {
    && Plain(db, used) && 10 in db.dialogs
    && db.attempts.Keys == {40} && RefOf(db, 40) == FIRST && db.attempts[40].phase == phase
    && db.attempts[40].outputBytes == 0 && db.attempts[40].said.None? && db.messages.Keys == {20}
    && db.node.active == (if phase.Ended? then None else Some(40))
    && db.late == (if LATE_KEY in keys then [LATE_ROW] else [])
    && (forall k :: k in db.events && db.events[k].key.Some? ==> db.events[k].key.value in keys)
    && (LATE_KEY in keys || forall k :: k in db.events ==> db.events[k].digest != Some(Whole(DELTA)))
  }

  ghost predicate OnlyStart(db: Ledger) {
    db.actions.Keys == {40} && db.actions[40].kind == DispatchStart && db.actions[40].status == Acknowledged
  }

  const STARTED := {Key(false, KStarted)}
  const OPENED := STARTED + {Key(false, KToolStarted(50))}
  const ASKED := OPENED + {Key(false, KApproval(51))}
  const ENDED := ASKED + {Key(false, KTerminal)}
  const ARCHIVED := ENDED + {LATE_KEY}

  /** The completion and the event archived after it are in the log. */
  ghost predicate Noted(db: Ledger) {
    Recorded(db, 40, LATE_KEY, Whole(DELTA)) && EndNoted(db)
  }

  ghost predicate EndNoted(db: Ledger) {
    Recorded(db, 40, Key(false, KTerminal), CompletedWith(None, NO_USAGE))
  }

  ghost predicate WithTool(db: Ledger) {
    Stage(db, Running, 2, OPENED) && OnlyStart(db) && db.tools == map[50 := ToolCall(40, 60, 1, ToolRunning)]
        && db.approvals == map[]
  }

  ghost predicate WithApproval(db: Ledger, phase: Phase, keys: set<Key>) {
    && Stage(db, phase, 2, keys) && OnlyStart(db) && db.tools == map[50 := ToolCall(40, 60, 1, ToolRunning)]
    && db.approvals == map[51 := Approval(40, 50, 60, 1, Open)]
  }

  ghost predicate Answering(db: Ledger, status: ActionStatus) {
    && Stage(db, Ended(Completed), 3, ARCHIVED) && db.actions.Keys == {40, 3} && db.actions[40].status == Acknowledged
    && db.actions[3].kind == AnswerApproval && db.actions[3].ref == FIRST && db.actions[3].status == status
    && Noted(db)
  }

  lemma NothingArchived(a: Id)
    ensures ArchivedBytes([], a) == 0 && ArchivedBytes([LATE_ROW], a) == 0
  {
    assert [LATE_ROW][..0] == [];
  }

  lemma Untaken(db: Ledger, phase: Phase, used: int, keys: set<Key>, key: Key, digest: Digest)
    requires Stage(db, phase, used, keys) && key !in keys
    ensures !KeyTaken(db, 40, key) && !Recorded(db, 40, key, digest)
  {
  }

  // -------------------------------------------------------------- deliveries

  lemma ServingStage(db: Ledger)
    requires Serving(db, Running, Acknowledged)
    ensures Stage(db, Running, 2, STARTED) && OnlyStart(db) && db.tools == map[] && db.approvals == map[]
  {
  }

  /** A projection for an uncharged attempt. */
  lemma Projected(db: Ledger, phase: Phase, used: int, keys: set<Key>, e: AdapterEvent)
    requires Stage(db, phase, used, keys) && WellBound(db, 40, e) && BytesOf(e) == 0
    requires Key(false, BaseOf(e, db.attempts[40].version)) !in keys
    ensures var w := WriteRows(db, FIRST, e, false, 0);
      w.Ok? ==>
        ProjectContent(db, FIRST, e, true, 0, 0) ==
        Ok(Project(w.value, FIRST, KindOf(e), Key(false, BaseOf(e, db.attempts[40].version)), Whole(e)))
  {
    hide WellBound, WriteRows, Project, BaseOf, KindOf, ArchivedBytes, KeyTaken, Recorded, ScheduleStop, BytesOf;
    Untaken(db, phase, used, keys, Key(false, BaseOf(e, db.attempts[40].version)), Whole(e));
    NothingArchived(40);
    var row := db.attempts[40];
    assert PutAttempt(db, 40, row.(outputBytes := 0)) == db;
  }

  lemma StageProject(db: Ledger, phase: Phase, keys: set<Key>, kind: EventKind, key: Key, digest: Digest)
    requires Stage(db, phase, 2, keys) && key != LATE_KEY && digest != Whole(DELTA)
    ensures var n := Project(db, FIRST, kind, key, digest);
      Stage(n, phase, 2, keys + {key}) && n.actions == db.actions && n.tools == db.tools && n.approvals == db.approvals
  {
  }

  lemma SlotObserves(db: Ledger, phase: Phase, keys: set<Key>, e: AdapterEvent)
    requires Stage(db, phase, 2, keys) && phase in {Running, Waiting}
    ensures Observe(db, FIRST, e, true, 0, 0) == ProjectEvent(db, FIRST, e, true, 0, 0)
  {
    hide ProjectEvent, Archive;
  }

  lemma ToolOpens(db: Ledger)
    requires Serving(db, Running, Acknowledged)
    ensures var r := Observe(db, FIRST, TOOL, true, 0, 0); r.Ok? && WithTool(r.value)
  {
    hide Serving, Stage, Observe, ProjectContent, Project, OnlyStart;
    ServingStage(db);
    SlotObserves(db, Running, STARTED, TOOL);
    assert 40 in db.attempts by { StageAttempt(db, Running, STARTED); }
    Projected(db, Running, 2, STARTED, TOOL);
    var d1 := PutTool(db, 50, ToolCall(40, 60, 1, ToolRunning));
    StageTool(db, d1);
    StageProject(d1, Running, STARTED, OtherEvent, Key(false, KToolStarted(50)), Whole(TOOL));
    SameStart(db, Project(d1, FIRST, OtherEvent, Key(false, KToolStarted(50)), Whole(TOOL)));
  }

  lemma StageAttempt(db: Ledger, phase: Phase, keys: set<Key>)
    requires Stage(db, phase, 2, keys)
    ensures 40 in db.attempts && db.attempts[40].said.None?
  {
  }

  lemma StageTool(db: Ledger, n: Ledger)
    requires Stage(db, Running, 2, STARTED) && n == db.(tools := n.tools)
    ensures Stage(n, Running, 2, STARTED)
  {
  }

  lemma SameStart(o: Ledger, n: Ledger)
    requires OnlyStart(o) && n.actions == o.actions
    ensures OnlyStart(n)
  {
  }

  lemma Suspends(db: Ledger)
    requires WithTool(db)
    ensures var w := WriteRows(db, FIRST, ASK, false, 0);
      w.Ok? && WithApproval(w.value, Waiting, OPENED)
  {
  }

  lemma Asks(db: Ledger)
    requires WithTool(db)
    ensures var r := Observe(db, FIRST, ASK, true, 0, 0); r.Ok? && WithApproval(r.value, Waiting, ASKED)
  {
    hide Stage, Observe, ProjectContent, Project, WriteRows, OnlyStart;
    SlotObserves(db, Running, OPENED, ASK);
    StageAttempt(db, Running, OPENED);
    Projected(db, Running, 2, OPENED, ASK);
    Suspends(db);
    var w := WriteRows(db, FIRST, ASK, false, 0).value;
    StageProject(w, Waiting, OPENED, OtherEvent, Key(false, KApproval(51)), Whole(ASK));
    SameStart(w, Project(w, FIRST, OtherEvent, Key(false, KApproval(51)), Whole(ASK)));
  }

  lemma NobodyAnswers(db: Ledger)
    requires OnlyStart(db)
    ensures !AnswersUnresolved(db, 40)
  {
  }

  lemma EndedStage(db: Ledger)
    requires WithApproval(db, Waiting, ASKED)
    ensures 40 in db.attempts && WithApproval(EndAttempt(db, FIRST, Completed, NoEffect), Ended(Completed), ASKED)
  {
    hide Bump;
  }

  lemma ReadyStage(db: Ledger, reasons: set<Reason>, readiness: Readiness)
    requires WithApproval(db, Ended(Completed), ASKED)
    ensures WithApproval(db.(node := db.node.(reasons := reasons, readiness := readiness)), Ended(Completed), ASKED)
  {
  }

  lemma ConcludedStage(db: Ledger)
    requires WithApproval(db, Waiting, ASKED)
    ensures 40 in db.attempts && WithApproval(Conclude(db, FIRST, END), Ended(Completed), ASKED)
  {
    hide EndAttempt, WithApproval;
    EndedStage(db);
    var d := EndAttempt(db, FIRST, Completed, NoEffect);
    var reasons := d.node.reasons - {ExecutionUnknown};
    ReadyStage(d, reasons, if reasons == {} then IsReady else IsBlocked);
  }

  lemma AnnouncedStage(db: Ledger)
    requires WithApproval(db, Ended(Completed), ENDED)
    ensures WithApproval(Announce(db), Ended(Completed), ENDED)
  {
  }

  lemma Ends(db: Ledger)
    requires WithApproval(db, Waiting, ASKED)
    ensures var r := Observe(db, FIRST, END, true, 0, 0);
      r.Ok? && WithApproval(r.value, Ended(Completed), ENDED) && EndNoted(r.value)
  {
    hide Stage, Observe, Project, OnlyStart, AnswersUnresolved, KeyTaken, Recorded, Conclude, Announce;
    SlotObserves(db, Waiting, ASKED, END);
    StageAttempt(db, Waiting, ASKED);
    NobodyAnswers(db);
    var digest := CompletedWith(None, NO_USAGE);
    Untaken(db, Waiting, 2, ASKED, Key(false, KTerminal), digest);
    ConcludedStage(db);
    var d := Conclude(db, FIRST, END);
    StageProject(d, Ended(Completed), ASKED, OtherEvent, Key(false, KTerminal), digest);
    SameStart(d, Project(d, FIRST, OtherEvent, Key(false, KTerminal), digest));
    AnnouncedStage(Project(d, FIRST, OtherEvent, Key(false, KTerminal), digest));
    NotedTwice(d, FIRST, digest);
  }

  lemma Unseen(db: Ledger)
    requires Stage(db, Ended(Completed), 2, ENDED)
    ensures !DigestRecorded(db, 40, Whole(DELTA))
  {
  }

  lemma ArchiveResult(db: Ledger)
    requires WithApproval(db, Ended(Completed), ENDED)
    ensures Observe(db, FIRST, DELTA, true, 0, 0) == Ok(Append(db, LATE_EVENT).(late := [LATE_ROW]))
  {
    hide ProjectEvent, ArchivedBytes, OnlyStart, KeyTaken, DigestRecorded;
    Untaken(db, Ended(Completed), 2, ENDED, LATE_KEY, Whole(DELTA));
    Untaken(db, Ended(Completed), 2, ENDED, Key(false, KDelta(70, 0)), Whole(DELTA));
    NothingArchived(40);
    Unseen(db);
    assert Append(db, LATE_EVENT).late + [LATE_ROW] == [LATE_ROW];
  }

  lemma ArchivedStage(db: Ledger)
    requires WithApproval(db, Ended(Completed), ENDED) && EndNoted(db) && LogInv(db.events, db.node.lastSeq)
    ensures var n := Append(db, LATE_EVENT).(late := [LATE_ROW]);
      WithApproval(n, Ended(Completed), ARCHIVED) && Noted(n)
  {
    var n := Append(db, LATE_EVENT).(late := [LATE_ROW]);
    assert n.events[db.node.lastSeq + 1] == LATE_EVENT;
    var k :| k in db.events && db.events[k].attempt == Some(40) && db.events[k].key == Some(Key(false, KTerminal))
        && db.events[k].digest == Some(CompletedWith(None, NO_USAGE));
    assert k in n.events && n.events[k] == db.events[k];
  }

  lemma Archives(db: Ledger)
    requires WithApproval(db, Ended(Completed), ENDED) && EndNoted(db) && LogInv(db.events, db.node.lastSeq)
    ensures var r := Observe(db, FIRST, DELTA, true, 0, 0);
      r.Ok? && WithApproval(r.value, Ended(Completed), ARCHIVED) && Noted(r.value)
  {
    hide Observe, WithApproval, Append, Recorded;
    ArchiveResult(db);
    ArchivedStage(db);
  }

  // ---------------------------------------------------------------- answer

  lemma SameRecord(o: Ledger, n: Ledger)
    requires n.events == o.events
    ensures Noted(n) == Noted(o)
  {
  }

  lemma Responds(db: Ledger)
    requires WithApproval(db, Ended(Completed), ARCHIVED) && Noted(db)
    ensures Answering(Submit(db, 3, RESPOND, 0, 0, true, 0).0, Pending)
  {
    hide Submit, Noted;
    Executes(db, 2, RESPOND, 0, 0);
    SameRecord(db, Execute(db, 3, RESPOND, 0, 0).value.0);
  }

  lemma ClaimsAnswer(db: Ledger)
    requires Answering(db, Pending)
    ensures ClaimedNext(db, 3) && Answering(SetAction(db, 3, Pending, Inflight), Inflight)
  {
    hide Noted;
    SameRecord(db, SetAction(db, 3, Pending, Inflight));
  }

  // ---------------------------------------------------------------- the run

  lemma ReachedEnd(s: Sys) returns (t: Sys)
    requires Reached(s) && s.running && s.tasks == map[40 := GaveIn] && Serving(s.db, Running, Acknowledged)
    ensures Reached(t) && t.running && t.tasks == map[40 := GaveIn] && WithApproval(t.db, Ended(Completed), ENDED)
    ensures EndNoted(t.db)
  {
    hide Reached, Observe, Serving, WithTool, WithApproval, EndNoted;
    ToolOpens(s.db);
    t := ReachedDelivery(s, TOOL);
    Asks(t.db);
    t := ReachedDelivery(t, ASK);
    Ends(t.db);
    t := ReachedDelivery(t, END);
  }

  lemma ReachedDelivery(s: Sys, e: AdapterEvent) returns (t: Sys)
    requires Reached(s) && s.running && s.tasks == map[40 := GaveIn] && Observe(s.db, FIRST, e, true, 0, 0).Ok?
    ensures Reached(t) && t.running && t.tasks == map[40 := GaveIn] && t.db == Observe(s.db, FIRST, e, true, 0, 0).value
    ensures t == Do(s, Deliver(FIRST, e, true, 0, 0))
  {
    hide Reached, Observe;
    ReachedNext(s, Deliver(FIRST, e, true, 0, 0));
    t := Do(s, Deliver(FIRST, e, true, 0, 0));
  }

  lemma ReachedResponse(s: Sys) returns (t: Sys)
    requires Reached(s) && s.running && s.tasks == map[40 := GaveIn] && WithApproval(s.db, Ended(Completed), ENDED)
    requires EndNoted(s.db)
    ensures Reached(t) && t.running && t.tasks == map[40 := GaveIn] && Answering(t.db, Pending)
  {
    hide Reached, Observe, WithApproval, Answering, Submit, EndNoted, Noted, LogInv;
    ReachedLog(s);
    Archives(s.db);
    t := ReachedDelivery(s, DELTA);
    Responds(t.db);
    ReachedNext(t, Submits(3, RESPOND, 0, 0, true, 0));
    t := Do(t, Submits(3, RESPOND, 0, 0, true, 0));
  }

  lemma ReachedLog(s: Sys)
    requires Reached(s)
    ensures LogInv(s.db.events, s.db.node.lastSeq)
  {
    hide LogInv, SysInv, Reached, Reachable, Core;
    ReachedReachable(s);
    ReachableSafe(s);
    SysCore(s);
    Quiescence.CoreLog(s.db);
  }

  lemma ReachedAsked(s: Sys) returns (t: Sys)
    requires Reached(s) && s.running && s.tasks == map[40 := GaveIn] && Answering(s.db, Pending)
    ensures Reached(t) && t.running && t.tasks == map[40 := GaveIn, 3 := Called] && Answering(t.db, Inflight)
  {
    hide Reached, ClaimedNext, SetAction, Noted, Stage;
    ClaimsAnswer(s.db);
    ReachedNext(s, Claim(3));
    t := Do(s, Claim(3));
  }

  lemma ReachedDoubt(s: Sys) returns (t: Sys)
    requires Reached(s) && s.running && s.tasks == map[40 := GaveIn, 3 := Called] && Answering(s.db, Inflight)
    ensures Reached(t) && t.running && t.tasks == map[40 := GaveIn, 3 := Settle(Doubt)] && Answering(t.db, Inflight)
  {
    hide Reached, Noted, Stage;
    ReachedNext(s, Return(3, Doubt));
    t := Do(s, Return(3, Doubt));
  }

  lemma AboutToRevive(s: Sys)
    requires s.running && s.tasks == map[40 := GaveIn, 3 := Settle(Doubt)] && Answering(s.db, Inflight)
    ensures Reviving(s, Commit(3, true), 40) && 40 in s.db.attempts && s.db.attempts[40].phase == Ended(Completed)
  {
    hide Noted;
  }

  lemma ReachedReachable(s: Sys)
    requires Reached(s)
    ensures Reachable(s)
  {
    hide Initial, After;
    var run :| s == After(Initial(0, 0), run);
  }

  /** The state before the commit that brings attempt 40 back. */
  lemma ReachedBrink() returns (s: Sys)
    ensures Reached(s) && s.running && s.tasks == map[40 := GaveIn, 3 := Settle(Doubt)] && Answering(s.db, Inflight)
  {
    hide Do, Initial, After, Serving, Answering, WithApproval, Reached, EndNoted;
    s := ReachedService();
    s := ReachedEnd(s);
    s := ReachedResponse(s);
    s := ReachedAsked(s);
    s := ReachedDoubt(s);
  }

  /** Some run brings an attempt that had completed back into the slot. */
  lemma EndedCanRevive()
    ensures exists s: Sys, l: Label, a: Id ::
      && Reachable(s) && a in s.db.attempts
      && s.db.attempts[a].phase == Ended(Completed) && !KeepsPhase(s, l, a)
  {
    hide Do, Answering, Reached, Reachable, KeepsPhase, Reviving;
    var s := ReachedBrink();
    ReachedReachable(s);
    AboutToRevive(s);
    EndedAbsorbing(s, Commit(3, true), 40);
  }

  // ---------------------------------------------------- an archived event again

  lemma RevivedRows(db: Ledger)
    requires Stage(db, Ended(Completed), 3, ARCHIVED)
    ensures 40 in db.attempts && Stage(Seize(db, FIRST, UnknownEffect), Unknown, 3, ARCHIVED)
  {
    hide Bump;
  }

  lemma StageNoted(db: Ledger, node: NodeState, e: Event)
    requires Stage(db, Unknown, 3, ARCHIVED) && node.active == db.node.active && node.paused == db.node.paused
    requires e.key.None?
    ensures Stage(db.(node := node), Unknown, 3, ARCHIVED) && Stage(Append(db, e), Unknown, 3, ARCHIVED)
  {
  }

  lemma RevivedStage(db: Ledger)
    requires Stage(db, Ended(Completed), 3, ARCHIVED)
    ensures var r := SetUnknown(db, FIRST, UnknownEffect); r.Ok? && Stage(r.value, Unknown, 3, ARCHIVED)
  {
    hide Stage, Seize, Append;
    assert 40 in db.attempts && db.attempts.Keys == {40} && RefOf(db, 40) == FIRST
        && db.attempts[40].phase == Ended(Completed) by { StageRow(db); }
    RevivedRows(db);
    var d1 := Seize(db, FIRST, UnknownEffect);
    var e1 := AttemptEvent(OtherEvent, FIRST, None, None, false);
    var e2 := Event(StateChanged, None, None, None, None, false);
    var node := d1.node.(readiness := IsUnknown, reasons := d1.node.reasons + {ExecutionUnknown});
    var d2 := Tick(d1.(node := node), false);
    StageNoted(d1, d2.node, e1);
    StageNoted(d2, d2.node, e1);
    var d3 := Append(d2, e1);
    StageNoted(d3, d2.node.(active := d3.node.active, paused := d3.node.paused), e2);
  }

  lemma StageRow(db: Ledger)
    requires Stage(db, Ended(Completed), 3, ARCHIVED)
    ensures 40 in db.attempts && db.attempts.Keys == {40} && RefOf(db, 40) == FIRST
    ensures db.attempts[40].phase == Ended(Completed)
  {
  }

  lemma StageApproval(db: Ledger, p: Id, row: Approval)
    requires Stage(db, Ended(Completed), 3, ARCHIVED)
    ensures Stage(PutApproval(db, p, row), Ended(Completed), 3, ARCHIVED)
  {
  }

  lemma AnswerRevives(db: Ledger)
    requires Answering(db, Inflight)
    ensures var r := FinishResponse(db, db.actions[3], Doubt); r.Ok? && Stage(r.value, Unknown, 3, ARCHIVED)
  {
    hide Stage, SetUnknown, PutApproval, Noted;
    forall p, row ensures Stage(PutApproval(db, p, row), Ended(Completed), 3, ARCHIVED) { StageApproval(db, p, row); }
    RevivedStage(Answer(db, db.actions[3], Doubtful));
  }

  lemma ReachedRevival(s: Sys) returns (t: Sys)
    requires Reached(s) && s.running && s.tasks == map[40 := GaveIn, 3 := Settle(Doubt)] && Answering(s.db, Inflight)
    ensures Reached(t) && t == Do(s, Commit(3, true)) && Stage(t.db, Unknown, 3, ARCHIVED) && t.running
  {
    hide Do, Reached, FinishResponse, Noted, Stage;
    AnswerRevives(s.db);
    DoubtCommit(s, 3);
    ReachedNext(s, Commit(3, true));
    t := Do(s, Commit(3, true));
    assert t.running by { CommitRuns(s, 3); }
  }

  lemma CommitRuns(s: Sys, c: Id)
    requires s.running
    ensures Do(s, Commit(c, true)).running
  {
    hide MarkStarted, ObserveRefused, MarkUnknown, FinishSteer, FinishResponse, SetAction;
  }

  lemma DeltaProjects(db: Ledger)
    requires Stage(db, Unknown, 3, ARCHIVED)
    ensures Holder(db, FIRST) && Projects(db, FIRST, DELTA, true)
  {
    hide ArchivedBytes, KeyTaken;
    NothingArchived(40);
    Untaken(db, Unknown, 3, ARCHIVED, Key(false, KDelta(70, 0)), Whole(DELTA));
  }

  /** Some run projects an event that it had archived before: after the revival of
      its attempt the archived record does not stop the delivery. */
  lemma ArchivedCanReturn()
    ensures exists s, t, e: AdapterEvent ::
      && Reachable(s) && Recorded(s.db, FIRST.attempt, Key(true, BaseOf(e, 0)), Whole(e)) && Reaches(s, t)
      && Commits(t.db, Observe(t.db, FIRST, e, true, 0, 0)) != t.db
  {
    hide Do, Answering, Reached, Reachable, Recorded, Observe, Projects, Holder, Stage, Reaches;
    var s := ReachedBrink();
    var t := ReachedRevival(s);
    ReachedReachable(s);
    assert Recorded(s.db, 40, LATE_KEY, Whole(DELTA)) by { AnsweringRecord(s.db); }
    assert Reaches(s, t) by { OneStep(s, Commit(3, true)); }
    DeltaProjects(t.db);
    ArchivedRedelivery(s, t, FIRST, DELTA, 0, true, 0, 0);
  }

  lemma AnsweringRecord(db: Ledger)
    requires Answering(db, Inflight)
    ensures Noted(db)
  {
    hide Noted;
  }

  // -------------------------------------------------------- a completion again

  /** Attempt 40 has spoken after it came back. */
  ghost predicate Spoke(db: Ledger) {
    && Holder(db, FIRST) && NewestWord(db, 40) == Some(80)
    && db.attempts[40].outputBytes == 0 && db.late == [LATE_ROW]
    && (forall k :: k in db.events && db.events[k].key.Some? ==>
          db.events[k].key.value in ARCHIVED + {Key(false, KMessage(80))})
  }

  lemma Speaking(db: Ledger)
    requires Stage(db, Unknown, 3, ARCHIVED)
    ensures var r := Observe(db, FIRST, SPEECH, true, 0, 0); r.Ok? && Spoke(r.value)
  {
    hide ProjectContent, ProjectTerminal, Archive, ArchivedBytes, Speak, Project, Holder;
    assert 40 in db.attempts;
    Projected(db, Unknown, 3, ARCHIVED, SPEECH);
    var w := Speak(db, FIRST, 80, 0);
    SpeakRows(db, FIRST, 80, 0);
    SpokenLog(db, w, Project(w, FIRST, OtherEvent, Key(false, KMessage(80)), Whole(SPEECH)));
  }

  lemma SpokenLog(db: Ledger, w: Ledger, n: Ledger)
    requires Stage(db, Unknown, 3, ARCHIVED) && w == Speak(db, FIRST, 80, 0)
    requires n == Project(w, FIRST, OtherEvent, Key(false, KMessage(80)), Whole(SPEECH))
    ensures Spoke(n)
  {
  }

  lemma EndResurfaces(db: Ledger)
    requires Spoke(db)
    ensures Resurfaces(db, FIRST, END, None, true)
  {
    hide ArchivedBytes;
    NothingArchived(40);
  }

  lemma ReachedSpeech(t: Sys) returns (u: Sys)
    requires Reached(t) && t.running && Stage(t.db, Unknown, 3, ARCHIVED)
    ensures Reached(u) && u == Do(t, Deliver(FIRST, SPEECH, true, 0, 0)) && Spoke(u.db)
  {
    hide Reached, Observe, Stage, Spoke;
    Speaking(t.db);
    ReachedNext(t, Deliver(FIRST, SPEECH, true, 0, 0));
    u := Do(t, Deliver(FIRST, SPEECH, true, 0, 0));
  }

  /** Some run archives, as a new observation, the completion that it has on record as
      the live end of the attempt: the attempt has come back and spoken in between. */
  lemma RecordedCanReturn()
    ensures exists s, t, e: AdapterEvent ::
      && Reachable(s) && Reaches(s, t) && LiveRecord(s.db, FIRST.attempt, e, 0, None)
      && Commits(t.db, Observe(t.db, FIRST, e, true, 0, 0)) != t.db
  {
    hide Do, Answering, Reached, Reachable, Recorded, Observe, Stage, Reaches, Spoke, Resurfaces;
    var s := ReachedBrink();
    var t := ReachedRevival(s);
    var u := ReachedSpeech(t);
    ReachedReachable(s);
    assert LiveRecord(s.db, 40, END, 0, None) by { AnsweringRecord(s.db); }
    assert Reaches(s, u) by { TwoSteps(s, Commit(3, true), Deliver(FIRST, SPEECH, true, 0, 0)); }
    EndResurfaces(u.db);
    RecordedRedelivery(s, u, FIRST, END, 0, None, true, 0, 0);
  }

  lemma TwoSteps(s: Sys, l: Label, k: Label)
    ensures Reaches(s, Do(Do(s, l), k))
  {
    hide Do;
    assert [l, k][..1] == [l] && [l][..0] == [];
    assert After(s, [l]) == Do(s, l);
    assert After(s, [l, k]) == Do(Do(s, l), k);
  }

  lemma OneStep(s: Sys, l: Label)
    ensures Reaches(s, Do(s, l))
  {
    hide Do;
    assert [l][..0] == [];
    assert After(s, [l]) == Do(s, l);
  }
}
