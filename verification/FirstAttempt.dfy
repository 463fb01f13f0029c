/** The first steps of the witness runs: a fresh volume, a dialog with one message,
    and an attempt that has been started for it. */
module FirstAttempt {
  import opened LedgerTypes
  import opened LedgerTail
  import opened Transactions
  import opened Supervisor

  // ------------------------------------------------- the stages of the ledger

  /** No hold or tombstone is in the way, and only ids up to `used` are decided. */
  ghost predicate Plain(db: Ledger, used: int) {
    && db.holds == map[] && db.tombstones == {} && db.rejections == map[] && !db.node.paused
    && (forall i :: i in db.commands ==> i <= used)
  }

  /** Nothing has been observed: no late row, tool call, approval, message or charge. */
  ghost predicate Unobserved(db: Ledger) {
    && db.late == [] && db.tools == map[] && db.approvals == map[]
    && (forall a :: a in db.attempts ==> db.attempts[a].outputBytes == 0 && db.attempts[a].said.None?)
    && (forall k :: k in db.events ==>
         db.events[k].key in {None, Some(Key(false, KStarted))} && db.events[k].digest in {None, Some(Whole(Started))})
  }

  ghost predicate Founded(db: Ledger) {
    && Plain(db, 1) && Unobserved(db) && db.messages == map[] && db.requests == map[] && db.attempts == map[]
    && db.actions == map[] && db.events.Keys == {1}
    && 10 in db.dialogs && db.dialogs[10].version == 1 && db.events[1].key.None?
    && db.node.active.None? && db.node.pending == 0 && db.node.stateVersion == 1 && db.node.nextQueue == 1
    && db.node.lastSeq == 1
  }

  ghost predicate Enqueued(db: Ledger) {
    EnqueuedAt(db, 2, 2)
  }

  ghost predicate EnqueuedAt(db: Ledger, used: int, version: int) {
    && Plain(db, used) && Unobserved(db) && db.messages.Keys == {20} && db.requests.Keys == {30}
    && db.attempts == map[] && db.actions == map[]
    && 10 in db.dialogs && db.dialogs[10].version == 2 && (forall k :: k in db.events ==> db.events[k].key.None?)
    && db.requests[30].dialog == 10 && db.requests[30].input == 20 && db.requests[30].queueSequence == 1
    && db.requests[30].status == Queued
    && db.node.active.None? && db.node.pending == 1 && db.node.stateVersion == version
  }

  const FIRST := AttemptRef(10, 30, 40, 1)

  ghost predicate Serving(db: Ledger, phase: Phase, status: ActionStatus) {
    && Plain(db, 2) && Unobserved(db) && db.messages.Keys == {20} && db.requests.Keys == {30}
    && db.attempts.Keys == {40} && db.actions.Keys == {40}
    && 10 in db.dialogs && db.dialogs[10].version == 2
    && db.actions[40].kind == DispatchStart && db.actions[40].ref == FIRST && db.actions[40].status == status
    && db.actions[40].proof == None && db.requests[30].input == 20
    && (phase == Dispatching ==> !db.attempts[40].started)
    && RefOf(db, 40) == FIRST && db.attempts[40].phase == phase
    && db.node.active == Some(40) && db.node.pending == 0
    && (phase == Dispatching ==> forall k :: k in db.events ==> db.events[k].key.None?)
  }

  // -------------------------------------------------------------- commands

  /** With nothing in the way a fresh command is executed. */
  lemma Executes(db: Ledger, used: int, c: Command, x: Id, y: Id)
    requires Plain(db, used) && Authorized(db, c) && !c.DialogDelete? && Execute(db, used + 1, c, x, y).Ok?
    ensures Submit(db, used + 1, c, x, y, true, 0).0 == Execute(db, used + 1, c, x, y).value.0
  {
    hide Execute, Authorized;
  }

  lemma Founds()
    ensures var t := Do(Initial(0, 0), Submits(1, DialogCreate(0), 10, 0, true, 0));
      t.running && t.tasks == map[] && t.gate == None && Founded(t.db)
  {
    hide Founded, Submit, Execute;
    var db := Initial(0, 0).db;
    FoundsFirst(db);
    Executes(db, 0, DialogCreate(0), 10, 0);
  }

  lemma FoundsFirst(db: Ledger)
    requires db == Initial(0, 0).db
    ensures Plain(db, 0) && Execute(db, 1, DialogCreate(0), 10, 0).Ok?
    ensures Founded(Execute(db, 1, DialogCreate(0), 10, 0).value.0)
  {
  }

  lemma Enqueues(db: Ledger)
    requires Founded(db)
    ensures Enqueued(Submit(db, 2, MessageEnqueue(10, 1, 0), 20, 30, true, 0).0)
  {
    hide Submit, Execute, Enqueued;
    EnqueuesFirst(db);
    Executes(db, 1, MessageEnqueue(10, 1, 0), 20, 30);
  }

  lemma EnqueuedRows(db: Ledger)
    requires Founded(db)
    ensures EnqueuedAt(Enqueue(db, 10, 20, 30, 0), 1, 1)
  {
    hide Bump;
  }

  lemma EnqueuedNext(db: Ledger, version: int, e: Event)
    requires EnqueuedAt(db, 1, version) && e.key.None? && e.digest.None?
    ensures EnqueuedAt(Tick(db, true), 1, version + 1) && EnqueuedAt(Append(db, e), 1, version)
  {
  }

  lemma EnqueuedRecorded(db: Ledger, outcome: Outcome)
    requires EnqueuedAt(db, 1, 2)
    ensures Enqueued(db.(commands := db.commands[2 := outcome]))
  {
  }

  /** The ledger after the handler of the first message. */
  function WithMessage(db: Ledger): Ledger
    requires 10 in db.dialogs
  {
    var d1 := Append(Tick(Enqueue(db, 10, 20, 30, 0), true), Event(MessageAccepted(10), None, None, None, None, false));
    Announce(Announce(d1))
  }

  lemma ApplyEnqueue(db: Ledger)
    requires Founded(db)
    ensures Apply(db, MessageEnqueue(10, 1, 0), 20, 30) == Ok(Change(WithMessage(db), Some(10), 30, None))
  {
    hide Enqueue, Tick, Append, Announce;
  }

  lemma HandledMessage(db: Ledger)
    requires Founded(db)
    ensures EnqueuedAt(WithMessage(db), 1, 2)
  {
    hide Enqueue, Tick, Append, EnqueuedAt, Founded;
    assert 10 in db.dialogs by { FoundedDialog(db); }
    var accepted := Event(MessageAccepted(10), None, None, None, None, false);
    var changed := Event(StateChanged, None, None, None, None, false);
    EnqueuedRows(db);
    EnqueuedNext(Enqueue(db, 10, 20, 30, 0), 1, accepted);
    var d1 := Tick(Enqueue(db, 10, 20, 30, 0), true);
    EnqueuedNext(d1, 2, accepted);
    EnqueuedNext(Append(d1, accepted), 2, changed);
    EnqueuedNext(Append(Append(d1, accepted), changed), 2, changed);
  }

  lemma FoundedDialog(db: Ledger)
    requires Founded(db)
    ensures 10 in db.dialogs && Authorized(db, MessageEnqueue(10, 1, 0))
  {
  }

  lemma EnqueuesFirst(db: Ledger)
    requires Founded(db)
    ensures Execute(db, 2, MessageEnqueue(10, 1, 0), 20, 30).Ok?
    ensures Enqueued(Execute(db, 2, MessageEnqueue(10, 1, 0), 20, 30).value.0)
    ensures Authorized(db, MessageEnqueue(10, 1, 0))
  {
    hide Apply, EnqueuedAt, Enqueued, WithMessage, Founded, Authorized;
    FoundedDialog(db);
    ApplyEnqueue(db);
    HandledMessage(db);
    var d2 := WithMessage(db);
    EnqueuedRecorded(d2, Outcome(MessageEnqueue(10, 1, 0), Receipt(Some(10), 30, d2.node.lastSeq)));
  }

  lemma FirstCandidate(db: Ledger)
    requires Enqueued(db)
    ensures FirstInLine(db, 30) && NextGeneration(db, 20, 1) && !OtherLive(db, 40)
    ensures TailQuery(db, 10, 20, []) && TailOf(db, 10, 20, []) == None
  {
    assert Dispatchable(db, 30);
  }

  lemma Begins(db: Ledger)
    requires Enqueued(db)
    ensures Serving(Begin(db, 30, 40, 1, 0, None), Dispatching, Pending)
  {
    hide Bump;
  }

  lemma ServingNode(db: Ledger, n: Ledger)
    requires Serving(db, Dispatching, Pending)
    requires n == db.(node := n.node) && n.node.paused == db.node.paused && n.node.active == db.node.active
    requires n.node.pending == db.node.pending
    ensures Serving(n, Dispatching, Pending)
  {
  }

  lemma PlainEvent(db: Ledger, e: Event, phase: Phase, status: ActionStatus)
    requires Serving(db, phase, status) && e.key.None? && e.digest.None?
    ensures Serving(Append(db, e), phase, status)
  {
  }

  lemma Notes(d1: Ledger, waited: bool)
    requires Serving(d1, Dispatching, Pending)
    ensures Serving(NoteDispatch(d1, FIRST, 20, waited), Dispatching, Pending)
  {
    hide Serving, Append;
    var d2 := Tick(d1.(node := d1.node.(readiness := IsReady, reasons := d1.node.reasons - {PolicyUnavailable})), true);
    ServingNode(d1, d2);
    var e1 := Event(DispositionChanged(20), None, None, None, None, false);
    PlainEvent(d2, e1, Dispatching, Pending);
    var d3 := if waited then Append(d2, e1) else d2;
    var e2 := AttemptEvent(OtherEvent, FIRST, None, None, false);
    PlainEvent(d3, e2, Dispatching, Pending);
    PlainEvent(Append(d3, e2), Event(StateChanged, None, None, None, None, false), Dispatching, Pending);
    PlainEvent(Announce(Append(d3, e2)), Event(StateChanged, None, None, None, None, false), Dispatching, Pending);
  }

  lemma Dispatches(db: Ledger)
    requires Enqueued(db)
    ensures var r := DispatchNext(db, Candidate(30, 10, 20, 1, 2, 0, []), 40, 1);
      r.Ok? && Serving(r.value, Dispatching, Pending)
  {
    hide Begin, FirstInLine, NextGeneration, OtherLive, Serving, NoteDispatch, TailQuery, TailOf;
    FirstCandidate(db);
    Begins(db);
    Notes(Begin(db, 30, 40, 1, 0, None), db.messages[20].disposition == Waits);
  }

  // ---------------------------------------------------------------- workers

  lemma Claims(db: Ledger)
    requires Serving(db, Dispatching, Pending)
    ensures ClaimedNext(db, 40) && Serving(SetAction(db, 40, Pending, Inflight), Dispatching, Inflight)
  {
  }

  lemma Starts(db: Ledger)
    requires Serving(db, Dispatching, Inflight)
    ensures var r := MarkStarted(db, FIRST); r.Ok? && Serving(r.value, Running, Inflight)
  {
    hide Append, Tick, SetStatus, KeyTaken, Unobserved;
    StartedRows(db);
    var row := Moved(db.attempts[40], Running).(started := true);
    var d1 := SetStatus(PutAttempt(db, 40, row), 30, Active);
    StartedNoted(d1);
    var e := AttemptEvent(OtherEvent, FIRST, Some(Key(false, KStarted)), Some(Whole(Started)), false);
    PlainEvent(Append(Tick(d1, false), e), Event(StateChanged, None, None, None, None, false), Running, Inflight);
  }

  lemma StartedRows(db: Ledger)
    requires Serving(db, Dispatching, Inflight)
    ensures var row := Moved(db.attempts[40], Running).(started := true);
      Serving(SetStatus(PutAttempt(db, 40, row), 30, Active), Running, Inflight)
    ensures !KeyTaken(db, 40, Key(false, KStarted))
  {
    hide Bump;
  }

  lemma StartedNoted(db: Ledger)
    requires Serving(db, Running, Inflight)
    ensures var e := AttemptEvent(OtherEvent, FIRST, Some(Key(false, KStarted)), Some(Whole(Started)), false);
      Serving(Append(Tick(db, false), e), Running, Inflight)
  {
  }

  lemma Finishes(db: Ledger)
    requires Serving(db, Running, Inflight)
    ensures Serving(SetAction(db, 40, Inflight, Acknowledged), Running, Acknowledged)
  {
  }

  // ---------------------------------------------------------------- the run

  ghost predicate Reached(s: Sys) {
    exists run :: s == After(Initial(0, 0), run)
  }

  lemma ReachedNext(s: Sys, l: Label)
    requires Reached(s)
    ensures Reached(Do(s, l))
  {
    hide Do, Initial;
    var run :| s == After(Initial(0, 0), run);
    assert (run + [l])[..|run + [l]| - 1] == run;
    assert Do(s, l) == After(Initial(0, 0), run + [l]);
  }

  lemma ReachedFirst() returns (s: Sys)
    ensures Reached(s) && s.running && s.tasks == map[] && s.gate == None && Serving(s.db, Dispatching, Pending)
  {
    hide Founded, Enqueued, Serving, Submit, DispatchNext, Reached, Initial;
    assert Reached(Initial(0, 0)) by { ReachedStart(); }
    Founds();
    s := Do(Initial(0, 0), Submits(1, DialogCreate(0), 10, 0, true, 0));
    ReachedNext(Initial(0, 0), Submits(1, DialogCreate(0), 10, 0, true, 0));
    Enqueues(s.db);
    ReachedNext(s, Submits(2, MessageEnqueue(10, 1, 0), 20, 30, true, 0));
    s := Do(s, Submits(2, MessageEnqueue(10, 1, 0), 20, 30, true, 0));
    Dispatches(s.db);
    ReachedNext(s, Dispatch(Candidate(30, 10, 20, 1, 2, 0, []), 40, 1));
    s := Do(s, Dispatch(Candidate(30, 10, 20, 1, 2, 0, []), 40, 1));
  }

  lemma ReachedStart()
    ensures Reached(Initial(0, 0))
  {
    assert After(Initial(0, 0), []) == Initial(0, 0);
  }

  lemma ReachedGate(s: Sys) returns (t: Sys)
    requires Reached(s) && s.running && s.tasks == map[] && s.gate == None && Serving(s.db, Dispatching, Pending)
    ensures Reached(t) && t.running && t.tasks == map[40 := Gated] && Serving(t.db, Dispatching, Inflight)
  {
    hide Reached, Unobserved, ClaimedNext, SetAction;
    Claims(s.db);
    ReachedNext(s, Claim(40));
    t := Do(s, Claim(40));
    ReachedNext(t, TakeGate(40));
    t := Do(t, TakeGate(40));
  }

  lemma ReachedCall(s: Sys) returns (t: Sys)
    requires Reached(s) && s.running && s.tasks == map[40 := Gated] && Serving(s.db, Dispatching, Inflight)
    ensures Reached(t) && t.running && HasInput(t.db, 40) && t.tasks == map[40 := Ready(BriefOf(t.db, 40))]
    ensures Serving(t.db, Dispatching, Inflight)
  {
    hide Reached, Unobserved;
    ReachedNext(s, Authenticate(40, true, true));
    t := Do(s, Authenticate(40, true, true));
    ReachedNext(t, ReadAttempt(40));
    t := Do(t, ReadAttempt(40));
  }

  /** The recheck of a dispatch without a proof passes none. */
  lemma NoTail(db: Ledger, action: Action, message: Id)
    requires action.proof == None
    ensures Rechecked(db, action, message, [], true) == None
  {
    hide TailOf;
  }

  lemma ReachedVetted(s: Sys) returns (t: Sys)
    requires Reached(s) && s.running && HasInput(s.db, 40) && s.tasks == map[40 := Ready(BriefOf(s.db, 40))]
    requires Serving(s.db, Dispatching, Inflight)
    ensures Reached(t) && t.running && HasInput(t.db, 40) && t.tasks == map[40 := Vetted(BriefOf(t.db, 40), None)]
    ensures Serving(t.db, Dispatching, Inflight)
  {
    hide Reached, Unobserved, Rechecked;
    NoTail(s.db, s.db.actions[40], BriefOf(s.db, 40).context.message);
    ReachedNext(s, Recheck(40, [], true));
    t := Do(s, Recheck(40, [], true));
  }

  lemma ReachedIssue(s: Sys) returns (t: Sys)
    requires Reached(s) && s.running && HasInput(s.db, 40) && s.tasks == map[40 := Vetted(BriefOf(s.db, 40), None)]
    requires Serving(s.db, Dispatching, Inflight)
    ensures Reached(t) && t.running && HasInput(t.db, 40) && t.tasks == map[40 := InCall(BriefOf(t.db, 40), None)]
    ensures Serving(t.db, Dispatching, Inflight)
  {
    hide Reached, Unobserved;
    ReachedNext(s, Issue(40));
    t := Do(s, Issue(40));
  }

  lemma ReachedAnswer(s: Sys) returns (t: Sys)
    requires Reached(s) && s.running && HasInput(s.db, 40) && s.tasks == map[40 := InCall(BriefOf(s.db, 40), None)]
    requires Serving(s.db, Dispatching, Inflight)
    ensures Reached(t) && t.running && t.tasks == map[40 := Accepted] && Serving(t.db, Dispatching, Inflight)
  {
    hide Reached, Unobserved;
    ReachedNext(s, Return(40, Good));
    t := Do(s, Return(40, Good));
  }

  lemma ReachedRunning(s: Sys) returns (t: Sys)
    requires Reached(s) && s.running && s.tasks == map[40 := Accepted] && Serving(s.db, Dispatching, Inflight)
    ensures Reached(t) && t.running && t.tasks == map[40 := Finish(Acknowledged)] && Serving(t.db, Running, Inflight)
  {
    hide Reached, Unobserved, MarkStarted, SetAction, MarkUnknown, FinishSteer, FinishResponse, ObserveRefused;
    Starts(s.db);
    ReachedNext(s, Commit(40, true));
    t := Do(s, Commit(40, true));
    assert CommitTask(s, 40, true) == Goto(s.(db := MarkStarted(s.db, FIRST).value), 40, Finish(Acknowledged));
  }

  lemma ReachedServed(s: Sys) returns (t: Sys)
    requires Reached(s) && s.running && s.tasks == map[40 := Finish(Acknowledged)] && Serving(s.db, Running, Inflight)
    ensures Reached(t) && t.running && t.tasks == map[40 := GaveIn] && Serving(t.db, Running, Acknowledged)
  {
    hide Reached, Unobserved, MarkStarted, SetAction, MarkUnknown, FinishSteer, FinishResponse, ObserveRefused;
    Finishes(s.db);
    ReachedNext(s, Commit(40, true));
    t := Do(s, Commit(40, true));
    assert CommitTask(s, 40, true) == Goto(s.(db := SetAction(s.db, 40, Inflight, Acknowledged)), 40, GaveIn);
  }

  /** The state every witness run passes: attempt 40 is running and acknowledged. */
  lemma ReachedService() returns (s: Sys)
    ensures Reached(s) && s.running && s.tasks == map[40 := GaveIn] && Serving(s.db, Running, Acknowledged)
  {
    hide Do, Initial, After, Serving, Reached;
    s := ReachedFirst();
    s := ReachedGate(s);
    s := ReachedCall(s);
    s := ReachedVetted(s);
    s := ReachedIssue(s);
    s := ReachedAnswer(s);
    s := ReachedRunning(s);
    s := ReachedServed(s);
  }
}
