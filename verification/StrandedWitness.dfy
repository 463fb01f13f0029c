/** Two runs of a steer gone wrong. In one the call comes back with an outcome outside
    the adapter contract, and the mark that follows takes the steered request, not the
    attempt's own, out of the queue. In the other the verdict does not commit but the
    end of the action does. */
module StrandedWitness {
  import opened LedgerTypes
  import opened Transactions
  import opened Supervisor
  import opened SystemInvariant
  import opened SystemSteps
  import opened SystemRuns
  import opened SupervisorTheorems
  import opened RunTheorems
  import opened FirstAttempt
  import opened Absorption

  ghost predicate Second(db: Ledger, used: int, disposition: Disposition) {
    && Plain(db, used) && 10 in db.dialogs && 21 in db.messages && 31 in db.requests && 40 in db.attempts
    && db.messages[21].dialog == 10 && db.messages[21].request == 31 && db.messages[21].disposition == disposition
    && db.requests[31].status == Queued
    && RefOf(db, 40) == FIRST && db.attempts[40].phase == Running && db.node.active == Some(40)
    && (forall c :: c in db.actions && c != 4 ==> db.actions[c].status != Pending && db.actions[c].kind != SteerMessage)
  }

  ghost predicate SteerAt(db: Ledger, status: ActionStatus) {
    && Second(db, 4, SteerPending) && 4 in db.actions && db.actions[4].kind == SteerMessage
    && db.actions[4].ref == AttemptRef(10, 31, 40, 1)
    && db.actions[4].message == 21 && db.actions[4].status == status
  }

  // ------------------------------------------------------------- the steer

  lemma EnqueuesAgain(db: Ledger)
    requires Serving(db, Running, Acknowledged)
    ensures var n := Submit(db, 3, MessageEnqueue(10, 2, 0), 21, 31, true, 0).0;
      Second(n, 3, Waits) && n.messages[21].version == 1 && 4 !in n.actions
  {
    hide Submit, Bump;
    Executes(db, 2, MessageEnqueue(10, 2, 0), 21, 31);
  }

  lemma Steers(db: Ledger)
    requires Second(db, 3, Waits) && db.messages[21].version == 1 && 4 !in db.actions
    ensures SteerAt(Submit(db, 4, MessageSteer(10, 21, 40, 1, 1), 0, 0, true, 0).0, Pending)
  {
    hide Submit;
    Executes(db, 3, MessageSteer(10, 21, 40, 1, 1), 0, 0);
  }

  lemma ClaimsSteer(db: Ledger)
    requires SteerAt(db, Pending)
    ensures ClaimedNext(db, 4) && SteerAt(SetAction(db, 4, Pending, Inflight), Inflight)
  {
  }

  lemma ReachedSteer(s: Sys) returns (t: Sys)
    requires Reached(s) && s.running && s.tasks == map[40 := GaveIn] && Serving(s.db, Running, Acknowledged)
    ensures Reached(t) && t.running && t.tasks == map[40 := GaveIn] && SteerAt(t.db, Pending)
  {
    hide Reached, Submit, Serving, SteerAt, Second;
    EnqueuesAgain(s.db);
    ReachedNext(s, Submits(3, MessageEnqueue(10, 2, 0), 21, 31, true, 0));
    t := Do(s, Submits(3, MessageEnqueue(10, 2, 0), 21, 31, true, 0));
    Steers(t.db);
    ReachedNext(t, Submits(4, MessageSteer(10, 21, 40, 1, 1), 0, 0, true, 0));
    t := Do(t, Submits(4, MessageSteer(10, 21, 40, 1, 1), 0, 0, true, 0));
  }

  lemma ReachedClaim(s: Sys) returns (t: Sys)
    requires Reached(s) && s.running && s.tasks == map[40 := GaveIn] && SteerAt(s.db, Pending)
    ensures Reached(t) && t.running && t.tasks == map[40 := GaveIn, 4 := Called] && SteerAt(t.db, Inflight)
  {
    hide Reached, ClaimedNext, SetAction;
    ClaimsSteer(s.db);
    ReachedNext(s, Claim(4));
    t := Do(s, Claim(4));
  }

  lemma ReachedNonsense(s: Sys) returns (t: Sys)
    requires Reached(s) && s.running && s.tasks == map[40 := GaveIn, 4 := Called] && SteerAt(s.db, Inflight)
    ensures Reached(t) && t.running && Strands(t, 4)
  {
    hide Reached;
    ReachedNext(s, Return(4, Nonsense));
    t := Do(s, Return(4, Nonsense));
  }

  /** Some run ends with a counter that is not the number of queued requests. */
  lemma CounterCanDiffer()
    ensures exists run :: !Balanced(After(Initial(0, 0), run).db)
  {
    hide Do, Initial, After, SysInv, DebtOf, Balanced, Serving, Strands;
    var s := ReachedService();
    s := ReachedSteer(s);
    s := ReachedClaim(s);
    s := ReachedNonsense(s);
    var before :| s == After(Initial(0, 0), before);
    RunsSafe(0, 0, before);
    StrandingStep(s, Commit(4, true));
    ReachedNext(s, Commit(4, true));
    var run :| Do(s, Commit(4, true)) == After(Initial(0, 0), run);
    RunsSafe(0, 0, run);
    CountFacts(Do(s, Commit(4, true)));
    assert !Balanced(After(Initial(0, 0), run).db);
  }

  // -------------------------------------------------- a steer without an end

  lemma ReachedVerdict(s: Sys) returns (t: Sys)
    requires Reached(s) && s.running && s.tasks == map[40 := GaveIn, 4 := Called] && SteerAt(s.db, Inflight)
    ensures Reached(t) && t.running && t.tasks == map[40 := GaveIn, 4 := Settle(Good)] && SteerAt(t.db, Inflight)
  {
    hide Reached;
    ReachedNext(s, Return(4, Good));
    t := Do(s, Return(4, Good));
  }

  /** The transaction that would settle the message fails. */
  lemma ReachedFault(s: Sys) returns (t: Sys)
    requires Reached(s) && s.running && s.tasks == map[40 := GaveIn, 4 := Settle(Good)] && SteerAt(s.db, Inflight)
    ensures Reached(t) && t.running && t.tasks == map[40 := GaveIn, 4 := Finish(Acknowledged)]
    ensures SteerAt(t.db, Inflight)
  {
    hide Reached, MarkStarted, SetAction, MarkUnknown, FinishSteer, FinishResponse, ObserveRefused;
    ReachedNext(s, Commit(4, false));
    t := Do(s, Commit(4, false));
  }

  lemma AboutToOrphan(s: Sys)
    requires s.running && s.tasks == map[40 := GaveIn, 4 := Finish(Acknowledged)] && SteerAt(s.db, Inflight)
    ensures Orphans(s, Commit(4, true))
  {
  }

  /** Some run leaves a message under steering with every steer of it resolved. */
  lemma SteerCanBeOrphaned()
    ensures exists run :: !AllPinned(After(Initial(0, 0), run).db)
  {
    hide Do, Initial, After, SysInv, Serving, SteerAt, Orphans, AllPinned;
    var s := ReachedService();
    s := ReachedSteer(s);
    s := ReachedClaim(s);
    s := ReachedVerdict(s);
    s := ReachedFault(s);
    AboutToOrphan(s);
    var before :| s == After(Initial(0, 0), before);
    RunsSafe(0, 0, before);
    PinBreaks(s, Commit(4, true));
    ReachedNext(s, Commit(4, true));
    var run :| Do(s, Commit(4, true)) == After(Initial(0, 0), run);
    assert !AllPinned(After(Initial(0, 0), run).db);
  }
}
