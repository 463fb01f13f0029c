/** Each building block of a transaction keeps the core invariant and moves only
    the rows of one dialog. The proofs go table by table; `hide` keeps the other
    tables' predicates folded. */
module Pieces {
  import opened LedgerTypes
  import opened Transactions
  import opened LedgerInvariant

  // ------------------------------------------------------------ composition

  lemma SameTables(db: Ledger, x: Id)
    ensures Moves(db, db, x)
  {
  }

  lemma SameCalm(db: Ledger, ex: Exempt)
    ensures Calm(db, db, ex)
  {
    hide Debt;
  }

  lemma KeepsSelf(db: Ledger, x: Id, ex: Exempt)
    requires Core(db)
    ensures Keeps(db, db, x, ex)
  {
    hide Core, Moves, Calm;
    SameTables(db, x);
    SameCalm(db, ex);
  }

  /** Effect rows that do not change stay put while attempts keep their dialogs. */
  lemma SameEffects(db: Ledger, attempts: map<Id, Attempt>, x: Id)
    ensures SameApprovals(db.approvals, db.approvals, attempts, x) && SameInputs(db.inputs, db.inputs, attempts, x)
    ensures SameTools(db.tools, db.tools, attempts, x)
  {
  }

  lemma MovesTransRows(a: Ledger, b: Ledger, c: Ledger, x: Id)
    requires SameAttempts(a.attempts, b.attempts, x) && SameAttempts(b.attempts, c.attempts, x)
    requires SameRequests(a.requests, b.requests, x) && SameRequests(b.requests, c.requests, x)
    requires SameMessages(a.messages, b.messages, x) && SameMessages(b.messages, c.messages, x)
    requires SameActions(a.actions, b.actions, x) && SameActions(b.actions, c.actions, x)
    requires SameEvents(a.events, b.events, x) && SameEvents(b.events, c.events, x)
    ensures SameAttempts(a.attempts, c.attempts, x) && SameRequests(a.requests, c.requests, x)
    ensures SameMessages(a.messages, c.messages, x) && SameActions(a.actions, c.actions, x)
    ensures SameEvents(a.events, c.events, x)
  {
  }

  lemma MovesTransEffects(a: Ledger, b: Ledger, c: Ledger, x: Id)
    requires SameAttempts(b.attempts, c.attempts, x)
    requires SameApprovals(a.approvals, b.approvals, b.attempts, x)
    requires SameApprovals(b.approvals, c.approvals, c.attempts, x)
    requires SameInputs(a.inputs, b.inputs, b.attempts, x) && SameInputs(b.inputs, c.inputs, c.attempts, x)
    requires SameTools(a.tools, b.tools, b.attempts, x) && SameTools(b.tools, c.tools, c.attempts, x)
    ensures SameApprovals(a.approvals, c.approvals, c.attempts, x)
    ensures SameInputs(a.inputs, c.inputs, c.attempts, x)
    ensures SameTools(a.tools, c.tools, c.attempts, x)
  {
  }

  lemma QueueMovesTrans(r1: map<Id, Request>, v1: map<Scope, int>, r2: map<Id, Request>, v2: map<Scope, int>,
                        r3: map<Id, Request>, v3: map<Scope, int>)
    requires QueueMoves(r1, v1, r2, v2) && QueueMoves(r2, v2, r3, v3)
    ensures QueueMoves(r1, v1, r3, v3)
  {
  }

  lemma MovesTrans(a: Ledger, b: Ledger, c: Ledger, x: Id)
    requires Moves(a, b, x) && Moves(b, c, x)
    ensures Moves(a, c, x)
  {
    hide SameRequests, SameAttempts, SameMessages, SameActions, SameApprovals, SameInputs, SameTools, SameEvents,
         QueueMoves;
    MovesTransRows(a, b, c, x);
    MovesTransEffects(a, b, c, x);
    QueueMovesTrans(a.requests, a.queueRevisions, b.requests, b.queueRevisions, c.requests, c.queueRevisions);
  }

  lemma SteeredTrans(m1: map<Id, Message>, r1: map<Id, Request>, m2: map<Id, Message>, r2: map<Id, Request>,
                     m3: map<Id, Message>, r3: map<Id, Request>, ex: Exempt)
    requires KeepSteered(m1, r1, m2, r2, ex) && KeepSteered(m2, r2, m3, r3, ex)
    ensures KeepSteered(m1, r1, m3, r3, ex)
  {
  }

  lemma DebtTrans(m1: map<Id, Message>, r1: map<Id, Request>, a1: map<Id, Attempt>, m2: map<Id, Message>,
                  r2: map<Id, Request>, a2: map<Id, Attempt>, m3: map<Id, Message>, r3: map<Id, Request>,
                  a3: map<Id, Attempt>, ex: Exempt)
    requires NoNewDebt(m1, r1, a1, m2, r2, a2, ex) && NoNewDebt(m2, r2, a2, m3, r3, a3, ex)
    ensures NoNewDebt(m1, r1, a1, m3, r3, a3, ex)
  {
    hide Debt;
  }

  lemma RecordsTrans(a: Ledger, b: Ledger, c: Ledger)
    ensures SameRecords(a, b) && SameRecords(b, c) ==> SameRecords(a, c)
  {
  }

  lemma GrowTrans(a: map<Id, Action>, b: map<Id, Action>, c: map<Id, Action>, ex: Exempt)
    requires GrowActions(a, b, ex) && GrowActions(b, c, ex)
    ensures GrowActions(a, c, ex)
  {
  }

  lemma StartedTrans(a: map<Id, Attempt>, b: map<Id, Attempt>, c: map<Id, Attempt>, ex: Exempt)
    requires KeepStarted(a, b, ex) && KeepStarted(b, c, ex)
    ensures KeepStarted(a, c, ex)
  {
  }

  lemma CalmTrans(a: Ledger, b: Ledger, c: Ledger, ex: Exempt)
    requires Calm(a, b, ex) && Calm(b, c, ex)
    ensures Calm(a, c, ex)
  {
    hide KeepSteered, NoNewDebt, SameRecords, GrowActions, KeepStarted;
    RecordsTrans(a, b, c);
    GrowTrans(a.actions, b.actions, c.actions, ex);
    StartedTrans(a.attempts, b.attempts, c.attempts, ex);
    SteeredTrans(a.messages, a.requests, b.messages, b.requests, c.messages, c.requests, ex);
    DebtTrans(a.messages, a.requests, a.attempts, b.messages, b.requests, b.attempts, c.messages, c.requests,
        c.attempts, ex);
  }

  lemma Chain(a: Ledger, b: Ledger, c: Ledger, x: Id, ex: Exempt)
    requires Keeps(a, b, x, ex) && Keeps(b, c, x, ex)
    ensures Keeps(a, c, x, ex)
  {
    hide Core, Moves, Calm;
    MovesTrans(a, b, c, x);
    CalmTrans(a, b, c, ex);
  }

  // ------------------------------------------------------------- log, node

  lemma LogGrows(events: map<int, Event>, last: int, e: Event, x: Id)
    requires LogInv(events, last) && (e.dialog.Some? ==> e.dialog.value == x)
    ensures LogInv(events[last + 1 := e], last + 1) && SameEvents(events, events[last + 1 := e], x)
  {
  }

  /** A new event may mark only how far its attempt has really come, and end it live
      only once. */
  predicate KeyKnown(e: Event, db: Ledger) {
    && (Marks(e) ==>
          && e.attempt.Some? && e.attempt.value in db.attempts
          && KeyFits(e.key, db.attempts[e.attempt.value].phase))
    && (EndsLive(e) ==> e.attempt.Some? && !KeyTaken(db, e.attempt.value, Key(false, KTerminal)))
  }

  lemma KeysGrow(db: Ledger, e: Event)
    requires KeyInv(db.events, db.attempts) && KeyKnown(e, db)
    ensures KeyInv(db.events[db.node.lastSeq + 1 := e], db.attempts)
  {
  }

  lemma AppendKeeps(db: Ledger, e: Event, x: Id, ex: Exempt)
    requires Core(db) && (e.dialog.Some? ==> e.dialog.value == x) && KeyKnown(e, db)
    ensures Keeps(db, Append(db, e), x, ex)
  {
    hide LogInv, SlotInv, RequestRows, OrderInv, AttemptRows, ActionRows, EffectRows, MessageRows, KeyInv,
         AnswerRows, StartRows, PhaseRows, InputRows, RevisionInv, CountInv, SteerInv, HoldInv, SameRequests,
         SameAttempts, SameMessages, SameActions, SameApprovals, SameInputs, SameTools, SameEvents, QueueMoves,
         GrowActions, KeepStarted, KeepSteered, NoNewDebt;
    LogGrows(db.events, db.node.lastSeq, e, x);
    KeysGrow(db, e);
    SameTables(db, x);
    SameCalm(db, ex);
  }

  /** Tables the core invariant does not read, and a node row with the same slot and counters. */
  lemma AsideKeeps(o: Ledger, n: Ledger, x: Id, ex: Exempt)
    requires Core(o) && n.node.active == o.node.active && n.node.occupancy == o.node.occupancy
    requires n.node.pending == o.node.pending && n.node.lastSeq == o.node.lastSeq
    requires n.node.nextQueue == o.node.nextQueue
    requires n == o.(node := n.node, late := n.late, commands := n.commands, rejections := n.rejections,
                     holdClock := n.holdClock, scopeRevisions := n.scopeRevisions, deletions := n.deletions,
                     nextRow := n.nextRow)
    requires ex != Registrar ==> n.commands == o.commands && n.rejections == o.rejections && n.deletions == o.deletions
    ensures Keeps(o, n, x, ex)
  {
    hide LogInv, SlotInv, RequestRows, OrderInv, AttemptRows, ActionRows, EffectRows, MessageRows, KeyInv,
         AnswerRows, StartRows, PhaseRows, InputRows, RevisionInv, CountInv, SteerInv, HoldInv, SameRequests,
         SameAttempts, SameMessages, SameActions, SameApprovals, SameInputs, SameTools, SameEvents, QueueMoves,
         GrowActions, KeepStarted, KeepSteered, NoNewDebt;
    SameTables(o, x);
    SameCalm(o, ex);
  }

  lemma PausedRevisions(requests: map<Id, Request>, revisions: map<Scope, int>, dialogs: map<Id, Dialog>)
    requires RevisionInv(revisions, dialogs)
    ensures RevisionInv(map s | s in revisions :: revisions[s] + 1, dialogs)
    ensures QueueMoves(requests, revisions, requests, map s | s in revisions :: revisions[s] + 1)
  {
  }

  lemma PausedKeeps(db: Ledger, paused: bool, x: Id, ex: Exempt)
    requires Core(db)
    ensures Keeps(db, SetPaused(db, paused), x, ex)
  {
    hide LogInv, SlotInv, RequestRows, OrderInv, AttemptRows, ActionRows, EffectRows, MessageRows, KeyInv,
         AnswerRows, StartRows, PhaseRows, InputRows, RevisionInv, CountInv, SteerInv, HoldInv, SameRequests,
         SameAttempts, SameMessages, SameActions, SameApprovals, SameInputs, SameTools, SameEvents, QueueMoves,
         GrowActions, KeepStarted, KeepSteered, NoNewDebt;
    SameTables(db, x);
    SameCalm(db, ex);
    PausedRevisions(db.requests, db.queueRevisions, db.dialogs);
  }

  lemma Weaken(o: Ledger, n: Ledger, x: Id, ex: Exempt)
    requires Keeps(o, n, x, ex) && ex in {Nobody, Founder, Steerer}
    ensures Keeps(o, n, x, Registrar)
  {
    hide Core, Moves, UnderSteering, SameRecords, Debt;
  }

  // ------------------------------------------------------- rows written

  lemma AppendFrame(db: Ledger, e: Event)
    ensures var n := Append(db, e); n == db.(events := n.events, node := db.node.(lastSeq := n.node.lastSeq))
  {
  }

  lemma AppendRows(db: Ledger, e: Event)
    ensures var n := Append(db, e);
      n == db.(events := n.events, node := n.node) && n.node == db.node.(lastSeq := n.node.lastSeq)
      && forall k :: k in n.events ==> (k in db.events && n.events[k] == db.events[k]) || n.events[k] == e
  {
  }

  lemma StatusRows(db: Ledger, r: Id, status: RequestStatus)
    ensures var n := SetStatus(db, r, status); n == db.(requests := n.requests, queueRevisions := n.queueRevisions)
  {
    hide Bump;
  }
}
