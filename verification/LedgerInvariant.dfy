/** What every committed ledger satisfies, one predicate per concern. Each takes
    only the tables it reads, so a transaction that leaves them alone keeps it. */
module LedgerInvariant {
  import opened LedgerTypes
  import opened Transactions

  /** Stored sequence numbers are exactly 1 to the counter. */
  ghost predicate LogInv(events: map<int, Event>, last: int) {
    0 <= last && forall n :: n in events <==> 1 <= n <= last
  }

  /** The slot is set exactly when one attempt is live, and it names that attempt. */
  ghost predicate SlotInv(attempts: map<Id, Attempt>, active: Option<Id>, occupancy: Occupancy) {
    && (forall a :: a in attempts && Live(attempts[a].phase) ==> active == Some(a))
    && (active.Some? ==> active.value in attempts && Live(attempts[active.value].phase))
    && (occupancy == Idle <==> active.None?)
  }

  ghost predicate RequestRows(requests: map<Id, Request>, messages: map<Id, Message>, dialogs: map<Id, Dialog>) {
    forall r :: r in requests ==>
      && requests[r].dialog in dialogs && requests[r].input in messages
      && messages[requests[r].input].dialog == requests[r].dialog
  }

  /** Places in line are distinct and handed out in rising order. */
  ghost predicate OrderInv(requests: map<Id, Request>, next: int) {
    && (forall r :: r in requests ==> requests[r].queueSequence < next)
    && (forall r, q :: r in requests && q in requests && requests[r].queueSequence == requests[q].queueSequence ==>
         r == q)
  }

  /** An attempt owns its request, which has left the queue for good. */
  ghost predicate AttemptRows(attempts: map<Id, Attempt>, requests: map<Id, Request>) {
    && (forall a :: a in attempts ==>
          && attempts[a].request in requests && requests[attempts[a].request].dialog == attempts[a].dialog
          && requests[attempts[a].request].status != Queued)
    && (forall a, b :: a in attempts && b in attempts && attempts[a].request == attempts[b].request ==> a == b)
  }

  ghost predicate ActionRows(actions: map<Id, Action>, attempts: map<Id, Attempt>, messages: map<Id, Message>) {
    forall c :: c in actions ==>
      var ref := actions[c].ref;
      && ref.attempt in attempts && ref.dialog == attempts[ref.attempt].dialog
      && ref.generation == attempts[ref.attempt].generation
      && (actions[c].kind != SteerMessage ==> ref.request == attempts[ref.attempt].request)
      && (actions[c].kind == SteerMessage ==>
            && attempts[ref.attempt].started && actions[c].message in messages
            && messages[actions[c].message].dialog == ref.dialog && messages[actions[c].message].request == ref.request)
  }

  ghost predicate EffectRows(approvals: map<Id, Approval>, inputs: map<Id, Input>, tools: map<Id, ToolCall>,
                             attempts: map<Id, Attempt>) {
    && (forall p :: p in approvals ==> approvals[p].attempt in attempts)
    && (forall i :: i in inputs ==> inputs[i].attempt in attempts)
    && (forall t :: t in tools ==> tools[t].attempt in attempts)
  }

  /** An answer in the making belongs to a row of the attempt it answers. */
  ghost predicate AnswerRows(actions: map<Id, Action>, approvals: map<Id, Approval>, inputs: map<Id, Input>) {
    && (forall c :: c in actions && actions[c].kind == AnswerApproval ==>
          actions[c].target in approvals && approvals[actions[c].target].attempt == actions[c].ref.attempt)
    && (forall c :: c in actions && actions[c].kind == AnswerInput ==>
          actions[c].target in inputs && inputs[actions[c].target].attempt == actions[c].ref.attempt)
  }

  /** How far an attempt has come; no transaction moves it back. */
  function PhaseRank(p: Phase): int {
    match p
    case Dispatching => 0
    case Running => 1
    case Waiting => 2
    case Stopping => 2
    case _ => 3
  }

  /** A key in the log says how far the attempt has come; only one that has ended
      has archived events there. */
  predicate KeyFits(key: Option<Key>, phase: Phase) {
    key.Some? ==>
      && (key.value.archive || key.value.base.KTerminal? ==> PhaseRank(phase) == 3)
      && (key.value.base.KWaiting? ==> PhaseRank(phase) >= 2)
  }

  predicate Marks(e: Event) {
    e.key.Some? && (e.key.value.archive || e.key.value.base.KTerminal? || e.key.value.base.KWaiting?)
  }

  /** one_event_projection, for the key of live terminals. */
  ghost predicate TerminalOnce(events: map<int, Event>) {
    forall j, k ::
      && j in events && k in events && EndsLive(events[j]) && EndsLive(events[k])
      && events[j].attempt == events[k].attempt ==>
        j == k
  }

  predicate EndsLive(e: Event) {
    e.key == Some(Key(false, KTerminal))
  }

  ghost predicate KeyInv(events: map<int, Event>, attempts: map<Id, Attempt>) {
    && (forall k :: k in events && Marks(events[k]) ==>
          && events[k].attempt.Some? && events[k].attempt.value in attempts
          && KeyFits(events[k].key, attempts[events[k].attempt.value].phase))
    && TerminalOnce(events)
  }

  ghost predicate MessageRows(messages: map<Id, Message>, dialogs: map<Id, Dialog>) {
    forall m :: m in messages ==> messages[m].dialog in dialogs
  }

  /** The dispatch action of an attempt is stored under the attempt's own id. */
  ghost predicate StartRows(attempts: map<Id, Attempt>, actions: map<Id, Action>) {
    && (forall a :: a in attempts ==> a in actions && actions[a].kind == DispatchStart && actions[a].ref.attempt == a)
    && (forall c :: c in actions && actions[c].kind == DispatchStart ==> actions[c].ref.attempt == c)
  }

  ghost predicate PhaseRows(attempts: map<Id, Attempt>) {
    forall a :: a in attempts ==>
      && (attempts[a].phase == Dispatching ==> !attempts[a].started)
      && (attempts[a].phase in {Running, Waiting} ==> attempts[a].started)
  }

  ghost predicate HasAttempt(attempts: map<Id, Attempt>, r: Id) {
    exists a :: a in attempts && attempts[a].request == r
  }

  /** How user messages and their requests correspond. A retry shares the message
      of an earlier request, which then has an attempt. */
  ghost predicate InputRows(messages: map<Id, Message>, requests: map<Id, Request>, attempts: map<Id, Attempt>) {
    && (forall m :: m in messages && messages[m].disposition in {Waits, SteerPending} ==>
          messages[m].request in requests && requests[messages[m].request].input == m)
    && (forall m :: m in messages && messages[m].disposition == Waits ==>
          messages[m].request in requests && requests[messages[m].request].status == Queued)
    && (forall r :: r in requests && requests[r].input in messages && messages[requests[r].input].request != r ==>
          HasAttempt(attempts, messages[requests[r].input].request))
  }

  ghost function QueuedIds(requests: map<Id, Request>): set<Id> {
    set r | r in requests && requests[r].status == Queued
  }

  /** Steered messages whose request left the queue without an attempt: the only
      way the counter and the queue can differ. */
  ghost function Debt(messages: map<Id, Message>, requests: map<Id, Request>, attempts: map<Id, Attempt>): set<Id> {
    set m | m in messages && messages[m].disposition == SteerPending && messages[m].request in requests
            && requests[messages[m].request].status != Queued && !HasAttempt(attempts, messages[m].request)
  }

  ghost predicate CountInv(pending: int, requests: map<Id, Request>, messages: map<Id, Message>,
                           attempts: map<Id, Attempt>) {
    pending == |QueuedIds(requests)| + |Debt(messages, requests, attempts)| && pending <= QUEUE_CAPACITY
  }

  /** An unresolved steer pins its attempt in the slot and keeps the steered
      request out of dispatch. */
  ghost predicate SteerInv(actions: map<Id, Action>, attempts: map<Id, Attempt>) {
    forall c :: c in actions && actions[c].kind == SteerMessage && Unresolved(actions[c].status) ==>
      && actions[c].ref.attempt in attempts && Live(attempts[actions[c].ref.attempt].phase)
      && !HasAttempt(attempts, actions[c].ref.request)
  }

  /** A decided dispatch that may still start lies outside every active hold. */
  ghost predicate HoldInv(attempts: map<Id, Attempt>, actions: map<Id, Action>, holds: map<Id, Hold>,
                          ends: map<Id, HoldEnd>) {
    forall a :: a in attempts && attempts[a].phase == Dispatching && a in actions
                && actions[a].status in {Pending, Inflight} ==>
      !HeldBy(holds, ends, attempts[a].dialog)
  }

  ghost predicate TombstoneInv(db: Ledger) {
    forall d :: d in db.tombstones ==> d in db.dialogs && Settled(db, d) && NoneQueued(db.requests, d)
  }

  ghost predicate RevisionInv(revisions: map<Scope, int>, dialogs: map<Id, Dialog>) {
    NodeScope in revisions && forall d :: d in dialogs <==> DialogScope(d) in revisions
  }

  /** The part of the invariant that does not speak of deleted dialogs. */
  ghost predicate Core(db: Ledger) {
    && LogInv(db.events, db.node.lastSeq)
    && SlotInv(db.attempts, db.node.active, db.node.occupancy)
    && RequestRows(db.requests, db.messages, db.dialogs)
    && OrderInv(db.requests, db.node.nextQueue)
    && AttemptRows(db.attempts, db.requests)
    && ActionRows(db.actions, db.attempts, db.messages)
    && EffectRows(db.approvals, db.inputs, db.tools, db.attempts)
    && AnswerRows(db.actions, db.approvals, db.inputs)
    && KeyInv(db.events, db.attempts)
    && MessageRows(db.messages, db.dialogs)
    && StartRows(db.attempts, db.actions)
    && PhaseRows(db.attempts)
    && InputRows(db.messages, db.requests, db.attempts)
    && RevisionInv(db.queueRevisions, db.dialogs)
    && CountInv(db.node.pending, db.requests, db.messages, db.attempts)
    && SteerInv(db.actions, db.attempts)
    && HoldInv(db.attempts, db.actions, db.holds, db.holdEnds)
  }

  ghost predicate LedgerInv(db: Ledger) {
    Core(db) && TombstoneInv(db) && db.commands.Keys !! db.rejections.Keys
  }

  // ------------------------------------------------------- what a step moves

  ghost predicate SameRequests(old_: map<Id, Request>, new_: map<Id, Request>, x: Id) {
    && (forall r :: r in old_ ==> r in new_ && new_[r].dialog == old_[r].dialog)
    && (forall r :: r in new_ && new_[r].dialog != x ==> r in old_ && new_[r] == old_[r])
  }

  ghost predicate SameAttempts(old_: map<Id, Attempt>, new_: map<Id, Attempt>, x: Id) {
    && (forall a :: a in old_ ==> a in new_ && new_[a].dialog == old_[a].dialog)
    && (forall a :: a in new_ && new_[a].dialog != x ==> a in old_ && new_[a] == old_[a])
  }

  ghost predicate SameMessages(old_: map<Id, Message>, new_: map<Id, Message>, x: Id) {
    && (forall m :: m in old_ && old_[m].dialog != x ==> m in new_ && new_[m] == old_[m])
    && (forall m :: m in new_ && new_[m].dialog != x ==> m in old_ && new_[m] == old_[m])
  }

  ghost predicate SameActions(old_: map<Id, Action>, new_: map<Id, Action>, x: Id) {
    && (forall c :: c in old_ ==> c in new_ && new_[c].ref == old_[c].ref && new_[c].kind == old_[c].kind)
    && (forall c :: c in new_ && new_[c].ref.dialog != x ==> c in old_ && new_[c] == old_[c])
  }

  ghost predicate SameApprovals(old_: map<Id, Approval>, new_: map<Id, Approval>, attempts: map<Id, Attempt>, x: Id) {
    && (forall p :: p in old_ ==> p in new_ && new_[p].attempt == old_[p].attempt)
    && (forall p :: p in new_ && !Belongs(attempts, new_[p].attempt, x) ==> p in old_ && new_[p] == old_[p])
  }

  ghost predicate SameInputs(old_: map<Id, Input>, new_: map<Id, Input>, attempts: map<Id, Attempt>, x: Id) {
    && (forall i :: i in old_ ==> i in new_ && new_[i].attempt == old_[i].attempt)
    && (forall i :: i in new_ && !Belongs(attempts, new_[i].attempt, x) ==> i in old_ && new_[i] == old_[i])
  }

  ghost predicate SameTools(old_: map<Id, ToolCall>, new_: map<Id, ToolCall>, attempts: map<Id, Attempt>, x: Id) {
    && (forall t :: t in old_ ==> t in new_ && new_[t].attempt == old_[t].attempt)
    && (forall t :: t in new_ && !Belongs(attempts, new_[t].attempt, x) ==> t in old_ && new_[t] == old_[t])
  }

  ghost predicate SameEvents(old_: map<int, Event>, new_: map<int, Event>, x: Id) {
    && (forall n :: n in old_ ==> n in new_ && new_[n] == old_[n])
    && (forall n :: n in new_ && new_[n].dialog.Some? && new_[n].dialog.value != x ==> n in old_)
  }

  /** A queue revision that did not move means the requests of its scope did not. */
  ghost predicate QueueMoves(old_: map<Id, Request>, oldRev: map<Scope, int>, new_: map<Id, Request>,
                             newRev: map<Scope, int>) {
    forall s :: s in oldRev ==>
      && s in newRev && newRev[s] >= oldRev[s]
      && (newRev[s] == oldRev[s] ==>
            && (forall r :: r in old_ && Covers(s, old_[r].dialog) ==> r in new_ && new_[r] == old_[r])
            && (forall r :: r in new_ && Covers(s, new_[r].dialog) ==> r in old_ && new_[r] == old_[r]))
  }

  /** From `o` to `n` only rows of dialog `x` change, and every change of the queue
      moves the revisions that cover it. */
  ghost predicate Moves(o: Ledger, n: Ledger, x: Id) {
    && SameRequests(o.requests, n.requests, x)
    && SameAttempts(o.attempts, n.attempts, x)
    && SameMessages(o.messages, n.messages, x)
    && SameActions(o.actions, n.actions, x)
    && SameApprovals(o.approvals, n.approvals, n.attempts, x)
    && SameInputs(o.inputs, n.inputs, n.attempts, x)
    && SameTools(o.tools, n.tools, n.attempts, x)
    && SameEvents(o.events, n.events, x)
    && QueueMoves(o.requests, o.queueRevisions, n.requests, n.queueRevisions)
    && (forall d :: d in o.dialogs ==> d in n.dialogs)
    && o.tombstones <= n.tombstones
  }

  // ------------------------------------------- what a running task relies on

  /** What a step may treat differently: the attempt it starts, the message whose
      steer it ends (`owes`: leaving its request lost), the ended attempt it revives,
      the messages under steering, the set of dialogs, or the records of commands,
      holds and deletions. */
  datatype Exempt =
    | Nobody
    | Starter(a: Id)
    | Steered(m: Id, owes: bool)
    | Revives(a: Id)
    | Steerer
    | Founder
    | Registrar

  ghost predicate SameRecords(o: Ledger, n: Ledger) {
    && n.commands == o.commands && n.rejections == o.rejections && n.tombstones == o.tombstones
    && n.holds == o.holds && n.holdEnds == o.holdEnds && n.deletions == o.deletions
  }

  ghost predicate GrowActions(old_: map<Id, Action>, new_: map<Id, Action>, ex: Exempt) {
    && (forall c :: c in old_ ==> c in new_ && new_[c] == old_[c])
    && (forall c :: c in new_ && c !in old_ ==>
         new_[c].status == Pending && (ex != Registrar ==> new_[c].kind != SteerMessage))
  }

  ghost predicate KeepStarted(old_: map<Id, Attempt>, new_: map<Id, Attempt>, ex: Exempt) {
    && (forall a :: a in old_ ==> a in new_ && (ex != Starter(a) ==> new_[a].started == old_[a].started))
    && (forall a :: a in new_ && a !in old_ && ex != Starter(a) ==> !new_[a].started)
    && (forall a :: a in old_ && old_[a].phase.Ended? && ex != Revives(a) ==>
         a in new_ && new_[a].phase == old_[a].phase)
  }

  /** A message under steering: its request is gone once it is withdrawn, and when
      nothing has contradicted the steer yet (`clean`) it is queued until then. */
  ghost predicate UnderSteering(messages: map<Id, Message>, requests: map<Id, Request>, m: Id, clean: bool) {
    && m in messages && messages[m].disposition in {SteerPending, Withdrawn}
    && messages[m].request in requests && requests[messages[m].request].dialog == messages[m].dialog
    && (messages[m].disposition == Withdrawn ==> requests[messages[m].request].status != Queued)
    && (clean && messages[m].disposition == SteerPending ==> requests[messages[m].request].status == Queued)
  }

  ghost predicate KeepSteered(oldM: map<Id, Message>, oldR: map<Id, Request>, newM: map<Id, Message>,
                              newR: map<Id, Request>, ex: Exempt) {
    && (forall m, clean :: UnderSteering(oldM, oldR, m, clean) && !(ex.Steered? && ex.m == m) ==>
         UnderSteering(newM, newR, m, clean))
    && (ex !in {Steerer, Registrar} ==> forall m :: m in newM && newM[m].disposition == SteerPending ==>
         m in oldM && oldM[m].disposition == SteerPending)
  }

  ghost predicate NoNewDebt(oldM: map<Id, Message>, oldR: map<Id, Request>, oldA: map<Id, Attempt>,
                            newM: map<Id, Message>, newR: map<Id, Request>, newA: map<Id, Attempt>, ex: Exempt) {
    Debt(newM, newR, newA) <= Debt(oldM, oldR, oldA) + (if ex.Steered? && ex.owes then {ex.m} else {})
  }

  ghost predicate Calm(o: Ledger, n: Ledger, ex: Exempt) {
    && GrowActions(o.actions, n.actions, ex)
    && KeepStarted(o.attempts, n.attempts, ex)
    && KeepSteered(o.messages, o.requests, n.messages, n.requests, ex)
    && NoNewDebt(o.messages, o.requests, o.attempts, n.messages, n.requests, n.attempts, ex)
    && (ex != Registrar ==> SameRecords(o, n))
    && (ex !in {Registrar, Founder} ==> n.dialogs.Keys == o.dialogs.Keys)
  }

  /** The whole promise of one building block. */
  ghost predicate Keeps(o: Ledger, n: Ledger, x: Id, ex: Exempt) {
    Core(n) && Moves(o, n, x) && Calm(o, n, ex)
  }
}
