/** The tables and counters of the supervisor's SQLite ledger, as values.

    Identifiers (UUIDs in the program) are numbers; a content hash is
    represented by the value that is hashed, so equal hashes are equal values.
 */
module LedgerTypes {
  type Id = int

  datatype Option<+T> = None | Some(value: T)

  /** Why a transaction was rolled back. */
  datatype Refusal = NotFound | Stale | IdConflict | QueueFull | Forbidden | Unavailable

  datatype Result<+T> = Ok(value: T) | Err(why: Refusal)

  // ---------------------------------------------------------------- rows

  datatype Ending = Completed | Failed | Interrupted

  datatype Phase = Dispatching | Running | Waiting | Stopping | Unknown | Ended(outcome: Ending)

  /** The states that occupy the node's only execution slot. */
  predicate Live(p: Phase) {
    !p.Ended?
  }

  datatype Effect = NoEffect | KnownEffect | UnknownEffect

  datatype RequestStatus = Queued | InDispatch | Active | Lost | Cancelled | Done(outcome: Ending)

  datatype Disposition = Waits | SteerPending | Applied | Withdrawn | Uncertain | NoDisposition

  datatype ActionKind = DispatchStart | StopAttempt | SteerMessage | AnswerApproval | AnswerInput

  datatype ActionStatus = Pending | Inflight | Acknowledged | Rejected | Unsettled

  datatype Dialog = Dialog(version: int)

  datatype Message = Message(dialog: Id, sequence: int, version: int, user: bool,
                             disposition: Disposition, request: Id, attempt: Option<Id>, text: Id)

  datatype Request = Request(dialog: Id, input: Id, queueSequence: int, version: int, status: RequestStatus)

  /** The newest assistant message of an attempt: what the query of the terminal
      projection returns, kept here as an index of the messages table. */
  datatype Said = Said(message: Id, text: Id)

  datatype Attempt = Attempt(dialog: Id, request: Id, generation: int, version: int, phase: Phase, effect: Effect,
                             started: bool, outputBytes: int, policy: Id, artifacts: int, said: Option<Said>)

  datatype AttemptRef = AttemptRef(dialog: Id, request: Id, attempt: Id, generation: int)

  /** An input message and its place in the dialog. */
  datatype Boundary = Boundary(message: Id, sequence: int)

  /** A failed attempt as a failed-tail proof lists it. */
  datatype TailAttempt = TailAttempt(ref: AttemptRef, context: Boundary, policy: Id, prompt: Id)

  datatype TailProof = TailProof(highWater: Boundary, attempts: seq<TailAttempt>)

  /** A control action with the reference stored in its payload. For a steer the
      payload names the request of the steered message, not that of the attempt. A
      dispatch may carry a failed-tail proof. */
  datatype Action = Action(kind: ActionKind, ref: AttemptRef, message: Id, target: Id, targetVersion: int,
                           status: ActionStatus, row: int, proof: Option<TailProof>)

  datatype ReplyStatus = Open | Responding | Resolved | Doubtful

  datatype Approval = Approval(attempt: Id, call: Id, actionHash: Id, version: int, status: ReplyStatus)

  datatype Input = Input(attempt: Id, version: int, status: ReplyStatus)

  datatype ToolStatus = ToolRunning | ToolSucceeded | ToolFailed | ToolOther

  datatype ToolCall = ToolCall(attempt: Id, actionHash: Id, version: int, status: ToolStatus)

  // ------------------------------------------------------- adapter events

  /** Safe content: an identity for its bytes and the size charged for it
      (0 unless the content is inline). */
  datatype Content = Content(value: Id, bytes: int)

  /** The text of the marker that replaces output past the limit. */
  const LIMIT_TEXT: Id := -1

  datatype FailureCode = ModelUnsupported | TurnFailed | OtherFailure

  /** The failure a terminal reports: the reason its class blocks the node for, its
      code, its safe message (with the retry flag) and the size of that. */
  datatype Fault = Fault(reason: Option<Reason>, code: FailureCode, message: Id, bytes: int)

  /** No token usage is reported. */
  const NO_USAGE: Id := 0

  datatype TerminalKind = Terminates(outcome: Ending) | TerminatesUnknown

  datatype AdapterEvent =
    | Started
    | WaitsFor(kind: Id)
    | Delta(message: Id, index: int, content: Content)
    | Speaks(message: Id, content: Content)
    | ToolStarted(call: Id, actionHash: Id, content: Content)
    | ToolOutput(call: Id, chunk: int, content: Content)
    | ToolCompleted(call: Id, status: ToolStatus, effect: Effect, content: Content)
    | ApprovalRequested(approval: Id, call: Id, actionHash: Id, content: Content)
    | InputRequested(input: Id, content: Content)
    | Terminal(how: TerminalKind, terminalEffect: Effect, failure: Option<Fault>, output: Option<Content>, usage: Id)
    | LostTrack(lostEffect: Effect)

  /** What a projection hash is taken of. Live terminals are stored with the payload
      of the event they become: a completed one names the newest assistant message and
      not the output it came with. Everything else, and every archived terminal, is
      stored with all it says. */
  datatype Digest =
    | Whole(event: AdapterEvent)
    | CompletedWith(message: Option<Id>, usage: Id)
    | FailedWith(failure: Option<Fault>, effect: Effect)
    | InterruptedWith(effect: Effect)

  /** Projection keys; `archive` is the prefix given to late observations. */
  datatype Key = Key(archive: bool, base: BaseKey)
  datatype BaseKey =
    | KStarted | KWaiting(version: int) | KDelta(message: Id, index: int) | KMessage(message: Id)
    | KToolStarted(call: Id) | KToolOutput(call: Id, chunk: int) | KToolCompleted(call: Id)
    | KApproval(approval: Id) | KInput(input: Id) | KTerminal | KUnknown | KLimit | KDeleted

  /** What replay looks at in a stored event. */
  datatype EventKind =
    | StateChanged
    | MessageAccepted(acceptedDialog: Id)
    | DispositionChanged(message: Id)
    | ToolDone(effect: Effect)
    | DialogDeleted
    | OtherEvent

  datatype Event = Event(kind: EventKind, attempt: Option<Id>, dialog: Option<Id>,
                         key: Option<Key>, digest: Option<Digest>, late: bool)

  /** Why an observation was archived: the slot had moved on, the attempt was being
      stopped or unknown, or a terminal met an unresolved answer. */
  datatype LateKind = Late | Suppressed | TerminalUnresolved

  datatype LateRow = LateRow(attempt: Id, kind: LateKind, key: Option<Key>, digest: Option<Digest>, outputBytes: int)

  // --------------------------------------------------------------- holds

  datatype Scope = NodeScope | DialogScope(dialog: Id)

  predicate Covers(scope: Scope, dialog: Id) {
    scope.NodeScope? || scope.dialog == dialog
  }

  datatype InstallRequest = InstallRequest(scope: Scope, epoch: int, registry: int, scopeRevision: int)

  datatype Hold = Hold(request: InstallRequest, version: int, scopeRevision: int)

  datatype ReleaseRequest = ReleaseRequest(scope: Scope, epoch: int, registry: int, version: int,
                                           scopeRevision: int, cancel: bool)

  datatype HoldEnd = Released(request: ReleaseRequest) | EndedByDelete(deletion: DeleteRequest)

  datatype DeleteRequest = DeleteRequest(command: Id, dialog: Id, dialogVersion: int, epoch: int, registry: int,
                                         version: int, scopeRevision: int)

  // ------------------------------------------------------------ commands

  datatype Command =
    | DialogCreate(registry: int)
    | MessageEnqueue(dialog: Id, dialogVersion: int, text: Id)
    | RequestCancel(request: Id, requestVersion: int)
    | QueueResume(queueVersion: int)
    | AttemptStop(attempt: Id, generation: int)
    | AttemptRetry(attempt: Id, generation: int, acknowledge: bool)
    | MessageSteer(dialog: Id, message: Id, attempt: Id, generation: int, messageVersion: int)
    | ApprovalRespond(approval: Id, attempt: Id, approvalVersion: int, generation: int, actionHash: Id, allow: bool)
    | InputRespond(input: Id, attempt: Id, inputVersion: int, generation: int, text: Id)
    | DialogDelete(dialog: Id, dialogVersion: int)

  /** A receipt: the dialog it names, if any, the last identifier it hands out
      and the event sequence of its commit (for a rejection, the hold). */
  datatype Receipt = Receipt(dialog: Option<Id>, reference: Id, eventSeq: int)

  datatype Outcome = Outcome(command: Command, receipt: Receipt)

  datatype Reply =
    | Admitted(receipt: Receipt)
    | Refused(receipt: Receipt)
    | Replayed(receipt: Receipt, accepted: bool)
    | Failure(why: Refusal)

  // ----------------------------------------------------------- node state

  datatype Occupancy = Idle | Busy | Confused
  datatype Readiness = IsReady | IsBlocked | IsUnknown
  datatype Reason = PolicyUnavailable | OperatorPause | ExecutionUnknown | StorageUnavailable
                  | EngineUnavailable | AdapterProtocol

  datatype NodeState = NodeState(
    active: Option<Id>, occupancy: Occupancy, readiness: Readiness, reasons: set<Reason>,
    paused: bool, pending: int, stateVersion: int, queueVersion: int, lastSeq: int,
    nextQueue: int, nextMessage: int, epoch: int, registry: int)

  /** One committed state of the database. `tombstones` indexes the events whose
      projection key is `dialog.deleted`. */
  datatype Ledger = Ledger(
    node: NodeState,
    dialogs: map<Id, Dialog>,
    messages: map<Id, Message>,
    requests: map<Id, Request>,
    attempts: map<Id, Attempt>,
    actions: map<Id, Action>,
    approvals: map<Id, Approval>,
    inputs: map<Id, Input>,
    tools: map<Id, ToolCall>,
    events: map<int, Event>,
    late: seq<LateRow>,
    commands: map<Id, Outcome>,
    rejections: map<Id, Outcome>,
    holds: map<Id, Hold>,
    holdEnds: map<Id, HoldEnd>,
    holdClock: int,
    scopeRevisions: map<Scope, int>,
    queueRevisions: map<Scope, int>,
    deletions: map<Id, DeleteRequest>,
    tombstones: set<Id>,
    nextRow: int)

  const QUEUE_CAPACITY := 100

  predicate HoldActive(db: Ledger, op: Id) {
    op in db.holds && op !in db.holdEnds
  }

  /** Some hold without an outcome covers this dialog. */
  predicate Held(db: Ledger, dialog: Id) {
    HeldBy(db.holds, db.holdEnds, dialog)
  }

  predicate HeldBy(holds: map<Id, Hold>, ends: map<Id, HoldEnd>, dialog: Id) {
    exists op :: op in holds && op !in ends && Covers(holds[op].request.scope, dialog)
  }

  predicate Unresolved(s: ActionStatus) {
    s.Pending? || s.Inflight? || s.Unsettled?
  }

  function RefOf(db: Ledger, a: Id): AttemptRef
    requires a in db.attempts
  {
    AttemptRef(db.attempts[a].dialog, db.attempts[a].request, a, db.attempts[a].generation)
  }
}
