/** The supervisor as a step system. A committed transaction is one step, a
    provider call is bracketed by two, and the label of a step carries every
    choice the program does not make itself: identifiers, adapter answers,
    storage faults, scheduling and crashes. */
module Supervisor {
  import opened LedgerTypes
  import opened LedgerTail
  import opened Transactions

  /** What a dispatch reads of its attempt: the input, the policy and the prompt. */
  datatype Brief = Brief(context: Boundary, policy: Id, prompt: Id)

  /** Where a claimed action stands. The states from `AwaitGate` to `GaveIn` belong
      to performDispatch, which holds the start gate after `AwaitGate`. From `Ready` on
      it carries what it has read of the attempt, from `Vetted` on also the failed-tail
      proof it passes to the provider. */
  datatype Pc =
    | AwaitGate | Gated | Authenticated | Ready(brief: Brief)
    | Vetted(brief: Brief, proof: Option<TailProof>) | InCall(brief: Brief, proof: Option<TailProof>)
    | Accepted | Declined
    | Called              // a control call is in progress
    | Contradicted        // the answer was outside the contract
    | Unsure              // markAttemptUnknown is next
    | Settle(verdict: Verdict)
    | Finish(status: ActionStatus)
    | GaveIn              // only the gate is left to release

  /** `calls` is history: the Start and Resume calls issued so far. */
  datatype Sys = Sys(db: Ledger, tasks: map<Id, Pc>, gate: Option<Id>, running: bool, calls: multiset<Id>)

  datatype Label =
    | Submits(id: Id, command: Command, x: Id, y: Id, space: bool, op: Id)
    | Dispatch(candidate: Candidate, attempt: Id, generation: int)
    | Claim(c: Id)
    | TakeGate(c: Id)
    | Authenticate(c: Id, ready: bool, ok: bool)
    | ReadAttempt(c: Id)
    | GiveUp(c: Id)
    | Recheck(c: Id, tail: seq<Id>, ok: bool)
    | Issue(c: Id)
    | Return(c: Id, verdict: Verdict)
    | Commit(c: Id, ok: bool)
    | Unheard(c: Id)
    | LetGo(c: Id)
    | Deliver(ref: AttemptRef, event: AdapterEvent, valid: bool, marker: Id, stop: Id)
    | LoseTrack(a: Id)
    | ReconcileAnswer(ref: AttemptRef, newId: Id, event: AdapterEvent, valid: bool, marker: Id, stop: Id)
    | Artifact(ref: AttemptRef, bytes: int, marker: Id, stop: Id)
    | Install(op: Id, install: InstallRequest)
    | Release(op: Id, release: ReleaseRequest)
    | Delete(op: Id, deletion: DeleteRequest)
    | PolicyFailure
    | Crash
    | Restart

  function Commits(db: Ledger, r: Result<Ledger>): Ledger {
    if r.Ok? then r.value else db
  }

  predicate At(s: Sys, c: Id, pc: Pc) {
    c in s.tasks && s.tasks[c] == pc && c in s.db.actions
  }

  predicate Briefed(s: Sys, c: Id) {
    c in s.tasks && s.tasks[c].Ready? && c in s.db.actions
  }

  /** The dispatch has read its attempt, checked its proof and is about to call. */
  predicate Poised(s: Sys, c: Id) {
    c in s.tasks && s.tasks[c].Vetted? && c in s.db.actions
  }

  /** A provider call of the action is in progress. */
  predicate OnCall(s: Sys, c: Id) {
    c in s.tasks && (s.tasks[c].InCall? || s.tasks[c] == Called) && c in s.db.actions
  }

  function BriefOf(db: Ledger, a: Id): Brief
    requires HasInput(db, a)
  {
    Brief(InputOf(db, a), db.attempts[a].policy, db.messages[InputOf(db, a).message].text)
  }

  /** The stored proof is passed on only if the ledger still yields it. `tail` is what
      the query returns; `ok` is false when it cannot be run. */
  function Rechecked(db: Ledger, action: Action, message: Id, tail: seq<Id>, ok: bool): Option<TailProof> {
    if ok && action.proof == TailOf(db, action.ref.dialog, message, tail) then action.proof else None
  }

  function Goto(s: Sys, c: Id, pc: Pc): Sys {
    s.(tasks := s.tasks[c := pc])
  }

  function StatusFor(v: Verdict): ActionStatus {
    match v
    case Doubt => Unsettled
    case Nonsense => Unsettled
    case Declines => Rejected
    case _ => Acknowledged
  }

  /** The state a task enters when its provider call returns. A steer may fall
      back to the queue; for the other calls that outcome is outside the contract. */
  function AfterCall(kind: ActionKind, v: Verdict): Pc {
    match kind
    case DispatchStart => if v == Good then Accepted else if v == Declines then Declined else Unsure
    case StopAttempt => if v == Good then Finish(Acknowledged) else if v == Declines then Finish(Rejected) else Unsure
    case SteerMessage => if v == Nonsense then Contradicted else Settle(v)
    case _ => if v == Nonsense || v == Fallback then Contradicted else Settle(v)
  }

  /** The transaction a task runs from its current state, and where it goes next;
      `ok` is false when the storage fails and nothing is committed. */
  function CommitTask(s: Sys, c: Id, ok: bool): Sys
    requires c in s.tasks && c in s.db.actions
  {
    var action := s.db.actions[c];
    match s.tasks[c]
    case Accepted =>
      var r := MarkStarted(s.db, action.ref);
      if ok && r.Ok? then Goto(s.(db := r.value), c, Finish(Acknowledged)) else Goto(s, c, Unsure)
    case Declined =>
      Goto(s.(db := if ok then Commits(s.db, ObserveRefused(s.db, action.ref)) else s.db), c, Finish(Rejected))
    case Unsure =>
      var d := if ok then Commits(s.db, MarkUnknown(s.db, action.ref, UnknownEffect)) else s.db;
      Goto(s.(db := d), c, Finish(Unsettled))
    case Contradicted =>
      var d := if ok then Commits(s.db, MarkUnknown(s.db, action.ref, UnknownEffect)) else s.db;
      Goto(s.(db := d), c, Settle(Doubt))
    case Settle(v) =>
      var r := if action.kind == SteerMessage
               then FinishSteer(s.db, action.ref, action.message, v)
               else FinishResponse(s.db, action, v);
      Goto(s.(db := if ok then Commits(s.db, r) else s.db), c, Finish(StatusFor(v)))
    case Finish(status) =>
      var d := if ok then SetAction(s.db, c, Inflight, status) else s.db;
      if action.kind == DispatchStart then Goto(s.(db := d), c, GaveIn) else s.(db := d, tasks := s.tasks - {c})
    case _ => s
  }

  /** A claim or a start that is durable although its commit reports an error: the
      worker drops the claimed action, and the started attempt is taken for unknown.
      Everywhere else a worker goes on as if it had been told. */
  function LoseReply(s: Sys, c: Id): Sys {
    if At(s, c, Accepted) then
      Goto(s.(db := Commits(s.db, MarkStarted(s.db, s.db.actions[c].ref))), c, Unsure)
    else if ClaimedNext(s.db, c) && c !in s.tasks then s.(db := SetAction(s.db, c, Pending, Inflight))
    else s
  }

  /** One step; a label whose guard fails changes nothing. */
  function Do(s: Sys, l: Label): Sys {
    if !s.running then
      if l.Restart? && Recover(s.db).Ok? then s.(db := Recover(s.db).value, running := true) else s
    else
      match l
      case Submits(id, c, x, y, space, op) => s.(db := Submit(s.db, id, c, x, y, space, op).0)
      case Dispatch(candidate, a, g) =>
        if s.gate.None? then s.(db := Commits(s.db, DispatchNext(s.db, candidate, a, g))) else s
      case Claim(c) =>
        if ClaimedNext(s.db, c) && c !in s.tasks then
          var first := if s.db.actions[c].kind == DispatchStart then AwaitGate else Called;
          Goto(s.(db := SetAction(s.db, c, Pending, Inflight)), c, first)
        else s
      case TakeGate(c) => if At(s, c, AwaitGate) && s.gate.None? then Goto(s.(gate := Some(c)), c, Gated) else s
      case Authenticate(c, ready, ok) =>
        if !At(s, c, Gated) then s
        else if ready then Goto(s, c, Authenticated)
        else Goto(s.(db := if ok then SetAction(s.db, c, Inflight, Pending) else s.db), c, GaveIn)
      case ReadAttempt(c) =>
        if !At(s, c, Authenticated) then s
        else
          var a := s.db.actions[c].ref.attempt;
          var serving := HasInput(s.db, a) && s.db.attempts[a].phase == Dispatching;
          Goto(s, c, if serving then Ready(BriefOf(s.db, a)) else Unsure)
      case GiveUp(c) => if Briefed(s, c) then Goto(s, c, Unsure) else s
      case Recheck(c, tail, ok) =>
        if Briefed(s, c) then
          var brief := s.tasks[c].brief;
          Goto(s, c, Vetted(brief, Rechecked(s.db, s.db.actions[c], brief.context.message, tail, ok)))
        else s
      case Issue(c) =>
        if Poised(s, c) then
          var calls := s.calls + multiset{s.db.actions[c].ref.attempt};
          Goto(s.(calls := calls), c, InCall(s.tasks[c].brief, s.tasks[c].proof))
        else s
      case Return(c, v) =>
        if OnCall(s, c) then Goto(s, c, AfterCall(s.db.actions[c].kind, v)) else s
      case Commit(c, ok) => if c in s.tasks && c in s.db.actions then CommitTask(s, c, ok) else s
      case Unheard(c) => LoseReply(s, c)
      case LetGo(c) => if At(s, c, GaveIn) then s.(tasks := s.tasks - {c}, gate := None) else s
      case Deliver(ref, e, valid, marker, stop) => s.(db := Commits(s.db, Observe(s.db, ref, e, valid, marker, stop)))
      case LoseTrack(a) =>
        if a in s.db.attempts
        then s.(db := Commits(s.db, MarkUnknown(s.db, RefOf(s.db, a), UnknownEffect)))
        else s
      case ReconcileAnswer(ref, newId, e, valid, marker, stop) =>
        s.(db := Commits(s.db, Reconcile(s.db, ref, newId, e, valid, marker, stop)))
      case Artifact(ref, bytes, marker, stop) =>
        s.(db := Commits(s.db, PublishArtifact(s.db, ref, bytes, marker, stop)))
      case Install(op, request) => if s.gate.None? then s.(db := Commits(s.db, InstallHold(s.db, op, request))) else s
      case Release(op, request) => if s.gate.None? then s.(db := Commits(s.db, ReleaseHold(s.db, op, request))) else s
      case Delete(op, request) => if s.gate.None? then s.(db := Commits(s.db, DeleteDialog(s.db, op, request))) else s
      case PolicyFailure => s.(db := BlockPolicy(s.db))
      case Crash => s.(tasks := map[], gate := None, running := false)
      case Restart => s
  }

  /** A fresh volume. */
  function Initial(epoch: int, registry: int): Sys {
    Sys(Ledger(NodeState(None, Idle, IsBlocked, {PolicyUnavailable}, false, 0, 0, 0, 0, 1, 1, epoch, registry),
               map[], map[], map[], map[], map[], map[], map[], map[], map[], [], map[], map[], map[], map[], 1,
               map[], map[NodeScope := 1], map[], {}, 0),
        map[], None, true, multiset{})
  }

  /** The state after a run. */
  function After(s: Sys, run: seq<Label>): Sys
    decreases |run|
  {
    if run == [] then s else Do(After(s, run[..|run| - 1]), run[|run| - 1])
  }

  /** A state of some run from a fresh volume. */
  ghost predicate Reachable(s: Sys) {
    exists epoch, registry, run :: s == After(Initial(epoch, registry), run)
  }

  /** A later state of a run through `s`. */
  ghost predicate Reaches(s: Sys, t: Sys) {
    exists run :: t == After(s, run)
  }
}
