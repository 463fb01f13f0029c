/** The Codex adapter's persisted native mapping, as values. A negative number stands
    for a text that is not a well-formed identifier or hash. */
module MappingTypes {
  import opened LedgerTypes

  const MAXIMUM_SAFE := 9007199254740991

  predicate WellNamed(x: Id) {
    x >= 0
  }

  /** A native identifier: absent, usable, or a text outside its bounds. */
  datatype Native = Blank | Named(id: Id) | Unusable

  datatype DispatchKind = StartKind | ResumeKind

  datatype Stage = ThreadDispatching | ThreadAcknowledged | TurnDispatching | TurnActive | TurnTerminal

  datatype NativeAttempt = NativeAttempt(
    proof: Option<TailProof>, ref: AttemptRef, context: Boundary, policy: Id, prompt: Id, kind: DispatchKind,
    thread: Native, turn: Native, process: int, stage: Stage)

  datatype NativeDialog = NativeDialog(thread: Native, boundary: Boundary, policy: Id)

  datatype Mapping = Mapping(process: int, attempts: map<AttemptRef, NativeAttempt>, dialogs: map<Id, NativeDialog>)

  predicate ValidRef(r: AttemptRef) {
    WellNamed(r.dialog) && WellNamed(r.request) && WellNamed(r.attempt) && 0 < r.generation <= MAXIMUM_SAFE
  }

  predicate ValidBoundary(b: Boundary) {
    WellNamed(b.message) && 0 < b.sequence <= MAXIMUM_SAFE
  }

  predicate ValidStage(a: NativeAttempt) {
    match a.stage
    case ThreadDispatching => a.turn.Blank? && (a.kind == StartKind ==> a.thread.Blank?)
        && (a.kind == ResumeKind ==> a.thread.Named?)
    case ThreadAcknowledged => a.thread.Named? && a.turn.Blank?
    case TurnDispatching => a.thread.Named? && a.turn.Blank?
    case TurnActive => a.thread.Named? && a.turn.Named?
    case TurnTerminal => a.thread.Named? && a.turn.Named?
  }

  predicate ValidAttempt(k: AttemptRef, a: NativeAttempt, process: int) {
    && k == a.ref && ValidRef(a.ref) && ValidBoundary(a.context) && WellNamed(a.policy) && WellNamed(a.prompt)
    && 0 <= a.process <= process && ValidStage(a)
  }

  predicate ValidDialog(d: Id, row: NativeDialog) {
    WellNamed(d) && row.thread.Named? && ValidBoundary(row.boundary) && WellNamed(row.policy)
  }

  /** validateMappingState */
  predicate ValidMapping(m: Mapping) {
    && 0 <= m.process <= MAXIMUM_SAFE
    && (forall k :: k in m.attempts ==> ValidAttempt(k, m.attempts[k], m.process))
    && (forall d :: d in m.dialogs ==> ValidDialog(d, m.dialogs[d]))
  }
}
