/** The native mapping store: transitions on the persisted state, with a commit that
    may fail before or after the new file becomes visible. */
module MappingStore {
  import opened LedgerTypes
  import opened MappingTypes
  import opened FailedTail

  const BLANK := Mapping(0, map[], map[])

  /** The outcome of writing, renaming and syncing a candidate file. */
  datatype Write = Committed | FailedBefore | Indeterminate

  datatype Intent = Intent(kind: DispatchKind, ref: AttemptRef, context: Boundary, policy: Id, prompt: Id,
      thread: Native, proof: Option<TailProof>)

  datatype Request =
    | BeginProcess
    | PutIntent(intent: Intent)
    | AcknowledgeThread(ref: AttemptRef, thread: Native, process: int)
    | BeginTurn(ref: AttemptRef)
    | ActivateTurn(ref: AttemptRef, turn: Native, process: int)
    | EndTurn(ref: AttemptRef)

  /** What a transition asks for: an error, nothing, or a new file. */
  datatype Decision = Refuse | Nothing | Store(candidate: Mapping)

  function WithAttempt(m: Mapping, a: NativeAttempt): Mapping {
    m.(attempts := m.attempts[a.ref := a])
  }

  predicate IntentOk(i: Intent) {
    && ValidRef(i.ref) && ValidBoundary(i.context) && WellNamed(i.policy) && WellNamed(i.prompt)
    && (i.kind == StartKind ==> i.thread.Blank?) && (i.kind == ResumeKind ==> i.thread.Named?)
  }

  /** The boundary lies below the dialog's native high-water mark. */
  predicate Below(m: Mapping, d: Id, b: Boundary) {
    d in m.dialogs && b.sequence < m.dialogs[d].boundary.sequence
  }

  ghost function DecideIntent(m: Mapping, i: Intent): Decision {
    if !IntentOk(i) || m.process < 1 || i.ref in m.attempts then Refuse
    else if Below(m, i.ref.dialog, i.context)
        && !TailHolds(m, i.ref, i.context, i.policy, i.prompt, i.proof) then Refuse
    else Store(WithAttempt(m, Intended(i, m.process)))
  }

  /** The attempt as the intent to dispatch it is stored. */
  function Intended(i: Intent, process: int): NativeAttempt {
    NativeAttempt(i.proof, i.ref, i.context, i.policy, i.prompt, i.kind, i.thread, Blank, process, ThreadDispatching)
  }

  function DecideThread(m: Mapping, ref: AttemptRef, thread: Native, process: int): Decision {
    if !ValidRef(ref) || !thread.Named? || process < 1 || ref !in m.attempts then Refuse
    else
      var a := m.attempts[ref];
      if a.stage != ThreadDispatching || a.ref != ref || a.process != process || process != m.process
         || (a.kind == StartKind && !a.thread.Blank?) || (a.kind == ResumeKind && a.thread != thread) then Refuse
      else Store(WithAttempt(m, a.(thread := thread, stage := ThreadAcknowledged)))
  }

  function DecideTurn(m: Mapping, ref: AttemptRef): Decision {
    if ref !in m.attempts then Refuse
    else
      var a := m.attempts[ref];
      if a.stage != ThreadAcknowledged || !a.thread.Named? || a.process != m.process then Refuse
      else Store(m.(attempts := m.attempts[ref := a.(stage := TurnDispatching)]))
  }

  /** The dialog admits the turn: the same thread, and a boundary at the high-water
      mark, above it, or below it with a proof. */
  ghost predicate DialogAdmits(m: Mapping, a: NativeAttempt, ref: AttemptRef) {
    ref.dialog in m.dialogs ==>
      var dialog := m.dialogs[ref.dialog];
      && dialog.thread == a.thread
      && (Below(m, ref.dialog, a.context) ==> TailHolds(m, ref, a.context, a.policy, a.prompt, a.proof))
      && (a.context.sequence == dialog.boundary.sequence ==> a.context == dialog.boundary)
  }

  function Advanced(m: Mapping, a: NativeAttempt, ref: AttemptRef, turn: Native): Mapping {
    var passed := ref.dialog in m.dialogs && m.dialogs[ref.dialog].boundary.sequence > a.context.sequence;
    var boundary := if passed then m.dialogs[ref.dialog].boundary else a.context;
    Mapping(m.process, m.attempts[ref := a.(turn := turn, stage := TurnActive)],
            m.dialogs[ref.dialog := NativeDialog(a.thread, boundary, a.policy)])
  }

  ghost function DecideActivate(m: Mapping, ref: AttemptRef, turn: Native, process: int): Decision {
    if !ValidRef(ref) || !turn.Named? || process < 1 || ref !in m.attempts then Refuse
    else
      var a := m.attempts[ref];
      if a.stage != TurnDispatching || a.ref != ref || !a.thread.Named? || a.process != process
          || process != m.process then Refuse
      else if !DialogAdmits(m, a, ref) then Refuse
      else Store(Advanced(m, a, ref, turn))
  }

  function DecideEnd(m: Mapping, ref: AttemptRef): Decision {
    if ref !in m.attempts || m.attempts[ref].stage == TurnTerminal then Nothing
    else if m.attempts[ref].stage != TurnActive then Refuse
    else Store(m.(attempts := m.attempts[ref := m.attempts[ref].(stage := TurnTerminal)]))
  }

  ghost function Decide(m: Mapping, r: Request): Decision {
    match r
    case BeginProcess => if m.process >= MAXIMUM_SAFE then Refuse else Store(m.(process := m.process + 1))
    case PutIntent(i) => DecideIntent(m, i)
    case AcknowledgeThread(ref, thread, process) => DecideThread(m, ref, thread, process)
    case BeginTurn(ref) => DecideTurn(m, ref)
    case ActivateTurn(ref, turn, process) => DecideActivate(m, ref, turn, process)
    case EndTurn(ref) => DecideEnd(m, ref)
  }

  /** What a process that opens a directory with this file starts from. */
  function Read(file: Option<Mapping>): Mapping {
    if file.Some? then file.value else BLANK
  }

  /** Memory, the directory and the poison flag. The last of `files` is the visible
      file (none before the first write). The ones before it are those that a loss of
      power may bring back: renamed over since the directory was last synced. */
  datatype Disk = Disk(contents: Mapping, files: seq<Option<Mapping>>, poisoned: bool)

  /** commitCandidateLocked behind writeStateLocked. */
  function Commit(s: Disk, candidate: Mapping, w: Write): Disk {
    match w
    case Committed => Disk(candidate, [Some(candidate)], s.poisoned)
    case FailedBefore => s
    case Indeterminate => Disk(candidate, s.files + [Some(candidate)], true)
  }

  ghost function Apply(s: Disk, r: Request, w: Write): Disk {
    if s.poisoned || !Decide(s.contents, r).Store? then s else Commit(s, Decide(s.contents, r).candidate, w)
  }

  class NativeStore {
    var contents: Mapping
    var files: seq<Option<Mapping>>
    var poisoned: bool

    ghost function State(): Disk
      reads this
    {
      Disk(contents, files, poisoned)
    }

    constructor (directory: seq<Option<Mapping>>)
      requires |directory| > 0
      ensures State() == Disk(Read(directory[|directory| - 1]), directory, false)
    {
      contents := Read(directory[|directory| - 1]);
      files := directory;
      poisoned := false;
    }

    method CommitCandidate(candidate: Mapping, w: Write) returns (ok: bool)
      modifies this
      ensures State() == Commit(old(State()), candidate, w) && (ok <==> w == Committed)
    {
      if w == FailedBefore { return false; }
      files := if w == Committed then [Some(candidate)] else files + [Some(candidate)];
      contents := candidate;
      if w == Indeterminate { poisoned := true; }
      return w == Committed;
    }

    method StartProcess(w: Write) returns (generation: Option<int>)
      modifies this
      ensures State() == Apply(old(State()), BeginProcess, w)
      ensures generation.Some? ==> generation.value == contents.process == old(contents.process) + 1 && !poisoned
    {
      if poisoned || contents.process >= MAXIMUM_SAFE { return None; }
      var candidate := contents.(process := contents.process + 1);
      var ok := CommitCandidate(candidate, w);
      return if ok then Some(candidate.process) else None;
    }

    method StoreIntent(i: Intent, w: Write) returns (ok: bool)
      modifies this
      ensures State() == Apply(old(State()), PutIntent(i), w)
      ensures ok ==> i.ref in contents.attempts && contents.attempts[i.ref].stage == ThreadDispatching
    {
      if !IntentOk(i) || poisoned || contents.process < 1 || i.ref in contents.attempts { return false; }
      if i.ref.dialog in contents.dialogs && i.context.sequence < contents.dialogs[i.ref.dialog].boundary.sequence {
        var held := ValidFailedTail(contents, i.ref, i.context, i.policy, i.prompt, i.proof);
        if !held { return false; }
      }
      ok := CommitCandidate(WithAttempt(contents, Intended(i, contents.process)), w);
    }

    method Acknowledge(ref: AttemptRef, thread: Native, process: int, w: Write) returns (ok: bool)
      modifies this
      ensures State() == Apply(old(State()), AcknowledgeThread(ref, thread, process), w)
      ensures ok ==>
        && ref in contents.attempts && contents.attempts[ref].stage == ThreadAcknowledged
        && contents.attempts[ref].thread == thread
    {
      if !ValidRef(ref) || !thread.Named? || process < 1 || poisoned || ref !in contents.attempts { return false; }
      var a := contents.attempts[ref];
      if a.stage != ThreadDispatching || a.ref != ref || a.process != process || process != contents.process
         || (a.kind == StartKind && !a.thread.Blank?) || (a.kind == ResumeKind && a.thread != thread) { return false; }
      ok := CommitCandidate(WithAttempt(contents, a.(thread := thread, stage := ThreadAcknowledged)), w);
    }

    method OpenTurn(ref: AttemptRef, w: Write) returns (ok: bool)
      modifies this
      ensures State() == Apply(old(State()), BeginTurn(ref), w)
      ensures ok ==> ref in contents.attempts && contents.attempts[ref].stage == TurnDispatching
    {
      if poisoned || ref !in contents.attempts { return false; }
      var a := contents.attempts[ref];
      if a.stage != ThreadAcknowledged || !a.thread.Named? || a.process != contents.process { return false; }
      ok := CommitCandidate(contents.(attempts := contents.attempts[ref := a.(stage := TurnDispatching)]), w);
    }

    method Activate(ref: AttemptRef, turn: Native, process: int, w: Write) returns (ok: bool)
      modifies this
      ensures State() == Apply(old(State()), ActivateTurn(ref, turn, process), w)
      ensures ok ==> ref in contents.attempts && contents.attempts[ref].stage == TurnActive
    {
      if !ValidRef(ref) || !turn.Named? || process < 1 || poisoned || ref !in contents.attempts { return false; }
      var a := contents.attempts[ref];
      if a.stage != TurnDispatching || a.ref != ref || !a.thread.Named? || a.process != process
          || process != contents.process { return false; }
      if ref.dialog in contents.dialogs {
        var dialog := contents.dialogs[ref.dialog];
        if dialog.thread != a.thread
            || (a.context.sequence == dialog.boundary.sequence && a.context != dialog.boundary) { return false; }
        if a.context.sequence < dialog.boundary.sequence {
          var held := ValidFailedTail(contents, ref, a.context, a.policy, a.prompt, a.proof);
          if !held { return false; }
        }
      }
      ok := CommitCandidate(Advanced(contents, a, ref, turn), w);
    }

    method Terminal(ref: AttemptRef, w: Write) returns (ok: bool)
      modifies this
      ensures State() == Apply(old(State()), EndTurn(ref), w)
      ensures ok && ref in contents.attempts ==> contents.attempts[ref].stage == TurnTerminal
    {
      if poisoned { return false; }
      if ref !in contents.attempts || contents.attempts[ref].stage == TurnTerminal { return true; }
      if contents.attempts[ref].stage != TurnActive { return false; }
      var ended := contents.attempts[ref].(stage := TurnTerminal);
      ok := CommitCandidate(contents.(attempts := contents.attempts[ref := ended]), w);
    }
  }

  /** openMappingStore on what the directory holds: an invalid file is refused. */
  method OpenStore(directory: seq<Option<Mapping>>) returns (store: Option<NativeStore>)
    requires |directory| > 0
    ensures var found := directory[|directory| - 1];
      && (store.None? <==> found.Some? && !ValidMapping(found.value))
      && (store.Some? ==> fresh(store.value) && store.value.State() == Disk(Read(found), directory, false))
  {
    var found := directory[|directory| - 1];
    if found.Some? && !ValidMapping(found.value) { return None; }
    var native := new NativeStore(directory);
    return Some(native);
  }

  // ------------------------------------------------------------- transitions

  /** How one mapping may follow another. */
  ghost predicate Advances(o: Mapping, n: Mapping) {
    && n.process >= o.process
    && (forall d :: d in o.dialogs ==>
          && d in n.dialogs && n.dialogs[d].thread == o.dialogs[d].thread
          && n.dialogs[d].boundary.sequence >= o.dialogs[d].boundary.sequence
          && (n.dialogs[d].boundary.sequence == o.dialogs[d].boundary.sequence ==>
               n.dialogs[d].boundary == o.dialogs[d].boundary))
    && (forall k :: k in o.attempts ==> k in n.attempts && Follows(o.attempts[k], n.attempts[k]))
  }

  function Rank(s: Stage): int {
    match s
    case ThreadDispatching => 0
    case ThreadAcknowledged => 1
    case TurnDispatching => 2
    case TurnActive => 3
    case TurnTerminal => 4
  }

  /** An attempt keeps what it was recorded with and only moves forward. */
  ghost predicate Follows(o: NativeAttempt, n: NativeAttempt) {
    && n == o.(thread := n.thread, turn := n.turn, stage := n.stage) && Rank(n.stage) >= Rank(o.stage)
    && (!o.thread.Blank? ==> n.thread == o.thread) && (!o.turn.Blank? ==> n.turn == o.turn)
  }

  lemma DecisionAdvances(m: Mapping, r: Request)
    requires ValidMapping(m) && Decide(m, r).Store?
    ensures ValidMapping(Decide(m, r).candidate) && Advances(m, Decide(m, r).candidate)
  {
    hide TailHolds;
    match r
    case BeginProcess =>
    case PutIntent(i) =>
    case AcknowledgeThread(ref, thread, process) =>
    case BeginTurn(ref) =>
    case ActivateTurn(ref, turn, process) => ActivationAdvances(m, ref, turn, process);
    case EndTurn(ref) =>
  }

  lemma ActivationAdvances(m: Mapping, ref: AttemptRef, turn: Native, process: int)
    requires ValidMapping(m) && DecideActivate(m, ref, turn, process).Store?
    ensures ValidMapping(DecideActivate(m, ref, turn, process).candidate)
    ensures Advances(m, DecideActivate(m, ref, turn, process).candidate)
  {
    hide TailHolds;
    var a := m.attempts[ref];
    assert ValidAttempt(ref, a, m.process);
    if ref.dialog in m.dialogs { assert ValidDialog(ref.dialog, m.dialogs[ref.dialog]); }
  }

  // -------------------------------------------------------------------- runs

  /** Requests with the fate of their write, and restarts of the process. A restart
      finds the visible file, or after a loss of power the file at `found` of those
      that may come back. */
  datatype Op = Do(request: Request, write: Write) | Reopen(found: nat)

  ghost function Step(s: Disk, op: Op): Disk {
    match op
    case Do(r, w) => Apply(s, r, w)
    case Reopen(i) => if i < |s.files| then Disk(Read(s.files[i]), s.files[..i + 1], false) else s
  }

  ghost function RunFrom(s: Disk, ops: seq<Op>): Disk {
    if ops == [] then s else Step(RunFrom(s, ops[..|ops| - 1]), ops[|ops| - 1])
  }

  const NEW_DISK := Disk(BLANK, [None], false)

  ghost function Run(ops: seq<Op>): Disk {
    RunFrom(NEW_DISK, ops)
  }

  /** What the directory certainly holds. */
  function Confirmed(s: Disk): Mapping
    requires |s.files| > 0
  {
    Read(s.files[0])
  }

  /** Memory is the visible file, every file is valid and follows those before it. */
  ghost predicate InStep(s: Disk) {
    && |s.files| > 0 && s.contents == Read(s.files[|s.files| - 1])
    && (forall i :: 0 <= i < |s.files| ==> ValidMapping(Read(s.files[i])))
    && (forall i, j :: 0 <= i <= j < |s.files| ==> Advances(Read(s.files[i]), Read(s.files[j])))
  }

  lemma AdvancesSelf(m: Mapping)
    ensures Advances(m, m)
  {
  }

  lemma AdvancesTrans(a: Mapping, b: Mapping, c: Mapping)
    requires Advances(a, b) && Advances(b, c)
    ensures Advances(a, c)
  {
  }

  lemma CommitInStep(s: Disk, candidate: Mapping, w: Write)
    requires InStep(s) && ValidMapping(candidate) && Advances(s.contents, candidate)
    ensures InStep(Commit(s, candidate, w))
  {
    hide Advances, ValidMapping;
    AdvancesSelf(candidate);
    forall i | 0 <= i < |s.files| ensures Advances(Read(s.files[i]), candidate) {
      AdvancesTrans(Read(s.files[i]), s.contents, candidate);
    }
  }

  lemma StepInStep(s: Disk, op: Op)
    requires InStep(s)
    ensures InStep(Step(s, op))
  {
    hide Decide, Advances, ValidMapping;
    match op
    case Do(r, w) =>
      if Decide(s.contents, r).Store? {
        DecisionAdvances(s.contents, r);
        CommitInStep(s, Decide(s.contents, r).candidate, w);
      }
    case Reopen(_) =>
  }

  lemma {:induction false} StoreValid(ops: seq<Op>)
    ensures InStep(Run(ops))
    decreases |ops|
  {
    hide Step, ValidMapping;
    if ops == [] {
      AdvancesSelf(BLANK);
      assert ValidMapping(BLANK) by { BlankValid(); }
    } else {
      StoreValid(ops[..|ops| - 1]);
      StepInStep(Run(ops[..|ops| - 1]), ops[|ops| - 1]);
    }
  }

  lemma BlankValid()
    ensures ValidMapping(BLANK)
  {
  }

  /** A restart that does not find the last rename. */
  predicate Loses(s: Disk, op: Op) {
    op.Reopen? && op.found < |s.files| - 1
  }

  /** Over every run of requests, commit faults, restarts and losses of power: the
      mapping is valid, so any reopen succeeds. Memory advances with every step but a
      restart that loses a rename, and such a restart goes back no further than to
      what was confirmed: the process generation, threads, boundaries and stages of a
      confirmed mapping never go back. A confirmed write is the whole of memory. */
  lemma MappingAdvances(ops: seq<Op>, op: Op)
    ensures var s := Run(ops);
      var t := Step(s, op);
      && |s.files| > 0 && |t.files| > 0 && ValidMapping(t.contents)
      && (!Loses(s, op) ==> Advances(s.contents, t.contents))
      && Advances(Confirmed(s), t.contents) && Advances(Confirmed(s), Confirmed(t))
      && (op.Do? && op.write == Committed && t != s ==> Confirmed(t) == t.contents)
  {
    hide Decide, Advances, ValidMapping;
    StoreValid(ops);
    var s := Run(ops);
    var t := Step(s, op);
    StepInStep(s, op);
    AdvancesSelf(s.contents);
    AdvancesSelf(Confirmed(s));
    if op.Do? && t != s {
      DecisionAdvances(s.contents, op.request);
      AdvancesTrans(Confirmed(s), s.contents, t.contents);
    }
  }

  /** After an indeterminate commit nothing is written until a reopen. */
  lemma {:induction false} NothingAfterPoison(s: Disk, ops: seq<Op>)
    requires s.poisoned && forall i :: 0 <= i < |ops| ==> ops[i].Do?
    ensures RunFrom(s, ops) == s
    decreases |ops|
  {
    hide Decide;
    if ops != [] { NothingAfterPoison(s, ops[..|ops| - 1]); }
  }
}
