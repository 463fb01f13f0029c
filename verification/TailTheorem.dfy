/** From the ledger's proof to the native activation: a turn below the high-water
    mark starts only over attempts the ledger knew to have failed without effect. */
module TailTheorem {
  import opened LedgerTypes
  import opened LedgerTail
  import opened MappingTypes
  import opened FailedTail
  import Store = MappingStore
  import opened Transactions
  import opened Supervisor
  import opened SystemInvariant
  import opened SystemSteps
  import opened SupervisorTheorems
  import opened RunTheorems
  import opened Absorption

  // -------------------------------------------------------------- the recheck

  /** performDispatch checks the proof stored with the action against the ledger as
      it is now, and passes it on only if it still holds. */
  method RecheckProof(db: Ledger, action: Action, message: Id, rows: seq<Id>) returns (passed: Option<TailProof>)
    requires TailQuery(db, action.ref.dialog, message, rows)
    ensures passed == Rechecked(db, action, message, rows, true)
    ensures passed.Some? ==> passed == action.proof && Attests(db, action.ref.dialog, message, passed.value)
  {
    if action.proof.None? { return None; }
    var current := FailedTailProof(db, action.ref.dialog, message, rows);
    return if current == action.proof then action.proof else None;
  }

  /** The ledger yields this proof for the input message. */
  ghost predicate Attests(db: Ledger, dialog: Id, message: Id, proof: TailProof) {
    exists tail :: TailOf(db, dialog, message, tail) == Some(proof)
  }

  /** The dispatch `c` is about to call the provider, or calls it, with this proof. */
  predicate Carries(s: Sys, c: Id, brief: Brief, proof: TailProof) {
    c in s.tasks && (s.tasks[c] == Vetted(brief, Some(proof)) || s.tasks[c] == InCall(brief, Some(proof)))
  }

  /** A step of `c` in state `s` that checks the proof against the ledger. */
  ghost predicate Checks(s: Sys, l: Label, c: Id, brief: Brief, proof: TailProof) {
    l.Recheck? && l.c == c && c in s.db.actions
        && Attests(s.db, s.db.actions[c].ref.dialog, brief.context.message, proof)
  }

  lemma ProofCame(s: Sys, l: Label, c: Id, brief: Brief, proof: TailProof)
    requires Carries(Do(s, l), c, brief, proof)
    ensures c in s.tasks && (Carries(s, c, brief, proof) || Checks(s, l, c, brief, proof))
  {
    hide Submit, DispatchNext, Observe, MarkUnknown, Reconcile, PublishArtifact, SetAction, ClaimedNext, InstallHold,
         ReleaseHold, DeleteDialog, BlockPolicy, Recover, AfterCall, CommitTask, TailOf, HasInput, Attests;
    if s.running && l.Commit? && l.c in s.tasks && l.c in s.db.actions { CommitCarries(s, l.c, l.ok, c, brief, proof); }
    if s.running && l.Return? && OnCall(s, l.c) { ReturnCarries(s.db.actions[l.c].kind, l.verdict); }
    if s.running && l.Recheck? && l.c == c
        && Briefed(s, c) { Attested(s.db, s.db.actions[c], s.tasks[c].brief.context.message, l.tail, l.ok); }
  }

  lemma Attested(db: Ledger, action: Action, message: Id, tail: seq<Id>, ok: bool)
    ensures var r := Rechecked(db, action, message, tail, ok); r.Some? ==>
        Attests(db, action.ref.dialog, message, r.value)
  {
    hide TailOf;
  }

  lemma ReturnCarries(kind: ActionKind, v: Verdict)
    ensures !AfterCall(kind, v).Vetted? && !AfterCall(kind, v).InCall?
  {
  }

  lemma CommitCarries(s: Sys, e: Id, ok: bool, c: Id, brief: Brief, proof: TailProof)
    requires e in s.tasks && e in s.db.actions && Carries(CommitTask(s, e, ok), c, brief, proof)
    ensures Carries(s, c, brief, proof)
  {
    hide MarkStarted, ObserveRefused, FinishSteer, FinishResponse, MarkUnknown, SetAction;
  }

  // ------------------------------------------------- the node and the adapter

  /** The supervisor and the adapter's mapping store. */
  datatype World = World(sys: Sys, disk: Store.Disk)

  datatype Move = OfNode(step: Label) | OfStore(op: Store.Op)

  /** An intent is what a dispatch in its provider call hands to the adapter; only a
      resumed dialog gets the proof. */
  predicate HandsOver(s: Sys, c: Id, i: Store.Intent) {
    && c in s.tasks && c in s.db.actions && s.tasks[c].InCall? && s.db.actions[c].ref == i.ref
    && i.context == s.tasks[c].brief.context && i.policy == s.tasks[c].brief.policy
    && i.prompt == s.tasks[c].brief.prompt
    && i.proof == (if i.kind == ResumeKind then s.tasks[c].proof else None)
  }

  ghost predicate Permitted(s: Sys, op: Store.Op) {
    op.Do? && op.request.PutIntent? ==> exists c :: HandsOver(s, c, op.request.intent)
  }

  ghost function Act(w: World, move: Move): World {
    match move
    case OfNode(l) => w.(sys := Do(w.sys, l))
    case OfStore(op) => if Permitted(w.sys, op) then w.(disk := Store.Step(w.disk, op)) else w
  }

  ghost function Played(w: World, moves: seq<Move>): World
    decreases |moves|
  {
    if moves == [] then w else Act(Played(w, moves[..|moves| - 1]), moves[|moves| - 1])
  }

  /** A fresh volume and an empty mapping directory. */
  function NewWorld(epoch: int, registry: int): World {
    World(Initial(epoch, registry), Store.NEW_DISK)
  }

  lemma {:induction false} WorldSafe(epoch: int, registry: int, moves: seq<Move>)
    ensures var w := Played(NewWorld(epoch, registry), moves); SysInv(w.sys) && Store.InStep(w.disk)
    decreases |moves|
  {
    hide SysInv, Do, Store.Step, Initial, Within, Store.InStep, Permitted;
    if moves == [] {
      RunsSafe(epoch, registry, []);
      Store.StoreValid([]);
    } else {
      WorldSafe(epoch, registry, moves[..|moves| - 1]);
      var w := Played(NewWorld(epoch, registry), moves[..|moves| - 1]);
      match moves[|moves| - 1]
      case OfNode(l) => StepKeeps(w.sys, l);
      case OfStore(op) => Store.StepInStep(w.disk, op);
    }
  }

  // ---------------------------------------------------------- where proofs are

  /** At move `i` the dispatch of `ref` checked this proof for its input. */
  ghost predicate CheckedAt(start: World, moves: seq<Move>, i: int, ref: AttemptRef, context: Boundary,
                            proof: TailProof) {
    && 0 <= i < |moves| && moves[i].OfNode? && moves[i].step.Recheck?
    && var db := Played(start, moves[..i]).sys.db;
      && moves[i].step.c in db.actions && db.actions[moves[i].step.c].ref == ref
      && Attests(db, ref.dialog, context.message, proof)
  }

  ghost predicate Checked(start: World, moves: seq<Move>, ref: AttemptRef, context: Boundary, proof: TailProof) {
    exists i :: CheckedAt(start, moves, i, ref, context, proof)
  }

  lemma StillChecked(start: World, moves: seq<Move>, ref: AttemptRef, context: Boundary, proof: TailProof)
    requires moves != [] && Checked(start, moves[..|moves| - 1], ref, context, proof)
    ensures Checked(start, moves, ref, context, proof)
  {
    hide Played, Attests;
    var before := moves[..|moves| - 1];
    var i :| CheckedAt(start, before, i, ref, context, proof);
    assert before[..i] == moves[..i];
    assert CheckedAt(start, moves, i, ref, context, proof);
  }

  /** Every proof a task carries has been checked. */
  lemma {:induction false} TasksChecked(epoch: int, registry: int, moves: seq<Move>, c: Id, brief: Brief,
                                        proof: TailProof)
    requires var s := Played(NewWorld(epoch, registry), moves).sys; Carries(s, c, brief, proof)
    ensures var s := Played(NewWorld(epoch, registry), moves).sys;
      c in s.db.actions && Checked(NewWorld(epoch, registry), moves, s.db.actions[c].ref, brief.context, proof)
    decreases |moves|
  {
    hide SysInv, Do, Store.Step, Initial, Checked, Permitted, Store.InStep, Attests;
    var start := NewWorld(epoch, registry);
    WorldSafe(epoch, registry, moves);
    if moves == [] {
      NobodyCarries(epoch, registry, c, brief, proof);
    } else {
      var before := moves[..|moves| - 1];
      var s := Played(start, before).sys;
      WorldSafe(epoch, registry, before);
      match moves[|moves| - 1]
      case OfStore(_) =>
        TasksChecked(epoch, registry, before, c, brief, proof);
        StillChecked(start, moves, s.db.actions[c].ref, brief.context, proof);
      case OfNode(l) =>
        ProofCame(s, l, c, brief, proof);
        TaskKnown(s, c);
        ActionKept(s, l, c);
        if Carries(s, c, brief, proof) {
          TasksChecked(epoch, registry, before, c, brief, proof);
          StillChecked(start, moves, s.db.actions[c].ref, brief.context, proof);
        } else {
          CheckedNow(start, moves, c, brief, proof);
        }
    }
  }

  lemma NobodyCarries(epoch: int, registry: int, c: Id, brief: Brief, proof: TailProof)
    ensures !Carries(Initial(epoch, registry), c, brief, proof)
  {
  }

  lemma CheckedNow(start: World, moves: seq<Move>, c: Id, brief: Brief, proof: TailProof)
    requires moves != [] && moves[|moves| - 1].OfNode?
    requires Checks(Played(start, moves[..|moves| - 1]).sys, moves[|moves| - 1].step, c, brief, proof)
    ensures Checked(start, moves, Played(start, moves[..|moves| - 1]).sys.db.actions[c].ref, brief.context, proof)
  {
    hide Played, Attests;
    var ref := Played(start, moves[..|moves| - 1]).sys.db.actions[c].ref;
    assert CheckedAt(start, moves, |moves| - 1, ref, brief.context, proof);
  }

  /** Every proof in a mapping has been checked by the dispatch it was stored for. */
  ghost predicate Backed(start: World, moves: seq<Move>, m: Mapping) {
    forall k :: k in m.attempts && m.attempts[k].proof.Some? ==>
        Checked(start, moves, k, m.attempts[k].context, m.attempts[k].proof.value)
  }

  lemma StillBacked(start: World, moves: seq<Move>, m: Mapping)
    requires moves != [] && Backed(start, moves[..|moves| - 1], m)
    ensures Backed(start, moves, m)
  {
    hide Checked;
    forall k | k in m.attempts && m.attempts[k].proof.Some?
      ensures Checked(start, moves, k, m.attempts[k].context, m.attempts[k].proof.value)
    {
      StillChecked(start, moves, k, m.attempts[k].context, m.attempts[k].proof.value);
    }
  }

  /** A transition adds at most the attempt of an intent. */
  lemma NewAttempt(m: Mapping, r: Store.Request, k: AttemptRef)
    requires ValidMapping(m) && Store.Decide(m, r).Store? && k in Store.Decide(m, r).candidate.attempts
    ensures var a := Store.Decide(m, r).candidate.attempts[k];
      || (k in m.attempts && a.proof == m.attempts[k].proof && a.context == m.attempts[k].context)
      || (r.PutIntent? && r.intent.ref == k && r.intent.proof == a.proof && r.intent.context == a.context)
  {
    hide TailHolds;
  }

  lemma CandidateBacked(epoch: int, registry: int, moves: seq<Move>, m: Mapping, r: Store.Request, w: Store.Write)
    requires ValidMapping(m) && Store.Decide(m, r).Store? && moves != []
    requires var start := NewWorld(epoch, registry);
      Backed(start, moves[..|moves| - 1], m) && Permitted(Played(start, moves[..|moves| - 1]).sys, Store.Do(r, w))
    ensures Backed(NewWorld(epoch, registry), moves, Store.Decide(m, r).candidate)
  {
    hide Played, Checked, Store.Decide, ValidMapping, Initial;
    var start := NewWorld(epoch, registry);
    var before := moves[..|moves| - 1];
    var s := Played(start, before).sys;
    StillBacked(start, moves, m);
    var n := Store.Decide(m, r).candidate;
    forall k | k in n.attempts && n.attempts[k].proof.Some?
      ensures Checked(start, moves, k, n.attempts[k].context, n.attempts[k].proof.value)
    {
      NewAttempt(m, r, k);
      if r.PutIntent? && r.intent.ref == k && r.intent.proof == n.attempts[k].proof
          && r.intent.context == n.attempts[k].context {
        var c :| HandsOver(s, c, r.intent);
        TasksChecked(epoch, registry, before, c, s.tasks[c].brief, r.intent.proof.value);
        StillChecked(start, moves, k, r.intent.context, r.intent.proof.value);
      }
    }
  }

  lemma {:induction false} FilesBacked(epoch: int, registry: int, moves: seq<Move>, i: int)
    requires 0 <= i < |Played(NewWorld(epoch, registry), moves).disk.files|
    ensures Backed(NewWorld(epoch, registry), moves, Store.Read(Played(NewWorld(epoch, registry), moves).disk.files[i]))
    decreases |moves|
  {
    hide SysInv, Do, Initial, Backed, Permitted, ValidMapping, Store.Decide;
    var start := NewWorld(epoch, registry);
    if moves == [] {
      BlankBacked(start, moves);
    } else {
      var before := moves[..|moves| - 1];
      var w := Played(start, before);
      WorldSafe(epoch, registry, before);
      assert Store.InStep(w.disk);
      if i < |w.disk.files| && Played(start, moves).disk.files[i] == w.disk.files[i] {
        FilesBacked(epoch, registry, before, i);
        StillBacked(start, moves, Store.Read(w.disk.files[i]));
      } else {
        FilesBacked(epoch, registry, before, |w.disk.files| - 1);
        var op := moves[|moves| - 1].op;
        CandidateBacked(epoch, registry, moves, w.disk.contents, op.request, op.write);
      }
    }
  }

  lemma BlankBacked(start: World, moves: seq<Move>)
    ensures Backed(start, moves, Store.BLANK)
  {
    hide Checked;
  }

  // ---------------------------------------------------------------- theorem

  /** The native attempt is a finished turn on this thread and policy, and in the
      ledger the same attempt, with the same input, policy and prompt, failed for the
      unsupported model without effect, output or any other observation. */
  ghost predicate Vouched(m: Mapping, k: AttemptRef, thread: Native, policy: Id, db: Ledger) {
    && k in m.attempts && m.attempts[k].stage == TurnTerminal && m.attempts[k].thread == thread
    && m.attempts[k].policy == policy
    && CleanAttempt(db, k.attempt)
    && EntryOf(db, k.attempt) == TailAttempt(k, m.attempts[k].context, m.attempts[k].policy, m.attempts[k].prompt)
  }

  lemma TailVouches(m: Mapping, ref: AttemptRef, a: NativeAttempt, db: Ledger, k: AttemptRef)
    requires TailHolds(m, ref, a.context, a.policy, a.prompt, a.proof)
    requires Attests(db, ref.dialog, a.context.message, a.proof.value)
    requires k in m.attempts && Concerns(m.attempts[k], ref, a.context)
    ensures Vouched(m, k, m.dialogs[ref.dialog].thread, a.policy, db)
  {
    hide NoActivity, FailedUnsupported, LateClean, TailQuery;
    var tail :| TailOf(db, ref.dialog, a.context.message, tail) == a.proof;
    var j :| 0 <= j < |a.proof.value.attempts| && a.proof.value.attempts[j].ref == k;
    assert EntryOk(m, m.dialogs[ref.dialog], ref, a.context, a.policy, a.prompt, a.proof.value.attempts[j]);
    assert a.proof.value.attempts[j] == EntryOf(db, tail[j]);
    assert CleanAttempt(db, tail[j]);
  }

  lemma AdmittedBelow(m: Mapping, ref: AttemptRef, turn: Native, process: int)
    requires Store.Decide(m, Store.ActivateTurn(ref, turn, process)).Store?
    ensures ref in m.attempts
    ensures Store.Below(m, ref.dialog, m.attempts[ref].context) ==>
      && m.dialogs[ref.dialog].thread == m.attempts[ref].thread
      && var a := m.attempts[ref]; TailHolds(m, ref, a.context, a.policy, a.prompt, a.proof)
  {
    hide TailHolds;
  }

  /** In every interleaving of the supervisor, its faults and crashes with the
      adapter's store, its faults and restarts: if a turn whose input lies below the
      dialog's native high-water mark is activated, then the dispatch of that turn
      checked its proof against a ledger state of the run, and that ledger vouches for
      every other native attempt of the dialog at or after the input. */
  lemma ActivationBelowHighWater(epoch: int, registry: int, moves: seq<Move>, ref: AttemptRef, turn: Native,
                                 process: int) returns (i: int)
    requires var m := Played(NewWorld(epoch, registry), moves).disk.contents;
      Store.Decide(m, Store.ActivateTurn(ref, turn, process)).Store? && ref in m.attempts
          && Store.Below(m, ref.dialog, m.attempts[ref].context)
    ensures 0 <= i < |moves| && moves[i].OfNode? && moves[i].step.Recheck?
    ensures var m := Played(NewWorld(epoch, registry), moves).disk.contents;
      var a := m.attempts[ref];
      var db := Played(NewWorld(epoch, registry), moves[..i]).sys.db;
      && moves[i].step.c in db.actions && db.actions[moves[i].step.c].ref == ref
      && m.dialogs[ref.dialog].thread == a.thread
      && a.proof.Some? && Attests(db, ref.dialog, a.context.message, a.proof.value)
      && forall k :: k in m.attempts && Concerns(m.attempts[k], ref, a.context) ==>
           Vouched(m, k, a.thread, a.policy, db)
  {
    hide Played, SysInv, Attests, TailHolds, Vouched, Store.Decide, ValidMapping, Initial, Concerns;
    var start := NewWorld(epoch, registry);
    var w := Played(start, moves);
    var m := w.disk.contents;
    var a := m.attempts[ref];
    WorldSafe(epoch, registry, moves);
    FilesBacked(epoch, registry, moves, |w.disk.files| - 1);
    AdmittedBelow(m, ref, turn, process);
    assert a.proof.Some? by { HoldingProof(m, ref, a); }
    assert Checked(start, moves, ref, a.context, a.proof.value);
    i :| CheckedAt(start, moves, i, ref, a.context, a.proof.value);
    var db := Played(start, moves[..i]).sys.db;
    forall k | k in m.attempts && Concerns(m.attempts[k], ref, a.context)
      ensures Vouched(m, k, a.thread, a.policy, db)
    {
      TailVouches(m, ref, a, db, k);
    }
  }

  lemma HoldingProof(m: Mapping, ref: AttemptRef, a: NativeAttempt)
    requires TailHolds(m, ref, a.context, a.policy, a.prompt, a.proof)
    ensures a.proof.Some?
  {
  }
}
