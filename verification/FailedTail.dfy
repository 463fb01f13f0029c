/** The failed-tail proof, as the ledger writes it and as the adapter checks it. */
module FailedTail {
  import opened LedgerTypes
  import opened LedgerTail
  import opened MappingTypes

  // ------------------------------------------------------ the adapter's check

  /** One entry of the proof agrees with the mapping it speaks of. */
  predicate EntryOk(m: Mapping, dialog: NativeDialog, ref: AttemptRef, boundary: Boundary, policy: Id, prompt: Id,
                    prior: TailAttempt) {
    && prior.ref in m.attempts
    && prior.ref.dialog == ref.dialog
    && m.attempts[prior.ref].stage == TurnTerminal && m.attempts[prior.ref].thread == dialog.thread
    && m.attempts[prior.ref].context == prior.context && m.attempts[prior.ref].policy == prior.policy
    && m.attempts[prior.ref].prompt == prior.prompt
    && prior.policy == policy && boundary.sequence <= prior.context.sequence <= dialog.boundary.sequence
    && (prior.context == boundary ==> prior.prompt == prompt && prior.ref.generation < ref.generation)
  }

  ghost predicate Distinct(attempts: seq<TailAttempt>) {
    forall i, j :: 0 <= i < j < |attempts| ==> attempts[i].ref != attempts[j].ref
  }

  /** What a valid proof says: it covers every other native attempt of the dialog at
      or after the boundary, each once, and one of them is of the boundary itself. */
  ghost predicate TailHolds(m: Mapping, ref: AttemptRef, boundary: Boundary, policy: Id, prompt: Id,
                            proof: Option<TailProof>) {
    && ref.dialog in m.dialogs && proof.Some?
    && var dialog := m.dialogs[ref.dialog];
    && 0 < |proof.value.attempts| <= MAXIMUM_TAIL && proof.value.highWater == dialog.boundary
    && boundary.sequence < dialog.boundary.sequence && dialog.policy == policy
    && (forall i :: 0 <= i < |proof.value.attempts| ==>
         EntryOk(m, dialog, ref, boundary, policy, prompt, proof.value.attempts[i]))
    && Distinct(proof.value.attempts)
    && (exists i :: 0 <= i < |proof.value.attempts| && proof.value.attempts[i].context == boundary)
    && (forall k :: k in m.attempts && Concerns(m.attempts[k], ref, boundary) ==> Listed(proof.value.attempts, k))
  }

  /** Another native attempt of the dialog, at or after the boundary. */
  predicate Concerns(a: NativeAttempt, ref: AttemptRef, boundary: Boundary) {
    a.ref.dialog == ref.dialog && a.ref != ref && a.context.sequence >= boundary.sequence
  }

  ghost predicate Listed(attempts: seq<TailAttempt>, k: AttemptRef) {
    exists i :: 0 <= i < |attempts| && attempts[i].ref == k
  }

  /** validFailedTail: two loops over the proof and over the mapping. */
  method ValidFailedTail(m: Mapping, ref: AttemptRef, boundary: Boundary, policy: Id, prompt: Id,
                         proof: Option<TailProof>) returns (ok: bool)
    ensures ok <==> TailHolds(m, ref, boundary, policy, prompt, proof)
  {
    if ref.dialog !in m.dialogs || proof.None? { return false; }
    var dialog, attempts := m.dialogs[ref.dialog], proof.value.attempts;
    if |attempts| == 0 || |attempts| > MAXIMUM_TAIL || proof.value.highWater != dialog.boundary
       || boundary.sequence >= dialog.boundary.sequence || dialog.policy != policy { return false; }
    var covered: set<AttemptRef>, target, i := {}, false, 0;
    while i < |attempts|
      invariant 0 <= i <= |attempts|
      invariant forall j :: 0 <= j < i ==> EntryOk(m, dialog, ref, boundary, policy, prompt, attempts[j])
      invariant forall j, l :: 0 <= j < l < i ==> attempts[j].ref != attempts[l].ref
      invariant forall k :: k in covered <==> exists j :: 0 <= j < i && attempts[j].ref == k
      invariant target <==> exists j :: 0 <= j < i && attempts[j].context == boundary
    {
      var prior := attempts[i];
      if prior.ref !in m.attempts || prior.ref in covered || prior.ref.dialog != ref.dialog { return false; }
      var mapped := m.attempts[prior.ref];
      if mapped.stage != TurnTerminal || mapped.thread != dialog.thread || mapped.context != prior.context
          || mapped.policy != prior.policy
         || mapped.prompt != prior.prompt || prior.policy != policy || prior.context.sequence < boundary.sequence
         || prior.context.sequence > dialog.boundary.sequence {
        NotOk(m, dialog, ref, boundary, policy, prompt, proof.value, i);
        return false;
      }
      covered := covered + {prior.ref};
      if prior.context == boundary {
        if prior.prompt != prompt || prior.ref.generation >= ref.generation {
          NotOk(m, dialog, ref, boundary, policy, prompt, proof.value, i);
          return false;
        }
        target := true;
      }
      i := i + 1;
    }
    var all := AllCovered(m, ref, boundary, attempts, covered);
    return all && target;
  }

  /** The second loop: every attempt the proof must cover is covered. */
  method AllCovered(m: Mapping, ref: AttemptRef, boundary: Boundary, attempts: seq<TailAttempt>,
                    covered: set<AttemptRef>)
      returns (all: bool)
    requires forall k :: k in covered <==> Listed(attempts, k)
    ensures all <==> forall k :: k in m.attempts && Concerns(m.attempts[k], ref, boundary) ==> Listed(attempts, k)
  {
    hide Listed;
    var keys := m.attempts.Keys;
    while keys != {}
      invariant keys <= m.attempts.Keys
      invariant forall k :: k in m.attempts && k !in keys && Concerns(m.attempts[k], ref, boundary) ==>
          Listed(attempts, k)
      decreases |keys|
    {
      var k :| k in keys;
      var mapped := m.attempts[k];
      if mapped.ref.dialog == ref.dialog && mapped.ref != ref && mapped.context.sequence >= boundary.sequence
          && k !in covered {
        return false;
      }
      keys := keys - {k};
    }
    return true;
  }

  lemma NotOk(m: Mapping, dialog: NativeDialog, ref: AttemptRef, boundary: Boundary, policy: Id, prompt: Id,
              proof: TailProof, i: nat)
    requires i < |proof.attempts| && ref.dialog in m.dialogs && dialog == m.dialogs[ref.dialog]
    requires !EntryOk(m, dialog, ref, boundary, policy, prompt, proof.attempts[i])
    ensures !TailHolds(m, ref, boundary, policy, prompt, Some(proof))
  {
  }

  // ------------------------------------------------------- the ledger's proof

  /** The late rows of one attempt, counted as they are read. */
  method LateRowsClean(late: seq<LateRow>, a: Id) returns (ok: bool)
    ensures ok <==> |LateOf(late, a)| <= 1 && (|LateOf(late, a)| == 1 ==> Historical(LateOf(late, a)[0]))
  {
    var count, i := 0, 0;
    while i < |late|
      invariant 0 <= i <= |late| && count == |LateOf(late[..i], a)| <= 1
      invariant count == 1 ==> Historical(LateOf(late[..i], a)[0])
    {
      assert late[..i + 1][..i] == late[..i];
      if late[i].attempt == a {
        count := count + 1;
        if count > 1 || !Historical(late[i]) {
          LateKept(late, a, i + 1);
          return false;
        }
      }
      i := i + 1;
    }
    assert late[..i] == late;
    return true;
  }

  lemma {:induction false} LateKept(late: seq<LateRow>, a: Id, i: nat)
    requires i <= |late|
    ensures LateOf(late[..i], a) <= LateOf(late, a)
    decreases |late|
  {
    if i < |late| {
      LateKept(late[..|late| - 1], a, i);
      assert late[..|late| - 1][..i] == late[..i];
    } else {
      assert late[..i] == late;
    }
  }

  /** failedTailProof over the rows of its query: a proof is written for exactly the
      provable tails, and lists every row in order. */
  method FailedTailProof(db: Ledger, dialog: Id, message: Id, rows: seq<Id>) returns (proof: Option<TailProof>)
    requires TailQuery(db, dialog, message, rows)
    ensures proof == TailOf(db, dialog, message, rows)
  {
    hide NoActivity, FailedUnsupported, LateOf, Historical, Before, Unsupported;
    var attempts: seq<TailAttempt>, i := [], 0;
    while i < |rows|
      invariant 0 <= i <= |rows| && |attempts| == i <= MAXIMUM_TAIL
      invariant forall j :: 0 <= j < i ==> attempts[j] == EntryOf(db, rows[j])
      invariant forall j :: 0 <= j < i ==> CleanRow(db, rows[j])
    {
      var row := db.attempts[rows[i]];
      if row.phase != Ended(Failed) || row.effect != NoEffect || row.outputBytes != 0 || !NoActivity(db, rows[i])
          || |attempts| >= MAXIMUM_TAIL {
        return None;
      }
      attempts := attempts + [EntryOf(db, rows[i])];
      i := i + 1;
    }
    if |attempts| == 0 || attempts[0].context.message != message { return None; }
    i := 0;
    while i < |rows|
      invariant 0 <= i <= |rows|
      invariant forall j :: 0 <= j < i ==> CleanAttempt(db, rows[j])
    {
      if !FailedUnsupported(db, rows[i]) { return None; }
      var clean := LateRowsClean(db.late, rows[i]);
      if !clean { return None; }
      i := i + 1;
    }
    assert attempts == Entries(db, rows);
    return Some(TailProof(attempts[|attempts| - 1].context, attempts));
  }
}
