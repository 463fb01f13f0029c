/** The failed-tail query over the ledger: which attempts of a dialog a proof speaks
    of, and when the ledger knows one to have failed without output or effect. */
module LedgerTail {
  import opened LedgerTypes

  const MAXIMUM_TAIL := 100

  /** The input message of an attempt, through its request. */
  predicate HasInput(db: Ledger, a: Id) {
    a in db.attempts && db.attempts[a].request in db.requests
        && db.requests[db.attempts[a].request].input in db.messages
  }

  function InputOf(db: Ledger, a: Id): Boundary
    requires HasInput(db, a)
  {
    var m := db.requests[db.attempts[a].request].input;
    Boundary(m, db.messages[m].sequence)
  }

  /** A started attempt of the dialog at or after the input message. */
  predicate InTail(db: Ledger, dialog: Id, message: Id, a: Id) {
    && HasInput(db, a) && message in db.messages
    && db.attempts[a].dialog == dialog && db.attempts[a].started
    && InputOf(db, a).sequence >= db.messages[message].sequence
  }

  /** The order of the query: by place of the input, then by generation. */
  predicate Before(db: Ledger, a: Id, b: Id) {
    && HasInput(db, a) && HasInput(db, b)
    && (|| InputOf(db, a).sequence < InputOf(db, b).sequence
        || (InputOf(db, a).sequence == InputOf(db, b).sequence
            && db.attempts[a].generation <= db.attempts[b].generation))
  }

  /** The rows the query returns: every attempt of the tail once, in order. */
  predicate TailQuery(db: Ledger, dialog: Id, message: Id, rows: seq<Id>) {
    && (forall i :: 0 <= i < |rows| ==> InTail(db, dialog, message, rows[i]))
    && (forall i, j :: 0 <= i < j < |rows| ==> rows[i] != rows[j] && Before(db, rows[i], rows[j]))
    && (forall a :: a in db.attempts && InTail(db, dialog, message, a) ==> a in rows)
  }

  /** As TailQuery, over some of the attempts. */
  ghost predicate TailOver(db: Ledger, dialog: Id, message: Id, some: set<(Id, Attempt)>, rows: seq<Id>) {
    && (forall i :: 0 <= i < |rows| ==> InTail(db, dialog, message, rows[i]) && (rows[i], db.attempts[rows[i]]) in some)
    && (forall i, j :: 0 <= i < j < |rows| ==> rows[i] != rows[j] && Before(db, rows[i], rows[j]))
    && (forall a :: a in db.attempts && (a, db.attempts[a]) in some && InTail(db, dialog, message, a) ==> a in rows)
  }

  /** Where a new row goes: behind those that precede it. */
  lemma {:induction false} PlaceOf(db: Ledger, rows: seq<Id>, a: Id) returns (p: nat)
    requires HasInput(db, a) && forall i :: 0 <= i < |rows| ==> HasInput(db, rows[i])
    requires forall i, j :: 0 <= i < j < |rows| ==> Before(db, rows[i], rows[j])
    ensures p <= |rows| && (forall i :: 0 <= i < p ==> Before(db, rows[i], a))
    ensures (forall i :: p <= i < |rows| ==> Before(db, a, rows[i]))
    decreases |rows|
  {
    if rows == [] || Before(db, rows[|rows| - 1], a) {
      p := |rows|;
    } else {
      p := PlaceOf(db, rows[..|rows| - 1], a);
    }
  }

  lemma {:induction false} RowsOver(db: Ledger, dialog: Id, message: Id, some: set<(Id, Attempt)>)
      returns (rows: seq<Id>)
    requires some <= db.attempts.Items
    ensures TailOver(db, dialog, message, some, rows)
    decreases |some|
  {
    if some == {} {
      rows := [];
    } else {
      var item :| item in some;
      var a := item.0;
      rows := RowsOver(db, dialog, message, some - {item});
      if InTail(db, dialog, message, a) {
        var p := PlaceOf(db, rows, a);
        Inserted(db, dialog, message, some, item, rows, p);
        rows := rows[..p] + [a] + rows[p..];
      }
    }
  }

  lemma InsertedOrder(db: Ledger, rows: seq<Id>, p: nat, a: Id, next: seq<Id>)
    requires p <= |rows| && next == rows[..p] + [a] + rows[p..] && a !in rows
    requires forall i, j :: 0 <= i < j < |rows| ==> rows[i] != rows[j] && Before(db, rows[i], rows[j])
    requires (forall i :: 0 <= i < p ==> Before(db, rows[i], a))
    requires (forall i :: p <= i < |rows| ==> Before(db, a, rows[i]))
    ensures forall i, j :: 0 <= i < j < |next| ==> next[i] != next[j] && Before(db, next[i], next[j])
  {
    hide Before;
    assert forall i :: 0 <= i < |next| ==> next[i] == if i < p then rows[i] else if i == p then a else rows[i - 1];
  }

  lemma Inserted(db: Ledger, dialog: Id, message: Id, some: set<(Id, Attempt)>, item: (Id, Attempt), rows: seq<Id>,
                 p: nat)
    requires some <= db.attempts.Items && item in some && InTail(db, dialog, message, item.0)
    requires TailOver(db, dialog, message, some - {item}, rows) && p <= |rows|
    requires (forall i :: 0 <= i < p ==> Before(db, rows[i], item.0))
    requires (forall i :: p <= i < |rows| ==> Before(db, item.0, rows[i]))
    ensures TailOver(db, dialog, message, some, rows[..p] + [item.0] + rows[p..])
  {
    hide Before, InTail;
    var next := rows[..p] + [item.0] + rows[p..];
    assert item.0 !in rows by { NotYet(db, dialog, message, some, item, rows); }
    InsertedOrder(db, rows, p, item.0, next);
    assert forall b :: b in next <==> b in rows || b == item.0;
  }

  lemma NotYet(db: Ledger, dialog: Id, message: Id, some: set<(Id, Attempt)>, item: (Id, Attempt), rows: seq<Id>)
    requires some <= db.attempts.Items && item in some && TailOver(db, dialog, message, some - {item}, rows)
    ensures item.0 !in rows
  {
    hide Before, InTail;
  }

  /** The query has an answer in every ledger. */
  lemma TailQueryAnswered(db: Ledger, dialog: Id, message: Id) returns (rows: seq<Id>)
    ensures TailQuery(db, dialog, message, rows)
  {
    hide Before, InTail;
    rows := RowsOver(db, dialog, message, db.attempts.Items);
  }

  // ------------------------------------------------------------- one attempt

  /** The counted activity is zero: no message but the input, no tool call, approval,
      input or artifact, and no control action but the acknowledged dispatch. */
  predicate NoActivity(db: Ledger, a: Id)
    requires HasInput(db, a)
  {
    && (forall m :: m in db.messages && db.messages[m].attempt == Some(a) ==>
         db.messages[m].user && m == InputOf(db, a).message)
    && (forall t :: t in db.tools ==> db.tools[t].attempt != a)
    && (forall p :: p in db.approvals ==> db.approvals[p].attempt != a)
    && (forall i :: i in db.inputs ==> db.inputs[i].attempt != a)
    && db.attempts[a].artifacts == 0
    && (forall c :: c in db.actions && db.actions[c].ref.attempt == a ==>
         db.actions[c].kind == DispatchStart && db.actions[c].status == Acknowledged)
  }

  /** The attempt row itself: failed, without effect, output or activity. */
  predicate CleanRow(db: Ledger, a: Id)
    requires HasInput(db, a)
  {
    db.attempts[a].phase == Ended(Failed) && db.attempts[a].effect == NoEffect && db.attempts[a].outputBytes == 0
        && NoActivity(db, a)
  }

  /** The attempt's latest event that is not a late one. */
  predicate LastEvent(db: Ledger, a: Id, k: int) {
    && k in db.events && db.events[k].attempt == Some(a) && !db.events[k].late
    && forall j :: j in db.events && db.events[j].attempt == Some(a) && !db.events[j].late ==> j <= k
  }

  /** It records that the model is unsupported, with no effect. */
  predicate FailedUnsupported(db: Ledger, a: Id) {
    && a in db.attempts
    && exists k :: k in db.events && LastEvent(db, a, k) && db.events[k].dialog == Some(db.attempts[a].dialog)
                   && db.events[k].key == Some(Key(false, KTerminal)) && db.events[k].digest.Some?
                   && Unsupported(db.events[k].digest.value)
  }

  /** A failure of the task, for the unsupported model and without an effect. */
  predicate Unsupported(d: Digest) {
    && d.FailedWith? && d.effect == NoEffect && d.failure.Some? && d.failure.value.code == ModelUnsupported
    && d.failure.value.reason.None?
  }

  /** The one generic terminal an old recovery may have left among the late rows. */
  predicate Historical(row: LateRow) {
    && row.kind == TerminalUnresolved && row.key == Some(Key(true, KTerminal)) && row.outputBytes == 17
    && row.digest.Some? && row.digest.value.Whole? && GenericFailure(row.digest.value.event)
  }

  predicate GenericFailure(e: AdapterEvent) {
    && e.Terminal? && e.how == Terminates(Failed) && e.terminalEffect == UnknownEffect
    && e.output.None? && e.usage == NO_USAGE
    && e.failure.Some? && e.failure.value.code == TurnFailed && e.failure.value.reason.None?
  }

  function LateOf(late: seq<LateRow>, a: Id): seq<LateRow> {
    if late == [] then []
    else LateOf(late[..|late| - 1], a) + (if late[|late| - 1].attempt == a then [late[|late| - 1]] else [])
  }

  predicate LateClean(db: Ledger, a: Id) {
    var rows := LateOf(db.late, a);
    |rows| <= 1 && (|rows| == 1 ==> Historical(rows[0]))
  }

  /** The ledger knows that the attempt failed for the unsupported model, without
      output, effect or any other observation. */
  predicate CleanAttempt(db: Ledger, a: Id) {
    HasInput(db, a) && CleanRow(db, a) && FailedUnsupported(db, a) && LateClean(db, a)
  }

  // ---------------------------------------------------------------- the proof

  function EntryOf(db: Ledger, a: Id): TailAttempt
    requires HasInput(db, a)
  {
    var row, input := db.attempts[a], InputOf(db, a);
    var ref := AttemptRef(row.dialog, row.request, a, row.generation);
    TailAttempt(ref, input, row.policy, db.messages[input.message].text)
  }

  /** The tail can be proved: 1 to 100 clean attempts, the first of them of the input. */
  predicate Provable(db: Ledger, dialog: Id, message: Id, rows: seq<Id>) {
    && TailQuery(db, dialog, message, rows) && 0 < |rows| <= MAXIMUM_TAIL && InputOf(db, rows[0]).message == message
    && forall i :: 0 <= i < |rows| ==> CleanAttempt(db, rows[i])
  }

  function Entries(db: Ledger, rows: seq<Id>): seq<TailAttempt>
    requires forall i :: 0 <= i < |rows| ==> HasInput(db, rows[i])
  {
    seq(|rows|, i requires 0 <= i < |rows| => EntryOf(db, rows[i]))
  }

  /** failedTailProof on the rows of its query. */
  function TailOf(db: Ledger, dialog: Id, message: Id, rows: seq<Id>): Option<TailProof> {
    if Provable(db, dialog, message, rows)
    then Some(TailProof(InputOf(db, rows[|rows| - 1]), Entries(db, rows)))
    else None
  }
}
