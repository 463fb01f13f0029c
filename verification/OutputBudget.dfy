/** The per-attempt output budget of 64 MiB, split between the attempt row and
    its late observations. The arithmetic compares by subtraction, as a 64-bit
    program must, and records an overflow as a value above the maximum. */
module OutputBudget {
  const MAXIMUM: int := 64 * 1024 * 1024

  datatype Charge = Invalid | Fits | Exceeded | NewlyExceeded

  /** The subtractive test shared by every charge. */
  predicate Over(active: int, archived: int) {
    active > MAXIMUM || archived > MAXIMUM || active > MAXIMUM - archived
  }

  function ChargeKind(active: int, archived: int, bytes: int): Charge {
    if bytes < 0 || bytes > MAXIMUM then Invalid
    else if Over(active, archived) then Exceeded
    else if bytes > MAXIMUM - active - archived then NewlyExceeded
    else Fits
  }

  /** The new `output_bytes` of the attempt row after a live charge. */
  function LiveBytes(active: int, archived: int, bytes: int): int {
    match ChargeKind(active, archived, bytes)
    case Fits => active + bytes
    case NewlyExceeded => MAXIMUM + 1
    case _ => active
  }

  /** The bytes stored with the late observation after an archived charge. */
  function LateBytes(active: int, archived: int, bytes: int): int {
    match ChargeKind(active, archived, bytes)
    case Fits => bytes
    case NewlyExceeded => MAXIMUM + 1 - (active + archived)
    case _ => 0
  }

  // -------------------------------------------------------- one attempt's rows

  function Sum(rows: seq<int>): int {
    if rows == [] then 0 else Sum(rows[..|rows| - 1]) + rows[|rows| - 1]
  }

  lemma SumAppend(rows: seq<int>, b: int)
    ensures Sum(rows + [b]) == Sum(rows) + b
  {
    assert (rows + [b])[..|rows|] == rows;
  }

  /** The attempt's `output_bytes` and those of its late observations. */
  datatype Account = Account(active: int, late: seq<int>)

  datatype Posting = Live(bytes: int) | Late(bytes: int)

  function Answer(a: Account, p: Posting): Charge {
    ChargeKind(a.active, Sum(a.late), p.bytes)
  }

  /** A late posting adds a row unless it is refused. */
  function Post(a: Account, p: Posting): Account {
    match p
    case Live(bytes) => a.(active := LiveBytes(a.active, Sum(a.late), bytes))
    case Late(bytes) => if Answer(a, p) in {Fits, NewlyExceeded}
        then a.(late := a.late + [LateBytes(a.active, Sum(a.late), bytes)]) else a
  }

  class OutputLedger {
    var active: int
    var late: seq<int>

    ghost function Contents(): Account
      reads this
    {
      Account(active, late)
    }

    constructor ()
      ensures Contents() == Account(0, [])
    {
      active, late := 0, [];
    }

    /** chargeAttemptOutput */
    method ChargeAttempt(bytes: int) returns (charge: Charge)
      modifies this`active
      ensures charge == Answer(old(Contents()), Live(bytes))
      ensures Contents() == Post(old(Contents()), Live(bytes))
    {
      if bytes < 0 || bytes > MAXIMUM { return Invalid; }
      var current, archived := active, Sum(late);
      if current > MAXIMUM || archived > MAXIMUM || current > MAXIMUM - archived { return Exceeded; }
      if bytes > MAXIMUM - current - archived {
        active := MAXIMUM + 1;
        return NewlyExceeded;
      }
      if bytes == 0 { return Fits; }
      active := active + bytes;
      return Fits;
    }

    /** chargeArchivedAttemptOutput and the row its caller inserts */
    method ChargeArchived(bytes: int) returns (charge: Charge)
      modifies this`late
      ensures charge == Answer(old(Contents()), Late(bytes))
      ensures Contents() == Post(old(Contents()), Late(bytes))
    {
      if bytes < 0 || bytes > MAXIMUM { return Invalid; }
      var archived := Sum(late);
      if active > MAXIMUM || archived > MAXIMUM || active > MAXIMUM - archived { return Exceeded; }
      var current := active + archived;
      if bytes > MAXIMUM - current {
        late := late + [MAXIMUM + 1 - current];
        return NewlyExceeded;
      }
      late := late + [bytes];
      return Fits;
    }
  }

  // ------------------------------------------------------------- every run

  predicate Valid(bytes: int) {
    0 <= bytes <= MAXIMUM
  }

  /** What was offered: the plain sum of all valid postings, accepted or not. */
  function Offered(run: seq<Posting>): int {
    if run == [] then 0
    else Offered(run[..|run| - 1]) + (if Valid(run[|run| - 1].bytes) then run[|run| - 1].bytes else 0)
  }

  function After(run: seq<Posting>): Account {
    if run == [] then Account(0, []) else Post(After(run[..|run| - 1]), run[|run| - 1])
  }

  /** The budget as it is meant: one number, compared by addition. */
  function Decide(total: int, bytes: int): Charge {
    if !Valid(bytes) then Invalid
    else if total > MAXIMUM then Exceeded
    else if total + bytes > MAXIMUM then NewlyExceeded
    else Fits
  }

  /** Until the offered total passes the maximum the ledger holds exactly it;
      from then on, and only then, the subtractive test reports an overflow. */
  lemma {:induction false} LedgerTracksOffered(run: seq<Posting>)
    ensures var a := After(run);
      && 0 <= a.active && 0 <= Sum(a.late) && 0 <= Offered(run)
      && (Offered(run) <= MAXIMUM ==> a.active + Sum(a.late) == Offered(run))
      && (Over(a.active, Sum(a.late)) <==> Offered(run) > MAXIMUM)
  {
    if run != [] {
      var before := After(run[..|run| - 1]);
      LedgerTracksOffered(run[..|run| - 1]);
      SumAppend(before.late, LateBytes(before.active, Sum(before.late), run[|run| - 1].bytes));
    }
  }

  /** Over any mix of live, artifact and late postings every answer is the one the
      plain sum of the earlier postings gives. */
  lemma AnswersArePlain(run: seq<Posting>, p: Posting)
    ensures Answer(After(run), p) == Decide(Offered(run), p.bytes)
  {
    LedgerTracksOffered(run);
  }

  lemma {:induction false} OfferedGrows(run: seq<Posting>, i: nat, j: nat)
    requires i <= j <= |run|
    ensures Offered(run[..i]) <= Offered(run[..j])
    decreases j
  {
    if i < j {
      OfferedGrows(run, i, j - 1);
      assert run[..j][..j - 1] == run[..j - 1];
    }
  }

  /** The first overflow is reported once: whatever follows it is refused. */
  lemma OverflowOnce(run: seq<Posting>, i: nat, j: nat)
    requires i < j < |run| && Answer(After(run[..i]), run[i]) == NewlyExceeded
    ensures Answer(After(run[..j]), run[j]) == if Valid(run[j].bytes) then Exceeded else Invalid
  {
    AnswersArePlain(run[..i], run[i]);
    AnswersArePlain(run[..j], run[j]);
    assert run[..i + 1][..i] == run[..i];
    OfferedGrows(run, i + 1, j);
  }
}
