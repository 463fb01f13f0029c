/** The output budget over runs of the supervisor: what the attempt row and its late
    rows hold together, whatever the steps in between. */
module BudgetRuns {
  import opened LedgerTypes
  import opened Transactions
  import Budget = OutputBudget
  import opened Supervisor
  import opened SystemInvariant
  import opened SupervisorTheorems
  import EventReplay
  import opened Traces
  import opened EventTraces
  import opened StepTraces

  // ------------------------------------------------------------------- steps

  lemma StepMeters(s: Sys, l: Label)
    requires SysInv(s)
    ensures Meters(s.db, Do(s, l).db)
  {
    hide SysInv, Do, Sound, Silent, Local, Fair, Charges;
    EveryStep(s, l);
    if Quiet(s.db, Do(s, l).db) { QuietMeters(s.db, Do(s, l).db); }
  }

  lemma {:induction false} RunMeters(s: Sys, run: seq<Label>)
    requires SysInv(s)
    ensures Meters(s.db, After(s, run).db)
    decreases |run|
  {
    hide Do, Meters, SysInv;
    if run == [] {
      QuietSelf(s.db);
      QuietMeters(s.db, s.db);
    } else {
      var before := After(s, run[..|run| - 1]);
      AfterKeeps(s, run[..|run| - 1]);
      RunMeters(s, run[..|run| - 1]);
      StepMeters(before, run[|run| - 1]);
      MetersTrans(s.db, before.db, Do(before, run[|run| - 1]).db);
    }
  }

  lemma ReachableSound(s: Sys)
    requires Reachable(s)
    ensures Sound(s.db) && SysInv(s)
  {
    hide After, SysInv;
    ReachableSafe(s);
    var epoch, registry, run :| s == After(Initial(epoch, registry), run);
    StartSafe(epoch, registry);
    RunMeters(Initial(epoch, registry), run);
  }

  lemma StartSafe(epoch: int, registry: int)
    ensures SysInv(Initial(epoch, registry))
  {
    hide SysInv, Initial;
    assert After(Initial(epoch, registry), []) == Initial(epoch, registry);
    RunsSafe(epoch, registry, []);
  }

  // ---------------------------------------------------------------- theorems

  /** In every reachable state live and archived output of an attempt are together
      within 64 MiB, or show by one byte that the limit was passed; and an attempt
      that has passed its limit is charged nothing more in any later state. */
  lemma BudgetKept(s: Sys, t: Sys, a: Id)
    requires Reachable(s) && Reaches(s, t) && a in s.db.attempts
    ensures Bounded(s.db.attempts[a].outputBytes, Archived(s.db, a))
    ensures Over(s.db, a) ==>
      && a in t.db.attempts && Over(t.db, a)
      && t.db.attempts[a].outputBytes == s.db.attempts[a].outputBytes && Archived(t.db, a) == Archived(s.db, a)
  {
    hide Reachable, After, ArchivedBytes, SysInv;
    ReachableSound(s);
    var run :| t == After(s, run);
    RunMeters(s, run);
  }

  /** What a step puts on the account of attempt `a`: the bytes it offers, if it is
      about `a` and the account moves. */
  function PaidBy(s: Sys, l: Label, a: Id): int {
    if About(s, l, a) && !SameAccount(s.db, Do(s, l).db, a) then OfferedBy(l) else 0
  }

  /** All that the steps of a run have put there. */
  function Paid(s: Sys, run: seq<Label>, a: Id): int
    decreases |run|
  {
    if run == [] then 0 else
      var before := run[..|run| - 1];
      Paid(s, before, a) + PaidBy(After(s, before), run[|run| - 1], a)
  }

  /** The account shows what has been paid, up to the limit, and that it was passed. */
  predicate Accounts(db: Ledger, a: Id, paid: int) {
    (Over(db, a) <==> paid > Budget.MAXIMUM) && (!Over(db, a) ==> Used(db, a) == paid)
  }

  lemma AccountUnmoved(o: Ledger, n: Ledger, a: Id, paid: int)
    requires Accounts(o, a, paid) && SameAccount(o, n, a) && Sound(o) && Sound(n)
    requires a in o.attempts ==> a in n.attempts
    ensures Accounts(n, a, paid)
  {
    hide ArchivedBytes;
    if a !in o.attempts && a in n.attempts { NoneArchived(o.late, a); }
  }

  lemma AccountMoved(o: Ledger, n: Ledger, a: Id, bytes: int, paid: int)
    requires Accounts(o, a, paid) && Charges(o, n, a, bytes) && !SameAccount(o, n, a)
    requires Sound(o) && Sound(n) && OverKept(o, n)
    ensures Accounts(n, a, paid + bytes)
  {
    hide ArchivedBytes;
  }

  lemma QuietAccounts(o: Ledger, n: Ledger, a: Id)
    requires Quiet(o, n)
    ensures SameAccount(o, n, a) && (a in o.attempts ==> a in n.attempts)
  {
    hide ArchivedBytes, RowsMild, TellsMild, UserOnly, Indexed;
  }

  lemma LocalKnown(o: Ledger, n: Ledger, x: Id, a: Id)
    requires Local(o, n, x) && a in o.attempts
    ensures a in n.attempts
  {
    hide RowsMild, TellsMild, Indexed;
  }

  lemma SilentKnown(o: Ledger, n: Ledger, x: Id, a: Id)
    requires Silent(o, n, x) && a in o.attempts
    ensures a in n.attempts
  {
    hide RowsMild, TellsMild, Local;
    LocalKnown(o, n, x, a);
  }

  lemma TracedMoves(o: Ledger, n: Ledger, x: Id, bytes: int, a: Id)
    requires Traced(o, n, x, bytes)
    ensures Charges(o, n, x, bytes) && (a in o.attempts ==> a in n.attempts) && (x != a ==> SameAccount(o, n, a))
  {
    hide Meters, Local, Fair, SameAccount;
    if a in o.attempts { LocalKnown(o, n, x, a); }
  }

  /** A step moves the account of `a` only if it is about `a`, and then by what it offers. */
  lemma StepMoves(s: Sys, l: Label, a: Id)
    requires SysInv(s)
    ensures var n := Do(s, l).db;
      && (a in s.db.attempts ==> a in n.attempts)
      && (SameAccount(s.db, n, a) || (About(s, l, a) && Charges(s.db, n, a, OfferedBy(l))))
  {
    hide SysInv, Do, Quiet, Silent, Traced, Meters, SameAccount, Charges, OfferedBy;
    var n := Do(s, l).db;
    EveryStep(s, l);
    if Quiet(s.db, n) {
      QuietAccounts(s.db, n, a);
    } else if Subject(l).Some? && s.running && Traced(s.db, n, Subject(l).value, OfferedBy(l)) {
      TracedMoves(s.db, n, Subject(l).value, OfferedBy(l), a);
    } else {
      var x :| Refusing(s, l, x) && Unpaid(s.db, n) && Silent(s.db, n, x);
      if a in s.db.attempts { SilentKnown(s.db, n, x, a); }
    }
  }

  lemma StepPaid(s: Sys, l: Label, a: Id, paid: int)
    requires SysInv(s) && Sound(s.db) && Accounts(s.db, a, paid)
    ensures Accounts(Do(s, l).db, a, paid + PaidBy(s, l, a))
  {
    hide SysInv, Do, Sound, SameAccount, Charges, Accounts, OverKept, OfferedBy, Subject;
    StepMoves(s, l, a);
    StepMeters(s, l);
    var n := Do(s, l).db;
    if SameAccount(s.db, n, a) {
      AccountUnmoved(s.db, n, a, paid);
    } else {
      AccountMoved(s.db, n, a, OfferedBy(l), paid);
    }
  }

  lemma {:induction false} RunPaid(s: Sys, run: seq<Label>, a: Id)
    requires SysInv(s) && Sound(s.db) && Accounts(s.db, a, 0)
    ensures Accounts(After(s, run).db, a, Paid(s, run, a))
    decreases |run|
  {
    hide SysInv, Do, Accounts, PaidBy, Sound, OverKept;
    if run != [] {
      var before := run[..|run| - 1];
      RunPaid(s, before, a);
      AfterKeeps(s, before);
      RunMeters(s, before);
      StepPaid(After(s, before), run[|run| - 1], a, Paid(s, before, a));
    }
  }

  /** Along every run of a volume the account of an attempt equals the bytes the steps
      of the run have put on it, in the slot and out of it, until these pass 64 MiB, and
      it is found over its limit exactly from then on. */
  lemma AccountsAreExact(epoch: int, registry: int, run: seq<Label>, a: Id)
    ensures var s := Initial(epoch, registry);
      var db := After(s, run).db;
      && (Over(db, a) <==> Paid(s, run, a) > Budget.MAXIMUM)
      && (!Over(db, a) ==> Used(db, a) == Paid(s, run, a))
  {
    hide After, Do, Paid, SysInv, Over, Used;
    StartSafe(epoch, registry);
    StartAccounts(epoch, registry, a);
    RunPaid(Initial(epoch, registry), run, a);
  }

  lemma StartAccounts(epoch: int, registry: int, a: Id)
    ensures var db := Initial(epoch, registry).db; Sound(db) && Accounts(db, a, 0)
  {
  }

  // ------------------------------------------------------ marks of the limit

  /** The step takes the attempt over its limit. */
  predicate Crosses(s: Sys, l: Label, a: Id) {
    !Over(s.db, a) && Over(Do(s, l).db, a)
  }

  /** The step writes the event that marks the limit of attempt `a`. */
  predicate WritesMark(s: Sys, l: Label, a: Id, k: int) {
    var n := Do(s, l).db;
    && k in n.events && !(k in s.db.events && s.db.events[k] == n.events[k])
    && n.events[k].attempt == Some(a) && n.events[k].key == Some(Key(false, KLimit))
  }

  /** An event, a reconciliation or an artifact of attempt `a` schedules an action. */
  predicate SchedulesStop(s: Sys, l: Label, a: Id) {
    About(s, l, a) && Do(s, l).db.actions != s.db.actions
  }

  /** The account of `a` takes a charge that passes the limit. */
  predicate Overcharges(s: Sys, l: Label, a: Id) {
    && About(s, l, a) && a in s.db.attempts && ChargeOf(s.db, a, OfferedBy(l)).NewlyExceeded?
    && !SameAccount(s.db, Do(s, l).db, a)
  }

  /** The step marks the limit of attempt `a`, stops `a` for it, or passes it. */
  ghost predicate Limits(s: Sys, l: Label, a: Id) {
    (exists k :: WritesMark(s, l, a, k)) || SchedulesStop(s, l, a) || Overcharges(s, l, a)
  }

  lemma MarkCrosses(o: Ledger, n: Ledger, x: Id, bytes: int, a: Id, k: int)
    requires Traced(o, n, x, bytes) && k in n.events && !(k in o.events && o.events[k] == n.events[k])
    requires n.events[k].attempt == Some(a) && n.events[k].key == Some(Key(false, KLimit))
    ensures Crossed(o, n, a)
  {
    hide Meters, Local, Charges, RowFair, KeyTaken, Crossed;
    assert TellsFair(o, n, x, n.events[k]);
  }

  lemma NoMark(o: Ledger, n: Ledger, a: Id, k: int)
    requires TellsMild(o.events, n.events, None) && k in n.events && n.events[k].key == Some(Key(false, KLimit))
    ensures k in o.events && o.events[k] == n.events[k]
  {
  }

  lemma SilentTells(o: Ledger, n: Ledger, x: Id)
    requires Silent(o, n, x)
    ensures TellsMild(o.events, n.events, None)
  {
    hide Local, RowsMild, TellsMild;
  }

  lemma QuietTells(o: Ledger, n: Ledger)
    requires Quiet(o, n)
    ensures TellsMild(o.events, n.events, None)
  {
    hide UserOnly, Indexed, RowsMild, TellsMild, SameCharges;
  }

  lemma WritesCrosses(s: Sys, l: Label, a: Id, k: int)
    requires SysInv(s) && WritesMark(s, l, a, k)
    ensures Crosses(s, l, a)
  {
    hide SysInv, Do, Quiet, Silent, Traced, Meters, Unpaid, TellsMild, Over;
    var n := Do(s, l).db;
    EveryStep(s, l);
    if Quiet(s.db, n) {
      QuietTells(s.db, n);
      NoMark(s.db, n, a, k);
    } else if Subject(l).Some? && s.running && Traced(s.db, n, Subject(l).value, OfferedBy(l)) {
      MarkCrosses(s.db, n, Subject(l).value, OfferedBy(l), a, k);
    } else {
      var x :| Refusing(s, l, x) && Unpaid(s.db, n) && Silent(s.db, n, x);
      SilentTells(s.db, n, x);
      NoMark(s.db, n, a, k);
    }
  }

  lemma ActionCrosses(o: Ledger, n: Ledger, a: Id, bytes: int)
    requires Traced(o, n, a, bytes) && n.actions != o.actions
    ensures Crossed(o, n, a)
  {
    hide Meters, Local, Charges, RowFair, TellsFair, Telling, Crossed;
  }

  lemma ChargeCrosses(o: Ledger, n: Ledger, a: Id, bytes: int)
    requires Charges(o, n, a, bytes) && !SameAccount(o, n, a) && ChargeOf(o, a, bytes).NewlyExceeded?
    ensures Crossed(o, n, a)
  {
    hide ArchivedBytes;
  }

  /** Whatever marks the limit of an attempt or stops it for its output is the step that
      takes the attempt over the limit. */
  lemma LimitCrosses(s: Sys, l: Label, a: Id)
    requires Reachable(s) && Limits(s, l, a)
    ensures Crosses(s, l, a)
  {
    hide Reachable, SysInv, Do, Traced, Charges, SameAccount, ChargeOf, WritesMark, Over, OfferedBy;
    ReachableSafe(s);
    if k :| WritesMark(s, l, a, k) {
      WritesCrosses(s, l, a, k);
    } else {
      SubjectTraced(s, l, a);
      var n := Do(s, l).db;
      if SchedulesStop(s, l, a) {
        ActionCrosses(s.db, n, a, OfferedBy(l));
      } else {
        TracedMoves(s.db, n, a, OfferedBy(l), a);
        ChargeCrosses(s.db, n, a, OfferedBy(l));
      }
    }
  }

  lemma SubjectTraced(s: Sys, l: Label, a: Id)
    requires SysInv(s) && (SchedulesStop(s, l, a) || Overcharges(s, l, a))
    ensures Traced(s.db, Do(s, l).db, a, OfferedBy(l))
  {
    hide SysInv, Do, Traced, SameAccount, ChargeOf, OfferedBy;
    if a in s.db.attempts { SubjectStep(s, l); } else { NobodyStep(s, l); }
  }

  /** Along a run at most one step marks the limit of an attempt, stops the attempt for
      its output or charges it past the limit. */
  lemma LimitOnce(epoch: int, registry: int, run: seq<Label>, i: nat, j: nat, a: Id)
    requires i < j < |run| && Limits(After(Initial(epoch, registry), run[..i]), run[i], a)
    ensures !Limits(After(Initial(epoch, registry), run[..j]), run[j], a)
  {
    hide Do, Initial, Over, Limits, Reachable, After, SysInv;
    var s0 := Initial(epoch, registry);
    assert Reachable(After(s0, run[..i])) && Reachable(After(s0, run[..i + 1])) && Reachable(After(s0, run[..j])) by {
      OnRun(epoch, registry, run[..i]);
      OnRun(epoch, registry, run[..i + 1]);
      OnRun(epoch, registry, run[..j]);
    }
    LimitCrosses(After(s0, run[..i]), run[i], a);
    AfterStep(s0, run, i);
    var s, t := After(s0, run[..i + 1]), After(s0, run[..j]);
    Between(s0, run, i + 1, j);
    OverKnown(s.db, a);
    BudgetKept(s, t, a);
    if Limits(t, run[j], a) { LimitCrosses(t, run[j], a); }
  }

  lemma OnRun(epoch: int, registry: int, run: seq<Label>)
    ensures Reachable(After(Initial(epoch, registry), run))
  {
    hide After, Initial;
  }

  lemma OverKnown(db: Ledger, a: Id)
    requires Over(db, a)
    ensures a in db.attempts
  {
    hide ArchivedBytes;
  }

  lemma Between(s: Sys, run: seq<Label>, i: nat, j: nat)
    requires i <= j <= |run|
    ensures Reaches(After(s, run[..i]), After(s, run[..j]))
  {
    hide Do, After;
    EventReplay.AfterSplit(s, run[..i], run[i..j]);
    assert run[..i] + run[i..j] == run[..j];
  }
}
