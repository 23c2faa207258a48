/**
 * What the balance engine guarantees. The engine's folds (module Balances)
 * are related here to independent closed forms: each running total is a
 * plain sum over the month's records of a per-record share defined by a
 * table. From those closed forms follow conservation of the shared cost,
 * conservation of the parents' combined payments under transfers, the
 * reimbursement floor, order independence, the symmetry between the two
 * parents, month isolation and the fact that paying the reported debt
 * settles the month.
 */
module BalanceLaws {
  import opened Common
  import opened Records
  import opened Balances
  import Store

  // ---------------------------------------------------------------------
  // Reference definitions

  /** The part of an expense of the given amount charged to `parent`, by `imputeTo`. */
  function Share(i: Impute, parent: UserId, amount: real): real
  {
    match i
    case Both => if parent == Mariano || parent == Gabriela then amount / 2.0 else 0.0
    case OnlyMariano => if parent == Mariano then amount else 0.0
    case OnlyGabriela => if parent == Gabriela then amount else 0.0
    case Unrecognised => 0.0
  }

  /** What an expense adds to `paid` of user `u`. */
  function PaidBy(u: UserId): Expense -> real
  {
    (e: Expense) => if e.data.paidBy == u then e.data.amount else 0.0
  }

  /** What an expense adds to `owes` of `parent`. */
  function OwedBy(parent: UserId): Expense -> real
  {
    (e: Expense) => Share(ImputeOf(e), parent, e.data.amount)
  }

  /** What an expense adds to what `parent` must pay back to Juan Martín. */
  function OwedToJuanBy(parent: UserId): Expense -> real
  {
    (e: Expense) => if Reimbursable(e) then Share(ImputeOf(e), parent, e.data.amount) else 0.0
  }

  /** The part of an expense charged to neither parent (an unrecognised `imputeTo`). */
  function Unassigned(e: Expense): real
  {
    if ImputeOf(e) == Unrecognised then e.data.amount else 0.0
  }

  /** The amount of a transfer when it goes from `from` to `to`, else 0. */
  function Sent(from: UserId, to: UserId): Transfer -> real
  {
    (t: Transfer) => if t.data.from == from && t.data.to == to then t.data.amount else 0.0
  }

  // ---------------------------------------------------------------------
  // Expenses

  /**
   * One expense adds its amount to `paid` of whoever paid it, adds each
   * parent's share to that parent's `owes`, and adds exactly the same share to
   * that parent's debt to Juan Martín when he paid and asked to be paid back.
   */
  lemma ExpenseStepAddsShares(l: Ledger, e: Expense)
    ensures ExpenseStep(l, e) == Ledger(
      l.marianoPaid + PaidBy(Mariano)(e),
      l.marianoOwes + OwedBy(Mariano)(e),
      l.gabrielaPaid + PaidBy(Gabriela)(e),
      l.gabrielaOwes + OwedBy(Gabriela)(e),
      l.juanPaid + PaidBy(JuanMartin)(e),
      l.marianoToJuan + OwedToJuanBy(Mariano)(e),
      l.gabrielaToJuan + OwedToJuanBy(Gabriela)(e))
  {
    match ImputeOf(e)
    case Both =>
    case OnlyMariano =>
    case OnlyGabriela =>
    case Unrecognised =>
  }

  /** After a month's expenses, every running total is the sum of the per-expense shares. */
  lemma {:induction false} ExpenseFoldClosedForm(es: seq<Expense>)
    ensures ExpenseFold(es) == Ledger(
      SumOf(es, PaidBy(Mariano)),
      SumOf(es, OwedBy(Mariano)),
      SumOf(es, PaidBy(Gabriela)),
      SumOf(es, OwedBy(Gabriela)),
      SumOf(es, PaidBy(JuanMartin)),
      SumOf(es, OwedToJuanBy(Mariano)),
      SumOf(es, OwedToJuanBy(Gabriela)))
  {
    if es != [] {
      var init, e := es[..|es| - 1], es[|es| - 1];
      assert es == init + [e];
      ExpenseFoldClosedForm(init);
      ExpenseStepAddsShares(ExpenseFold(init), e);
      SumOfSnoc(init, e, PaidBy(Mariano));
      SumOfSnoc(init, e, OwedBy(Mariano));
      SumOfSnoc(init, e, PaidBy(Gabriela));
      SumOfSnoc(init, e, OwedBy(Gabriela));
      SumOfSnoc(init, e, PaidBy(JuanMartin));
      SumOfSnoc(init, e, OwedToJuanBy(Mariano));
      SumOfSnoc(init, e, OwedToJuanBy(Gabriela));
    }
  }

  /** Each expense's amount is split between the two parents' shares and the unassigned part. */
  lemma {:induction false} SharesCoverTheAmount(es: seq<Expense>)
    ensures SumOf(es, OwedBy(Mariano)) + SumOf(es, OwedBy(Gabriela)) + SumOf(es, Unassigned)
            == SumOf(es, ExpenseAmount)
  {
    if es != [] {
      SharesCoverTheAmount(es[1..]);
    }
  }

  // ---------------------------------------------------------------------
  // Transfers

  /**
   * Over any sequence of transfers, each parent's `paid` moves by what that
   * parent sent the other minus what the other sent back; `owes` and Juan
   * Martín's `paid` do not move.
   */
  lemma {:induction false} TransferFoldPaid(l: Ledger, ts: seq<Transfer>)
    ensures var r := TransferFold(l, ts);
      && r.marianoPaid == l.marianoPaid + SumOf(ts, Sent(Mariano, Gabriela)) - SumOf(ts, Sent(Gabriela, Mariano))
      && r.gabrielaPaid == l.gabrielaPaid + SumOf(ts, Sent(Gabriela, Mariano)) - SumOf(ts, Sent(Mariano, Gabriela))
      && r.marianoOwes == l.marianoOwes
      && r.gabrielaOwes == l.gabrielaOwes
      && r.juanPaid == l.juanPaid
  {
    if ts != [] {
      var init, t := ts[..|ts| - 1], ts[|ts| - 1];
      assert ts == init + [t];
      TransferFoldPaid(l, init);
      SumOfSnoc(init, t, Sent(Mariano, Gabriela));
      SumOfSnoc(init, t, Sent(Gabriela, Mariano));
    }
  }

  /** Transfers between the parents never change what the two paid together. */
  lemma ParentPaymentsConserved(l: Ledger, ts: seq<Transfer>)
    ensures TransferFold(l, ts).marianoPaid + TransferFold(l, ts).gabrielaPaid
            == l.marianoPaid + l.gabrielaPaid
  {
    TransferFoldPaid(l, ts);
  }

  /** The reimbursement totals never drop below zero once they start at or above zero. */
  lemma {:induction false} TransfersKeepReimbursementsNonNegative(l: Ledger, ts: seq<Transfer>)
    requires l.marianoToJuan >= 0.0 && l.gabrielaToJuan >= 0.0
    ensures TransferFold(l, ts).marianoToJuan >= 0.0 && TransferFold(l, ts).gabrielaToJuan >= 0.0
  {
    if ts != [] {
      TransfersKeepReimbursementsNonNegative(l, ts[..|ts| - 1]);
    }
  }

  /**
   * With non-negative amounts, what a parent still owes Juan Martín after a
   * sequence of transfers is what was owed minus everything that parent sent
   * him, floored at zero: any excess is dropped, not credited.
   */
  lemma {:induction false} TransferFoldReimbursements(l: Ledger, ts: seq<Transfer>)
    requires l.marianoToJuan >= 0.0 && l.gabrielaToJuan >= 0.0
    requires forall i :: 0 <= i < |ts| ==> ts[i].data.amount >= 0.0
    ensures TransferFold(l, ts).marianoToJuan == Max(0.0, l.marianoToJuan - SumOf(ts, Sent(Mariano, JuanMartin)))
    ensures TransferFold(l, ts).gabrielaToJuan == Max(0.0, l.gabrielaToJuan - SumOf(ts, Sent(Gabriela, JuanMartin)))
  {
    if ts != [] {
      var init, t := ts[..|ts| - 1], ts[|ts| - 1];
      assert ts == init + [t];
      TransferFoldReimbursements(l, init);
      SumOfSnoc(init, t, Sent(Mariano, JuanMartin));
      SumOfSnoc(init, t, Sent(Gabriela, JuanMartin));
    }
  }

  /** The totals after a sequence of non-negative transfers, as plain sums over the transfers. */
  function TransferTotals(l: Ledger, ts: seq<Transfer>): Ledger
  {
    Ledger(
      l.marianoPaid + SumOf(ts, Sent(Mariano, Gabriela)) - SumOf(ts, Sent(Gabriela, Mariano)),
      l.marianoOwes,
      l.gabrielaPaid + SumOf(ts, Sent(Gabriela, Mariano)) - SumOf(ts, Sent(Mariano, Gabriela)),
      l.gabrielaOwes,
      l.juanPaid,
      Max(0.0, l.marianoToJuan - SumOf(ts, Sent(Mariano, JuanMartin))),
      Max(0.0, l.gabrielaToJuan - SumOf(ts, Sent(Gabriela, JuanMartin))))
  }

  /** With non-negative amounts, the transfer loop computes exactly `TransferTotals`. */
  lemma TransferFoldIsTransferTotals(l: Ledger, ts: seq<Transfer>)
    requires l.marianoToJuan >= 0.0 && l.gabrielaToJuan >= 0.0
    requires forall i :: 0 <= i < |ts| ==> ts[i].data.amount >= 0.0
    ensures TransferFold(l, ts) == TransferTotals(l, ts)
  {
    TransferFoldPaid(l, ts);
    TransferFoldReimbursements(l, ts);
  }

  /** `TransferTotals` depends only on which transfers there are, not on their order. */
  lemma TransferTotalsPermute(l: Ledger, ts1: seq<Transfer>, ts2: seq<Transfer>)
    requires multiset(ts1) == multiset(ts2)
    ensures TransferTotals(l, ts1) == TransferTotals(l, ts2)
  {
    TransferSumsPermute(ts1, ts2);
  }

  // ---------------------------------------------------------------------
  // The report

  /**
   * The parents' `owes` plus the part charged to nobody is the month's total;
   * in particular, when every expense is shared ('both' or missing) the two
   * `owes` add up to `totalExpenses`.
   */
  lemma SharedCostConservation(es: seq<Expense>, ts: seq<Transfer>)
    ensures var r := MonthlyReport(es, ts);
      r.mariano.owes + r.gabriela.owes + SumOf(es, Unassigned) == r.totalExpenses
    ensures (forall i :: 0 <= i < |es| ==> ImputeOf(es[i]) == Both) ==>
      MonthlyReport(es, ts).mariano.owes + MonthlyReport(es, ts).gabriela.owes == MonthlyReport(es, ts).totalExpenses
  {
    ExpenseFoldClosedForm(es);
    TransferFoldPaid(ExpenseFold(es), ts);
    SharesCoverTheAmount(es);
    if forall i :: 0 <= i < |es| ==> ImputeOf(es[i]) == Both {
      SumOfNonNegative(es, Unassigned);
      assert SumOf(es, Unassigned) == 0.0 by {
        NothingUnassigned(es);
      }
    }
  }

  lemma {:induction false} NothingUnassigned(es: seq<Expense>)
    requires forall i :: 0 <= i < |es| ==> ImputeOf(es[i]) != Unrecognised
    ensures SumOf(es, Unassigned) == 0.0
  {
    if es != [] {
      NothingUnassigned(es[1..]);
    }
  }

  /**
   * With non-negative expense amounts, the reported reimbursements and the
   * pending total are never negative, whatever the transfers.
   */
  lemma ReimbursementsNonNegative(es: seq<Expense>, ts: seq<Transfer>)
    requires forall i :: 0 <= i < |es| ==> es[i].data.amount >= 0.0
    ensures var r := MonthlyReport(es, ts);
      && r.reimbursements.marianoToJuan >= 0.0
      && r.reimbursements.gabrielaToJuan >= 0.0
      && r.juanmartin.pendingReimbursement >= 0.0
  {
    ExpenseFoldClosedForm(es);
    SumOfNonNegative(es, OwedToJuanBy(Mariano));
    SumOfNonNegative(es, OwedToJuanBy(Gabriela));
    TransfersKeepReimbursementsNonNegative(ExpenseFold(es), ts);
  }

  /**
   * The report in closed form: every figure is a sum over the month's records,
   * and the reimbursements are floored at zero (non-negative amounts).
   */
  lemma ReportClosedForm(es: seq<Expense>, ts: seq<Transfer>)
    requires forall i :: 0 <= i < |es| ==> es[i].data.amount >= 0.0
    requires forall i :: 0 <= i < |ts| ==> ts[i].data.amount >= 0.0
    ensures var r := MonthlyReport(es, ts);
      && r.totalExpenses == SumOf(es, ExpenseAmount)
      && r.mariano.paid == SumOf(es, PaidBy(Mariano)) + SumOf(ts, Sent(Mariano, Gabriela)) - SumOf(ts, Sent(Gabriela, Mariano))
      && r.gabriela.paid == SumOf(es, PaidBy(Gabriela)) + SumOf(ts, Sent(Gabriela, Mariano)) - SumOf(ts, Sent(Mariano, Gabriela))
      && r.mariano.owes == SumOf(es, OwedBy(Mariano))
      && r.gabriela.owes == SumOf(es, OwedBy(Gabriela))
      && r.juanmartin.paid == SumOf(es, PaidBy(JuanMartin))
      && r.reimbursements.marianoToJuan
         == Max(0.0, SumOf(es, OwedToJuanBy(Mariano)) - SumOf(ts, Sent(Mariano, JuanMartin)))
      && r.reimbursements.gabrielaToJuan
         == Max(0.0, SumOf(es, OwedToJuanBy(Gabriela)) - SumOf(ts, Sent(Gabriela, JuanMartin)))
  {
    FinalLedgerClosedForm(es, ts);
  }

  /** The totals after both loops, in closed form. */
  lemma FinalLedgerClosedForm(es: seq<Expense>, ts: seq<Transfer>)
    requires forall i :: 0 <= i < |es| ==> es[i].data.amount >= 0.0
    requires forall i :: 0 <= i < |ts| ==> ts[i].data.amount >= 0.0
    ensures var l := TransferFold(ExpenseFold(es), ts);
      && l.marianoPaid == SumOf(es, PaidBy(Mariano)) + SumOf(ts, Sent(Mariano, Gabriela)) - SumOf(ts, Sent(Gabriela, Mariano))
      && l.marianoOwes == SumOf(es, OwedBy(Mariano))
      && l.gabrielaPaid == SumOf(es, PaidBy(Gabriela)) + SumOf(ts, Sent(Gabriela, Mariano)) - SumOf(ts, Sent(Mariano, Gabriela))
      && l.gabrielaOwes == SumOf(es, OwedBy(Gabriela))
      && l.juanPaid == SumOf(es, PaidBy(JuanMartin))
      && l.marianoToJuan == Max(0.0, SumOf(es, OwedToJuanBy(Mariano)) - SumOf(ts, Sent(Mariano, JuanMartin)))
      && l.gabrielaToJuan == Max(0.0, SumOf(es, OwedToJuanBy(Gabriela)) - SumOf(ts, Sent(Gabriela, JuanMartin)))
  {
    ExpenseFoldClosedForm(es);
    ExpenseFoldOwesJuanNonNegative(es);
    TransferFoldIsTransferTotals(ExpenseFold(es), ts);
  }

  /**
   * Reordering the month's expenses, or (with non-negative amounts) its
   * transfers, does not change the report.
   */
  lemma OrderIrrelevant(es1: seq<Expense>, es2: seq<Expense>, ts1: seq<Transfer>, ts2: seq<Transfer>)
    requires multiset(es1) == multiset(es2) && multiset(ts1) == multiset(ts2)
    requires forall i :: 0 <= i < |es1| ==> es1[i].data.amount >= 0.0
    requires forall i :: 0 <= i < |ts1| ==> ts1[i].data.amount >= 0.0
    ensures MonthlyReport(es1, ts1) == MonthlyReport(es2, ts2)
  {
    ExpenseFoldPermute(es1, es2);
    ExpenseFoldOwesJuanNonNegative(es1);
    TransferFoldPermute(ExpenseFold(es1), ts1, ts2);
    SumOfPermutation(es1, es2, ExpenseAmount);
  }

  /** The expense totals do not depend on the order of the expenses. */
  lemma ExpenseFoldPermute(es1: seq<Expense>, es2: seq<Expense>)
    requires multiset(es1) == multiset(es2)
    ensures ExpenseFold(es1) == ExpenseFold(es2)
  {
    ExpenseFoldClosedForm(es1);
    ExpenseFoldClosedForm(es2);
    ExpenseSumsPermute(es1, es2);
  }

  /** With non-negative amounts, the transfer totals do not depend on the order of the transfers. */
  lemma TransferFoldPermute(l: Ledger, ts1: seq<Transfer>, ts2: seq<Transfer>)
    requires multiset(ts1) == multiset(ts2)
    requires l.marianoToJuan >= 0.0 && l.gabrielaToJuan >= 0.0
    requires forall i :: 0 <= i < |ts1| ==> ts1[i].data.amount >= 0.0
    ensures TransferFold(l, ts1) == TransferFold(l, ts2)
  {
    PermutationKeepsAll(ts1, ts2, (t: Transfer) => t.data.amount >= 0.0);
    TransferFoldIsTransferTotals(l, ts1);
    TransferFoldIsTransferTotals(l, ts2);
    TransferTotalsPermute(l, ts1, ts2);
  }

  /** With non-negative amounts, the expenses leave non-negative debts to Juan Martín. */
  lemma ExpenseFoldOwesJuanNonNegative(es: seq<Expense>)
    requires forall i :: 0 <= i < |es| ==> es[i].data.amount >= 0.0
    ensures ExpenseFold(es).marianoToJuan >= 0.0 && ExpenseFold(es).gabrielaToJuan >= 0.0
  {
    ExpenseFoldClosedForm(es);
    SumOfNonNegative(es, OwedToJuanBy(Mariano));
    SumOfNonNegative(es, OwedToJuanBy(Gabriela));
  }

  lemma ExpenseSumsPermute(es1: seq<Expense>, es2: seq<Expense>)
    requires multiset(es1) == multiset(es2)
    ensures SumOf(es1, ExpenseAmount) == SumOf(es2, ExpenseAmount)
    ensures SumOf(es1, PaidBy(Mariano)) == SumOf(es2, PaidBy(Mariano))
    ensures SumOf(es1, PaidBy(Gabriela)) == SumOf(es2, PaidBy(Gabriela))
    ensures SumOf(es1, PaidBy(JuanMartin)) == SumOf(es2, PaidBy(JuanMartin))
    ensures SumOf(es1, OwedBy(Mariano)) == SumOf(es2, OwedBy(Mariano))
    ensures SumOf(es1, OwedBy(Gabriela)) == SumOf(es2, OwedBy(Gabriela))
    ensures SumOf(es1, OwedToJuanBy(Mariano)) == SumOf(es2, OwedToJuanBy(Mariano))
    ensures SumOf(es1, OwedToJuanBy(Gabriela)) == SumOf(es2, OwedToJuanBy(Gabriela))
  {
    SumOfPermutation(es1, es2, ExpenseAmount);
    SumOfPermutation(es1, es2, PaidBy(Mariano));
    SumOfPermutation(es1, es2, PaidBy(Gabriela));
    SumOfPermutation(es1, es2, PaidBy(JuanMartin));
    SumOfPermutation(es1, es2, OwedBy(Mariano));
    SumOfPermutation(es1, es2, OwedBy(Gabriela));
    SumOfPermutation(es1, es2, OwedToJuanBy(Mariano));
    SumOfPermutation(es1, es2, OwedToJuanBy(Gabriela));
  }

  lemma TransferSumsPermute(ts1: seq<Transfer>, ts2: seq<Transfer>)
    requires multiset(ts1) == multiset(ts2)
    ensures SumOf(ts1, Sent(Mariano, Gabriela)) == SumOf(ts2, Sent(Mariano, Gabriela))
    ensures SumOf(ts1, Sent(Gabriela, Mariano)) == SumOf(ts2, Sent(Gabriela, Mariano))
    ensures SumOf(ts1, Sent(Mariano, JuanMartin)) == SumOf(ts2, Sent(Mariano, JuanMartin))
    ensures SumOf(ts1, Sent(Gabriela, JuanMartin)) == SumOf(ts2, Sent(Gabriela, JuanMartin))
  {
    SumOfPermutation(ts1, ts2, Sent(Mariano, Gabriela));
    SumOfPermutation(ts1, ts2, Sent(Gabriela, Mariano));
    SumOfPermutation(ts1, ts2, Sent(Mariano, JuanMartin));
    SumOfPermutation(ts1, ts2, Sent(Gabriela, JuanMartin));
  }

  /**
   * Without the non-negative amounts, transfer order does matter: the floor
   * at zero is applied after each transfer, so a negative transfer to Juan
   * Martín counts fully or partly depending on where it stands.
   */
  lemma NegativeTransferMakesOrderMatter(e: Expense, refund: Transfer, payment: Transfer)
    requires e.data.amount == 100.0 && e.data.paidBy == JuanMartin && e.data.imputeTo == Some(OnlyMariano)
    requires e.data.needsReimbursement
    requires refund.data.from == Mariano && refund.data.to == JuanMartin && refund.data.amount == -50.0
    requires payment.data.from == Mariano && payment.data.to == JuanMartin && payment.data.amount == 200.0
    ensures MonthlyReport([e], [refund, payment]).reimbursements.marianoToJuan == 0.0
    ensures MonthlyReport([e], [payment, refund]).reimbursements.marianoToJuan == 50.0
  {
    ReportOfOneExpense(e, [refund, payment]);
    ReportOfOneExpense(e, [payment, refund]);
    var l := ExpenseStep(EmptyLedger, e);
    assert l.marianoToJuan == 100.0;
    TransferFoldTwo(l, refund, payment);
    TransferFoldTwo(l, payment, refund);
    FloorAfterEachTransfer(l, refund, payment);
  }

  lemma FloorAfterEachTransfer(l: Ledger, refund: Transfer, payment: Transfer)
    requires l.marianoToJuan == 100.0
    requires refund.data.from == Mariano && refund.data.to == JuanMartin && refund.data.amount == -50.0
    requires payment.data.from == Mariano && payment.data.to == JuanMartin && payment.data.amount == 200.0
    ensures TransferStep(TransferStep(l, refund), payment).marianoToJuan == 0.0
    ensures TransferStep(TransferStep(l, payment), refund).marianoToJuan == 50.0
  {
    assert TransferStep(l, refund).marianoToJuan == 150.0;
    assert TransferStep(l, payment).marianoToJuan == 0.0;
  }

  /**
   * Paying the reported debt settles the month: one more transfer of the
   * reported amount in the reported direction leaves the parents balanced
   * and no debt reported.
   */
  lemma SettlingTheDebtBalances(es: seq<Expense>, ts: seq<Transfer>, t: Transfer)
    requires MonthlyReport(es, ts).debtInfo.Some?
    requires var d := MonthlyReport(es, ts).debtInfo.value;
      t.data.from == d.from && t.data.to == d.to && t.data.amount == d.amount
    ensures MonthlyReport(es, ts + [t]).isBalanced
    ensures MonthlyReport(es, ts + [t]).debtInfo.None?
    ensures ParentDifference(MonthlyReport(es, ts + [t])) == 0.0
  {
    var before := TransferFold(ExpenseFold(es), ts);
    TransferFoldAppend(ExpenseFold(es), ts, t);
    SummarizeIsConsistent(before, SumOf(es, ExpenseAmount));
    var after := TransferStep(before, t);
    assert after.marianoPaid - after.marianoOwes == after.gabrielaPaid - after.gabrielaOwes;
  }

  /** The fold over one more transfer is one more step. */
  lemma TransferFoldAppend(l: Ledger, ts: seq<Transfer>, t: Transfer)
    ensures TransferFold(l, ts + [t]) == TransferStep(TransferFold(l, ts), t)
  {
    assert (ts + [t])[..|ts|] == ts;
  }

  /**
   * Records dated in other months do not change a month's report, wherever
   * they stand in the stored lists: adding, deleting or editing them in place
   * leaves the report as it was.
   */
  lemma MonthIsolation(expensesBefore: seq<Expense>, otherExpenses: seq<Expense>, expensesAfter: seq<Expense>,
                       transfersBefore: seq<Transfer>, otherTransfers: seq<Transfer>, transfersAfter: seq<Transfer>,
                       year: int, month: int)
    requires forall i :: 0 <= i < |otherExpenses| ==> !InMonth(otherExpenses[i].data.date, year, month)
    requires forall i :: 0 <= i < |otherTransfers| ==> !InMonth(otherTransfers[i].data.date, year, month)
    ensures MonthlyReportFor(expensesBefore + otherExpenses + expensesAfter,
                             transfersBefore + otherTransfers + transfersAfter, year, month)
            == MonthlyReportFor(expensesBefore + expensesAfter, transfersBefore + transfersAfter, year, month)
  {
    Store.ExpensesByMonthIgnoresOtherMonths(expensesBefore, otherExpenses, expensesAfter, year, month);
    Store.TransfersByMonthIgnoresOtherMonths(transfersBefore, otherTransfers, transfersAfter, year, month);
  }

  // ---------------------------------------------------------------------
  // Symmetry between the two parents

  function MirrorUser(u: UserId): UserId
  {
    match u
    case Mariano => Gabriela
    case Gabriela => Mariano
    case _ => u
  }

  function MirrorImpute(i: Impute): Impute
  {
    match i
    case OnlyMariano => OnlyGabriela
    case OnlyGabriela => OnlyMariano
    case _ => i
  }

  function MirrorExpense(e: Expense): Expense
  {
    var imputeTo := if e.data.imputeTo.Some? then Some(MirrorImpute(e.data.imputeTo.value)) else None;
    e.(data := e.data.(paidBy := MirrorUser(e.data.paidBy), imputeTo := imputeTo, createdBy := MirrorUser(e.data.createdBy)))
  }

  function MirrorTransfer(t: Transfer): Transfer
  {
    t.(data := t.data.(from := MirrorUser(t.data.from), to := MirrorUser(t.data.to)))
  }

  function MirrorExpenses(es: seq<Expense>): (r: seq<Expense>)
    ensures |r| == |es| && forall i :: 0 <= i < |es| ==> r[i] == MirrorExpense(es[i])
  {
    seq(|es|, i requires 0 <= i < |es| => MirrorExpense(es[i]))
  }

  function MirrorTransfers(ts: seq<Transfer>): (r: seq<Transfer>)
    ensures |r| == |ts| && forall i :: 0 <= i < |ts| ==> r[i] == MirrorTransfer(ts[i])
  {
    seq(|ts|, i requires 0 <= i < |ts| => MirrorTransfer(ts[i]))
  }

  function MirrorLedger(l: Ledger): Ledger
  {
    Ledger(l.gabrielaPaid, l.gabrielaOwes, l.marianoPaid, l.marianoOwes, l.juanPaid, l.gabrielaToJuan, l.marianoToJuan)
  }

  /** The report with the two parents' roles exchanged. */
  function MirrorReport(r: MonthlyBalances): MonthlyBalances
  {
    var debtInfo := if r.debtInfo.Some? then
        Some(Debt(MirrorUser(r.debtInfo.value.from), MirrorUser(r.debtInfo.value.to), r.debtInfo.value.amount))
      else None;
    r.(mariano := r.gabriela, gabriela := r.mariano, debtInfo := debtInfo,
       reimbursements := Reimbursements(r.reimbursements.gabrielaToJuan, r.reimbursements.marianoToJuan))
  }

  lemma {:induction false} MirrorExpenseFold(es: seq<Expense>)
    ensures ExpenseFold(MirrorExpenses(es)) == MirrorLedger(ExpenseFold(es))
  {
    if es != [] {
      var n := |es|;
      assert MirrorExpenses(es)[..n - 1] == MirrorExpenses(es[..n - 1]);
      MirrorExpenseFold(es[..n - 1]);
      MirrorExpenseStep(ExpenseFold(es[..n - 1]), es[n - 1]);
    }
  }

  lemma MirrorExpenseStep(l: Ledger, e: Expense)
    ensures ExpenseStep(MirrorLedger(l), MirrorExpense(e)) == MirrorLedger(ExpenseStep(l, e))
  {
    match ImputeOf(e)
    case Both =>
    case OnlyMariano =>
    case OnlyGabriela =>
    case Unrecognised =>
  }

  lemma {:induction false} MirrorTransferFold(l: Ledger, ts: seq<Transfer>)
    ensures TransferFold(MirrorLedger(l), MirrorTransfers(ts)) == MirrorLedger(TransferFold(l, ts))
  {
    if ts != [] {
      var n := |ts|;
      assert MirrorTransfers(ts)[..n - 1] == MirrorTransfers(ts[..n - 1]);
      MirrorTransferFold(l, ts[..n - 1]);
    }
  }

  lemma {:induction false} MirrorKeepsTotal(es: seq<Expense>)
    ensures SumOf(MirrorExpenses(es), ExpenseAmount) == SumOf(es, ExpenseAmount)
  {
    if es != [] {
      assert MirrorExpenses(es)[1..] == MirrorExpenses(es[1..]);
      MirrorKeepsTotal(es[1..]);
    }
  }

  /**
   * Exchanging Mariano and Gabriela throughout the input exchanges them in the
   * report: balances and reimbursements swap, the debt reverses direction with
   * the same amount, and the total and the balanced flag stay.
   */
  lemma MirrorSymmetry(es: seq<Expense>, ts: seq<Transfer>)
    ensures MonthlyReport(MirrorExpenses(es), MirrorTransfers(ts)) == MirrorReport(MonthlyReport(es, ts))
  {
    MirrorExpenseFold(es);
    MirrorTransferFold(ExpenseFold(es), ts);
    MirrorKeepsTotal(es);
    MirrorSummarize(TransferFold(ExpenseFold(es), ts), SumOf(es, ExpenseAmount));
  }

  lemma MirrorSummarize(l: Ledger, totalExpenses: real)
    ensures Summarize(MirrorLedger(l), totalExpenses) == MirrorReport(Summarize(l, totalExpenses))
  {
  }

  // ---------------------------------------------------------------------
  // Worked examples

  /** The report of a month with a single expense. */
  lemma ReportOfOneExpense(e: Expense, ts: seq<Transfer>)
    ensures MonthlyReport([e], ts) == Summarize(TransferFold(ExpenseStep(EmptyLedger, e), ts), e.data.amount)
  {
    var es := [e];
    assert es[..0] == [] && es[1..] == [];
    assert ExpenseFold(es) == ExpenseStep(ExpenseFold([]), e);
    assert SumOf(es, ExpenseAmount) == ExpenseAmount(e) + SumOf([], ExpenseAmount);
  }

  lemma TransferFoldOne(l: Ledger, t: Transfer)
    ensures TransferFold(l, [t]) == TransferStep(l, t)
  {
    assert [t][..0] == [];
  }

  lemma TransferFoldTwo(l: Ledger, t1: Transfer, t2: Transfer)
    ensures TransferFold(l, [t1, t2]) == TransferStep(TransferStep(l, t1), t2)
  {
    assert [t1, t2][..1] == [t1];
    TransferFoldOne(l, t1);
  }

  /** A month with no records reports nothing spent, nothing owed and the parents balanced. */
  lemma EmptyMonth()
    ensures var r := MonthlyReport([], []);
      && r.totalExpenses == 0.0
      && r.mariano == ParentBalance(0.0, 0.0, 0.0)
      && r.gabriela == ParentBalance(0.0, 0.0, 0.0)
      && r.juanmartin.pendingReimbursement == 0.0
      && r.debtInfo.None?
      && r.isBalanced
  {
    assert ExpenseFold([]) == EmptyLedger;
    assert TransferFold(EmptyLedger, []) == EmptyLedger;
  }

  /** Mariano pays 1000 for both: Gabriela owes him 500. */
  lemma SharedExpensePaidByMariano(e: Expense)
    requires e.data.amount == 1000.0 && e.data.paidBy == Mariano && e.data.imputeTo == Some(Both)
    ensures var r := MonthlyReport([e], []);
      && r.mariano == ParentBalance(1000.0, 500.0, 500.0)
      && r.gabriela == ParentBalance(0.0, 500.0, -500.0)
      && r.debtInfo == Some(Debt(Gabriela, Mariano, 500.0))
      && !r.isBalanced
  {
    ReportOfOneExpense(e, []);
    var l := ExpenseStep(EmptyLedger, e);
    assert l.marianoPaid == 1000.0 && l.gabrielaPaid == 0.0 && l.marianoOwes == 500.0 && l.gabrielaOwes == 500.0;
    assert TransferFold(l, []) == l;
  }

  /**
   * Juan Martín pays 600 for both and asks to be paid back: each parent owes
   * him 300, and the parents stay balanced with each other.
   */
  lemma ReimbursedExpenseSplitsInHalf(e: Expense)
    requires e.data.amount == 600.0 && e.data.paidBy == JuanMartin && e.data.imputeTo == Some(Both)
    requires e.data.needsReimbursement
    ensures var r := MonthlyReport([e], []);
      && r.reimbursements == Reimbursements(300.0, 300.0)
      && r.mariano.balance == -300.0
      && r.gabriela.balance == -300.0
      && r.isBalanced
  {
    ReportOfOneExpense(e, []);
    var l := ExpenseStep(EmptyLedger, e);
    assert l.marianoPaid == 0.0 && l.gabrielaPaid == 0.0 && l.marianoOwes == 300.0 && l.gabrielaOwes == 300.0;
    assert l.marianoToJuan == 300.0 && l.gabrielaToJuan == 300.0;
    assert TransferFold(l, []) == l;
  }

  /** Mariano then sends him 300, which clears Mariano's part and leaves Gabriela's. */
  lemma PaymentClearsOneShare(e: Expense, t: Transfer)
    requires e.data.amount == 600.0 && e.data.paidBy == JuanMartin && e.data.imputeTo == Some(Both)
    requires e.data.needsReimbursement
    requires t.data.from == Mariano && t.data.to == JuanMartin && t.data.amount == 300.0
    ensures MonthlyReport([e], [t]).reimbursements == Reimbursements(0.0, 300.0)
  {
    ReportOfOneExpense(e, [t]);
    var l := ExpenseStep(EmptyLedger, e);
    assert l.marianoToJuan == 300.0 && l.gabrielaToJuan == 300.0;
    TransferFoldOne(l, t);
    assert TransferStep(l, t).marianoToJuan == 0.0 && TransferStep(l, t).gabrielaToJuan == 300.0;
  }

  /** A payment of 1000 against an outstanding 100 leaves 0, not -900. */
  lemma OverpaymentIsDropped(e: Expense, t: Transfer)
    requires e.data.amount == 100.0 && e.data.paidBy == JuanMartin && e.data.imputeTo == Some(OnlyGabriela)
    requires e.data.needsReimbursement
    requires t.data.from == Gabriela && t.data.to == JuanMartin && t.data.amount == 1000.0
    ensures MonthlyReport([e], [t]).reimbursements.gabrielaToJuan == 0.0
  {
    ReportOfOneExpense(e, [t]);
    var l := ExpenseStep(EmptyLedger, e);
    assert l.gabrielaToJuan == 100.0;
    TransferFoldOne(l, t);
    assert TransferStep(l, t).gabrielaToJuan == 0.0;
  }
}
