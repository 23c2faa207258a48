/**
 * The monthly balance engine (calculateMonthlyBalances). One month's expenses
 * and transfers are folded, in stored order, into a handful of running totals;
 * the totals are then turned into a report: what each parent paid and owes,
 * their net balances, what each parent still owes Juan Martín, which parent
 * owes the other and how much, and the month's total spending.
 *
 * The fold is given twice: as functions over the record sequences
 * (ExpenseFold, TransferFold, Summarize), which the lemmas in BalanceLaws
 * reason about, and as the method CalculateMonthlyBalances, which updates
 * its accumulators in loops as the source does and is proved to compute
 * exactly what the functions describe.
 */
module Balances {
  import opened Common
  import opened Records
  import Store

  /** The running totals the engine accumulates over a month. */
  datatype Ledger = Ledger(
    marianoPaid: real,
    marianoOwes: real,
    gabrielaPaid: real,
    gabrielaOwes: real,
    juanPaid: real,
    marianoToJuan: real,
    gabrielaToJuan: real)

  const EmptyLedger: Ledger := Ledger(0.0, 0.0, 0.0, 0.0, 0.0, 0.0, 0.0)

  /** `imputeTo`, with a missing value read as 'both'. */
  function ImputeOf(e: Expense): Impute
  {
    if e.data.imputeTo.Some? then e.data.imputeTo.value else Both
  }

  /** Juan Martín paid and asked to be paid back. */
  predicate Reimbursable(e: Expense)
  {
    e.data.paidBy == JuanMartin && e.data.needsReimbursement
  }

  /** What one expense adds to `paid` of whoever paid it (calculationService.js:32-35). */
  function PayStep(l: Ledger, e: Expense): Ledger
  {
    var amount := e.data.amount;
    match e.data.paidBy
    case Mariano => l.(marianoPaid := l.marianoPaid + amount)
    case Gabriela => l.(gabrielaPaid := l.gabrielaPaid + amount)
    case JuanMartin => l.(juanPaid := l.juanPaid + amount)
    case OtherUser(_) => l
  }

  /**
   * What one expense charges to the parents by `imputeTo`, and to their debt
   * to Juan Martín when he paid and asked to be paid back
   * (calculationService.js:37-59).
   */
  function ChargeStep(l: Ledger, e: Expense): Ledger
  {
    var amount := e.data.amount;
    var reimburse := Reimbursable(e);
    match ImputeOf(e)
    case Both =>
      var half := amount / 2.0;
      l.(marianoOwes := l.marianoOwes + half,
         gabrielaOwes := l.gabrielaOwes + half,
         marianoToJuan := if reimburse then l.marianoToJuan + half else l.marianoToJuan,
         gabrielaToJuan := if reimburse then l.gabrielaToJuan + half else l.gabrielaToJuan)
    case OnlyMariano =>
      l.(marianoOwes := l.marianoOwes + amount,
         marianoToJuan := if reimburse then l.marianoToJuan + amount else l.marianoToJuan)
    case OnlyGabriela =>
      l.(gabrielaOwes := l.gabrielaOwes + amount,
         gabrielaToJuan := if reimburse then l.gabrielaToJuan + amount else l.gabrielaToJuan)
    case Unrecognised => l
  }

  /** The effect of one expense on the running totals (calculationService.js:26-60). */
  function ExpenseStep(l: Ledger, e: Expense): Ledger
  {
    ChargeStep(PayStep(l, e), e)
  }

  /** The totals after the expenses of `es`, taken in order, starting from zero. */
  function ExpenseFold(es: seq<Expense>): Ledger
  {
    if es == [] then EmptyLedger
    else ExpenseStep(ExpenseFold(es[..|es| - 1]), es[|es| - 1])
  }

  /** The effect of one transfer on the running totals (calculationService.js:63-85). */
  function TransferStep(l: Ledger, t: Transfer): Ledger
  {
    var amount := t.data.amount;
    var from := t.data.from;
    var to := t.data.to;
    var l :=
      if from == Mariano && to == Gabriela then
        l.(marianoPaid := l.marianoPaid + amount, gabrielaPaid := l.gabrielaPaid - amount)
      else if from == Gabriela && to == Mariano then
        l.(gabrielaPaid := l.gabrielaPaid + amount, marianoPaid := l.marianoPaid - amount)
      else l;
    if to == JuanMartin then
      if from == Mariano then l.(marianoToJuan := Max(0.0, l.marianoToJuan - amount))
      else if from == Gabriela then l.(gabrielaToJuan := Max(0.0, l.gabrielaToJuan - amount))
      else l
    else l
  }

  /** The totals after the transfers of `ts`, taken in order, starting from `l`. */
  function TransferFold(l: Ledger, ts: seq<Transfer>): Ledger
  {
    if ts == [] then l
    else TransferStep(TransferFold(l, ts[..|ts| - 1]), ts[|ts| - 1])
  }

  // ---------------------------------------------------------------------
  // The report

  datatype ParentBalance = ParentBalance(paid: real, owes: real, balance: real)

  /** Juan Martín's entry: only `paid` and the pending reimbursement are ever filled in. */
  datatype CollaboratorBalance = CollaboratorBalance(paid: real, owes: real, balance: real, pendingReimbursement: real)

  /** `debtInfo`: `from` owes `to` the given amount (display names left out). */
  datatype Debt = Debt(from: UserId, to: UserId, amount: real)

  datatype Reimbursements = Reimbursements(marianoToJuan: real, gabrielaToJuan: real)

  datatype MonthlyBalances = MonthlyBalances(
    totalExpenses: real,
    mariano: ParentBalance,
    gabriela: ParentBalance,
    juanmartin: CollaboratorBalance,
    debtInfo: Option<Debt>,
    reimbursements: Reimbursements,
    isBalanced: bool)

  /** The tolerance below which the two parents count as even. */
  const Tolerance: real := 0.01

  /** The net balance the report gives a parent. */
  function BalanceOf(r: MonthlyBalances, parent: UserId): real
  {
    if parent == Mariano then r.mariano.balance else r.gabriela.balance
  }

  /** mariano.balance - gabriela.balance. */
  function ParentDifference(r: MonthlyBalances): real
  {
    r.mariano.balance - r.gabriela.balance
  }

  /** Turns the final totals into the report (calculationService.js:87-127). */
  function Summarize(l: Ledger, totalExpenses: real): MonthlyBalances
  {
    var mariano := ParentBalance(l.marianoPaid, l.marianoOwes, l.marianoPaid - l.marianoOwes);
    var gabriela := ParentBalance(l.gabrielaPaid, l.gabrielaOwes, l.gabrielaPaid - l.gabrielaOwes);
    var difference := mariano.balance - gabriela.balance;
    var debtInfo :=
      if Abs(difference) > Tolerance then
        if difference > 0.0 then Some(Debt(Gabriela, Mariano, Abs(difference) / 2.0))
        else Some(Debt(Mariano, Gabriela, Abs(difference) / 2.0))
      else None;
    MonthlyBalances(
      totalExpenses,
      mariano,
      gabriela,
      CollaboratorBalance(l.juanPaid, 0.0, 0.0, l.marianoToJuan + l.gabrielaToJuan),
      debtInfo,
      Reimbursements(l.marianoToJuan, l.gabrielaToJuan),
      Abs(difference) < Tolerance)
  }

  /**
   * The report is consistent with itself: each balance is paid minus owes,
   * the pending reimbursement is the sum of the two debts to Juan Martín,
   * a debt is reported exactly when the parents differ by more than the
   * tolerance and the month is balanced exactly when they differ by less,
   * and the debt runs from the parent with the lower balance to the one with
   * the higher, for half the difference, so that paying it brings both
   * balances to their midpoint.
   */
  lemma SummarizeIsConsistent(l: Ledger, totalExpenses: real)
    ensures var r := Summarize(l, totalExpenses);
      && r.totalExpenses == totalExpenses
      && r.mariano.balance == r.mariano.paid - r.mariano.owes
      && r.gabriela.balance == r.gabriela.paid - r.gabriela.owes
      && r.juanmartin.pendingReimbursement == r.reimbursements.marianoToJuan + r.reimbursements.gabrielaToJuan
      && (r.debtInfo.Some? <==> Abs(ParentDifference(r)) > Tolerance)
      && (r.isBalanced <==> Abs(ParentDifference(r)) < Tolerance)
      && !(r.isBalanced && r.debtInfo.Some?)
    ensures var r := Summarize(l, totalExpenses);
      r.debtInfo.Some? ==>
      var d := r.debtInfo.value;
      && ((d.from == Mariano && d.to == Gabriela) || (d.from == Gabriela && d.to == Mariano))
      && BalanceOf(r, d.from) < BalanceOf(r, d.to)
      && d.amount == Abs(ParentDifference(r)) / 2.0
      && BalanceOf(r, d.from) + d.amount == BalanceOf(r, d.to) - d.amount
  {
  }

  /**
   * At a difference of exactly the tolerance the report shows neither a debt
   * nor a balanced month; one step either side, exactly one of the two.
   */
  lemma ExactlyAtTolerance(l: Ledger, totalExpenses: real)
    ensures var r := Summarize(l, totalExpenses);
      Abs(ParentDifference(r)) == Tolerance ==> r.debtInfo.None? && !r.isBalanced
    ensures var r := Summarize(l, totalExpenses);
      Abs(ParentDifference(r)) != Tolerance ==> (r.debtInfo.Some? <==> !r.isBalanced)
  {
    SummarizeIsConsistent(l, totalExpenses);
  }

  /** The report for one month's (already selected) expenses and transfers. */
  function MonthlyReport(es: seq<Expense>, ts: seq<Transfer>): MonthlyBalances
  {
    Summarize(TransferFold(ExpenseFold(es), ts), SumOf(es, ExpenseAmount))
  }

  /** The report for a month, selecting that month's records from the whole store. */
  function MonthlyReportFor(allExpenses: seq<Expense>, allTransfers: seq<Transfer>, year: int, month: int): MonthlyBalances
  {
    MonthlyReport(Store.ExpensesByMonth(allExpenses, year, month), Store.TransfersByMonth(allTransfers, year, month))
  }

  /** The expense loop of calculateMonthlyBalances (calculationService.js:26-60). */
  method AccumulateExpenses(expenses: seq<Expense>) returns (l: Ledger)
    ensures l == ExpenseFold(expenses)
  {
    l := EmptyLedger;
    var i := 0;
    while i < |expenses|
      invariant 0 <= i <= |expenses|
      invariant l == ExpenseFold(expenses[..i])
    {
      ExpenseFoldSnoc(expenses, i);
      l := ProcessExpense(l, expenses[i]);
      i := i + 1;
    }
    assert expenses[..i] == expenses;
  }

  /** The forEach callback for one expense: adds to the payer, then charges the parents. */
  method ProcessExpense(start: Ledger, expense: Expense) returns (l: Ledger)
    ensures l == ExpenseStep(start, expense)
  {
    l := start;
    var amount := expense.data.amount;
    var paidBy := expense.data.paidBy;
    var imputeTo := ImputeOf(expense);
    var needsReimbursement := expense.data.needsReimbursement;

    if paidBy == Mariano {
      l := l.(marianoPaid := l.marianoPaid + amount);
    } else if paidBy == Gabriela {
      l := l.(gabrielaPaid := l.gabrielaPaid + amount);
    } else if paidBy == JuanMartin {
      l := l.(juanPaid := l.juanPaid + amount);
    }
    assert l == PayStep(start, expense);
    ghost var paid := l;

    if imputeTo == Both {
      var halfAmount := amount / 2.0;
      l := l.(marianoOwes := l.marianoOwes + halfAmount, gabrielaOwes := l.gabrielaOwes + halfAmount);
      if paidBy == JuanMartin && needsReimbursement {
        l := l.(marianoToJuan := l.marianoToJuan + halfAmount, gabrielaToJuan := l.gabrielaToJuan + halfAmount);
      }
    } else if imputeTo == OnlyMariano {
      l := l.(marianoOwes := l.marianoOwes + amount);
      if paidBy == JuanMartin && needsReimbursement {
        l := l.(marianoToJuan := l.marianoToJuan + amount);
      }
    } else if imputeTo == OnlyGabriela {
      l := l.(gabrielaOwes := l.gabrielaOwes + amount);
      if paidBy == JuanMartin && needsReimbursement {
        l := l.(gabrielaToJuan := l.gabrielaToJuan + amount);
      }
    }
  }

  /** The fold over one more expense is one more step. */
  lemma ExpenseFoldSnoc(expenses: seq<Expense>, i: nat)
    requires i < |expenses|
    ensures ExpenseFold(expenses[..i + 1]) == ExpenseStep(ExpenseFold(expenses[..i]), expenses[i])
  {
    assert expenses[..i + 1][..i] == expenses[..i];
  }

  /** The transfer loop of calculateMonthlyBalances (calculationService.js:63-85). */
  method AccumulateTransfers(start: Ledger, transfers: seq<Transfer>) returns (l: Ledger)
    ensures l == TransferFold(start, transfers)
  {
    l := start;
    var j := 0;
    while j < |transfers|
      invariant 0 <= j <= |transfers|
      invariant l == TransferFold(start, transfers[..j])
    {
      TransferFoldSnoc(start, transfers, j);
      l := ProcessTransfer(l, transfers[j]);
      j := j + 1;
    }
    assert transfers[..j] == transfers;
  }

  /**
   * The forEach callback for one transfer: moves `paid` between the parents,
   * then lowers the sender's debt to Juan Martín, never below zero.
   */
  method ProcessTransfer(start: Ledger, transfer: Transfer) returns (l: Ledger)
    ensures l == TransferStep(start, transfer)
  {
    l := start;
    var amount := transfer.data.amount;
    var from := transfer.data.from;
    var to := transfer.data.to;

    if from == Mariano && to == Gabriela {
      l := l.(marianoPaid := l.marianoPaid + amount, gabrielaPaid := l.gabrielaPaid - amount);
    } else if from == Gabriela && to == Mariano {
      l := l.(gabrielaPaid := l.gabrielaPaid + amount, marianoPaid := l.marianoPaid - amount);
    }

    if to == JuanMartin {
      if from == Mariano {
        l := l.(marianoToJuan := Max(0.0, l.marianoToJuan - amount));
      } else if from == Gabriela {
        l := l.(gabrielaToJuan := Max(0.0, l.gabrielaToJuan - amount));
      }
    }
  }

  /** The fold over one more transfer is one more step. */
  lemma TransferFoldSnoc(start: Ledger, transfers: seq<Transfer>, j: nat)
    requires j < |transfers|
    ensures TransferFold(start, transfers[..j + 1]) == TransferStep(TransferFold(start, transfers[..j]), transfers[j])
  {
    assert transfers[..j + 1][..j] == transfers[..j];
  }

  /**
   * calculateMonthlyBalances(year, month): selects the month's records, runs
   * the two accumulation loops, then derives balances, the parents' debt and
   * the month's total.
   */
  method CalculateMonthlyBalances(allExpenses: seq<Expense>, allTransfers: seq<Transfer>, year: int, month: int)
    returns (r: MonthlyBalances)
    ensures r == MonthlyReportFor(allExpenses, allTransfers, year, month)
  {
    var expenses := Store.ExpensesByMonth(allExpenses, year, month);
    var transfers := Store.TransfersByMonth(allTransfers, year, month);

    var l := AccumulateExpenses(expenses);
    l := AccumulateTransfers(l, transfers);
    assert l == TransferFold(ExpenseFold(expenses), transfers);

    var marianoBalance := l.marianoPaid - l.marianoOwes;
    var gabrielaBalance := l.gabrielaPaid - l.gabrielaOwes;
    var pendingReimbursement := l.marianoToJuan + l.gabrielaToJuan;

    var parentDifference := marianoBalance - gabrielaBalance;
    var debtInfo: Option<Debt> := None;
    if Abs(parentDifference) > Tolerance {
      if parentDifference > 0.0 {
        debtInfo := Some(Debt(Gabriela, Mariano, Abs(parentDifference) / 2.0));
      } else {
        debtInfo := Some(Debt(Mariano, Gabriela, Abs(parentDifference) / 2.0));
      }
    }

    var totalExpenses := SumOf(expenses, ExpenseAmount);

    r := MonthlyBalances(
      totalExpenses,
      ParentBalance(l.marianoPaid, l.marianoOwes, marianoBalance),
      ParentBalance(l.gabrielaPaid, l.gabrielaOwes, gabrielaBalance),
      CollaboratorBalance(l.juanPaid, 0.0, 0.0, pendingReimbursement),
      debtInfo,
      Reimbursements(l.marianoToJuan, l.gabrielaToJuan),
      Abs(parentDifference) < Tolerance);
    assert r == Summarize(l, totalExpenses);
  }
}
