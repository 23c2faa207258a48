/**
 * The expense form: its initial contents (new or editing), the automatic
 * choice of 'both' when Juan Martín pays and asks to be paid back, the
 * reimbursement preview, the field checks run before saving, and what
 * saving writes to the store.
 */
module ExpenseForm {
  import opened Common
  import opened Records
  import opened Balances
  import Store
  import Permissions

  /** The amount box: empty, or a number as parseFloat reads it. */
  datatype AmountText = Empty | Number(value: real)

  /**
   * The form's state. An empty paid-by or date box is None; the impute
   * choice always holds a value.
   */
  datatype FormData = FormData(
    amount: AmountText,
    description: string,
    category: string,
    paidBy: Option<UserId>,
    date: Option<Date>,
    imputeTo: Impute,
    needsReimbursement: bool)

  /**
   * The state the form opens with: the fields of `expense` when editing;
   * otherwise empty boxes, the logged-in user as payer, today's date,
   * 'both' and no reimbursement.
   */
  function InitialForm(expense: Option<Expense>, user: Option<User>, today: Date): (f: FormData)
    ensures expense.Some? ==> f.paidBy == Some(expense.value.data.paidBy) && f.amount == Number(expense.value.data.amount)
    ensures expense.Some? ==>
      var d := expense.value.data;
      && f.description == d.description && f.category == d.category && f.date == Some(d.date)
      && f.needsReimbursement == d.needsReimbursement
      && f.imputeTo == (if d.imputeTo.Some? then d.imputeTo.value else Both)
    ensures expense.None? ==>
      && f.amount == Empty && f.description == "" && f.category == ""
      && f.date == Some(today) && f.imputeTo == Both && !f.needsReimbursement
      && (f.paidBy.Some? <==> user.Some?) && (user.Some? ==> f.paidBy == Some(user.value.id))
  {
    match expense
    case Some(e) =>
      FormData(Number(e.data.amount), e.data.description, e.data.category, Some(e.data.paidBy), Some(e.data.date),
               if e.data.imputeTo.Some? then e.data.imputeTo.value else Both, e.data.needsReimbursement)
    case None =>
      FormData(Empty, "", "", if user.Some? then Some(user.value.id) else None, Some(today), Both, false)
  }

  /** The effect that resets an unrecognised impute choice to 'both' when Juan Martín pays with reimbursement. */
  function AutoSelectImpute(f: FormData): (r: FormData)
    ensures r.(imputeTo := f.imputeTo) == f
    ensures r.imputeTo == if f.paidBy == Some(JuanMartin) && f.needsReimbursement && f.imputeTo == Unrecognised
                          then Both else f.imputeTo
    ensures f.paidBy == Some(JuanMartin) && f.needsReimbursement ==> r.imputeTo != Unrecognised
    ensures f.imputeTo != Unrecognised ==> r == f
  {
    if f.paidBy == Some(JuanMartin) && f.needsReimbursement && f.imputeTo == Unrecognised
    then f.(imputeTo := Both)
    else f
  }

  // ---------------------------------------------------------------------
  // Reimbursement preview

  /** What each parent will owe Juan Martín for this expense. */
  datatype Preview = Preview(mariano: real, gabriela: real)

  /**
   * Shown only when Juan Martín pays, asks to be paid back and an amount is
   * typed: half each for 'both', all of it for the chosen parent, nothing for
   * an unrecognised choice.
   */
  function ReimbursementPreview(f: FormData): (r: Option<Preview>)
    ensures r.Some? <==> f.paidBy == Some(JuanMartin) && f.needsReimbursement && f.amount.Number?
                         && f.imputeTo != Unrecognised
    ensures r.Some? ==> r.value.mariano + r.value.gabriela == f.amount.value
    ensures r.Some? && f.amount.value >= 0.0 ==> r.value.mariano >= 0.0 && r.value.gabriela >= 0.0
    ensures r.Some? && f.imputeTo == Both ==> r.value.mariano == r.value.gabriela
    ensures r.Some? && f.imputeTo == OnlyMariano ==> r.value.gabriela == 0.0
    ensures r.Some? && f.imputeTo == OnlyGabriela ==> r.value.mariano == 0.0
  {
    if f.paidBy != Some(JuanMartin) || !f.needsReimbursement || f.amount.Empty? then None
    else
      var amount := f.amount.value;
      match f.imputeTo
      case Both => Some(Preview(amount / 2.0, amount / 2.0))
      case OnlyMariano => Some(Preview(amount, 0.0))
      case OnlyGabriela => Some(Preview(0.0, amount))
      case Unrecognised => None
  }

  /**
   * Once the effect has run, a form where Juan Martín pays, asks to be paid
   * back and has an amount always shows a preview; running the effect again
   * changes nothing.
   */
  lemma AutoSelectShowsPreview(f: FormData)
    ensures var g := AutoSelectImpute(f);
      f.paidBy == Some(JuanMartin) && f.needsReimbursement && f.amount.Number? ==> ReimbursementPreview(g).Some?
    ensures AutoSelectImpute(AutoSelectImpute(f)) == AutoSelectImpute(f)
  {
  }

  // ---------------------------------------------------------------------
  // Validation

  datatype Field = AmountField | DescriptionField | CategoryField | PaidByField | DateField

  /** The whitespace and line terminators String.prototype.trim removes. */
  predicate IsWhitespace(c: char)
  {
    c == '\t' || c == '\n' || c == '\U{000B}' || c == '\U{000C}' || c == '\r' || c == ' '
    || c == '\U{00A0}' || c == '\U{1680}' || ('\U{2000}' <= c <= '\U{200A}')
    || c == '\U{2028}' || c == '\U{2029}' || c == '\U{202F}' || c == '\U{205F}'
    || c == '\U{3000}' || c == '\U{FEFF}'
  }

  /** Every character of `s` is whitespace (in particular, the empty string). */
  predicate Blank(s: string)
  {
    forall i :: 0 <= i < |s| ==> IsWhitespace(s[i])
  }

  function TrimStart(s: string): (r: string)
    ensures |r| <= |s| && r == s[|s| - |r|..]
    ensures r == [] || !IsWhitespace(r[0])
    ensures forall i :: 0 <= i < |s| - |r| ==> IsWhitespace(s[i])
  {
    if s != [] && IsWhitespace(s[0]) then
      var r := TrimStart(s[1..]);
      assert forall i :: 0 < i < |s| ==> s[i] == s[1..][i - 1];
      r
    else s
  }

  function TrimEnd(s: string): (r: string)
    ensures |r| <= |s| && r == s[..|r|]
    ensures r == [] || !IsWhitespace(r[|r| - 1])
    ensures forall i :: |r| <= i < |s| ==> IsWhitespace(s[i])
  {
    if s != [] && IsWhitespace(s[|s| - 1]) then
      TrimEnd(s[..|s| - 1])
    else s
  }

  /** String.prototype.trim: whitespace removed from both ends. */
  function Trim(s: string): string
  {
    TrimEnd(TrimStart(s))
  }

  /** A description trims to nothing exactly when it is all whitespace. */
  lemma TrimEmptyIffBlank(s: string)
    ensures Trim(s) == [] <==> Blank(s)
  {
    if Blank(s) {
      BlankTrimsToNothing(s);
    }
    if Trim(s) == [] {
      NothingLeftIsBlank(s);
    }
  }

  lemma BlankTrimsToNothing(s: string)
    requires Blank(s)
    ensures Trim(s) == []
  {
    var t := TrimStart(s);
    assert t == [];
  }

  lemma NothingLeftIsBlank(s: string)
    requires Trim(s) == []
    ensures Blank(s)
  {
    var t := TrimStart(s);
    // What survives the leading trim is all whitespace, and starts with a
    // non-space unless it is empty: so nothing survives it.
    assert TrimEnd(t) == [];
    assert |t| == 0;
  }

  const AllFields: set<Field> := {AmountField, DescriptionField, CategoryField, PaidByField, DateField}

  /** The check of one field, as validate writes it. */
  predicate Fails(f: FormData, field: Field)
  {
    match field
    case AmountField => f.amount.Empty? || f.amount.value <= 0.0
    case DescriptionField => Trim(f.description) == []
    case CategoryField => f.category == ""
    case PaidByField => f.paidBy.None?
    case DateField => f.date.None?
  }

  /** The fields that fail their check; the form is saved only when there are none. */
  function Validate(f: FormData): (errors: set<Field>)
    ensures forall field :: field in errors <==> Fails(f, field)
  {
    set field | field in AllFields && Fails(f, field)
  }

  /**
   * validate, field by field: the amount must be a number above zero, the
   * description must hold something other than whitespace, and the category,
   * payer and date must be filled in.
   */
  lemma ValidateChecks(f: FormData)
    ensures AmountField in Validate(f) <==> f.amount.Empty? || f.amount.value <= 0.0
    ensures DescriptionField in Validate(f) <==> Blank(f.description)
    ensures CategoryField in Validate(f) <==> f.category == ""
    ensures PaidByField in Validate(f) <==> f.paidBy.None?
    ensures DateField in Validate(f) <==> f.date.None?
  {
    TrimEmptyIffBlank(f.description);
  }

  predicate Valid(f: FormData)
  {
    Validate(f) == {}
  }

  // ---------------------------------------------------------------------
  // Saving

  /**
   * The fields handleSubmit saves: the form's values with the amount parsed,
   * and the creator kept from the expense being edited, or else the
   * logged-in user.
   */
  function SubmittedData(f: FormData, editing: Option<Expense>, user: User): (d: ExpenseData)
    requires Valid(f)
    ensures d.amount > 0.0
    ensures !Blank(d.description)
    ensures d.category != ""
    ensures d.imputeTo == Some(f.imputeTo)
    ensures d.createdBy == if editing.Some? then editing.value.data.createdBy else user.id
  {
    ValidateChecks(f);
    ExpenseData(f.amount.value, f.description, f.category, f.paidBy.value, f.date.value, Some(f.imputeTo),
                 f.needsReimbursement, if editing.Some? then editing.value.data.createdBy else user.id)
  }

  /**
   * The preview shows exactly what saving the expense adds to each parent's
   * debt to Juan Martín in the monthly balance, whatever came before; when
   * no preview is shown, saving adds nothing to either.
   */
  lemma PreviewMatchesBalance(f: FormData, editing: Option<Expense>, user: User, l: Ledger,
                              id: RecordId, createdAt: Timestamp, updatedAt: Timestamp)
    requires Valid(f)
    ensures var step := ExpenseStep(l, Expense(id, SubmittedData(f, editing, user), createdAt, updatedAt));
      match ReimbursementPreview(f)
      case Some(p) =>
        step.marianoToJuan == l.marianoToJuan + p.mariano && step.gabrielaToJuan == l.gabrielaToJuan + p.gabriela
      case None =>
        step.marianoToJuan == l.marianoToJuan && step.gabrielaToJuan == l.gabrielaToJuan
  {
    ValidateChecks(f);
    var d := SubmittedData(f, editing, user);
    var e := Expense(id, d, createdAt, updatedAt);
    assert ImputeOf(e) == f.imputeTo && d.amount == f.amount.value;
    assert Reimbursable(e) <==> f.paidBy == Some(JuanMartin) && f.needsReimbursement;
    var paid := PayStep(l, e);
    assert paid.marianoToJuan == l.marianoToJuan && paid.gabrielaToJuan == l.gabrielaToJuan;
    match f.imputeTo
    case Both =>
    case OnlyMariano =>
    case OnlyGabriela =>
    case Unrecognised =>
  }

  /**
   * Whoever saves a new expense may edit it afterwards, and editing never
   * changes who created an expense, so it never changes who may edit it.
   */
  lemma SavingKeepsEditRights(f: FormData, editing: Option<Expense>, user: User, viewer: Option<User>,
                              id: RecordId, createdAt: Timestamp, updatedAt: Timestamp)
    requires Valid(f)
    ensures editing.None? ==>
      Permissions.CanEditExpense(Some(user), Expense(id, SubmittedData(f, editing, user), createdAt, updatedAt))
    ensures editing.Some? ==>
      (Permissions.CanEditExpense(viewer, Expense(id, SubmittedData(f, editing, user), createdAt, updatedAt))
       <==> Permissions.CanEditExpense(viewer, editing.value))
  {
  }

  /**
   * Opening an expense for editing and saving it unchanged stores the same
   * fields; an expense saved without an impute choice comes back as 'both'.
   */
  lemma EditRoundTrip(e: Expense, user: Option<User>, sessionUser: User, today: Date)
    requires e.data.amount > 0.0 && e.data.category != ""
    requires !Blank(e.data.description)
    ensures Valid(InitialForm(Some(e), user, today))
    ensures e.data.imputeTo.Some? ==> SubmittedData(InitialForm(Some(e), user, today), Some(e), sessionUser) == e.data
    ensures e.data.imputeTo.None? ==>
      SubmittedData(InitialForm(Some(e), user, today), Some(e), sessionUser) == e.data.(imputeTo := Some(Both))
  {
  }

  /**
   * What handleSubmit saves is the form itself: reopening the saved expense
   * for editing gives back exactly the form that was submitted.
   */
  lemma SaveThenReopen(f: FormData, editing: Option<Expense>, user: User, viewer: Option<User>, today: Date,
                       id: RecordId, createdAt: Timestamp, updatedAt: Timestamp)
    requires Valid(f)
    ensures InitialForm(Some(Expense(id, SubmittedData(f, editing, user), createdAt, updatedAt)), viewer, today) == f
  {
    ValidateChecks(f);
  }

  /**
   * handleSubmit: when the checks pass, saves the expense (a patch of every
   * field when editing, a new record otherwise) and reports true; when a
   * check fails, changes nothing and reports false.
   */
  method SubmitExpense(store: Store.RecordStore, f: FormData, editing: Option<Expense>, user: User,
                       id: RecordId, now: Timestamp) returns (saved: bool)
    modifies store`expenses
    ensures saved <==> Valid(f)
    ensures !saved ==> store.expenses == old(store.expenses)
    ensures saved && editing.None? ==>
      store.expenses == old(store.expenses) + [Expense(id, SubmittedData(f, editing, user), now, now)]
    ensures saved && editing.Some? ==>
      var i := Store.ExpenseIndex(old(store.expenses), editing.value.id);
      if i == -1 then store.expenses == old(store.expenses)
      else store.expenses == old(store.expenses)[i := old(store.expenses)[i].(data := SubmittedData(f, editing, user), updatedAt := now)]
  {
    if !Valid(f) {
      return false;
    }
    var data := SubmittedData(f, editing, user);
    if editing.Some? {
      forall d: ExpenseData ensures Store.ApplyPatch(d, Store.FullPatch(data)) == data {
        Store.PatchExtremes(d, data);
      }
      var _ := store.UpdateExpense(editing.value.id, Store.FullPatch(data), now);
    } else {
      var _ := store.AddExpense(data, id, now);
    }
    saved := true;
  }
}
