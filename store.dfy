/**
 * The record store: the users, expenses and transfers the application keeps,
 * with the operations storageService.js offers on them. The browser
 * storage and its JSON encoding are not modelled: the three collections are
 * sequences held by one object, and every operation works on them in memory.
 * Fresh ids and timestamps are parameters.
 */
module Store {
  import opened Common
  import opened Records

  // ---------------------------------------------------------------------
  // PIN hashing

  const Salt: string := "_gestionjm_salt"

  /**
   * The stored form of a PIN. The source encodes `pin + salt` in base64;
   * the encoding step is not modelled, the salting is. Both are deterministic
   * and injective, which is all the rest of the model relies on.
   */
  function HashPin(pin: string): string
  {
    pin + Salt
  }

  predicate VerifyPin(pin: string, hashedPin: string)
  {
    HashPin(pin) == hashedPin
  }

  /** A PIN verifies against the stored hash of a PIN exactly when the two PINs are equal. */
  lemma VerifyPinIffSamePin(pin: string, stored: string)
    ensures VerifyPin(pin, HashPin(stored)) <==> pin == stored
  {
    if VerifyPin(pin, HashPin(stored)) {
      assert |pin| == |stored|;
      assert pin == (pin + Salt)[..|pin|];
      assert stored == (stored + Salt)[..|stored|];
    }
  }

  // ---------------------------------------------------------------------
  // Seed data

  /** The three users the store starts with: two parents and the collaborator. */
  const DefaultUsers: seq<User> := [
    User(Mariano, "Mariano", Parent, HashPin("1234"), true, true),
    User(Gabriela, "Gabriela Gentilucci", Parent, HashPin("4321"), true, true),
    User(JuanMartin, "Juan Martín", Collaborator, HashPin("1111"), false, false)
  ]

  /** The fixed category list. */
  function Categories(): (r: seq<Category>)
    ensures |r| == 6
    ensures forall i, j :: 0 <= i < j < |r| ==> r[i].id != r[j].id
    ensures exists i :: 0 <= i < |r| && r[i].id == "otros"
  {
    var r := [
      Category("alquiler_ba", "Alquiler BA"),
      Category("universidad", "Universidad"),
      Category("vida_diaria", "Vida diaria"),
      Category("telefono", "Teléfono"),
      Category("salud", "Salud"),
      Category("otros", "Otros")
    ];
    assert r[5].id == "otros";
    r
  }

  // ---------------------------------------------------------------------
  // Queries and updates on the collections, as functions of a sequence

  /** The expenses dated in the given year and (zero-based) month, in stored order. */
  function ExpensesByMonth(s: seq<Expense>, year: int, month: int): (r: seq<Expense>)
    ensures forall e :: e in r <==> e in s && InMonth(e.data.date, year, month)
    ensures IsSubsequence(r, s)
  {
    var inMonth := (e: Expense) => InMonth(e.data.date, year, month);
    FilterIsSubsequence(s, inMonth);
    Filter(s, inMonth)
  }

  /** The transfers dated in the given year and (zero-based) month, in stored order. */
  function TransfersByMonth(s: seq<Transfer>, year: int, month: int): (r: seq<Transfer>)
    ensures forall t :: t in r <==> t in s && InMonth(t.data.date, year, month)
    ensures IsSubsequence(r, s)
  {
    var inMonth := (t: Transfer) => InMonth(t.data.date, year, month);
    FilterIsSubsequence(s, inMonth);
    Filter(s, inMonth)
  }

  /** Filtering keeps every copy of each element that passes and no copy of one that fails. */
  lemma {:induction false} FilterCounts<T(!new)>(s: seq<T>, p: T -> bool)
    ensures forall x :: multiset(Filter(s, p))[x] == if p(x) then multiset(s)[x] else 0
  {
    if s != [] {
      FilterCounts(s[1..], p);
      assert s == [s[0]] + s[1..];
    }
  }

  /** A month query returns every stored copy of each record of that month. */
  lemma ExpensesByMonthCounts(s: seq<Expense>, year: int, month: int)
    ensures forall e :: multiset(ExpensesByMonth(s, year, month))[e]
                        == if InMonth(e.data.date, year, month) then multiset(s)[e] else 0
  {
    FilterCounts(s, (e: Expense) => InMonth(e.data.date, year, month));
  }

  lemma TransfersByMonthCounts(s: seq<Transfer>, year: int, month: int)
    ensures forall t :: multiset(TransfersByMonth(s, year, month))[t]
                        == if InMonth(t.data.date, year, month) then multiset(s)[t] else 0
  {
    FilterCounts(s, (t: Transfer) => InMonth(t.data.date, year, month));
  }

  /**
   * Records dated outside the month never reach a month query, wherever they
   * stand in the stored list: adding, deleting or editing them in place
   * leaves the query unchanged.
   */
  lemma ExpensesByMonthIgnoresOtherMonths(before: seq<Expense>, other: seq<Expense>, after: seq<Expense>,
                                          year: int, month: int)
    requires forall i :: 0 <= i < |other| ==> !InMonth(other[i].data.date, year, month)
    ensures ExpensesByMonth(before + other + after, year, month) == ExpensesByMonth(before + after, year, month)
  {
    FilterSkipsFailing(before, other, after, (e: Expense) => InMonth(e.data.date, year, month));
  }

  lemma TransfersByMonthIgnoresOtherMonths(before: seq<Transfer>, other: seq<Transfer>, after: seq<Transfer>,
                                           year: int, month: int)
    requires forall i :: 0 <= i < |other| ==> !InMonth(other[i].data.date, year, month)
    ensures TransfersByMonth(before + other + after, year, month) == TransfersByMonth(before + after, year, month)
  {
    FilterSkipsFailing(before, other, after, (t: Transfer) => InMonth(t.data.date, year, month));
  }

  /** The expenses left after deleting every record with the given id. */
  function ExpensesWithout(s: seq<Expense>, id: RecordId): (r: seq<Expense>)
    ensures forall e :: e in r <==> e in s && e.id != id
    ensures IsSubsequence(r, s)
  {
    var keep := (e: Expense) => e.id != id;
    FilterIsSubsequence(s, keep);
    Filter(s, keep)
  }

  /** The transfers left after deleting every record with the given id. */
  function TransfersWithout(s: seq<Transfer>, id: RecordId): (r: seq<Transfer>)
    ensures forall t :: t in r <==> t in s && t.id != id
    ensures IsSubsequence(r, s)
  {
    var keep := (t: Transfer) => t.id != id;
    FilterIsSubsequence(s, keep);
    Filter(s, keep)
  }

  /** Deleting keeps every stored copy of each record with another id. */
  lemma ExpensesWithoutCounts(s: seq<Expense>, id: RecordId)
    ensures forall e :: multiset(ExpensesWithout(s, id))[e] == if e.id != id then multiset(s)[e] else 0
  {
    FilterCounts(s, (e: Expense) => e.id != id);
  }

  lemma TransfersWithoutCounts(s: seq<Transfer>, id: RecordId)
    ensures forall t :: multiset(TransfersWithout(s, id))[t] == if t.id != id then multiset(s)[t] else 0
  {
    FilterCounts(s, (t: Transfer) => t.id != id);
  }

  /** Deleting an id twice is deleting it once; deleting an absent id changes nothing. */
  lemma DeleteExpenseIdempotent(s: seq<Expense>, id: RecordId)
    ensures ExpensesWithout(ExpensesWithout(s, id), id) == ExpensesWithout(s, id)
    ensures (forall i :: 0 <= i < |s| ==> s[i].id != id) ==> ExpensesWithout(s, id) == s
  {
    var keep := (e: Expense) => e.id != id;
    FilterIdempotent(s, keep);
    if forall i :: 0 <= i < |s| ==> s[i].id != id {
      FilterKeepsAll(s, keep);
    }
  }

  lemma DeleteTransferIdempotent(s: seq<Transfer>, id: RecordId)
    ensures TransfersWithout(TransfersWithout(s, id), id) == TransfersWithout(s, id)
    ensures (forall i :: 0 <= i < |s| ==> s[i].id != id) ==> TransfersWithout(s, id) == s
  {
    var keep := (t: Transfer) => t.id != id;
    FilterIdempotent(s, keep);
    if forall i :: 0 <= i < |s| ==> s[i].id != id {
      FilterKeepsAll(s, keep);
    }
  }

  /** Deleting distributes over the two halves of a list, so the survivors keep their order. */
  lemma DeleteExpenseKeepsOrder(a: seq<Expense>, b: seq<Expense>, id: RecordId)
    ensures ExpensesWithout(a + b, id) == ExpensesWithout(a, id) + ExpensesWithout(b, id)
  {
    FilterConcat(a, b, (e: Expense) => e.id != id);
  }

  /** The position of the first expense with the given id, or -1. */
  function ExpenseIndex(s: seq<Expense>, id: RecordId): (r: int)
    ensures -1 <= r < |s|
    ensures r == -1 <==> forall i :: 0 <= i < |s| ==> s[i].id != id
    ensures r >= 0 ==> s[r].id == id && forall i :: 0 <= i < r ==> s[i].id != id
  {
    FindIndex(s, (e: Expense) => e.id == id)
  }

  /** The position of the first user with the given id, or -1. */
  function UserIndex(s: seq<User>, id: UserId): (r: int)
    ensures -1 <= r < |s|
    ensures r == -1 <==> forall i :: 0 <= i < |s| ==> s[i].id != id
    ensures r >= 0 ==> s[r].id == id && forall i :: 0 <= i < r ==> s[i].id != id
  {
    FindIndex(s, (u: User) => u.id == id)
  }

  // ---------------------------------------------------------------------
  // Partial updates of an expense ({ ...old, ...updates })

  /** An `updates` object: each present field overrides the stored one. */
  datatype ExpensePatch = ExpensePatch(
    amount: Option<real>,
    description: Option<string>,
    category: Option<string>,
    paidBy: Option<UserId>,
    date: Option<Date>,
    imputeTo: Option<Impute>,
    needsReimbursement: Option<bool>,
    createdBy: Option<UserId>)

  function Override<T>(current: T, update: Option<T>): T
  {
    if update.Some? then update.value else current
  }

  function ApplyPatch(d: ExpenseData, u: ExpensePatch): ExpenseData
  {
    ExpenseData(
      Override(d.amount, u.amount),
      Override(d.description, u.description),
      Override(d.category, u.category),
      Override(d.paidBy, u.paidBy),
      Override(d.date, u.date),
      if u.imputeTo.Some? then u.imputeTo else d.imputeTo,
      Override(d.needsReimbursement, u.needsReimbursement),
      Override(d.createdBy, u.createdBy))
  }

  /** The patch that carries every field of `d`. */
  function FullPatch(d: ExpenseData): ExpensePatch
  {
    ExpensePatch(Some(d.amount), Some(d.description), Some(d.category), Some(d.paidBy),
                 Some(d.date), d.imputeTo, Some(d.needsReimbursement), Some(d.createdBy))
  }

  const NoChanges: ExpensePatch := ExpensePatch(None, None, None, None, None, None, None, None)

  /** A full patch replaces every field; an empty patch replaces none. */
  lemma PatchExtremes(d: ExpenseData, replacement: ExpenseData)
    requires replacement.imputeTo.Some?
    ensures ApplyPatch(d, FullPatch(replacement)) == replacement
    ensures ApplyPatch(d, NoChanges) == d
  {
  }

  /** The record updateExpense stores: the id and creation time kept, the fields patched, a new update time. */
  function Patched(e: Expense, u: ExpensePatch, now: Timestamp): Expense
  {
    e.(data := ApplyPatch(e.data, u), updatedAt := now)
  }

  // ---------------------------------------------------------------------
  // The store

  class RecordStore {
    var users: seq<User>
    var expenses: seq<Expense>
    var transfers: seq<Transfer>

    /** The state initializeData leaves behind on first use. */
    constructor ()
      ensures users == DefaultUsers && expenses == [] && transfers == []
    {
      users := DefaultUsers;
      expenses := [];
      transfers := [];
    }

    /** The first user with the given id (getUserById). */
    function UserById(id: UserId): (r: Option<User>)
      reads this
      ensures r.Some? <==> exists i :: 0 <= i < |users| && users[i].id == id
      ensures r.Some? ==> r.value.id == id && r.value == users[UserIndex(users, id)]
    {
      var i := UserIndex(users, id);
      if i == -1 then None else Some(users[i])
    }

    /** The user with that id if the PIN matches its stored hash, else None. */
    function AuthenticateUser(id: UserId, pin: string): (r: Option<User>)
      reads this
      ensures r.Some? <==> UserById(id).Some? && VerifyPin(pin, UserById(id).value.pinHash)
      ensures r.Some? ==> r == UserById(id)
    {
      var user := UserById(id);
      if user.Some? && VerifyPin(pin, user.value.pinHash) then user else None
    }

    /** Replaces the PIN hash of the first user with that id; false when there is none. */
    method UpdateUserPin(id: UserId, newPin: string) returns (ok: bool)
      modifies this`users
      ensures ok <==> exists i :: 0 <= i < |old(users)| && old(users)[i].id == id
      ensures var i := UserIndex(old(users), id);
        if ok then users == old(users)[i := old(users)[i].(pinHash := HashPin(newPin))]
        else users == old(users)
      ensures ok ==> AuthenticateUser(id, newPin).Some? && AuthenticateUser(id, newPin).value.id == id
    {
      var i := UserIndex(users, id);
      if i != -1 {
        users := users[i := users[i].(pinHash := HashPin(newPin))];
        assert UserIndex(users, id) == i by {
          assert users[i].id == id;
          assert forall j :: 0 <= j < i ==> users[j] == old(users)[j];
          assert forall j :: 0 <= j < i ==> users[j].id != id;
        }
        ok := true;
      } else {
        ok := false;
      }
    }

    /** Appends a new expense built from the given fields, id and time, and returns it. */
    method AddExpense(data: ExpenseData, id: RecordId, now: Timestamp) returns (created: Expense)
      modifies this`expenses
      ensures created == Expense(id, data, now, now)
      ensures expenses == old(expenses) + [created]
    {
      created := Expense(id, data, now, now);
      expenses := expenses + [created];
    }

    /**
     * Patches the first expense with the given id and returns it; when no
     * expense has that id, returns None and changes nothing.
     */
    method UpdateExpense(id: RecordId, updates: ExpensePatch, now: Timestamp) returns (r: Option<Expense>)
      modifies this`expenses
      ensures var i := ExpenseIndex(old(expenses), id);
        if i == -1 then r == None && expenses == old(expenses)
        else r == Some(Patched(old(expenses)[i], updates, now)) && expenses == old(expenses)[i := r.value]
    {
      var i := ExpenseIndex(expenses, id);
      if i != -1 {
        var updated := Patched(expenses[i], updates, now);
        expenses := expenses[i := updated];
        r := Some(updated);
      } else {
        r := None;
      }
    }

    /** Removes every expense with the given id; always reports success. */
    method DeleteExpense(id: RecordId) returns (ok: bool)
      modifies this`expenses
      ensures ok
      ensures expenses == ExpensesWithout(old(expenses), id)
    {
      expenses := ExpensesWithout(expenses, id);
      ok := true;
    }

    /** Appends a new transfer built from the given fields, id and time, and returns it. */
    method AddTransfer(data: TransferData, id: RecordId, now: Timestamp) returns (created: Transfer)
      modifies this`transfers
      ensures created == Transfer(id, data, now)
      ensures transfers == old(transfers) + [created]
    {
      created := Transfer(id, data, now);
      transfers := transfers + [created];
    }

    /** Removes every transfer with the given id; always reports success. */
    method DeleteTransfer(id: RecordId) returns (ok: bool)
      modifies this`transfers
      ensures ok
      ensures transfers == TransfersWithout(old(transfers), id)
    {
      transfers := TransfersWithout(transfers, id);
      ok := true;
    }
  }
}
