/**
 * The settings screen: the transfer form (which pairs may be chosen, the
 * reset of the recipient when the sender changes, the checks before
 * saving), the PIN change with its order of checks, and the list of
 * transfers grouped by month, latest month first.
 */
module Settings {
  import opened Common
  import opened Records
  import Store

  // ---------------------------------------------------------------------
  // Which transfers may be registered

  datatype TransferPair = TransferPair(from: UserId, to: UserId)

  /** The four directions the form offers, in the order they are listed. */
  const AllowedTransfers: seq<TransferPair> := [
    TransferPair(Mariano, Gabriela),
    TransferPair(Gabriela, Mariano),
    TransferPair(Mariano, JuanMartin),
    TransferPair(Gabriela, JuanMartin)
  ]

  /**
   * The recipients offered once a sender is chosen, in list order; nothing
   * before a sender is chosen.
   */
  function AvailableTo(from: Option<UserId>): (r: seq<UserId>)
    ensures forall to :: to in r <==> from.Some? && TransferPair(from.value, to) in AllowedTransfers
  {
    if from.None? then []
    else
      var pairs := Filter(AllowedTransfers, (p: TransferPair) => p.from == from.value);
      var r := Recipients(pairs);
      RecipientsOfPairsFrom(pairs, from.value);
      r
  }

  /** The `to` of each pair (the map step). */
  function Recipients(pairs: seq<TransferPair>): (r: seq<UserId>)
    ensures |r| == |pairs| && forall i :: 0 <= i < |pairs| ==> r[i] == pairs[i].to
  {
    seq(|pairs|, i requires 0 <= i < |pairs| => pairs[i].to)
  }

  lemma RecipientsOfPairsFrom(pairs: seq<TransferPair>, from: UserId)
    requires forall p :: p in pairs <==> p in AllowedTransfers && p.from == from
    ensures forall to :: to in Recipients(pairs) <==> TransferPair(from, to) in AllowedTransfers
  {
    var r := Recipients(pairs);
    forall to ensures to in r <==> TransferPair(from, to) in AllowedTransfers {
      if to in r {
        var i :| 0 <= i < |r| && r[i] == to;
        assert pairs[i] in pairs;
      }
      if TransferPair(from, to) in AllowedTransfers {
        assert TransferPair(from, to) in pairs;
        var i :| 0 <= i < |pairs| && pairs[i] == TransferPair(from, to);
        assert r[i] == to;
      }
    }
  }

  /** Only a parent ever sends, nobody sends to themselves, and Juan Martín only receives. */
  lemma AllowedPairsShape()
    ensures forall p :: p in AllowedTransfers ==> (p.from == Mariano || p.from == Gabriela) && p.from != p.to
    ensures forall p :: p in AllowedTransfers ==> !p.to.OtherUser?
  {
  }

  /**
   * The recipients offered: to the other parent and to Juan Martín, in that
   * order, for either parent; nobody for anyone else or before a sender is
   * chosen.
   */
  lemma AvailableRecipients()
    ensures AvailableTo(Some(Mariano)) == [Gabriela, JuanMartin]
    ensures AvailableTo(Some(Gabriela)) == [Mariano, JuanMartin]
    ensures AvailableTo(Some(JuanMartin)) == [] && AvailableTo(None) == []
    ensures forall name :: AvailableTo(Some(OtherUser(name))) == []
  {
    FromMariano();
    FromGabriela();
    NothingFrom(JuanMartin);
    forall name ensures AvailableTo(Some(OtherUser(name))) == [] {
      NothingFrom(OtherUser(name));
    }
  }

  lemma FromMariano()
    ensures AvailableTo(Some(Mariano)) == [Gabriela, JuanMartin]
  {
    var pairs := FilterByHand(Mariano);
    assert pairs == [AllowedTransfers[0], AllowedTransfers[2]];
    assert Recipients(pairs) == [Gabriela, JuanMartin];
  }

  lemma FromGabriela()
    ensures AvailableTo(Some(Gabriela)) == [Mariano, JuanMartin]
  {
    var pairs := FilterByHand(Gabriela);
    assert pairs == [AllowedTransfers[1], AllowedTransfers[3]];
    assert Recipients(pairs) == [Mariano, JuanMartin];
  }

  /** The pairs sent by `from`, worked out one element of the list at a time. */
  lemma FilterByHand(from: UserId) returns (pairs: seq<TransferPair>)
    ensures pairs == Filter(AllowedTransfers, (p: TransferPair) => p.from == from)
    ensures pairs == (if AllowedTransfers[0].from == from then [AllowedTransfers[0]] else [])
                   + (if AllowedTransfers[1].from == from then [AllowedTransfers[1]] else [])
                   + (if AllowedTransfers[2].from == from then [AllowedTransfers[2]] else [])
                   + (if AllowedTransfers[3].from == from then [AllowedTransfers[3]] else [])
  {
    var sent := (p: TransferPair) => p.from == from;
    var s := AllowedTransfers;
    FilterCons(s[3..], sent);
    assert s[3..][1..] == [];
    var f3 := Filter(s[3..], sent);
    assert f3 == (if s[3].from == from then [s[3]] else []);
    FilterCons(s[2..], sent);
    assert s[2..][1..] == s[3..];
    var f2 := Filter(s[2..], sent);
    assert f2 == (if s[2].from == from then [s[2]] else []) + f3;
    FilterCons(s[1..], sent);
    assert s[1..][1..] == s[2..];
    var f1 := Filter(s[1..], sent);
    assert f1 == (if s[1].from == from then [s[1]] else []) + f2;
    FilterCons(s, sent);
    pairs := Filter(s, sent);
    assert pairs == (if s[0].from == from then [s[0]] else []) + f1;
  }

  lemma NothingFrom(u: UserId)
    requires u == JuanMartin || u.OtherUser?
    ensures AvailableTo(Some(u)) == []
  {
    FilterDropsAll(AllowedTransfers, (p: TransferPair) => p.from == u);
  }

  // ---------------------------------------------------------------------
  // The transfer form

  /** The form's boxes; an empty box is None. */
  datatype TransferForm = TransferForm(from: Option<UserId>, to: Option<UserId>, amount: Option<real>, date: Option<Date>)

  function NewTransferForm(today: Date): (f: TransferForm)
    ensures Consistent(f) && f.from.None? && f.to.None? && f.amount.None? && f.date == Some(today)
  {
    TransferForm(None, None, None, Some(today))
  }

  /** A chosen recipient is always one offered for the chosen sender. */
  predicate Consistent(f: TransferForm)
  {
    f.to.Some? ==> f.to.value in AvailableTo(f.from)
  }

  /** Choosing a sender clears the recipient. */
  function SelectFrom(f: TransferForm, from: UserId): (r: TransferForm)
    ensures Consistent(r) && r.from == Some(from) && r.to.None?
    ensures r.amount == f.amount && r.date == f.date
  {
    f.(from := Some(from), to := None)
  }

  /** Choosing a recipient from the offered list. */
  function SelectTo(f: TransferForm, to: UserId): (r: TransferForm)
    requires to in AvailableTo(f.from)
    ensures Consistent(r) && r.to == Some(to)
    ensures r.from == f.from && r.amount == f.amount && r.date == f.date
  {
    f.(to := Some(to))
  }

  /** Typing an amount or a date leaves the chosen pair alone. */
  lemma EditingKeepsConsistent(f: TransferForm, amount: Option<real>, date: Option<Date>)
    requires Consistent(f)
    ensures Consistent(f.(amount := amount)) && Consistent(f.(date := date))
  {
  }

  datatype TransferField = FromField | ToField | AmountField | DateField

  /** The boxes that fail their check; the transfer is saved only when there are none. */
  function ValidateTransfer(f: TransferForm): (errors: set<TransferField>)
    ensures FromField in errors <==> f.from.None?
    ensures ToField in errors <==> f.to.None?
    ensures AmountField in errors <==> f.amount.None? || f.amount.value <= 0.0
    ensures DateField in errors <==> f.date.None?
  {
    (if f.from.None? then {FromField} else {})
    + (if f.to.None? then {ToField} else {})
    + (if f.amount.None? || f.amount.value <= 0.0 then {AmountField} else {})
    + (if f.date.None? then {DateField} else {})
  }

  /** The transfer handleSubmit saves, with the amount parsed. */
  function SubmittedTransfer(f: TransferForm): (d: TransferData)
    requires ValidateTransfer(f) == {}
    ensures d.amount > 0.0
  {
    TransferData(f.from.value, f.to.value, f.amount.value, f.date.value)
  }

  /** The saved transfer carries exactly the form's sender, recipient, amount and date. */
  lemma SavedTransferIsTheForm(f: TransferForm)
    requires ValidateTransfer(f) == {}
    ensures var d := SubmittedTransfer(f);
      TransferForm(Some(d.from), Some(d.to), Some(d.amount), Some(d.date)) == f
  {
  }

  /**
   * A transfer saved from a form reached through the form's own events goes
   * in one of the four allowed directions, with a positive amount.
   */
  lemma SubmittedTransferIsAllowed(f: TransferForm)
    requires Consistent(f) && ValidateTransfer(f) == {}
    ensures TransferPair(SubmittedTransfer(f).from, SubmittedTransfer(f).to) in AllowedTransfers
    ensures SubmittedTransfer(f).from != JuanMartin && SubmittedTransfer(f).from != SubmittedTransfer(f).to
  {
    AllowedPairsShape();
  }

  /**
   * handleSubmit: when the checks pass, appends the transfer and reports
   * true; otherwise changes nothing and reports false.
   */
  method SubmitTransfer(store: Store.RecordStore, f: TransferForm, id: RecordId, now: Timestamp)
    returns (saved: bool)
    modifies store`transfers
    ensures saved <==> ValidateTransfer(f) == {}
    ensures saved ==> store.transfers == old(store.transfers) + [Transfer(id, SubmittedTransfer(f), now)]
    ensures !saved ==> store.transfers == old(store.transfers)
  {
    if ValidateTransfer(f) != {} {
      return false;
    }
    var _ := store.AddTransfer(SubmittedTransfer(f), id, now);
    saved := true;
  }

  // ---------------------------------------------------------------------
  // Changing the PIN

  datatype PinForm = PinForm(currentPin: string, newPin: string, confirmPin: string)

  /** The messages the PIN section can show, and success. */
  datatype PinOutcome = BadFormat | Mismatch | WrongCurrentPin | UpdateFailed | Changed

  /** Exactly four ASCII digits. */
  predicate IsFourDigits(s: string)
  {
    |s| == 4 && forall i :: 0 <= i < |s| ==> '0' <= s[i] <= '9'
  }

  /**
   * handleChangePin for the logged-in user `userId`: checks the new PIN's
   * format, then that it was typed twice alike, then the current PIN; only
   * then stores the new PIN and clears the three boxes. The first failing
   * check decides the message and nothing is stored.
   */
  method HandleChangePin(store: Store.RecordStore, userId: UserId, form: PinForm)
    returns (outcome: PinOutcome, after: PinForm)
    modifies store`users
    ensures outcome == BadFormat <==> !IsFourDigits(form.newPin)
    ensures outcome == Mismatch <==> IsFourDigits(form.newPin) && form.newPin != form.confirmPin
    ensures outcome == WrongCurrentPin <==>
      IsFourDigits(form.newPin) && form.newPin == form.confirmPin && old(store.AuthenticateUser(userId, form.currentPin)).None?
    ensures outcome == Changed <==>
      IsFourDigits(form.newPin) && form.newPin == form.confirmPin && old(store.AuthenticateUser(userId, form.currentPin)).Some?
    ensures outcome != UpdateFailed
    ensures outcome == Changed ==> after == PinForm("", "", "")
    ensures outcome != Changed ==> after == form && store.users == old(store.users)
    ensures outcome == Changed ==>
      && store.AuthenticateUser(userId, form.newPin).Some?
      && (store.AuthenticateUser(userId, form.currentPin).Some? <==> form.currentPin == form.newPin)
      && |store.users| == |old(store.users)|
      && forall j :: 0 <= j < |store.users| && store.users[j].id != userId ==> store.users[j] == old(store.users)[j]
    ensures outcome == Changed ==>
      var i := Store.UserIndex(old(store.users), userId);
      store.users == old(store.users)[i := old(store.users)[i].(pinHash := Store.HashPin(form.newPin))]
  {
    after := form;
    if !IsFourDigits(form.newPin) {
      return BadFormat, after;
    }
    if form.newPin != form.confirmPin {
      return Mismatch, after;
    }
    var verified := store.AuthenticateUser(userId, form.currentPin);
    if verified.None? {
      return WrongCurrentPin, after;
    }
    var ok := store.UpdateUserPin(userId, form.newPin);
    if ok {
      outcome, after := Changed, PinForm("", "", "");
      Store.VerifyPinIffSamePin(form.currentPin, form.newPin);
    } else {
      assert false;
      outcome := UpdateFailed;
    }
  }

  // ---------------------------------------------------------------------
  // The transfer list, grouped by month

  datatype MonthKey = MonthKey(year: int, month: int)

  datatype MonthGroup = MonthGroup(year: int, month: int, transfers: seq<Transfer>)

  function KeyOf(t: Transfer): MonthKey
  {
    MonthKey(t.data.date.year, t.data.date.month)
  }

  function MonthKeys(ts: seq<Transfer>): set<MonthKey>
  {
    set t | t in ts :: KeyOf(t)
  }

  /** The group of month `k`: the month's transfers as the month query returns them. */
  function GroupFor(ts: seq<Transfer>, k: MonthKey): MonthGroup
  {
    MonthGroup(k.year, k.month, Store.TransfersByMonth(ts, k.year, k.month))
  }

  /** `groups` is the grouping of `ts`; `order` lists its keys once each, as first met. */
  ghost predicate GroupedByMonth(groups: map<MonthKey, MonthGroup>, order: seq<MonthKey>, ts: seq<Transfer>)
  {
    && groups.Keys == MonthKeys(ts)
    && (forall k :: k in groups ==> groups[k] == GroupFor(ts, k))
    && (forall k :: k in order <==> k in groups)
    && (forall i, j :: 0 <= i < j < |order| ==> order[i] != order[j])
  }

  /** The reducer's body: open the month's group on first use, then append the transfer. */
  function AddToMonth(groups: map<MonthKey, MonthGroup>, t: Transfer): map<MonthKey, MonthGroup>
  {
    var key := KeyOf(t);
    var group := if key in groups then groups[key] else MonthGroup(key.year, key.month, []);
    groups[key := group.(transfers := group.transfers + [t])]
  }

  /** The keys in the order the groups were opened (the order Object.values lists them in). */
  function AddToOrder(order: seq<MonthKey>, groups: map<MonthKey, MonthGroup>, t: Transfer): seq<MonthKey>
  {
    if KeyOf(t) in groups then order else order + [KeyOf(t)]
  }

  lemma MonthKeysSnoc(ts: seq<Transfer>, t: Transfer)
    ensures MonthKeys(ts + [t]) == MonthKeys(ts) + {KeyOf(t)}
  {
    assert forall x :: x in ts + [t] <==> x in ts || x == t;
  }

  lemma {:induction false} GroupForAbsent(ts: seq<Transfer>, k: MonthKey)
    requires k !in MonthKeys(ts)
    ensures GroupFor(ts, k) == MonthGroup(k.year, k.month, [])
  {
    var inMonth := (t: Transfer) => InMonth(t.data.date, k.year, k.month);
    forall i | 0 <= i < |ts| ensures !inMonth(ts[i]) {
      assert KeyOf(ts[i]) in MonthKeys(ts);
    }
    FilterDropsAll(ts, inMonth);
  }

  lemma GroupForSnoc(ts: seq<Transfer>, t: Transfer, k: MonthKey)
    ensures GroupFor(ts + [t], k)
            == if k == KeyOf(t) then GroupFor(ts, k).(transfers := GroupFor(ts, k).transfers + [t]) else GroupFor(ts, k)
  {
    var inMonth := (x: Transfer) => InMonth(x.data.date, k.year, k.month);
    FilterConcat(ts, [t], inMonth);
    assert [t][1..] == [];
    if k == KeyOf(t) {
      assert Filter([t], inMonth) == [t];
    } else {
      assert Filter([t], inMonth) == [];
      assert Filter(ts, inMonth) + [] == Filter(ts, inMonth);
    }
  }

  lemma AddToMonthStep(groups: map<MonthKey, MonthGroup>, order: seq<MonthKey>, ts: seq<Transfer>, t: Transfer)
    requires GroupedByMonth(groups, order, ts)
    ensures GroupedByMonth(AddToMonth(groups, t), AddToOrder(order, groups, t), ts + [t])
  {
    var key := KeyOf(t);
    MonthKeysSnoc(ts, t);
    if key !in MonthKeys(ts) {
      GroupForAbsent(ts, key);
    }
    var updated := AddToMonth(groups, t);
    forall k | k in updated
      ensures updated[k] == GroupFor(ts + [t], k)
    {
      GroupForSnoc(ts, t, k);
    }
  }

  lemma AddToMonthKeepsGrouping(groups: map<MonthKey, MonthGroup>, order: seq<MonthKey>, ts: seq<Transfer>, i: nat)
    requires i < |ts| && GroupedByMonth(groups, order, ts[..i])
    ensures GroupedByMonth(AddToMonth(groups, ts[i]), AddToOrder(order, groups, ts[i]), ts[..i + 1])
  {
    assert ts[..i + 1] == ts[..i] + [ts[i]];
    AddToMonthStep(groups, order, ts[..i], ts[i]);
  }

  lemma GroupedByMonthWhole(groups: map<MonthKey, MonthGroup>, order: seq<MonthKey>, ts: seq<Transfer>)
    requires GroupedByMonth(groups, order, ts[..|ts|])
    ensures GroupedByMonth(groups, order, ts)
  {
    assert ts[..|ts|] == ts;
  }

  /**
   * groupedTransfers: one group per month that has transfers, holding
   * exactly the transfers the month query returns for it, in list order;
   * `order` gives the months in the order their groups were opened.
   */
  method GroupTransfersByMonth(transfers: seq<Transfer>)
    returns (groups: map<MonthKey, MonthGroup>, order: seq<MonthKey>)
    ensures groups.Keys == MonthKeys(transfers)
    ensures forall k :: k in groups ==> groups[k] == GroupFor(transfers, k)
    ensures forall k :: k in order <==> k in groups
    ensures forall i, j :: 0 <= i < j < |order| ==> order[i] != order[j]
  {
    groups, order := map[], [];
    var i := 0;
    while i < |transfers|
      invariant 0 <= i <= |transfers|
      invariant GroupedByMonth(groups, order, transfers[..i])
    {
      AddToMonthKeepsGrouping(groups, order, transfers, i);
      order := AddToOrder(order, groups, transfers[i]);
      groups := AddToMonth(groups, transfers[i]);
      i := i + 1;
    }
    GroupedByMonthWhole(groups, order, transfers);
  }

  /** Every transfer appears in the group of its own month and in no other. */
  lemma EachTransferInOneGroup(ts: seq<Transfer>, t: Transfer, k: MonthKey)
    requires t in ts
    ensures t in GroupFor(ts, k).transfers <==> k == KeyOf(t)
  {
  }

  // ---------------------------------------------------------------------
  // sortedGroups: latest month first

  /** `a` is a later month than `b`. */
  predicate Later(a: MonthGroup, b: MonthGroup)
  {
    a.year > b.year || (a.year == b.year && a.month > b.month)
  }

  predicate StrictlyDescending(s: seq<MonthGroup>)
  {
    forall i, j :: 0 <= i < j < |s| ==> Later(s[i], s[j])
  }

  /** Any two of the groups are of different months. */
  predicate DistinctMonths(s: seq<MonthGroup>)
  {
    forall i, j :: 0 <= i < j < |s| ==> Later(s[i], s[j]) || Later(s[j], s[i])
  }

  /** Puts `g` in its place in a list sorted latest first. */
  function InsertDescending(g: MonthGroup, s: seq<MonthGroup>): (r: seq<MonthGroup>)
    ensures |r| == |s| + 1
    ensures forall x :: x in r <==> x == g || x in s
  {
    if s == [] || Later(g, s[0]) then [g] + s
    else [s[0]] + InsertDescending(g, s[1..])
  }

  lemma {:induction false} InsertDescendingSorted(g: MonthGroup, s: seq<MonthGroup>)
    requires StrictlyDescending(s)
    requires forall i :: 0 <= i < |s| ==> Later(s[i], g) || Later(g, s[i])
    ensures StrictlyDescending(InsertDescending(g, s))
  {
    if s != [] && !Later(g, s[0]) {
      InsertDescendingSorted(g, s[1..]);
      var r := InsertDescending(g, s);
      var rest := InsertDescending(g, s[1..]);
      assert r == [s[0]] + rest;
      forall j | 0 < j < |r| ensures Later(r[0], r[j]) {
        assert r[j] in rest;
      }
    }
  }

  /** The groups sorted latest month first, as the comparator on year then month orders them. */
  function SortGroups(gs: seq<MonthGroup>): (r: seq<MonthGroup>)
    ensures |r| == |gs|
    ensures forall x :: x in r <==> x in gs
  {
    if gs == [] then [] else InsertDescending(gs[0], SortGroups(gs[1..]))
  }

  /** Inserting adds exactly one copy of the new group. */
  lemma {:induction false} InsertDescendingCounts(g: MonthGroup, s: seq<MonthGroup>)
    ensures multiset(InsertDescending(g, s)) == multiset(s) + multiset{g}
  {
    if s != [] && !Later(g, s[0]) {
      InsertDescendingCounts(g, s[1..]);
      assert s == [s[0]] + s[1..];
    }
  }

  /** Sorting keeps every group as many times as it occurs: the result is a permutation. */
  lemma {:induction false} SortGroupsPermutes(gs: seq<MonthGroup>)
    ensures multiset(SortGroups(gs)) == multiset(gs)
  {
    if gs != [] {
      SortGroupsPermutes(gs[1..]);
      InsertDescendingCounts(gs[0], SortGroups(gs[1..]));
      assert multiset(gs) == multiset(gs[1..]) + multiset{gs[0]} by {
        assert gs == [gs[0]] + gs[1..];
      }
    }
  }

  lemma {:induction false} SortGroupsSorted(gs: seq<MonthGroup>)
    requires DistinctMonths(gs)
    ensures StrictlyDescending(SortGroups(gs))
  {
    if gs != [] {
      var sorted := SortGroups(gs[1..]);
      assert DistinctMonths(gs[1..]) by {
        forall i, j | 0 <= i < j < |gs[1..]| ensures Later(gs[1..][i], gs[1..][j]) || Later(gs[1..][j], gs[1..][i]) {
          assert gs[1..][i] == gs[i + 1] && gs[1..][j] == gs[j + 1];
        }
      }
      SortGroupsSorted(gs[1..]);
      forall i | 0 <= i < |sorted| ensures Later(sorted[i], gs[0]) || Later(gs[0], sorted[i]) {
        assert sorted[i] in gs[1..];
        var j :| 0 <= j < |gs[1..]| && gs[1..][j] == sorted[i];
        assert gs[j + 1] == sorted[i];
      }
      InsertDescendingSorted(gs[0], sorted);
    }
  }

  lemma StrictlyDescendingTail(a: seq<MonthGroup>)
    requires a != [] && StrictlyDescending(a)
    ensures StrictlyDescending(a[1..])
    ensures forall x :: x in a[1..] <==> x in a && x != a[0]
  {
    forall x | x in a[1..] ensures x != a[0] {
      var j :| 0 <= j < |a[1..]| && a[1..][j] == x;
      assert Later(a[0], a[j + 1]);
    }
  }

  /**
   * Two lists sorted latest first holding the same groups are the same
   * list, so the order in which the groups were opened does not affect
   * what is shown.
   */
  lemma {:induction false} SortedIsUnique(a: seq<MonthGroup>, b: seq<MonthGroup>)
    requires StrictlyDescending(a) && StrictlyDescending(b)
    requires forall x :: x in a <==> x in b
    ensures a == b
  {
    if a == [] {
      HeadIsMember(b);
    } else {
      assert a[0] in b;
      var i :| 0 <= i < |b| && b[i] == a[0];
      assert b[0] in a;
      var j :| 0 <= j < |a| && a[j] == b[0];
      FirstIsLatest(a, j);
      FirstIsLatest(b, i);
      if i != 0 {
        assert false;
      }
      StrictlyDescendingTail(a);
      StrictlyDescendingTail(b);
      SortedIsUnique(a[1..], b[1..]);
    }
  }

  lemma FirstIsLatest(s: seq<MonthGroup>, k: int)
    ensures StrictlyDescending(s) && 0 < k < |s| ==> Later(s[0], s[k])
  {
  }

  lemma HeadIsMember(s: seq<MonthGroup>)
    ensures s != [] ==> s[0] in s
  {
  }

  /** The groups of `order`, in that order (Object.values). */
  function GroupsInOrder(groups: map<MonthKey, MonthGroup>, order: seq<MonthKey>): (r: seq<MonthGroup>)
    requires forall k :: k in order ==> k in groups
    ensures |r| == |order| && forall i :: 0 <= i < |order| ==> r[i] == groups[order[i]]
  {
    seq(|order|, i requires 0 <= i < |order| => groups[order[i]])
  }

  lemma GroupsInOrderDistinct(transfers: seq<Transfer>, groups: map<MonthKey, MonthGroup>, order: seq<MonthKey>)
    requires GroupedByMonth(groups, order, transfers)
    ensures DistinctMonths(GroupsInOrder(groups, order))
    ensures forall g :: g in GroupsInOrder(groups, order) <==> exists t :: t in transfers && g == GroupFor(transfers, KeyOf(t))
  {
    var values := GroupsInOrder(groups, order);
    forall i, j | 0 <= i < j < |values| ensures Later(values[i], values[j]) || Later(values[j], values[i]) {
      assert order[i] != order[j];
    }
    forall g ensures g in values <==> exists t :: t in transfers && g == GroupFor(transfers, KeyOf(t)) {
      if g in values {
        var i :| 0 <= i < |values| && values[i] == g;
        assert order[i] in MonthKeys(transfers);
      }
      if exists t :: t in transfers && g == GroupFor(transfers, KeyOf(t)) {
        var t :| t in transfers && g == GroupFor(transfers, KeyOf(t));
        assert KeyOf(t) in MonthKeys(transfers);
        var i :| 0 <= i < |order| && order[i] == KeyOf(t);
        assert values[i] == g;
      }
    }
  }

  /**
   * What the transfer list shows: the month groups, latest first, one per
   * month that has a transfer, each holding that month's transfers.
   */
  method SortedMonthGroups(transfers: seq<Transfer>) returns (sorted: seq<MonthGroup>)
    ensures StrictlyDescending(sorted)
    ensures forall g :: g in sorted <==> exists t :: t in transfers && g == GroupFor(transfers, KeyOf(t))
  {
    var groups, order := GroupTransfersByMonth(transfers);
    GroupsInOrderDistinct(transfers, groups, order);
    var values := GroupsInOrder(groups, order);
    SortGroupsSorted(values);
    sorted := SortGroups(values);
  }
}
