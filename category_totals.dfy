/**
 * The per-category breakdown of a month's expenses: each expense goes to
 * the group of its category (a missing category counts as 'otros'), and
 * each group keeps its running total, its count and its expenses in order.
 */
module CategoryTotals {
  import opened Common
  import opened Records
  import Store

  const FallbackCategory: string := "otros"

  datatype CategoryGroup = CategoryGroup(total: real, count: nat, expenses: seq<Expense>)

  /** The group an expense is filed under. */
  function CategoryKey(e: Expense): string
  {
    if e.data.category == "" then FallbackCategory else e.data.category
  }

  function InCategory(k: string): Expense -> bool
  {
    (e: Expense) => CategoryKey(e) == k
  }

  /** The categories that occur among `es`. */
  function KeysOf(es: seq<Expense>): set<string>
  {
    set e | e in es :: CategoryKey(e)
  }

  /** The group of category `k`, as a function of the whole month. */
  function GroupOf(es: seq<Expense>, k: string): CategoryGroup
  {
    var members := Filter(es, InCategory(k));
    CategoryGroup(SumOf(members, ExpenseAmount), |members|, members)
  }

  /** `grouped` is the breakdown of `es`: one entry per category, each equal to its group. */
  predicate GroupedAs(grouped: map<string, CategoryGroup>, es: seq<Expense>)
  {
    grouped.Keys == KeysOf(es) && forall k :: k in grouped ==> grouped[k] == GroupOf(es, k)
  }

  /**
   * The body of the forEach: create the category's group on first use, then
   * add the expense's amount, one to the count, and the expense itself.
   */
  function AddToGroup(grouped: map<string, CategoryGroup>, e: Expense): map<string, CategoryGroup>
  {
    var category := CategoryKey(e);
    var group := if category in grouped then grouped[category] else CategoryGroup(0.0, 0, []);
    grouped[category := CategoryGroup(group.total + e.data.amount, group.count + 1, group.expenses + [e])]
  }

  /**
   * The breakdown of the month `year`/`month` of `allExpenses`: one group per
   * category that occurs, holding exactly that category's expenses in order,
   * their count and their total.
   */
  method ExpensesByCategory(allExpenses: seq<Expense>, year: int, month: int)
    returns (grouped: map<string, CategoryGroup>)
    ensures grouped.Keys == KeysOf(Store.ExpensesByMonth(allExpenses, year, month))
    ensures forall k :: k in grouped ==> grouped[k] == GroupOf(Store.ExpensesByMonth(allExpenses, year, month), k)
    ensures forall k :: k in grouped ==> grouped[k].count == |grouped[k].expenses| && grouped[k].count > 0
  {
    grouped := GroupByCategory(Store.ExpensesByMonth(allExpenses, year, month));
  }

  /** The forEach over the month's expenses, adding each to its category's group. */
  method GroupByCategory(expenses: seq<Expense>) returns (grouped: map<string, CategoryGroup>)
    ensures grouped.Keys == KeysOf(expenses)
    ensures forall k :: k in grouped ==> grouped[k] == GroupOf(expenses, k)
  {
    grouped := map[];
    var i := 0;
    while i < |expenses|
      invariant 0 <= i <= |expenses|
      invariant GroupedAs(grouped, expenses[..i])
    {
      var expense := expenses[i];
      AddToGroupKeepsBreakdown(grouped, expenses, i);
      grouped := AddToGroup(grouped, expense);
      i := i + 1;
    }
    GroupedAsWhole(grouped, expenses);
  }

  lemma GroupedAsWhole(grouped: map<string, CategoryGroup>, expenses: seq<Expense>)
    requires GroupedAs(grouped, expenses[..|expenses|])
    ensures grouped.Keys == KeysOf(expenses)
    ensures forall k :: k in grouped ==> grouped[k] == GroupOf(expenses, k)
  {
    assert expenses[..|expenses|] == expenses;
  }

  /** One step of the loop turns the breakdown of `es` into the breakdown of `es + [e]`. */
  lemma AddToGroupKeepsBreakdown(grouped: map<string, CategoryGroup>, expenses: seq<Expense>, i: nat)
    requires i < |expenses| && GroupedAs(grouped, expenses[..i])
    ensures GroupedAs(AddToGroup(grouped, expenses[i]), expenses[..i + 1])
  {
    assert expenses[..i + 1] == expenses[..i] + [expenses[i]];
    AddToGroupStep(grouped, expenses[..i], expenses[i]);
  }

  lemma AddToGroupStep(grouped: map<string, CategoryGroup>, es: seq<Expense>, e: Expense)
    requires GroupedAs(grouped, es)
    ensures GroupedAs(AddToGroup(grouped, e), es + [e])
  {
    var category := CategoryKey(e);
    KeysOfSnoc(es, e);
    if category !in KeysOf(es) {
      GroupOfAbsent(es, category);
    }
    var updated := AddToGroup(grouped, e);
    forall k | k in updated
      ensures updated[k] == GroupOf(es + [e], k)
    {
      GroupOfSnoc(es, e, k);
    }
  }

  /** Appending an expense adds its category to the keys. */
  lemma KeysOfSnoc(es: seq<Expense>, e: Expense)
    ensures KeysOf(es + [e]) == KeysOf(es) + {CategoryKey(e)}
  {
    assert forall x :: x in es + [e] <==> x in es || x == e;
  }

  /** A category that does not occur has an empty group. */
  lemma GroupOfAbsent(es: seq<Expense>, k: string)
    requires k !in KeysOf(es)
    ensures GroupOf(es, k) == CategoryGroup(0.0, 0, [])
  {
    forall i | 0 <= i < |es| ensures !InCategory(k)(es[i]) {
      assert CategoryKey(es[i]) in KeysOf(es);
    }
    FilterDropsAll(es, InCategory(k));
  }

  /** Appending an expense extends its own category's group and leaves the others. */
  lemma GroupOfSnoc(es: seq<Expense>, e: Expense, k: string)
    ensures var g := GroupOf(es, k);
      GroupOf(es + [e], k)
      == if k == CategoryKey(e) then CategoryGroup(g.total + e.data.amount, g.count + 1, g.expenses + [e]) else g
  {
    var p := InCategory(k);
    FilterConcat(es, [e], p);
    assert [e][1..] == [];
    if k == CategoryKey(e) {
      assert Filter([e], p) == [e];
      SumOfSnoc(Filter(es, p), e, ExpenseAmount);
    } else {
      assert Filter([e], p) == [];
      assert Filter(es, p) + [] == Filter(es, p);
    }
  }

  /** Each expense of the month lies in exactly one group: its own category's. */
  lemma EachExpenseInOneGroup(es: seq<Expense>, e: Expense, k: string)
    requires e in es
    ensures e in GroupOf(es, k).expenses <==> k == CategoryKey(e)
  {
  }

  // ---------------------------------------------------------------------
  // The group totals and counts add up to the month's

  /** A weight `w` summed over the group of category `k`. */
  function GroupSum(es: seq<Expense>, w: Expense -> real): string -> real
  {
    (k: string) => SumOf(Filter(es, InCategory(k)), w)
  }

  function GroupTotal(es: seq<Expense>): string -> real
  {
    (k: string) => GroupOf(es, k).total
  }

  function GroupCount(es: seq<Expense>): string -> real
  {
    (k: string) => GroupOf(es, k).count as real
  }

  /** Each expense weighs one: summing it counts. */
  function One(e: Expense): real
  {
    1.0
  }

  function Indicator(key: string, amount: real): string -> real
  {
    (k: string) => if k == key then amount else 0.0
  }

  lemma {:induction false} SumOfPointwise<T>(s: seq<T>, f: T -> real, g: T -> real, h: T -> real)
    requires forall i :: 0 <= i < |s| ==> f(s[i]) == g(s[i]) + h(s[i])
    ensures SumOf(s, f) == SumOf(s, g) + SumOf(s, h)
  {
    if s != [] {
      SumOfPointwise(s[1..], f, g, h);
    }
  }

  lemma {:induction false} SumOfCongruent<T>(s: seq<T>, f: T -> real, g: T -> real)
    requires forall i :: 0 <= i < |s| ==> f(s[i]) == g(s[i])
    ensures SumOf(s, f) == SumOf(s, g)
  {
    if s != [] {
      SumOfCongruent(s[1..], f, g);
    }
  }

  lemma {:induction false} SumOfZero<T>(s: seq<T>, f: T -> real)
    requires forall i :: 0 <= i < |s| ==> f(s[i]) == 0.0
    ensures SumOf(s, f) == 0.0
  {
    if s != [] {
      SumOfZero(s[1..], f);
    }
  }

  lemma {:induction false} SumOfOne(s: seq<Expense>)
    ensures SumOf(s, One) == |s| as real
  {
    if s != [] {
      SumOfOne(s[1..]);
    }
  }

  lemma {:induction false} IndicatorSum(ks: seq<string>, key: string, amount: real)
    requires forall i, j :: 0 <= i < j < |ks| ==> ks[i] != ks[j]
    ensures SumOf(ks, Indicator(key, amount)) == if key in ks then amount else 0.0
  {
    if ks != [] {
      IndicatorSum(ks[1..], key, amount);
      if ks[0] == key {
        assert key !in ks[1..];
      }
    }
  }

  /** The first expense adds its weight to its own category only. */
  lemma GroupSumCons(es: seq<Expense>, w: Expense -> real, k: string)
    requires es != []
    ensures GroupSum(es, w)(k) == Indicator(CategoryKey(es[0]), w(es[0]))(k) + GroupSum(es[1..], w)(k)
  {
    var p := InCategory(k);
    var f := Filter(es, p);
    if p(es[0]) {
      assert f == [es[0]] + Filter(es[1..], p);
      assert f[0] == es[0] && f[1..] == Filter(es[1..], p);
    } else {
      assert f == Filter(es[1..], p);
    }
  }

  lemma GroupSumsSplit(es: seq<Expense>, w: Expense -> real, ks: seq<string>)
    requires es != []
    ensures SumOf(ks, GroupSum(es, w))
            == SumOf(ks, Indicator(CategoryKey(es[0]), w(es[0]))) + SumOf(ks, GroupSum(es[1..], w))
  {
    forall i | 0 <= i < |ks|
      ensures GroupSum(es, w)(ks[i]) == Indicator(CategoryKey(es[0]), w(es[0]))(ks[i]) + GroupSum(es[1..], w)(ks[i])
    {
      GroupSumCons(es, w, ks[i]);
    }
    SumOfPointwise(ks, GroupSum(es, w), Indicator(CategoryKey(es[0]), w(es[0])), GroupSum(es[1..], w));
  }

  /**
   * Summing any per-expense weight group by group, over a duplicate-free
   * list of categories that covers the month, gives its sum over the whole
   * month: no expense is lost or counted twice.
   */
  lemma {:induction false} GroupSumsAddUp(es: seq<Expense>, w: Expense -> real, ks: seq<string>)
    requires forall i, j :: 0 <= i < j < |ks| ==> ks[i] != ks[j]
    requires forall i :: 0 <= i < |es| ==> CategoryKey(es[i]) in ks
    ensures SumOf(ks, GroupSum(es, w)) == SumOf(es, w)
  {
    if es == [] {
      SumOfZero(ks, GroupSum(es, w));
    } else {
      GroupSumsAddUp(es[1..], w, ks);
      GroupSumsSplit(es, w, ks);
      IndicatorSum(ks, CategoryKey(es[0]), w(es[0]));
    }
  }

  /** The group totals add up to the month's total. */
  lemma GroupTotalsAddUp(es: seq<Expense>, ks: seq<string>)
    requires forall i, j :: 0 <= i < j < |ks| ==> ks[i] != ks[j]
    requires forall i :: 0 <= i < |es| ==> CategoryKey(es[i]) in ks
    ensures SumOf(ks, GroupTotal(es)) == SumOf(es, ExpenseAmount)
  {
    GroupSumsAddUp(es, ExpenseAmount, ks);
    SumOfCongruent(ks, GroupTotal(es), GroupSum(es, ExpenseAmount));
  }

  /** The group counts add up to the number of the month's expenses. */
  lemma GroupCountsAddUp(es: seq<Expense>, ks: seq<string>)
    requires forall i, j :: 0 <= i < j < |ks| ==> ks[i] != ks[j]
    requires forall i :: 0 <= i < |es| ==> CategoryKey(es[i]) in ks
    ensures SumOf(ks, GroupCount(es)) == |es| as real
  {
    forall i | 0 <= i < |ks| ensures GroupCount(es)(ks[i]) == GroupSum(es, One)(ks[i]) {
      SumOfOne(Filter(es, InCategory(ks[i])));
    }
    SumOfCongruent(ks, GroupCount(es), GroupSum(es, One));
    GroupSumsAddUp(es, One, ks);
    SumOfOne(es);
  }

  /** Empty and missing categories share the 'otros' group. */
  lemma MissingCategoryIsOtros(es: seq<Expense>, e: Expense)
    requires e in es && e.data.category == ""
    ensures e in GroupOf(es, "otros").expenses
  {
  }
}
