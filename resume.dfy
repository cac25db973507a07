/** The monthly summary: the expenses of the selected month, their total,
    one entry per category that has any, and the month selector. */
module Resume {
  import opened Wrappers
  import opened Records
  import opened Storage

  /** The key the summary reads. */
  const DataKey := "@gofinances:transactions"

  // ---------------------------------------------------------------------
  // The selected month

  /** The part of `selectedDate` the summary uses. */
  datatype MonthYear = MonthYear(year: int, month: Month)

  /** Months counted from year 0: consecutive months have consecutive indices. */
  function MonthIndex(d: MonthYear): int
  {
    d.year * 12 + d.month
  }

  lemma MonthIndexInjective(a: MonthYear, b: MonthYear)
    requires MonthIndex(a) == MonthIndex(b)
    ensures a == b
  {
  }

  /** `addMonths(selectedDate, 1)`: December rolls over into January of the next year. */
  function AddMonth(d: MonthYear): (r: MonthYear)
    ensures MonthIndex(r) == MonthIndex(d) + 1
  {
    if d.month == 11 then MonthYear(d.year + 1, 0) else MonthYear(d.year, d.month + 1)
  }

  /** `subMonths(selectedDate, 1)`: January rolls back into December of the previous year. */
  function SubMonth(d: MonthYear): (r: MonthYear)
    ensures MonthIndex(r) == MonthIndex(d) - 1
  {
    if d.month == 0 then MonthYear(d.year - 1, 11) else MonthYear(d.year, d.month - 1)
  }

  lemma PrevAfterNext(d: MonthYear)
    ensures SubMonth(AddMonth(d)) == d
  {
    MonthIndexInjective(SubMonth(AddMonth(d)), d);
  }

  lemma NextAfterPrev(d: MonthYear)
    ensures AddMonth(SubMonth(d)) == d
  {
    MonthIndexInjective(AddMonth(SubMonth(d)), d);
  }

  datatype Action = Next | Prev

  // ---------------------------------------------------------------------
  // The month's expenses

  predicate IsMonthExpense(t: Transaction, d: MonthYear)
  {
    t.kind == Negative && t.date.month == d.month && t.date.year == d.year
  }

  /** The "negative" transactions dated in the selected month and year, in order. */
  function MonthExpenses(ts: seq<Transaction>, d: MonthYear): (r: seq<Transaction>)
    ensures |r| <= |ts|
    ensures forall t :: t in r <==> t in ts && IsMonthExpense(t, d)
  {
    if ts == [] then []
    else
      var t := ts[|ts| - 1];
      assert ts == ts[..|ts| - 1] + [t];
      MonthExpenses(ts[..|ts| - 1], d) + (if IsMonthExpense(t, d) then [t] else [])
  }

  // ---------------------------------------------------------------------
  // The per-category breakdown

  datatype Category = Category(key: string, name: string, color: string)

  /** `((categorySum / totalExpenses) * 100)` as an exact number; a zero total
      gives JavaScript's non-finite result. */
  datatype Percent = Percent(value: real) | NotFinite

  function PercentOf(part: int, whole: int): (p: Percent)
    ensures p.NotFinite? <==> whole == 0
  {
    if whole == 0 then NotFinite else Percent(part as real * 100.0 / whole as real)
  }

  datatype CategoryData = CategoryData(
    key: string, name: string, color: string, total: int, percent: Percent)

  /** The inner accumulator: the sum of the expenses filed under `key`,
      never negative while amounts are positive. */
  function CategorySum(es: seq<Transaction>, key: string): (r: int)
    ensures AllPositive(es) ==> r >= 0
  {
    if es == [] then 0
    else
      assert AllPositive(es) ==> AllPositive(es[..|es| - 1]);
      CategorySum(es[..|es| - 1], key) + (if es[|es| - 1].category == key then es[|es| - 1].amount else 0)
  }

  /** With positive amounts, a category's sum is positive exactly when some
      expense of the month is filed under it. */
  lemma {:induction false} CategorySumPositive(es: seq<Transaction>, key: string)
    requires AllPositive(es)
    ensures CategorySum(es, key) > 0 <==> exists i :: 0 <= i < |es| && es[i].category == key
  {
    if es != [] {
      var init := es[..|es| - 1];
      assert AllPositive(init);
      CategorySumPositive(init, key);
      if exists i :: 0 <= i < |init| && init[i].category == key {
        var i :| 0 <= i < |init| && init[i].category == key;
        assert es[i] == init[i];
      }
      if exists i :: 0 <= i < |es| && es[i].category == key {
        var i :| 0 <= i < |es| && es[i].category == key;
        if i < |init| {
          assert init[i] == es[i];
        }
      }
    }
  }

  /** The entries emitted for `cats`, in their order: one per category whose
      sum is positive, carrying that category's key, name and colour. */
  function Breakdown(cats: seq<Category>, es: seq<Transaction>): (r: seq<CategoryData>)
    ensures |r| <= |cats|
    ensures forall i :: 0 <= i < |r| ==>
      && r[i].total > 0 && r[i].total == CategorySum(es, r[i].key)
      && r[i].percent == PercentOf(r[i].total, SumAmounts(es))
      && Category(r[i].key, r[i].name, r[i].color) in cats
  {
    if cats == [] then []
    else
      var init := cats[..|cats| - 1];
      var c := cats[|cats| - 1];
      var sum := CategorySum(es, c.key);
      assert forall x :: x in init ==> x in cats;
      Breakdown(init, es) + (if sum > 0 then [CategoryData(c.key, c.name, c.color, sum, PercentOf(sum, SumAmounts(es)))] else [])
  }

  /** A category is emitted when its sum is positive (and, by the ensures of
      Breakdown, only then). */
  lemma {:induction false} BreakdownHasEveryPositive(cats: seq<Category>, es: seq<Transaction>, c: Category)
    requires c in cats && CategorySum(es, c.key) > 0
    ensures exists i :: 0 <= i < |Breakdown(cats, es)| && Breakdown(cats, es)[i].key == c.key
  {
    var init := cats[..|cats| - 1];
    var last := cats[|cats| - 1];
    var prefix := Breakdown(init, es);
    if c == last {
      var entry := CategoryData(last.key, last.name, last.color, CategorySum(es, last.key), PercentOf(CategorySum(es, last.key), SumAmounts(es)));
      assert Breakdown(cats, es) == prefix + [entry];
      assert Breakdown(cats, es)[|prefix|].key == c.key;
    } else {
      assert cats == init + [last];
      assert c in init;
      BreakdownHasEveryPositive(init, es, c);
      var i :| 0 <= i < |prefix| && prefix[i].key == c.key;
      assert Breakdown(cats, es)[i] == prefix[i];
    }
  }

  /** A single category gives one entry, with its sum and share, when that
      sum is positive, and none otherwise. With `BreakdownConcat` this fixes
      the output: one entry per listed category with a positive sum, in list
      order. */
  lemma BreakdownOfOne(c: Category, es: seq<Transaction>)
    ensures var sum := CategorySum(es, c.key);
      Breakdown([c], es) ==
        if sum > 0 then [CategoryData(c.key, c.name, c.color, sum, PercentOf(sum, SumAmounts(es)))] else []
  {
    assert [c][..0] == [];
  }

  /** With distinct category keys, no key is emitted twice. */
  lemma {:induction false} BreakdownKeysDistinct(cats: seq<Category>, es: seq<Transaction>)
    requires DistinctKeys(cats)
    ensures forall i, j :: 0 <= i < j < |Breakdown(cats, es)| ==>
      Breakdown(cats, es)[i].key != Breakdown(cats, es)[j].key
  {
    if cats != [] {
      var init := cats[..|cats| - 1];
      var c := cats[|cats| - 1];
      var prefix := Breakdown(init, es);
      assert DistinctKeys(init);
      BreakdownKeysDistinct(init, es);
      forall i | 0 <= i < |prefix|
        ensures prefix[i].key != c.key
      {
        var x := Category(prefix[i].key, prefix[i].name, prefix[i].color);
        assert x in init;
        var k :| 0 <= k < |init| && init[k] == x;
        assert cats[k] == x && k < |cats| - 1;
      }
      var sum := CategorySum(es, c.key);
      var tail := if sum > 0 then [CategoryData(c.key, c.name, c.color, sum, PercentOf(sum, SumAmounts(es)))] else [];
      var r := prefix + tail;
      assert Breakdown(cats, es) == r;
      forall i, j | 0 <= i < j < |r|
        ensures r[i].key != r[j].key
      {
        if j < |prefix| {
          assert r[i] == prefix[i] && r[j] == prefix[j];
          assert prefix[i].key != prefix[j].key;
        } else {
          assert |tail| == 1 && r[j] == tail[0];
          assert r[i] == prefix[i];
        }
      }
    }
  }

  /** Output order follows the category list: the entries for a list split in
      two are those of the first part followed by those of the second. */
  lemma {:induction false} BreakdownConcat(a: seq<Category>, b: seq<Category>, es: seq<Transaction>)
    ensures Breakdown(a + b, es) == Breakdown(a, es) + Breakdown(b, es)
    decreases |b|
  {
    if b == [] {
      assert a + b == a;
    } else {
      var b' := b[..|b| - 1];
      assert (a + b)[..|a + b| - 1] == a + b';
      assert (a + b)[|a + b| - 1] == b[|b| - 1];
      BreakdownConcat(a, b', es);
    }
  }

  // ---------------------------------------------------------------------
  // The entries add up to the month's total

  function KeysOf(cats: seq<Category>): set<string>
  {
    set j | 0 <= j < |cats| :: cats[j].key
  }

  predicate DistinctKeys(cats: seq<Category>)
  {
    forall i, j :: 0 <= i < j < |cats| ==> cats[i].key != cats[j].key
  }

  function SumTotals(entries: seq<CategoryData>): int
  {
    if entries == [] then 0 else SumTotals(entries[..|entries| - 1]) + entries[|entries| - 1].total
  }

  /** The sum over the category list of each category's expenses. */
  function SumOfCategorySums(cats: seq<Category>, es: seq<Transaction>): int
  {
    if cats == [] then 0 else SumOfCategorySums(cats[..|cats| - 1], es) + CategorySum(es, cats[|cats| - 1].key)
  }

  /** The sum over the category list of what one expense adds to each. */
  function SumOfShares(cats: seq<Category>, e: Transaction): int
  {
    if cats == [] then 0
    else SumOfShares(cats[..|cats| - 1], e) + (if e.category == cats[|cats| - 1].key then e.amount else 0)
  }

  predicate AllPositive(es: seq<Transaction>)
  {
    forall i :: 0 <= i < |es| ==> es[i].amount > 0
  }

  lemma {:induction false} SumAmountsPositive(es: seq<Transaction>)
    requires AllPositive(es) && es != []
    ensures SumAmounts(es) > 0
  {
    if |es| > 1 {
      SumAmountsPositive(es[..|es| - 1]);
    }
  }

  /** With positive amounts, an omitted category has nothing to add, so the
      emitted totals add up to the sum over all listed categories. */
  lemma {:induction false} BreakdownSumsCategorySums(cats: seq<Category>, es: seq<Transaction>)
    requires AllPositive(es)
    ensures SumTotals(Breakdown(cats, es)) == SumOfCategorySums(cats, es)
  {
    if cats != [] {
      var init := cats[..|cats| - 1];
      var c := cats[|cats| - 1];
      BreakdownSumsCategorySums(init, es);
      var prefix := Breakdown(init, es);
      if CategorySum(es, c.key) > 0 {
        var entry := CategoryData(c.key, c.name, c.color, CategorySum(es, c.key), PercentOf(CategorySum(es, c.key), SumAmounts(es)));
        assert Breakdown(cats, es) == prefix + [entry];
        assert (prefix + [entry])[..|prefix|] == prefix;
      } else {
        assert Breakdown(cats, es) == prefix + [];
        assert prefix + [] == prefix;
      }
    }
  }

  /** One more expense adds its share to each category's sum. */
  lemma {:induction false} CategorySumsOfAppended(cats: seq<Category>, es: seq<Transaction>, e: Transaction)
    ensures SumOfCategorySums(cats, es + [e]) == SumOfCategorySums(cats, es) + SumOfShares(cats, e)
  {
    if cats != [] {
      CategorySumsOfAppended(cats[..|cats| - 1], es, e);
      assert (es + [e])[..|es|] == es;
    }
  }

  lemma {:induction false} KeysOfInit(cats: seq<Category>)
    requires cats != []
    ensures KeysOf(cats) == KeysOf(cats[..|cats| - 1]) + {cats[|cats| - 1].key}
  {
    var init := cats[..|cats| - 1];
    forall k | k in KeysOf(cats)
      ensures k in KeysOf(init) + {cats[|cats| - 1].key}
    {
      var j :| 0 <= j < |cats| && cats[j].key == k;
      if j < |cats| - 1 {
        assert init[j] == cats[j];
      }
    }
    forall k | k in KeysOf(init)
      ensures k in KeysOf(cats)
    {
      var j :| 0 <= j < |init| && init[j].key == k;
      assert cats[j] == init[j];
    }
  }

  /** An expense whose category is listed exactly once adds its amount once. */
  lemma {:induction false} SharesOfListedExpense(cats: seq<Category>, e: Transaction)
    requires DistinctKeys(cats)
    ensures SumOfShares(cats, e) == if e.category in KeysOf(cats) then e.amount else 0
  {
    if cats != [] {
      var init := cats[..|cats| - 1];
      var c := cats[|cats| - 1];
      KeysOfInit(cats);
      assert DistinctKeys(init) by {
        forall i, j | 0 <= i < j < |init|
          ensures init[i].key != init[j].key
        {
          assert init[i] == cats[i] && init[j] == cats[j];
        }
      }
      SharesOfListedExpense(init, e);
      forall j | 0 <= j < |init|
        ensures init[j].key != c.key
      {
        assert init[j] == cats[j];
      }
      assert c.key !in KeysOf(init);
    }
  }

  /** When every expense's category is listed once, the category sums add up
      to the sum of all expenses. */
  lemma {:induction false} CategorySumsCoverExpenses(cats: seq<Category>, es: seq<Transaction>)
    requires DistinctKeys(cats)
    requires forall i :: 0 <= i < |es| ==> es[i].category in KeysOf(cats)
    ensures SumOfCategorySums(cats, es) == SumAmounts(es)
    decreases |es|
  {
    if es == [] {
      ZeroSums(cats);
    } else {
      var init := es[..|es| - 1];
      var e := es[|es| - 1];
      assert es == init + [e];
      CategorySumsCoverExpenses(cats, init);
      CategorySumsOfAppended(cats, init, e);
      SharesOfListedExpense(cats, e);
    }
  }

  lemma {:induction false} ZeroSums(cats: seq<Category>)
    ensures SumOfCategorySums(cats, []) == 0
  {
    if cats != [] {
      ZeroSums(cats[..|cats| - 1]);
    }
  }

  /** The emitted totals add up to the month's total expense, when category
      keys are distinct, every expense's category is listed and amounts are
      positive. */
  lemma BreakdownAddsUpToTotal(cats: seq<Category>, es: seq<Transaction>)
    requires DistinctKeys(cats)
    requires forall i :: 0 <= i < |es| ==> es[i].category in KeysOf(cats)
    requires AllPositive(es)
    ensures SumTotals(Breakdown(cats, es)) == SumAmounts(es)
  {
    BreakdownSumsCategorySums(cats, es);
    CategorySumsCoverExpenses(cats, es);
  }

  /** The sum of the emitted percentages (a non-finite one counts as zero). */
  function SumPercents(entries: seq<CategoryData>): real
  {
    if entries == [] then 0.0
    else
      var last := entries[|entries| - 1];
      SumPercents(entries[..|entries| - 1]) + (if last.percent.Percent? then last.percent.value else 0.0)
  }

  lemma {:induction false} SumPercentsScales(entries: seq<CategoryData>, whole: int)
    requires whole != 0
    requires forall i :: 0 <= i < |entries| ==> entries[i].percent == PercentOf(entries[i].total, whole)
    ensures SumPercents(entries) == SumTotals(entries) as real * 100.0 / whole as real
  {
    if entries != [] {
      var init := entries[..|entries| - 1];
      var last := entries[|entries| - 1];
      SumPercentsScales(init, whole);
      var w := whole as real;
      var a := SumTotals(init) as real;
      var x := last.total as real;
      assert a * 100.0 / w + x * 100.0 / w == (a + x) * 100.0 / w;
    }
  }

  /** Under the same conditions, a month with expenses has percentages
      (before rounding) that add up to 100. */
  lemma PercentsAddUpTo100(cats: seq<Category>, es: seq<Transaction>)
    requires DistinctKeys(cats)
    requires forall i :: 0 <= i < |es| ==> es[i].category in KeysOf(cats)
    requires AllPositive(es) && es != []
    ensures SumPercents(Breakdown(cats, es)) == 100.0
  {
    var r := Breakdown(cats, es);
    var total := SumAmounts(es);
    SumAmountsPositive(es);
    BreakdownAddsUpToTotal(cats, es);
    SumPercentsScales(r, total);
    WholeIsHundredPercent(total);
  }

  lemma WholeIsHundredPercent(whole: int)
    requires whole != 0
    ensures whole as real * 100.0 / whole as real == 100.0
  {
  }

  // ---------------------------------------------------------------------
  // The screen

  class ResumeScreen {
    var isLoading: bool
    var selectedDate: MonthYear
    var totalByCategories: seq<CategoryData>
    const store: AsyncStore

    /** The screen opens on the current month (`new Date()`, a parameter here), not loading. */
    constructor (store: AsyncStore, today: MonthYear)
      ensures !isLoading && selectedDate == today && totalByCategories == []
      ensures this.store == store
    {
      isLoading := false;
      selectedDate := today;
      totalByCategories := [];
      this.store := store;
    }

    /** `handleDataChange`: one month forward or back. */
    method HandleDataChange(action: Action)
      modifies this
      ensures selectedDate == if action == Next then AddMonth(old(selectedDate)) else SubMonth(old(selectedDate))
      ensures isLoading == old(isLoading) && totalByCategories == old(totalByCategories)
    {
      selectedDate := if action == Next then AddMonth(selectedDate) else SubMonth(selectedDate);
    }

    /** `loadData`: filter the month's expenses, total them, sum them per
        category in the order of `categories`, and end the loading state. A
        stored value that is not an array makes it throw with the loading
        state still on. */
    method LoadData(categories: seq<Category>) returns (outcome: Outcome<LoadError>)
      modifies this
      ensures selectedDate == old(selectedDate)
      ensures var stored := StoredTransactions(Lookup(store.entries, DataKey));
        match stored
        case None =>
          outcome == Fail(NotAnArray) && isLoading && totalByCategories == old(totalByCategories)
        case Some(ts) =>
          outcome == Pass && !isLoading &&
          totalByCategories == Breakdown(categories, MonthExpenses(ts, selectedDate))
    {
      isLoading := true;
      var response := store.GetItem(DataKey);
      var formattedResponse := StoredTransactions(response);
      if formattedResponse.None? {
        return Fail(NotAnArray);
      }
      var expenses := MonthExpenses(formattedResponse.value, selectedDate);
      var totalExpenses := SumAmounts(expenses);
      var totalByCategory: seq<CategoryData> := [];
      for ci := 0 to |categories|
        invariant totalByCategory == Breakdown(categories[..ci], expenses)
      {
        var category := categories[ci];
        var categorySum := 0;
        for ei := 0 to |expenses|
          invariant categorySum == CategorySum(expenses[..ei], category.key)
        {
          assert expenses[..ei + 1][..ei] == expenses[..ei];
          if expenses[ei].category == category.key {
            categorySum := categorySum + expenses[ei].amount;
          }
        }
        assert expenses[..|expenses|] == expenses;
        assert categories[..ci + 1][..ci] == categories[..ci];
        if categorySum > 0 {
          var percent := PercentOf(categorySum, totalExpenses);
          totalByCategory := totalByCategory + [CategoryData(category.key, category.name, category.color, categorySum, percent)];
        }
      }
      assert categories[..|categories|] == categories;
      totalByCategories := totalByCategory;
      isLoading := false;
      outcome := Pass;
    }
  }
}
