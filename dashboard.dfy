/** The dashboard: the stored transactions listed in order, the entry and
    expense totals, their difference, and the latest timestamp of each type. */
module Dashboard {
  import opened Wrappers
  import opened Records
  import opened Storage

  /** The key the dashboard reads (not the per-user key the register screen writes). */
  const DataKey := "@gofinances:transactions"

  // ---------------------------------------------------------------------
  // Totals

  /** A transaction's share of the entries total: only type "positive" counts. */
  function EntryAmount(t: Transaction): int
  {
    if t.kind == Positive then t.amount else 0
  }

  /** A transaction's share of the expenses total: every type but "positive". */
  function ExpenseAmount(t: Transaction): int
  {
    if t.kind == Positive then 0 else t.amount
  }

  /** The entries accumulator after visiting `ts` in order. */
  function TotalEntries(ts: seq<Transaction>): int
  {
    if ts == [] then 0 else TotalEntries(ts[..|ts| - 1]) + EntryAmount(ts[|ts| - 1])
  }

  /** The expenses accumulator after visiting `ts` in order. */
  function TotalExpenses(ts: seq<Transaction>): int
  {
    if ts == [] then 0 else TotalExpenses(ts[..|ts| - 1]) + ExpenseAmount(ts[|ts| - 1])
  }

  /** The transactions of one type, in order. */
  function OfKind(ts: seq<Transaction>, kind: string): (r: seq<Transaction>)
    ensures |r| <= |ts|
  {
    if ts == [] then []
    else
      var t := ts[|ts| - 1];
      OfKind(ts[..|ts| - 1], kind) + (if t.kind == kind then [t] else [])
  }

  /** The transactions of every type but one, in order. */
  function NotOfKind(ts: seq<Transaction>, kind: string): (r: seq<Transaction>)
    ensures |r| <= |ts|
  {
    if ts == [] then []
    else
      var t := ts[|ts| - 1];
      NotOfKind(ts[..|ts| - 1], kind) + (if t.kind != kind then [t] else [])
  }

  /** Selecting by type keeps order and repetitions: it distributes over
      concatenation, one element at a time. */
  lemma {:induction false} OfKindConcat(a: seq<Transaction>, b: seq<Transaction>, kind: string)
    ensures OfKind(a + b, kind) == OfKind(a, kind) + OfKind(b, kind)
    decreases |b|
  {
    if b == [] {
      assert a + b == a;
    } else {
      var b' := b[..|b| - 1];
      assert (a + b)[..|a + b| - 1] == a + b';
      OfKindConcat(a, b', kind);
    }
  }

  /** The same for the transactions of every other type. */
  lemma {:induction false} NotOfKindConcat(a: seq<Transaction>, b: seq<Transaction>, kind: string)
    ensures NotOfKind(a + b, kind) == NotOfKind(a, kind) + NotOfKind(b, kind)
    decreases |b|
  {
    if b == [] {
      assert a + b == a;
    } else {
      var b' := b[..|b| - 1];
      assert (a + b)[..|a + b| - 1] == a + b';
      NotOfKindConcat(a, b', kind);
    }
  }

  /** Exactly the records of the type are selected, and exactly the others
      by `NotOfKind`. */
  lemma {:induction false} OfKindMembers(ts: seq<Transaction>, kind: string)
    ensures forall t :: t in OfKind(ts, kind) <==> t in ts && t.kind == kind
    ensures forall t :: t in NotOfKind(ts, kind) <==> t in ts && t.kind != kind
  {
    if ts != [] {
      OfKindMembers(ts[..|ts| - 1], kind);
      assert ts == ts[..|ts| - 1] + [ts[|ts| - 1]];
    }
  }

  /** The two selections split the list: every record, with its repetitions,
      lands in exactly one of them. */
  lemma {:induction false} KindPartition(ts: seq<Transaction>, kind: string)
    ensures multiset(OfKind(ts, kind)) + multiset(NotOfKind(ts, kind)) == multiset(ts)
  {
    if ts != [] {
      var t := ts[|ts| - 1];
      KindPartition(ts[..|ts| - 1], kind);
      assert ts == ts[..|ts| - 1] + [t];
    }
  }

  lemma {:induction false} SumAmountsAppend(a: seq<Transaction>, b: seq<Transaction>)
    ensures SumAmounts(a + b) == SumAmounts(a) + SumAmounts(b)
    decreases |b|
  {
    if b == [] {
      assert a + b == a;
    } else {
      var b' := b[..|b| - 1];
      assert (a + b)[..|a + b| - 1] == a + b';
      SumAmountsAppend(a, b');
    }
  }

  /** The entries total is the sum of the "positive" transactions. */
  lemma {:induction false} TotalEntriesArePositives(ts: seq<Transaction>)
    ensures TotalEntries(ts) == SumAmounts(OfKind(ts, Positive))
  {
    if ts != [] {
      var t := ts[|ts| - 1];
      TotalEntriesArePositives(ts[..|ts| - 1]);
      SumAmountsAppend(OfKind(ts[..|ts| - 1], Positive), if t.kind == Positive then [t] else []);
      assert SumAmounts([t]) == t.amount by {
        assert [t][..0] == [];
      }
    }
  }

  /** The expenses total is the sum of every transaction whose type is not
      "positive", not only the "negative" ones. */
  lemma {:induction false} TotalExpensesAreTheRest(ts: seq<Transaction>)
    ensures TotalExpenses(ts) == SumAmounts(NotOfKind(ts, Positive))
  {
    if ts != [] {
      var t := ts[|ts| - 1];
      TotalExpensesAreTheRest(ts[..|ts| - 1]);
      SumAmountsAppend(NotOfKind(ts[..|ts| - 1], Positive), if t.kind != Positive then [t] else []);
      assert SumAmounts([t]) == t.amount by {
        assert [t][..0] == [];
      }
    }
  }

  /** Every amount goes to exactly one of the two totals. */
  lemma {:induction false} TotalsPartition(ts: seq<Transaction>)
    ensures TotalEntries(ts) + TotalExpenses(ts) == SumAmounts(ts)
  {
    if ts != [] {
      TotalsPartition(ts[..|ts| - 1]);
    }
  }

  // ---------------------------------------------------------------------
  // Latest timestamp per type

  /** `getLastTransactionDate`: the largest timestamp among the transactions
      of `kind`, or None where `Math.max` of no values gives -Infinity. */
  function LastTransactionDate(ts: seq<Transaction>, kind: string): (r: Option<int>)
    ensures r.None? <==> forall i :: 0 <= i < |ts| ==> ts[i].kind != kind
    ensures r.Some? ==> exists i :: 0 <= i < |ts| && ts[i].kind == kind && ts[i].date.time == r.value
    ensures r.Some? ==> forall i :: 0 <= i < |ts| && ts[i].kind == kind ==> ts[i].date.time <= r.value
  {
    if ts == [] then None
    else
      var rest := LastTransactionDate(ts[1..], kind);
      assert forall i :: 1 <= i < |ts| ==> ts[i] == ts[1..][i - 1];
      if ts[0].kind != kind then rest
      else if rest.Some? && ts[0].date.time <= rest.value then rest
      else Some(ts[0].date.time)
  }

  // ---------------------------------------------------------------------
  // What the screen shows

  /** A listed transaction: the stored record with its amount and date before
      locale formatting. */
  datatype ListedTransaction = ListedTransaction(
    id: string, name: string, amount: int, kind: string, category: string, date: Date)

  function Listed(t: Transaction): (l: ListedTransaction)
    ensures l.id == t.id && l.name == t.name && l.kind == t.kind && l.category == t.category
    ensures l.amount == t.amount && l.date == t.date
  {
    ListedTransaction(t.id, t.name, t.amount, t.kind, t.category, t.date)
  }

  /** One highlight card: an amount and the timestamp it is dated by. */
  datatype HighlightProps = HighlightProps(amount: int, lastTransaction: Option<int>)

  datatype HighlightData = HighlightData(entries: HighlightProps, expenses: HighlightProps, total: HighlightProps)

  /** The three cards for a list of transactions. The total card's interval
      ends at the last expense, not at the last entry. */
  function Highlights(ts: seq<Transaction>): (h: HighlightData)
    ensures h.entries.amount == SumAmounts(OfKind(ts, Positive))
    ensures h.expenses.amount == SumAmounts(NotOfKind(ts, Positive))
    ensures h.total.amount == h.entries.amount - h.expenses.amount
    ensures h.entries.amount + h.expenses.amount == SumAmounts(ts)
    ensures h.entries.lastTransaction == LastTransactionDate(ts, Positive)
    ensures h.expenses.lastTransaction == LastTransactionDate(ts, Negative)
    ensures h.total.lastTransaction == h.expenses.lastTransaction
  {
    TotalEntriesArePositives(ts);
    TotalExpensesAreTheRest(ts);
    TotalsPartition(ts);
    var totalEntries := TotalEntries(ts);
    var totalExpenses := TotalExpenses(ts);
    var lastExpense := LastTransactionDate(ts, Negative);
    HighlightData(
      HighlightProps(totalEntries, LastTransactionDate(ts, Positive)),
      HighlightProps(totalExpenses, lastExpense),
      HighlightProps(totalEntries - totalExpenses, lastExpense))
  }

  /** The `transactions.map(...)` pass of `loadTransactions`: each record is
      listed in place and its amount added to exactly one accumulator. */
  method MapTransactions(ts: seq<Transaction>)
    returns (formatted: seq<ListedTransaction>, totalEntries: int, totalExpenses: int)
    ensures |formatted| == |ts|
    ensures forall i :: 0 <= i < |ts| ==> formatted[i] == Listed(ts[i])
    ensures totalEntries == TotalEntries(ts) && totalExpenses == TotalExpenses(ts)
  {
    totalEntries, totalExpenses := 0, 0;
    formatted := [];
    for i := 0 to |ts|
      invariant totalEntries == TotalEntries(ts[..i])
      invariant totalExpenses == TotalExpenses(ts[..i])
      invariant |formatted| == i
      invariant forall j :: 0 <= j < i ==> formatted[j] == Listed(ts[j])
    {
      var transaction := ts[i];
      assert ts[..i + 1][..i] == ts[..i];
      if transaction.kind == Positive {
        totalEntries := totalEntries + transaction.amount;
      } else {
        totalExpenses := totalExpenses + transaction.amount;
      }
      formatted := formatted + [Listed(transaction)];
    }
    assert ts[..|ts|] == ts;
  }

  class DashboardScreen {
    var isLoading: bool
    var transactions: seq<ListedTransaction>
    /** None is the empty object the cards start from. */
    var highlightData: Option<HighlightData>
    const store: AsyncStore

    constructor (store: AsyncStore)
      ensures isLoading && transactions == [] && highlightData == None
      ensures this.store == store
    {
      isLoading := true;
      transactions := [];
      highlightData := None;
      this.store := store;
    }

    /** `loadTransactions`: list the stored transactions, total them by
        type, and end the loading state. A stored value that is not an array
        makes it throw before any state is set. */
    method LoadTransactions() returns (outcome: Outcome<LoadError>)
      modifies this
      ensures StoredTransactions(Lookup(store.entries, DataKey)).None? ==>
        outcome == Fail(NotAnArray) && unchanged(this)
      ensures StoredTransactions(Lookup(store.entries, DataKey)).Some? ==>
        var ts := StoredTransactions(Lookup(store.entries, DataKey)).value;
        && outcome == Pass && !isLoading
        && |transactions| == |ts|
        && (forall i :: 0 <= i < |ts| ==> transactions[i] == Listed(ts[i]))
        && highlightData == Some(Highlights(ts))
    {
      var response := store.GetItem(DataKey);
      var stored := StoredTransactions(response);
      if stored.None? {
        return Fail(NotAnArray);
      }
      var ts := stored.value;
      var formattedTransactions, totalEntries, totalExpenses := MapTransactions(ts);
      transactions := formattedTransactions;
      var lastTransactionEntries := LastTransactionDate(ts, Positive);
      var lastTransactionExpenses := LastTransactionDate(ts, Negative);
      var total := totalEntries - totalExpenses;
      var highlight := HighlightData(
        HighlightProps(totalEntries, lastTransactionEntries),
        HighlightProps(totalExpenses, lastTransactionExpenses),
        HighlightProps(total, lastTransactionExpenses));
      assert highlight == Highlights(ts);
      highlightData := Some(highlight);
      isLoading := false;
      outcome := Pass;
    }
  }
}
