/** The mock transaction service (services/transactionService.ts): a fixed
    list of transactions run through the type, date-range and amount-range
    filters, then sorted. The simulated network delay is not modelled;
    `parseFloat` is the parameter `parse`, whose `None` stands for NaN. */
module MockTransactionService {
  import opened JsValue
  import opened Transactions
  import opened ArrayOps

  function Tx(id: string, day: int, amount: real, category: string, description: string, t: TxType): Transaction {
    Transaction(id, CivilDate(2024, 1, day), amount, Named(category), description, t)
  }

  /** The ten mock transactions, newest first. */
  const MockTransactions: seq<Transaction> := [
    Tx("t1", 20, 50.0, "Food", "Grocery shopping", Expense),
    Tx("t2", 19, 3000.0, "Salary", "Monthly salary", Income),
    Tx("t3", 18, 100.0, "Transportation", "Fuel", Expense),
    Tx("t4", 17, 200.0, "Entertainment", "Movie night", Expense),
    Tx("t5", 16, 500.0, "Freelance", "Web development project", Income),
    Tx("t6", 15, 1500.0, "Rent", "Monthly rent payment", Expense),
    Tx("t7", 14, 45.0, "Food", "Restaurant dinner", Expense),
    Tx("t8", 13, 2000.0, "Bonus", "Year-end bonus", Income),
    Tx("t9", 12, 35.0, "Utilities", "Electricity bill", Expense),
    Tx("t10", 11, 25.0, "Subscription", "Streaming service", Expense)
  ]

  /** The last millisecond of the day of `m` (`setHours(23, 59, 59, 999)`). */
  function EndOfDay(m: Moment): Moment {
    Moment(m.date, MsPerDay - 1)
  }

  predicate PassesType(f: FilterOptions, t: Transaction) {
    !TypeFilterActive(f) || t.txType == f.typeFilter.value.t
  }

  predicate PassesFrom(f: FilterOptions, t: Transaction) {
    f.fromDate.None? || MomentKey(Midnight(t.date)) >= MomentKey(f.fromDate.value)
  }

  predicate PassesTo(f: FilterOptions, t: Transaction) {
    f.toDate.None? || MomentKey(Midnight(t.date)) <= MomentKey(EndOfDay(f.toDate.value))
  }

  /** The bound an amount text imposes: none when the text is absent or
      blank, or when it does not parse. */
  function AmountBound(text: Option<string>, parse: string -> Option<real>): Option<real> {
    if AmountBoundActive(text) then parse(text.value) else None
  }

  predicate PassesMin(f: FilterOptions, parse: string -> Option<real>, t: Transaction) {
    var b := AmountBound(f.minAmount, parse);
    b.None? || t.amount >= b.value
  }

  predicate PassesMax(f: FilterOptions, parse: string -> Option<real>, t: Transaction) {
    var b := AmountBound(f.maxAmount, parse);
    b.None? || t.amount <= b.value
  }

  /** Every active criterion of `f` holds of `t`. */
  predicate Matches(f: FilterOptions, parse: string -> Option<real>, t: Transaction) {
    PassesType(f, t) && PassesFrom(f, t) && PassesTo(f, t) && PassesMin(f, parse, t) && PassesMax(f, parse, t)
  }

  /** `filters.sortBy || 'date'` and `filters.sortOrder || 'desc'`. */
  function EffectiveSortKey(f: FilterOptions): SortKey { f.sortBy.GetOr(ByDate) }
  function EffectiveSortOrder(f: FilterOptions): SortOrder { f.sortOrder.GetOr(Desc) }

  /** The number the comparator subtracts: `getTime()` or the amount. */
  function SortValue(k: SortKey, t: Transaction): real {
    match k
    case ByDate => MomentKey(Midnight(t.date)) as real
    case ByAmount => t.amount
  }

  ghost predicate OrderedBy(s: seq<Transaction>, k: SortKey, order: SortOrder) {
    forall i, j :: 0 <= i < j < |s| ==>
      if order == Asc then SortValue(k, s[i]) <= SortValue(k, s[j])
      else SortValue(k, s[i]) >= SortValue(k, s[j])
  }

  /** `getTransactions(filters)` over the list `source`. The result holds
      exactly the transactions of `source` that meet every active criterion
      (each as often as in `source`), ordered by the chosen key and
      direction; `source` itself is a value and is left as it was. */
  method GetTransactions(source: seq<Transaction>, filters: FilterOptions, parse: string -> Option<real>)
    returns (result: seq<Transaction>)
    ensures forall t :: multiset(result)[t] == if Matches(filters, parse, t) then multiset(source)[t] else 0
    ensures multiset(result) <= multiset(source)
    ensures OrderedBy(result, EffectiveSortKey(filters), EffectiveSortOrder(filters))
  {
    var filtered := FilterByType(source, filters);
    var next := FilterByDates(filtered, filters);
    assert forall t :: (multiset(next)[t] ==
      if PassesType(filters, t) && PassesFrom(filters, t) && PassesTo(filters, t) then multiset(source)[t] else 0);
    filtered := FilterByAmounts(next, filters, parse);
    result := SortTransactions(filtered, EffectiveSortKey(filters), EffectiveSortOrder(filters));
    forall t ensures multiset(result)[t] <= multiset(source)[t] {
    }
  }

  /** The type step: only when a type other than 'all' is requested. */
  method FilterByType(s: seq<Transaction>, f: FilterOptions) returns (r: seq<Transaction>)
    ensures forall t :: multiset(r)[t] == if PassesType(f, t) then multiset(s)[t] else 0
  {
    r := s;
    if TypeFilterActive(f) {
      var want := f.typeFilter.value.t;
      r := Keep(r, (t: Transaction) => t.txType == want);
    }
  }

  /** The date steps: from the lower bound's instant up to the end of the
      upper bound's day. */
  method FilterByDates(s: seq<Transaction>, f: FilterOptions) returns (r: seq<Transaction>)
    ensures forall t :: multiset(r)[t] == if PassesFrom(f, t) && PassesTo(f, t) then multiset(s)[t] else 0
  {
    r := s;
    if f.fromDate.Some? {
      var from := MomentKey(f.fromDate.value);
      r := Keep(r, (t: Transaction) => MomentKey(Midnight(t.date)) >= from);
    }
    if f.toDate.Some? {
      var to := MomentKey(EndOfDay(f.toDate.value));
      r := Keep(r, (t: Transaction) => MomentKey(Midnight(t.date)) <= to);
    }
  }

  /** The amount steps: each bound applies when its text is not blank and
      parses to a number; both bounds are inclusive. */
  method FilterByAmounts(s: seq<Transaction>, f: FilterOptions, parse: string -> Option<real>)
    returns (r: seq<Transaction>)
    ensures forall t :: multiset(r)[t] == if PassesMin(f, parse, t) && PassesMax(f, parse, t) then multiset(s)[t] else 0
  {
    r := s;
    if AmountBoundActive(f.minAmount) {
      var min := parse(f.minAmount.value);
      if min.Some? {
        var lo := min.value;
        r := Keep(r, (t: Transaction) => t.amount >= lo);
      }
    }
    if AmountBoundActive(f.maxAmount) {
      var max := parse(f.maxAmount.value);
      if max.Some? {
        var hi := max.value;
        r := Keep(r, (t: Transaction) => t.amount <= hi);
      }
    }
  }

  /** The sort step: `'asc'` sorts ascending, any other order descending. */
  method SortTransactions(s: seq<Transaction>, k: SortKey, order: SortOrder) returns (r: seq<Transaction>)
    ensures multiset(r) == multiset(s)
    ensures OrderedBy(r, k, order)
  {
    var key := (t: Transaction) => SortValue(k, t);
    if order == Asc {
      r := SortBy(s, key);
    } else {
      r := SortDescBy(s, key);
    }
  }

  /** A transaction matching every active criterion is kept. */
  lemma MatchingIsKept(f: FilterOptions, parse: string -> Option<real>, source: seq<Transaction>,
                       result: seq<Transaction>, t: Transaction)
    requires forall x :: multiset(result)[x] == if Matches(f, parse, x) then multiset(source)[x] else 0
    requires t in source && Matches(f, parse, t)
    ensures t in result
  {
    assert multiset(source)[t] > 0;
    assert multiset(result)[t] > 0;
  }

  /** With type 'all' or no type, every type passes; otherwise only the
      requested one. */
  lemma TypeFilterMeaning(f: FilterOptions, t: Transaction)
    ensures f.typeFilter.None? || f.typeFilter == Some(AllTypes) ==> PassesType(f, t)
    ensures f.typeFilter == Some(OfType(Income)) ==> (PassesType(f, t) <==> t.txType == Income)
    ensures f.typeFilter == Some(OfType(Expense)) ==> (PassesType(f, t) <==> t.txType == Expense)
  {
  }

  /** The lower date bound is inclusive at the instant it names: a
      transaction dated on that day passes when the bound is midnight, and
      is dropped when the bound carries a later time of day. */
  lemma FromDateBound(f: FilterOptions, t: Transaction)
    requires f.fromDate.Some? && ValidMoment(f.fromDate.value) && ValidDate(t.date)
    requires f.fromDate.value.date == t.date
    ensures PassesFrom(f, t) <==> f.fromDate.value.msOfDay == 0
  {
    MomentKeyOrders(Midnight(t.date), f.fromDate.value);
    MomentKeyOrders(f.fromDate.value, Midnight(t.date));
  }

  /** The upper date bound covers the whole of its day: transactions
      dated on or before that day pass, later ones do not. */
  lemma ToDateBound(f: FilterOptions, t: Transaction)
    requires f.toDate.Some? && ValidMoment(f.toDate.value) && ValidDate(t.date)
    ensures PassesTo(f, t) <==> DateKey(t.date) <= DateKey(f.toDate.value.date)
  {
    var e := EndOfDay(f.toDate.value);
    assert ValidMoment(e) && ValidMoment(Midnight(t.date));
    MomentKeyOrders(Midnight(t.date), e);
    MomentKeyOrders(e, Midnight(t.date));
  }

  /** A blank or unparseable amount text imposes no bound. */
  lemma IgnoredAmountBounds(f: FilterOptions, parse: string -> Option<real>, t: Transaction)
    requires !AmountBoundActive(f.minAmount) || parse(f.minAmount.value).None?
    requires !AmountBoundActive(f.maxAmount) || parse(f.maxAmount.value).None?
    ensures PassesMin(f, parse, t) && PassesMax(f, parse, t)
  {
  }

  /** Without any filter options nothing is dropped and the order is by
      date, newest first. */
  lemma NoFiltersKeepAll(parse: string -> Option<real>, t: Transaction)
    ensures Matches(NoFilters, parse, t)
    ensures EffectiveSortKey(NoFilters) == ByDate && EffectiveSortOrder(NoFilters) == Desc
  {
  }

  /** The mock list is already in the default order (date descending). */
  lemma MockListInDefaultOrder()
    ensures OrderedBy(MockTransactions, ByDate, Desc)
  {
    forall i | 0 <= i < |MockTransactions|
      ensures SortValue(ByDate, MockTransactions[i]) == (((2024 * 13 + 1) * 32 + 20 - i) * MsPerDay) as real
    {
      assert MockTransactions[i].date == CivilDate(2024, 1, 20 - i);
    }
  }
}
