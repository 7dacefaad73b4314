/** The figures of the transaction analytics screen
    (app/components/index/TransactionAnalytics.tsx): the category name of a
    transaction, six monthly income/expense buckets ending with the current
    month, the expense breakdown by category (top five plus "Other"), and
    the balance and savings rate. */
module TransactionAnalytics {
  import opened ArrayOps
  import opened Transactions
  import opened JsValue

  /** `getCategoryName`: a missing or empty category is 'Uncategorized'. */
  function CategoryName(c: CategoryRef): (r: string)
    ensures r != ""
    ensures c.NoCategory? ==> r == "Uncategorized"
    ensures c.Named? && c.name != "" ==> r == c.name
    ensures c.Named? && c.name == "" ==> r == "Uncategorized"
    ensures c.CategoryObject? ==> r == if c.obj.name != "" then c.obj.name else "Uncategorized"
  {
    match c
    case NoCategory => "Uncategorized"
    case Named(name) => if name == "" then "Uncategorized" else name
    case CategoryObject(obj) => if obj.name == "" then "Uncategorized" else obj.name
  }

  function Amount(t: Transaction): real { t.amount }
  predicate IsIncome(t: Transaction) { t.txType == Income }
  predicate IsExpense(t: Transaction) { t.txType == Expense }

  // ---------------------------------------------------------------------
  // Monthly buckets

  /** Months counted from year 0: `new Date(y, m - i, 1)` is the month with
      index `y * 12 + (m - 1) - i`, whatever the sign of `m - 1 - i`. */
  function MonthIndex(d: CivilDate): int {
    d.year * 12 + (d.month - 1)
  }

  const ShortMonthNames: seq<string> :=
    ["Jan", "Feb", "Mar", "Apr", "May", "Jun", "Jul", "Aug", "Sep", "Oct", "Nov", "Dec"]

  /** `toLocaleString('default', { month: 'short' })` in an English locale. */
  function MonthName(index: int): string {
    ShortMonthNames[index % 12]
  }

  datatype MonthlyEntry = MonthlyEntry(month: string, income: real, expense: real)

  /** The test of `monthTransactions`: dated in the month with this index. */
  function MonthOf(index: int): Transaction -> bool {
    (t: Transaction) => MonthIndex(t.date) == index
  }

  function OfKind(kind: TxType): Transaction -> bool {
    (t: Transaction) => t.txType == kind
  }

  /** The transactions dated in the month with the given index. */
  function InMonth(txs: seq<Transaction>, index: int): seq<Transaction> {
    Keep(txs, MonthOf(index))
  }

  /** The amounts of the transactions of type `kind` dated in the month
      with the given index, summed in list order. */
  function MonthTotal(txs: seq<Transaction>, index: int, kind: TxType): real {
    if txs == [] then 0.0
    else
      (if MonthIndex(txs[0].date) == index && txs[0].txType == kind then txs[0].amount else 0.0)
      + MonthTotal(txs[1..], index, kind)
  }

  function MonthBucket(txs: seq<Transaction>, index: int): MonthlyEntry {
    MonthlyEntry(MonthName(index), MonthTotal(txs, index, Income), MonthTotal(txs, index, Expense))
  }

  /** A bucket total is what the component computes: the month's
      transactions, then those of the type, then the sum of their amounts. */
  lemma {:induction false} MonthTotalIsFilteredSum(txs: seq<Transaction>, index: int, kind: TxType)
    ensures MonthTotal(txs, index, kind) == SumBy(Keep(InMonth(txs, index), OfKind(kind)), Amount)
  {
    if txs != [] {
      MonthTotalIsFilteredSum(txs[1..], index, kind);
      var t := txs[0];
      var rest := InMonth(txs[1..], index);
      if MonthIndex(t.date) == index {
        var s := [t] + rest;
        assert InMonth(txs, index) == s;
        assert s[0] == t && s[1..] == rest;
        if t.txType == kind {
          var k := [t] + Keep(rest, OfKind(kind));
          assert Keep(s, OfKind(kind)) == k;
          assert k[0] == t && k[1..] == Keep(rest, OfKind(kind));
        } else {
          assert Keep(s, OfKind(kind)) == Keep(rest, OfKind(kind));
        }
      } else {
        assert InMonth(txs, index) == rest;
      }
    }
  }

  /** `f` at the `n` indices from `base` on, in order. */
  function Tabulate<T>(f: int -> T, base: int, n: nat): (r: seq<T>)
    ensures |r| == n
  {
    if n == 0 then [] else Tabulate(f, base, n - 1) + [f(base + n - 1)]
  }

  lemma {:induction false} TabulateAt<T>(f: int -> T, base: int, n: nat, k: int)
    requires 0 <= k < n
    ensures Tabulate(f, base, n)[k] == f(base + k)
  {
    if k < n - 1 {
      TabulateAt(f, base, n - 1, k);
    }
  }

  function BucketOf(txs: seq<Transaction>): int -> MonthlyEntry {
    (index: int) => MonthBucket(txs, index)
  }

  /** The six buckets from five months before `today` up to its month. */
  function MonthlyData(txs: seq<Transaction>, today: CivilDate): (r: seq<MonthlyEntry>)
    ensures |r| == 6
  {
    Tabulate(BucketOf(txs), MonthIndex(today) - 5, 6)
  }

  /** Six buckets, oldest first: bucket `k` is the month `5 - k` months
      before the current one. */
  lemma MonthlyDataBuckets(txs: seq<Transaction>, today: CivilDate, k: int)
    requires 0 <= k < 6
    ensures |MonthlyData(txs, today)| == 6
    ensures MonthlyData(txs, today)[k] == MonthBucket(txs, MonthIndex(today) - 5 + k)
  {
    TabulateAt(BucketOf(txs), MonthIndex(today) - 5, 6, k);
  }

  /** `getMonthlyData()`, with `today` the current date: the loop runs `i`
      from 5 down to 0 and appends the bucket of the month `i` months back. */
  method GetMonthlyData(txs: seq<Transaction>, today: CivilDate) returns (data: seq<MonthlyEntry>)
    ensures data == MonthlyData(txs, today)
  {
    data := [];
    var i := 5;
    while i >= 0
      invariant -1 <= i <= 5
      invariant data == Tabulate(BucketOf(txs), MonthIndex(today) - 5, 5 - i)
    {
      data := data + [MonthBucket(txs, MonthIndex(today) - i)];
      i := i - 1;
    }
  }

  /** The month index of a valid date gives back its year and month. */
  lemma MonthIndexRoundTrip(d: CivilDate)
    requires ValidDate(d)
    ensures MonthIndex(d) / 12 == d.year && MonthIndex(d) % 12 == d.month - 1
  {
  }

  /** The last bucket is named after the current month. */
  lemma LastBucketIsThisMonth(today: CivilDate)
    requires ValidDate(today)
    ensures MonthName(MonthIndex(today)) == ShortMonthNames[today.month - 1]
  {
    MonthIndexRoundTrip(today);
  }

  lemma {:induction false} NoneInMonth(txs: seq<Transaction>, index: int, kind: TxType)
    requires forall i :: 0 <= i < |txs| ==> MonthIndex(txs[i].date) != index
    ensures MonthTotal(txs, index, kind) == 0.0
  {
    if txs != [] {
      assert forall i :: 0 <= i < |txs[1..]| ==> txs[1..][i] == txs[i + 1];
      NoneInMonth(txs[1..], index, kind);
    }
  }

  /** A month without transactions reports 0 income and 0 expense. */
  lemma EmptyMonth(txs: seq<Transaction>, index: int)
    requires forall i :: 0 <= i < |txs| ==> MonthIndex(txs[i].date) != index
    ensures MonthBucket(txs, index).income == 0.0 && MonthBucket(txs, index).expense == 0.0
  {
    NoneInMonth(txs, index, Income);
    NoneInMonth(txs, index, Expense);
  }

  lemma {:induction false} KeepSplitsSum<T(!new)>(s: seq<T>, p: T -> bool, q: T -> bool, f: T -> real)
    requires forall x :: p(x) != q(x)
    ensures SumBy(Keep(s, p), f) + SumBy(Keep(s, q), f) == SumBy(s, f)
  {
    if s != [] {
      KeepSplitsSum(s[1..], p, q, f);
      var a := if p(s[0]) then [s[0]] else [];
      var b := if q(s[0]) then [s[0]] else [];
      SumByAppend(a, Keep(s[1..], p), f);
      SumByAppend(b, Keep(s[1..], q), f);
      assert a == [] ==> SumBy(a, f) == 0.0;
      assert b == [] ==> SumBy(b, f) == 0.0;
      assert a != [] ==> SumBy(a, f) == f(s[0]) + SumBy(a[1..], f);
      assert b != [] ==> SumBy(b, f) == f(s[0]) + SumBy(b[1..], f);
    }
  }

  /** A bucket's income and expense together are the amounts of every
      transaction dated in that month. */
  lemma BucketAccountsForMonth(txs: seq<Transaction>, index: int)
    ensures MonthBucket(txs, index).income + MonthBucket(txs, index).expense == SumBy(InMonth(txs, index), Amount)
  {
    MonthTotalIsFilteredSum(txs, index, Income);
    MonthTotalIsFilteredSum(txs, index, Expense);
    KeepSplitsSum(InMonth(txs, index), OfKind(Income), OfKind(Expense), Amount);
  }

  // ---------------------------------------------------------------------
  // Category breakdown

  /** One entry of `expensesByCategory` (later one pie slice). */
  datatype CategoryAmount = CategoryAmount(name: string, amount: real)

  function EntryAmount(e: CategoryAmount): real { e.amount }

  function Names(acc: seq<CategoryAmount>): set<string> {
    if acc == [] then {} else {acc[0].name} + Names(acc[1..])
  }

  lemma {:induction false} InNames(acc: seq<CategoryAmount>, n: string)
    ensures n in Names(acc) <==> exists i | 0 <= i < |acc| :: acc[i].name == n
  {
    if acc != [] {
      InNames(acc[1..], n);
      if n in Names(acc[1..]) {
        var i :| 0 <= i < |acc[1..]| && acc[1..][i].name == n;
        assert acc[i + 1].name == n;
      }
      if exists i | 0 <= i < |acc| :: acc[i].name == n {
        var i :| 0 <= i < |acc| && acc[i].name == n;
        if i > 0 {
          assert acc[1..][i - 1].name == n;
        }
      }
    }
  }

  /** No name is recorded twice, as in a dictionary. */
  predicate DistinctNames(acc: seq<CategoryAmount>) {
    forall i, j :: 0 <= i < j < |acc| ==> acc[i].name != acc[j].name
  }

  /** The amount recorded for `name`, 0 when there is none. */
  function Lookup(acc: seq<CategoryAmount>, name: string): real {
    if acc == [] then 0.0
    else if acc[0].name == name then acc[0].amount
    else Lookup(acc[1..], name)
  }

  /** One step of the `forEach`: add the amount to the transaction's
      category, creating the entry at the end when the name is new. */
  function Accumulate(acc: seq<CategoryAmount>, name: string, amount: real): (r: seq<CategoryAmount>)
    ensures |r| == if name in Names(acc) then |acc| else |acc| + 1
    ensures Names(r) == Names(acc) + {name}
  {
    if acc == [] then [CategoryAmount(name, amount)]
    else if acc[0].name == name then [CategoryAmount(name, acc[0].amount + amount)] + acc[1..]
    else
      var rest := Accumulate(acc[1..], name, amount);
      assert ([acc[0]] + rest)[1..] == rest;
      [acc[0]] + rest
  }

  /** The whole `forEach` over the expenses, starting from `acc`. */
  function AccumulateAll(acc: seq<CategoryAmount>, expenses: seq<Transaction>): seq<CategoryAmount>
    decreases |expenses|
  {
    if expenses == [] then acc
    else AccumulateAll(Accumulate(acc, CategoryName(expenses[0].category), expenses[0].amount), expenses[1..])
  }

  function CategoryTotals(txs: seq<Transaction>): (r: seq<CategoryAmount>)
    ensures DistinctNames(r)
    ensures SumBy(r, EntryAmount) == SumBy(Keep(txs, IsExpense), Amount)
  {
    AccumulateAllFacts([], Keep(txs, IsExpense), "");
    AccumulateAll([], Keep(txs, IsExpense))
  }

  lemma {:induction false} AccumulateDistinct(acc: seq<CategoryAmount>, name: string, amount: real)
    requires DistinctNames(acc)
    ensures DistinctNames(Accumulate(acc, name, amount))
  {
    if acc != [] && acc[0].name != name {
      AccumulateDistinct(acc[1..], name, amount);
      var rest := Accumulate(acc[1..], name, amount);
      InNames(acc[1..], acc[0].name);
      assert acc[0].name !in Names(acc[1..]);
      assert acc[0].name !in Names(rest);
      InNames(rest, acc[0].name);
      var r := [acc[0]] + rest;
      forall i, j | 0 <= i < j < |r| ensures r[i].name != r[j].name {
        if i == 0 {
          assert r[j] == rest[j - 1];
        } else {
          assert r[i] == rest[i - 1] && r[j] == rest[j - 1];
        }
      }
    } else if acc != [] {
      var r := Accumulate(acc, name, amount);
      assert forall k :: 1 <= k < |acc| ==> r[k] == acc[k];
    }
  }

  lemma {:induction false} AccumulateLookup(acc: seq<CategoryAmount>, name: string, amount: real, n: string)
    ensures Lookup(Accumulate(acc, name, amount), n) == Lookup(acc, n) + (if n == name then amount else 0.0)
  {
    if acc != [] && acc[0].name != name {
      AccumulateLookup(acc[1..], name, amount, n);
      var r := Accumulate(acc, name, amount);
      assert r[1..] == Accumulate(acc[1..], name, amount);
    } else if acc != [] {
      var r := Accumulate(acc, name, amount);
      assert r[1..] == acc[1..];
    }
  }

  lemma {:induction false} AccumulateSum(acc: seq<CategoryAmount>, name: string, amount: real)
    ensures SumBy(Accumulate(acc, name, amount), EntryAmount) == SumBy(acc, EntryAmount) + amount
  {
    if acc != [] && acc[0].name != name {
      AccumulateSum(acc[1..], name, amount);
      var r := Accumulate(acc, name, amount);
      assert r[1..] == Accumulate(acc[1..], name, amount);
    } else if acc != [] {
      var r := Accumulate(acc, name, amount);
      assert r[1..] == acc[1..];
    }
  }

  /** The amounts of the transactions whose category name is `n`. */
  function NamedTotal(expenses: seq<Transaction>, n: string): real {
    if expenses == [] then 0.0
    else (if CategoryName(expenses[0].category) == n then expenses[0].amount else 0.0) + NamedTotal(expenses[1..], n)
  }

  lemma {:induction false} AccumulateAllFacts(acc: seq<CategoryAmount>, expenses: seq<Transaction>, n: string)
    requires DistinctNames(acc)
    ensures DistinctNames(AccumulateAll(acc, expenses))
    ensures Lookup(AccumulateAll(acc, expenses), n) == Lookup(acc, n) + NamedTotal(expenses, n)
    ensures SumBy(AccumulateAll(acc, expenses), EntryAmount) == SumBy(acc, EntryAmount) + SumBy(expenses, Amount)
    decreases |expenses|
  {
    if expenses != [] {
      var t := expenses[0];
      var next := Accumulate(acc, CategoryName(t.category), t.amount);
      AccumulateDistinct(acc, CategoryName(t.category), t.amount);
      AccumulateLookup(acc, CategoryName(t.category), t.amount, n);
      AccumulateSum(acc, CategoryName(t.category), t.amount);
      AccumulateAllFacts(next, expenses[1..], n);
    }
  }

  /** The loop adds the category name of every expense, and no other. */
  lemma {:induction false} AccumulateAllNames(acc: seq<CategoryAmount>, expenses: seq<Transaction>)
    ensures Names(AccumulateAll(acc, expenses)) == Names(acc) + set t | t in expenses :: CategoryName(t.category)
    decreases |expenses|
  {
    if expenses != [] {
      var t := expenses[0];
      var next := Accumulate(acc, CategoryName(t.category), t.amount);
      AccumulateAllNames(next, expenses[1..]);
      var here := set u | u in expenses :: CategoryName(u.category);
      var later := set u | u in expenses[1..] :: CategoryName(u.category);
      assert here == {CategoryName(t.category)} + later by {
        forall x | x in here ensures x in {CategoryName(t.category)} + later {
          var u :| u in expenses && CategoryName(u.category) == x;
          if u != t {
            assert u in expenses[1..];
          }
        }
      }
    }
  }

  /** The dictionary holds each category once, exactly the categories of
      the expenses, with the sum of that category's expense amounts; all
      its amounts together are the total of the expenses. */
  lemma CategoryTotalsMeaning(txs: seq<Transaction>, n: string)
    ensures DistinctNames(CategoryTotals(txs))
    ensures Names(CategoryTotals(txs)) == set t | t in Keep(txs, IsExpense) :: CategoryName(t.category)
    ensures Lookup(CategoryTotals(txs), n) == NamedTotal(Keep(txs, IsExpense), n)
    ensures SumBy(CategoryTotals(txs), EntryAmount) == SumBy(Keep(txs, IsExpense), Amount)
  {
    AccumulateAllFacts([], Keep(txs, IsExpense), n);
    AccumulateAllNames([], Keep(txs, IsExpense));
  }

  // ---------------------------------------------------------------------
  // The dictionary as written: a plain `{}`

  /** The names that a plain object literal inherits from
      `Object.prototype`. */
  predicate ProtoMember(name: string) {
    name in {"constructor", "hasOwnProperty", "isPrototypeOf", "propertyIsEnumerable", "toLocaleString",
             "toString", "valueOf", "__defineGetter__", "__defineSetter__", "__lookupGetter__",
             "__lookupSetter__", "__proto__"}
  }

  /** What an own property of the dictionary holds: a number, or a string
      (an inherited function's text with amounts appended) whose
      `Number(...)` is NaN. */
  datatype Slot = Sum(value: real) | NotANumber

  datatype DictEntry = DictEntry(name: string, slot: Slot)

  function DictNames(d: seq<DictEntry>): set<string> {
    if d == [] then {} else {d[0].name} + DictNames(d[1..])
  }

  /** One step of the `forEach` on a plain `{}`. An own entry is updated.
      A new name inherited from `Object.prototype` reads as a function,
      which is truthy, so it is not set to 0 and `+=` stores the
      function's text followed by the amount; for `__proto__` that store
      is ignored. Any other new name starts at 0. */
  function AccumulateAsWritten(d: seq<DictEntry>, name: string, amount: real): (r: seq<DictEntry>)
    ensures name == "__proto__" ==> r == d
    ensures name != "__proto__" ==> DictNames(r) == DictNames(d) + {name}
    ensures name != "__proto__" ==> |r| == if name in DictNames(d) then |d| else |d| + 1
  {
    if name == "__proto__" then d
    else if d == [] then [DictEntry(name, if ProtoMember(name) then NotANumber else Sum(amount))]
    else if d[0].name == name then
      [DictEntry(name, if d[0].slot.Sum? then Sum(d[0].slot.value + amount) else NotANumber)] + d[1..]
    else
      var rest := AccumulateAsWritten(d[1..], name, amount);
      assert ([d[0]] + rest)[1..] == rest;
      [d[0]] + rest
  }

  function AccumulateAllAsWritten(d: seq<DictEntry>, expenses: seq<Transaction>): seq<DictEntry>
    decreases |expenses|
  {
    if expenses == [] then d
    else AccumulateAllAsWritten(AccumulateAsWritten(d, CategoryName(expenses[0].category), expenses[0].amount),
                                expenses[1..])
  }

  /** The numeric dictionary seen as own properties. */
  function AsDict(acc: seq<CategoryAmount>): (r: seq<DictEntry>)
    ensures |r| == |acc|
    ensures forall i :: 0 <= i < |acc| ==> r[i] == DictEntry(acc[i].name, Sum(acc[i].amount))
  {
    if acc == [] then [] else [DictEntry(acc[0].name, Sum(acc[0].amount))] + AsDict(acc[1..])
  }

  /** No category name of the expenses is inherited from
      `Object.prototype`. */
  predicate OwnNamesOnly(expenses: seq<Transaction>) {
    forall t :: t in expenses ==> !ProtoMember(CategoryName(t.category))
  }

  lemma {:induction false} AccumulateAsWrittenAgrees(acc: seq<CategoryAmount>, name: string, amount: real)
    requires !ProtoMember(name)
    ensures AccumulateAsWritten(AsDict(acc), name, amount) == AsDict(Accumulate(acc, name, amount))
  {
    if acc != [] && acc[0].name != name {
      AccumulateAsWrittenAgrees(acc[1..], name, amount);
      assert AsDict(acc)[1..] == AsDict(acc[1..]);
      assert Accumulate(acc, name, amount)[1..] == Accumulate(acc[1..], name, amount);
      assert AsDict(Accumulate(acc, name, amount))[1..] == AsDict(Accumulate(acc, name, amount)[1..]);
    } else if acc != [] {
      assert AsDict(acc)[1..] == AsDict(acc[1..]);
      assert AsDict(Accumulate(acc, name, amount))[1..] == AsDict(Accumulate(acc, name, amount)[1..]);
    }
  }

  /** While no category name is inherited, the plain `{}` holds exactly
      the numeric dictionary the rest of the breakdown is built on. */
  lemma {:induction false} AccumulateAllAsWrittenAgrees(acc: seq<CategoryAmount>, expenses: seq<Transaction>)
    requires OwnNamesOnly(expenses)
    ensures AccumulateAllAsWritten(AsDict(acc), expenses) == AsDict(AccumulateAll(acc, expenses))
    decreases |expenses|
  {
    if expenses != [] {
      var t := expenses[0];
      AccumulateAsWrittenAgrees(acc, CategoryName(t.category), t.amount);
      assert forall u :: u in expenses[1..] ==> u in expenses;
      AccumulateAllAsWrittenAgrees(Accumulate(acc, CategoryName(t.category), t.amount), expenses[1..]);
    }
  }

  /** An expense in a category named 'toString' gets an entry whose
      amount is NaN; one in a category named '__proto__' gets none, so its
      amount is missing from the breakdown. */
  lemma InheritedNamesGarbled(toString: Transaction, proto: Transaction)
    requires CategoryName(toString.category) == "toString"
    requires CategoryName(proto.category) == "__proto__"
    ensures AccumulateAllAsWritten([], [toString]) == [DictEntry("toString", NotANumber)]
    ensures AccumulateAllAsWritten([], [proto]) == []
    ensures AccumulateAll([], [toString]) == [CategoryAmount("toString", toString.amount)]
  {
    assert ProtoMember("toString");
    assert [toString][1..] == [] && [proto][1..] == [];
  }

  // ---------------------------------------------------------------------
  // `Object.entries` of the dictionary

  predicate IsIndexEntry(e: CategoryAmount) { IsIndexName(e.name) }

  predicate IsOtherEntry(e: CategoryAmount) { !IsIndexName(e.name) }

  function IndexValue(e: CategoryAmount): real {
    if IsIndexName(e.name) then DigitsValue(e.name) as real else 0.0
  }

  /** `Object.entries(expensesByCategory)`: the names that are array
      indices come first, in ascending numeric order, then the other names
      in the order they were added (section 10.1.11.1 of ECMAScript 2023,
      OrdinaryOwnPropertyKeys). */
  function ObjectEntries(acc: seq<CategoryAmount>): (r: seq<CategoryAmount>)
    ensures multiset(r) == multiset(acc)
    ensures |r| == |acc|
  {
    KeepPartition(acc, IsIndexEntry, IsOtherEntry);
    SortBy(Keep(acc, IsIndexEntry), IndexValue) + Keep(acc, IsOtherEntry)
  }

  /** Every index name comes before every other name, and the index names
      are in ascending numeric order. */
  lemma ObjectEntriesOrder(acc: seq<CategoryAmount>, i: int, j: int)
    requires 0 <= i < j < |ObjectEntries(acc)|
    ensures IsOtherEntry(ObjectEntries(acc)[i]) ==> IsOtherEntry(ObjectEntries(acc)[j])
    ensures IsIndexEntry(ObjectEntries(acc)[j]) ==> IndexValue(ObjectEntries(acc)[i]) <= IndexValue(ObjectEntries(acc)[j])
  {
    var front := SortBy(Keep(acc, IsIndexEntry), IndexValue);
    var back := Keep(acc, IsOtherEntry);
    var r := ObjectEntries(acc);
    assert r == front + back;
    if j < |front| {
      assert r[i] == front[i] && r[j] == front[j];
    } else if i >= |front| {
      assert r[i] == back[i - |front|] && r[j] == back[j - |front|];
      assert r[j] in back;
    } else {
      assert r[i] == front[i] && r[j] == back[j - |front|];
      assert r[i] in front && r[j] in back;
      SortByMembers(Keep(acc, IsIndexEntry), IndexValue, r[i]);
    }
  }

  /** Without index names the entries keep the insertion order. */
  lemma ObjectEntriesWithoutIndexNames(acc: seq<CategoryAmount>)
    requires forall i :: 0 <= i < |acc| ==> !IsIndexName(acc[i].name)
    ensures ObjectEntries(acc) == acc
  {
    KeepAll(acc, IsOtherEntry);
    KeepPartition(acc, IsIndexEntry, IsOtherEntry);
    assert |multiset(Keep(acc, IsIndexEntry))| == 0;
  }

  /** A name that is an array index, added after one that is not, is
      listed before it. */
  lemma IndexNameListedFirst(other: CategoryAmount, index: CategoryAmount)
    requires !IsIndexName(other.name) && IsIndexName(index.name)
    ensures ObjectEntries([other, index]) == [index, other]
  {
    KeepPair(other, index, IsIndexEntry);
    KeepPair(other, index, IsOtherEntry);
    SortBySingle(index, IndexValue);
  }

  /** Concretely: 'Food' is not an index and '7' is, so a '7' category
      added after 'Food' comes first. */
  lemma SampleNames()
    ensures !IsIndexName("Food") && IsIndexName("7")
  {
    assert "Food"[0] == 'F';
    assert "7"[..0] == [];
    assert DigitsValue("7") == 7;
  }

  lemma ObjectEntriesSum(acc: seq<CategoryAmount>)
    ensures SumBy(ObjectEntries(acc), EntryAmount) == SumBy(acc, EntryAmount)
  {
    var front := Keep(acc, IsIndexEntry);
    var back := Keep(acc, IsOtherEntry);
    SortPreservesSum(front, IndexValue, EntryAmount);
    SumByAppend(SortBy(front, IndexValue), back, EntryAmount);
    KeepSplitsSum(acc, IsIndexEntry, IsOtherEntry, EntryAmount);
  }

  /** Sorted descending, the top five, and 'Other' with the sum of the
      rest when there are more than five categories. */
  function TopFiveAndOther(sorted: seq<CategoryAmount>): (r: seq<CategoryAmount>)
    ensures |sorted| <= 5 ==> r == sorted
    ensures |sorted| > 5 ==> r == sorted[..5] + [CategoryAmount("Other", SumBy(sorted[5..], EntryAmount))]
  {
    if |sorted| > 5 then sorted[..5] + [CategoryAmount("Other", SumBy(sorted[5..], EntryAmount))] else sorted
  }

  /** At most six entries, and the same total as before the grouping. */
  lemma TopFiveAndOtherFacts(sorted: seq<CategoryAmount>)
    ensures |TopFiveAndOther(sorted)| <= 6
    ensures |TopFiveAndOther(sorted)| == 6 <==> |sorted| > 5
    ensures SumBy(TopFiveAndOther(sorted), EntryAmount) == SumBy(sorted, EntryAmount)
  {
    if |sorted| > 5 {
      var other := [CategoryAmount("Other", SumBy(sorted[5..], EntryAmount))];
      SumByAppend(sorted[..5], other, EntryAmount);
      assert sorted == sorted[..5] + sorted[5..];
      SumByAppend(sorted[..5], sorted[5..], EntryAmount);
      assert other[1..] == [];
    }
  }

  const ChartColors: seq<string> := ["#4CAF50", "#2196F3", "#FFC107", "#9C27B0", "#FF5722", "#607D8B"]

  datatype PieSlice = PieSlice(name: string, amount: real, color: string, legendFontColor: string, legendFontSize: int)

  function SliceAmount(s: PieSlice): real { s.amount }

  function Slice(e: CategoryAmount, index: nat, isDark: bool): PieSlice {
    PieSlice(e.name, e.amount, ChartColors[index % |ChartColors|], if isDark then "#FFFFFF" else "#000000", 12)
  }

  /** The `map` that formats the slices for the pie chart, for entries
      starting at position `start`. */
  function PieSlicesFrom(entries: seq<CategoryAmount>, start: nat, isDark: bool): (r: seq<PieSlice>)
    ensures |r| == |entries|
    ensures forall i :: 0 <= i < |r| ==> r[i] == Slice(entries[i], start + i, isDark)
  {
    if entries == [] then []
    else [Slice(entries[0], start, isDark)] + PieSlicesFrom(entries[1..], start + 1, isDark)
  }

  function PieSlices(entries: seq<CategoryAmount>, isDark: bool): seq<PieSlice> {
    PieSlicesFrom(entries, 0, isDark)
  }

  /** Slice `i` shows entry `i` in colour `i mod 6`. */
  lemma PieSliceColours(entries: seq<CategoryAmount>, isDark: bool, i: int)
    requires 0 <= i < |entries|
    ensures PieSlices(entries, isDark)[i].name == entries[i].name
    ensures PieSlices(entries, isDark)[i].amount == entries[i].amount
    ensures PieSlices(entries, isDark)[i].color == ChartColors[i % 6]
  {
  }

  lemma {:induction false} PieSlicesSum(entries: seq<CategoryAmount>, start: nat, isDark: bool)
    ensures SumBy(PieSlicesFrom(entries, start, isDark), SliceAmount) == SumBy(entries, EntryAmount)
  {
    if entries != [] {
      PieSlicesSum(entries[1..], start + 1, isDark);
      assert PieSlicesFrom(entries, start, isDark)[1..] == PieSlicesFrom(entries[1..], start + 1, isDark);
    }
  }

  /** The breakdown the method below computes. */
  function CategoryBreakdown(txs: seq<Transaction>, isDark: bool): (r: seq<PieSlice>)
    ensures |r| <= 6
  {
    TopFiveAndOtherFacts(SortDescBy(ObjectEntries(CategoryTotals(txs)), EntryAmount));
    PieSlices(TopFiveAndOther(SortDescBy(ObjectEntries(CategoryTotals(txs)), EntryAmount)), isDark)
  }

  /** At most six slices, and together they are the total spending. */
  lemma CategoryBreakdownFacts(txs: seq<Transaction>, isDark: bool)
    ensures |CategoryBreakdown(txs, isDark)| <= 6
    ensures SumBy(CategoryBreakdown(txs, isDark), SliceAmount) == SumBy(Keep(txs, IsExpense), Amount)
  {
    var totals := CategoryTotals(txs);
    var sorted := SortDescBy(ObjectEntries(totals), EntryAmount);
    TopFiveAndOtherFacts(sorted);
    CategoryTotalsMeaning(txs, "");
    ObjectEntriesSum(totals);
    SortDescPreservesSum(ObjectEntries(totals), EntryAmount, EntryAmount);
    PieSlicesSum(TopFiveAndOther(sorted), 0, isDark);
  }

  /** The `forEach` loop of `getCategoryBreakdown()`, which fills the
      dictionary from the expenses in list order. */
  method CollectByCategory(expenses: seq<Transaction>) returns (byCategory: seq<CategoryAmount>)
    ensures byCategory == AccumulateAll([], expenses)
  {
    byCategory := [];
    var i := 0;
    while i < |expenses|
      invariant 0 <= i <= |expenses|
      invariant AccumulateAll(byCategory, expenses[i..]) == AccumulateAll([], expenses)
    {
      assert expenses[i..][1..] == expenses[i + 1..];
      byCategory := Accumulate(byCategory, CategoryName(expenses[i].category), expenses[i].amount);
      i := i + 1;
    }
    assert expenses[i..] == [];
  }

  /** The rest of `getCategoryBreakdown()`: the dictionary's entries are
      sorted, cut to five entries with 'Other' pushed when more categories
      exist, and coloured by position. */
  method FormatBreakdown(byCategory: seq<CategoryAmount>, isDark: bool) returns (slices: seq<PieSlice>)
    ensures slices == PieSlices(TopFiveAndOther(SortDescBy(ObjectEntries(byCategory), EntryAmount)), isDark)
  {
    var categoryData := SortDescBy(ObjectEntries(byCategory), EntryAmount);
    var top := GroupTopFive(categoryData);
    slices := PieSlices(top, isDark);
  }

  /** `slice(0, 5)`, then the pushed 'Other' entry when there are more
      than five categories. */
  method GroupTopFive(categoryData: seq<CategoryAmount>) returns (top: seq<CategoryAmount>)
    ensures top == TopFiveAndOther(categoryData)
  {
    top := if |categoryData| < 5 then categoryData else categoryData[..5];
    if |categoryData| > 5 {
      var otherAmount := SumBy(categoryData[5..], EntryAmount);
      top := top + [CategoryAmount("Other", otherAmount)];
    } else {
      assert |categoryData| == 5 ==> categoryData[..5] == categoryData;
    }
  }

  /** `getCategoryBreakdown()`: the dictionary of the expenses, formatted. */
  method GetCategoryBreakdown(txs: seq<Transaction>, isDark: bool) returns (slices: seq<PieSlice>)
    ensures slices == CategoryBreakdown(txs, isDark)
  {
    var byCategory := CollectByCategory(Keep(txs, IsExpense));
    slices := FormatBreakdown(byCategory, isDark);
  }

  /** The first five slices are the largest categories, largest first. */
  lemma TopSlicesLargestFirst(sorted: seq<CategoryAmount>, i: int, j: int)
    requires SortedDesc(sorted, EntryAmount)
    requires 0 <= i < j < |sorted| && i < 5
    ensures TopFiveAndOther(sorted)[i].amount >= sorted[j].amount
  {
  }

  // ---------------------------------------------------------------------
  // Balance and savings rate

  function Balance(totalIncome: real, totalExpenses: real): real {
    totalIncome - totalExpenses
  }

  /** `totalIncome > 0 ? (balance / totalIncome) * 100 : 0`. */
  function SavingsRate(totalIncome: real, totalExpenses: real): (r: real)
    ensures totalIncome <= 0.0 ==> r == 0.0
    ensures totalIncome > 0.0 ==> r * totalIncome == Balance(totalIncome, totalExpenses) * 100.0
  {
    if totalIncome > 0.0 then Balance(totalIncome, totalExpenses) / totalIncome * 100.0 else 0.0
  }

  lemma DivisionFacts(a: real, d: real)
    requires d > 0.0
    ensures a / d * 100.0 < 0.0 <==> a < 0.0
    ensures a / d * 100.0 <= 100.0 <==> a <= d
    ensures a / d * 100.0 == 100.0 <==> a == d
  {
    var x := a / d;
    assert x * d == a;
    if x < 0.0 { assert x * d < 0.0; }
    if x > 1.0 { assert (x - 1.0) * d > 0.0; }
    if x < 1.0 { assert (1.0 - x) * d > 0.0; }
  }

  /** The rate is 0 without income; otherwise its sign is the balance's,
      it is 100 exactly when nothing was spent, and it never exceeds 100
      while expenses are not negative. */
  lemma SavingsRateMeaning(totalIncome: real, totalExpenses: real)
    ensures totalIncome <= 0.0 ==> SavingsRate(totalIncome, totalExpenses) == 0.0
    ensures totalIncome > 0.0 ==>
      (SavingsRate(totalIncome, totalExpenses) < 0.0 <==> totalExpenses > totalIncome)
    ensures totalIncome > 0.0 && totalExpenses >= 0.0 ==> SavingsRate(totalIncome, totalExpenses) <= 100.0
    ensures totalIncome > 0.0 ==> (SavingsRate(totalIncome, totalExpenses) == 100.0 <==> totalExpenses == 0.0)
  {
    if totalIncome > 0.0 {
      DivisionFacts(Balance(totalIncome, totalExpenses), totalIncome);
    }
  }
}
