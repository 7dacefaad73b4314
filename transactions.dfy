/** The transaction entities shared by the services and components
    (types/transaction.ts), with calendar dates in place of JavaScript
    `Date` objects. */
module Transactions {
  import opened JsValue

  datatype TxType = Income | Expense

  /** A calendar date; `month` is 1-based. */
  datatype CivilDate = CivilDate(year: int, month: int, day: int)

  ghost predicate ValidDate(d: CivilDate) {
    1 <= d.month <= 12 && 1 <= d.day <= 31
  }

  const MsPerDay: int := 86400000

  /** An instant: a calendar date and the milliseconds elapsed since its
      midnight. Time zones are not modelled: every instant is read in the
      same zone in which date-only strings are parsed. */
  datatype Moment = Moment(date: CivilDate, msOfDay: int)

  ghost predicate ValidMoment(m: Moment) {
    ValidDate(m.date) && 0 <= m.msOfDay < MsPerDay
  }

  /** A date-only string such as '2024-01-20' denotes midnight of that day. */
  function Midnight(d: CivilDate): Moment {
    Moment(d, 0)
  }

  /** A number that orders valid instants as `getTime()` does. */
  function MomentKey(m: Moment): int {
    ((m.date.year * 13 + m.date.month) * 32 + m.date.day) * MsPerDay + m.msOfDay
  }

  function DateKey(d: CivilDate): int {
    (d.year * 13 + d.month) * 32 + d.day
  }

  lemma MomentKeySplit(m: Moment)
    ensures MomentKey(m) == DateKey(m.date) * MsPerDay + m.msOfDay
  {
  }

  /** Instants on different days are ordered by their day, whatever their
      time of day; instants on the same day by their time of day. */
  lemma MomentKeyOrders(a: Moment, b: Moment)
    requires ValidMoment(a) && ValidMoment(b)
    ensures DateKey(a.date) < DateKey(b.date) ==> MomentKey(a) < MomentKey(b)
    ensures DateKey(a.date) == DateKey(b.date) ==> (MomentKey(a) <= MomentKey(b) <==> a.msOfDay <= b.msOfDay)
  {
    MomentKeySplit(a);
    MomentKeySplit(b);
    if DateKey(a.date) < DateKey(b.date) {
      assert DateKey(a.date) * MsPerDay + MsPerDay <= DateKey(b.date) * MsPerDay;
    }
  }

  /** Date keys order valid dates lexicographically by year, month, day. */
  lemma DateKeyOrders(a: CivilDate, b: CivilDate)
    requires ValidDate(a) && ValidDate(b)
    ensures DateKey(a) < DateKey(b) <==>
      a.year < b.year || (a.year == b.year && (a.month < b.month || (a.month == b.month && a.day < b.day)))
  {
  }

  /** A category as the API returns it (only the fields the client reads). */
  datatype Category = Category(id: int, name: string)

  /** `category?: Category | string`. */
  datatype CategoryRef = NoCategory | Named(name: string) | CategoryObject(obj: Category)

  /** A transaction with its amount already a number. */
  datatype Transaction = Transaction(
    id: string,
    date: CivilDate,
    amount: real,
    category: CategoryRef,
    description: string,
    txType: TxType)

  datatype TypeFilter = AllTypes | OfType(t: TxType)
  datatype SortKey = ByDate | ByAmount
  datatype SortOrder = Asc | Desc

  /** `FilterOptions`: every field may be absent; a `null` date is absent. */
  datatype FilterOptions = FilterOptions(
    typeFilter: Option<TypeFilter>,
    sortBy: Option<SortKey>,
    sortOrder: Option<SortOrder>,
    fromDate: Option<Moment>,
    toDate: Option<Moment>,
    minAmount: Option<string>,
    maxAmount: Option<string>,
    category: Option<string>)

  const NoFilters: FilterOptions :=
    FilterOptions(None, None, None, None, None, None, None, None)

  /** `filters.type && filters.type !== 'all'`. */
  predicate TypeFilterActive(f: FilterOptions) {
    f.typeFilter.Some? && f.typeFilter.value.OfType?
  }

  /** `s && s.trim() !== ''` for an optional amount text. */
  predicate AmountBoundActive(s: Option<string>) {
    s.Some? && s.value != "" && !IsBlank(s.value)
  }

  /** `s` left-padded with zeros to `width` characters. */
  function PadZeros(s: string, width: nat): (r: string)
    ensures |r| == if |s| >= width then |s| else width
    ensures r[|r| - |s|..] == s
    decreases width - |s|
  {
    if |s| >= width then s
    else
      var r := PadZeros("0" + s, width);
      assert r[|r| - |s|..] == (r[|r| - |s| - 1..])[1..];
      r
  }

  /** The date part of `toISOString()`: four-digit years from 0 to 9999,
      a sign and six digits outside that range (the extended years of
      section 21.4.1.32 of ECMAScript); two-digit month and day. */
  function IsoDate(d: CivilDate): (r: string)
    ensures |r| >= 10
    ensures ValidDate(d) && 0 <= d.year <= 9999 ==> |r| == 10
  {
    var y := if 0 <= d.year <= 9999 then PadZeros(NatText(d.year), 4)
             else (if d.year < 0 then "-" else "+") + PadZeros(NatText(if d.year < 0 then -d.year else d.year), 6);
    var m := PadZeros(NatText(if d.month < 0 then 0 else d.month), 2);
    var dd := PadZeros(NatText(if d.day < 0 then 0 else d.day), 2);
    assert 0 <= d.year <= 9999 ==> |y| == 4 by {
      if 0 <= d.year <= 9999 { YearDigits(d.year); }
    }
    assert ValidDate(d) ==> |m| == 2 && |dd| == 2 by {
      if ValidDate(d) { SmallDigits(d.month); SmallDigits(d.day); }
    }
    y + "-" + m + "-" + dd
  }

  lemma SmallDigits(n: nat)
    requires n < 100
    ensures |NatText(n)| <= 2
  {
    if n >= 10 {
      assert NatText(n) == NatText(n / 10) + [DigitChar(n % 10)];
    }
  }

  lemma YearDigits(n: nat)
    requires n < 10000
    ensures |NatText(n)| <= 4
  {
    if n >= 10 {
      assert NatText(n) == NatText(n / 10) + [DigitChar(n % 10)];
      SmallOrThree(n / 10);
    }
  }

  lemma SmallOrThree(n: nat)
    requires n < 1000
    ensures |NatText(n)| <= 3
  {
    if n >= 10 {
      assert NatText(n) == NatText(n / 10) + [DigitChar(n % 10)];
      SmallDigits(n / 10);
    }
  }
}
