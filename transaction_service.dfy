/** The transaction service (services/transaction/service.ts): the query
    parameters of the list request, the normalisation of the list and
    single-transaction responses, and the create and update payloads.
    Responses are the untyped bodies the API client hands back; the HTTP
    call itself is not modelled, `parseFloat` is the parameter `parse`
    (`None` for NaN), and the numeric, `Date` and date-like-object branches
    of the date formatting are the parameter `formatDate`. */
module TransactionService {
  import opened JsValue
  import opened Transactions

  // ---------------------------------------------------------------------
  // Query parameters

  /** The parameter names in the order the code appends them. */
  const ParamKeys: seq<string> :=
    ["page", "pageSize", "type", "sortBy", "sortOrder", "fromDate", "toDate", "minAmount", "maxAmount", "category"]

  /** The position of a name in `ParamKeys`; 10 for any other name. */
  function Rank(key: string): (r: nat)
    ensures r <= 10
    ensures r < 10 ==> ParamKeys[r] == key
    ensures key in ParamKeys ==> r < 10
  {
    if key == "page" then 0
    else if key == "pageSize" then 1
    else if key == "type" then 2
    else if key == "sortBy" then 3
    else if key == "sortOrder" then 4
    else if key == "fromDate" then 5
    else if key == "toDate" then 6
    else if key == "minAmount" then 7
    else if key == "maxAmount" then 8
    else if key == "category" then 9
    else 10
  }

  function TxTypeText(t: TxType): string {
    match t
    case Income => "income"
    case Expense => "expense"
  }

  function SortKeyText(k: SortKey): string {
    match k
    case ByDate => "date"
    case ByAmount => "amount"
  }

  function SortOrderText(o: SortOrder): string {
    match o
    case Asc => "asc"
    case Desc => "desc"
  }

  /** A string filter field that is present and truthy. */
  function TruthyText(s: Option<string>): Option<string> {
    if s.Some? && s.value != "" then s else None
  }

  /** The value the parameter of rank `r` should carry, or `None` when it
      is to be left out: page and page size always; the type unless absent
      or 'all'; every other filter field when present and truthy. */
  function ExpectedAt(filters: Option<FilterOptions>, page: int, pageSize: int, r: nat): Option<string> {
    if r == 0 then Some(IntText(page))
    else if r == 1 then Some(IntText(pageSize))
    else if filters.None? then None
    else
      var f := filters.value;
      if r == 2 then (if TypeFilterActive(f) then Some(TxTypeText(f.typeFilter.value.t)) else None)
      else if r == 3 then (if f.sortBy.Some? then Some(SortKeyText(f.sortBy.value)) else None)
      else if r == 4 then (if f.sortOrder.Some? then Some(SortOrderText(f.sortOrder.value)) else None)
      else if r == 5 then (if f.fromDate.Some? then Some(IsoDate(f.fromDate.value.date)) else None)
      else if r == 6 then (if f.toDate.Some? then Some(IsoDate(f.toDate.value.date)) else None)
      else if r == 7 then TruthyText(f.minAmount)
      else if r == 8 then TruthyText(f.maxAmount)
      else if r == 9 then TruthyText(f.category)
      else None
  }

  /** The value the parameter named `key` should carry. */
  function Expected(filters: Option<FilterOptions>, page: int, pageSize: int, key: string): Option<string> {
    ExpectedAt(filters, page, pageSize, Rank(key))
  }

  /** `params.get(key)`: the value of the first pair with that name. */
  function ParamValue(params: seq<(string, string)>, key: string): Option<string> {
    if params == [] then None
    else if params[0].0 == key then Some(params[0].1)
    else ParamValue(params[1..], key)
  }

  /** The names appear in the order of `ParamKeys`, each at most once. */
  ghost predicate InKeyOrder(params: seq<(string, string)>) {
    forall i, j :: 0 <= i < j < |params| ==> Rank(params[i].0) < Rank(params[j].0)
  }

  /** The first `r` names of `ParamKeys` have been considered. */
  ghost predicate BuiltUpTo(params: seq<(string, string)>, filters: Option<FilterOptions>, page: int, pageSize: int, r: nat) {
    InKeyOrder(params) &&
    (forall i :: 0 <= i < |params| ==> Rank(params[i].0) < r && params[i].1 != "") &&
    (forall k :: 0 <= k < r && k < 10 ==> ParamValue(params, ParamKeys[k]) == ExpectedAt(filters, page, pageSize, k))
  }

  lemma {:induction false} ParamValueAbsent(params: seq<(string, string)>, key: string, r: nat)
    requires forall i :: 0 <= i < |params| ==> Rank(params[i].0) < r
    requires Rank(key) >= r
    ensures ParamValue(params, key) == None
  {
    if params != [] {
      ParamValueAbsent(params[1..], key, r);
    }
  }

  lemma {:induction false} ParamValueAppend(params: seq<(string, string)>, k: string, v: string, key: string)
    ensures ParamValue(params + [(k, v)], key) ==
      if ParamValue(params, key).Some? then ParamValue(params, key)
      else if key == k then Some(v) else None
  {
    if params == [] {
      assert [(k, v)][1..] == [];
    } else {
      assert (params + [(k, v)])[1..] == params[1..] + [(k, v)];
      ParamValueAppend(params[1..], k, v, key);
    }
  }

  lemma RankOfKey(r: nat)
    requires r < 10
    ensures Rank(ParamKeys[r]) == r
  {
  }

  /** Appending the parameter with rank `r` when it is expected. */
  lemma AppendStep(params: seq<(string, string)>, filters: Option<FilterOptions>, page: int, pageSize: int,
                   r: nat, v: string)
    requires r < 10 && BuiltUpTo(params, filters, page, pageSize, r)
    requires ExpectedAt(filters, page, pageSize, r) == Some(v) && v != ""
    ensures BuiltUpTo(params + [(ParamKeys[r], v)], filters, page, pageSize, r + 1)
  {
    var key := ParamKeys[r];
    var p := params + [(key, v)];
    RankOfKey(r);
    forall k | 0 <= k < r + 1 && k < 10
      ensures ParamValue(p, ParamKeys[k]) == ExpectedAt(filters, page, pageSize, k)
    {
      ParamValueAppend(params, key, v, ParamKeys[k]);
      RankOfKey(k);
      if k == r {
        ParamValueAbsent(params, key, r);
      }
    }
  }

  /** Skipping the parameter with rank `r` when it is not expected. */
  lemma SkipStep(params: seq<(string, string)>, filters: Option<FilterOptions>, page: int, pageSize: int, r: nat)
    requires r < 10 && BuiltUpTo(params, filters, page, pageSize, r)
    requires ExpectedAt(filters, page, pageSize, r).None?
    ensures BuiltUpTo(params, filters, page, pageSize, r + 1)
  {
    RankOfKey(r);
    ParamValueAbsent(params, ParamKeys[r], r);
  }

  /** Every expected value is a non-empty string. */
  lemma ExpectedNonEmpty(filters: Option<FilterOptions>, page: int, pageSize: int, r: nat)
    requires ExpectedAt(filters, page, pageSize, r).Some?
    ensures ExpectedAt(filters, page, pageSize, r).value != ""
  {
  }

  /** The pairs the code has appended once the parameters of rank below
      `r` have been considered. */
  function PairsUpTo(filters: Option<FilterOptions>, page: int, pageSize: int, r: nat): seq<(string, string)>
    requires r <= 10
  {
    if r == 0 then []
    else
      var prev := PairsUpTo(filters, page, pageSize, r - 1);
      var e := ExpectedAt(filters, page, pageSize, r - 1);
      if e.Some? then prev + [(ParamKeys[r - 1], e.value)] else prev
  }

  function QueryParams(filters: Option<FilterOptions>, page: int, pageSize: int): (r: seq<(string, string)>)
    ensures BuiltUpTo(r, filters, page, pageSize, 10)
  {
    PairsUpToBuilt(filters, page, pageSize, 10);
    PairsUpTo(filters, page, pageSize, 10)
  }

  lemma {:induction false} PairsUpToBuilt(filters: Option<FilterOptions>, page: int, pageSize: int, r: nat)
    requires r <= 10
    ensures BuiltUpTo(PairsUpTo(filters, page, pageSize, r), filters, page, pageSize, r)
  {
    if r > 0 {
      PairsUpToBuilt(filters, page, pageSize, r - 1);
      var prev := PairsUpTo(filters, page, pageSize, r - 1);
      var e := ExpectedAt(filters, page, pageSize, r - 1);
      if e.Some? {
        ExpectedNonEmpty(filters, page, pageSize, r - 1);
        AppendStep(prev, filters, page, pageSize, r - 1, e.value);
      } else {
        SkipStep(prev, filters, page, pageSize, r - 1);
      }
    }
  }

  lemma {:induction false} PairsUpToHead(filters: Option<FilterOptions>, page: int, pageSize: int, r: nat)
    requires 2 <= r <= 10
    ensures |PairsUpTo(filters, page, pageSize, r)| >= 2
    ensures PairsUpTo(filters, page, pageSize, r)[..2] == [("page", IntText(page)), ("pageSize", IntText(pageSize))]
  {
    if r > 2 {
      PairsUpToHead(filters, page, pageSize, r - 1);
      var prev := PairsUpTo(filters, page, pageSize, r - 1);
      var e := ExpectedAt(filters, page, pageSize, r - 1);
      if e.Some? {
        assert (prev + [(ParamKeys[r - 1], e.value)])[..2] == prev[..2];
      }
    } else {
      PageAndPageSize(filters, page, pageSize);
    }
  }

  lemma PairsStep(filters: Option<FilterOptions>, page: int, pageSize: int, r: nat, params: seq<(string, string)>)
    requires r < 10 && params == PairsUpTo(filters, page, pageSize, r)
    ensures ExpectedAt(filters, page, pageSize, r).Some? ==>
      PairsUpTo(filters, page, pageSize, r + 1) == params + [(ParamKeys[r], ExpectedAt(filters, page, pageSize, r).value)]
    ensures ExpectedAt(filters, page, pageSize, r).None? ==> PairsUpTo(filters, page, pageSize, r + 1) == params
  {
  }

  /** Page and page size are always the first two pairs. */
  lemma PageAndPageSize(filters: Option<FilterOptions>, page: int, pageSize: int)
    ensures PairsUpTo(filters, page, pageSize, 2) == [("page", IntText(page)), ("pageSize", IntText(pageSize))]
  {
    assert PairsUpTo(filters, page, pageSize, 1) == [("page", IntText(page))];
  }

  /** Without filters nothing follows page and page size. */
  lemma {:induction false} NoFilterPairs(page: int, pageSize: int, r: nat)
    requires 2 <= r <= 10
    ensures PairsUpTo(None, page, pageSize, r) == PairsUpTo(None, page, pageSize, 2)
  {
    if r > 2 {
      NoFilterPairs(page, pageSize, r - 1);
    }
  }

  /** The query of a list request. The pairs come in the order of
      `ParamKeys`, page and page size first, none with an empty value, and
      each name carries exactly the value `Expected` gives it (so 'all' is
      never sent as a type and falsy filter fields are left out). */
  lemma QueryParamsMeaning(filters: Option<FilterOptions>, page: int, pageSize: int)
    ensures var params := QueryParams(filters, page, pageSize);
            |params| >= 2 &&
            params[0] == ("page", IntText(page)) && params[1] == ("pageSize", IntText(pageSize)) &&
            InKeyOrder(params) &&
            (forall i :: 0 <= i < |params| ==> params[i].1 != "") &&
            (forall key :: ParamValue(params, key) == Expected(filters, page, pageSize, key))
  {
    var params := QueryParams(filters, page, pageSize);
    PairsUpToBuilt(filters, page, pageSize, 10);
    PairsUpToHead(filters, page, pageSize, 10);
    assert params[0] == params[..2][0];
    assert params[1] == params[..2][1];
    forall key ensures ParamValue(params, key) == Expected(filters, page, pageSize, key) {
      if Rank(key) == 10 {
        ParamValueAbsent(params, key, 10);
      } else {
        assert ParamKeys[Rank(key)] == key;
      }
    }
  }

  /** The `params.append` sequence of `getTransactions`. */
  method BuildQueryParams(filters: Option<FilterOptions>, page: int, pageSize: int)
    returns (params: seq<(string, string)>)
    ensures params == QueryParams(filters, page, pageSize)
  {
    params := [("page", IntText(page)), ("pageSize", IntText(pageSize))];
    PageAndPageSize(filters, page, pageSize);
    if filters.Some? {
      var f := filters.value;
      PairsStep(filters, page, pageSize, 2, params);
      if TypeFilterActive(f) {
        params := params + [("type", TxTypeText(f.typeFilter.value.t))];
      }
      assert params == PairsUpTo(filters, page, pageSize, 3);
      PairsStep(filters, page, pageSize, 3, params);
      if f.sortBy.Some? {
        params := params + [("sortBy", SortKeyText(f.sortBy.value))];
      }
      assert params == PairsUpTo(filters, page, pageSize, 4);
      PairsStep(filters, page, pageSize, 4, params);
      if f.sortOrder.Some? {
        params := params + [("sortOrder", SortOrderText(f.sortOrder.value))];
      }
      assert params == PairsUpTo(filters, page, pageSize, 5);
      PairsStep(filters, page, pageSize, 5, params);
      if f.fromDate.Some? {
        params := params + [("fromDate", IsoDate(f.fromDate.value.date))];
      }
      assert params == PairsUpTo(filters, page, pageSize, 6);
      PairsStep(filters, page, pageSize, 6, params);
      if f.toDate.Some? {
        params := params + [("toDate", IsoDate(f.toDate.value.date))];
      }
      assert params == PairsUpTo(filters, page, pageSize, 7);
      PairsStep(filters, page, pageSize, 7, params);
      if f.minAmount.Some? && f.minAmount.value != "" {
        params := params + [("minAmount", f.minAmount.value)];
      }
      assert params == PairsUpTo(filters, page, pageSize, 8);
      PairsStep(filters, page, pageSize, 8, params);
      if f.maxAmount.Some? && f.maxAmount.value != "" {
        params := params + [("maxAmount", f.maxAmount.value)];
      }
      assert params == PairsUpTo(filters, page, pageSize, 9);
      PairsStep(filters, page, pageSize, 9, params);
      if f.category.Some? && f.category.value != "" {
        params := params + [("category", f.category.value)];
      }
      assert params == PairsUpTo(filters, page, pageSize, 10);
    } else {
      NoFilterPairs(page, pageSize, 10);
    }
  }

  // ---------------------------------------------------------------------
  // Normalising one transaction

  /** The own fields `{ ...transaction }` copies: the fields of an object,
      one field per index of a string or an array, and none for a number
      or a boolean. */
  function SpreadFields(e: Json): (r: map<string, Json>)
    ensures e.JObj? ==> r == e.fields
    ensures e.JStr? ==> r == IndexFields(seq(|e.s|, i requires 0 <= i < |e.s| => JStr([e.s[i]])))
    ensures e.JArr? ==> r == IndexFields(e.items)
    ensures !e.JObj? && !e.JStr? && !e.JArr? ==> r == map[]
  {
    match e
    case JObj(fields) => fields
    case JStr(s) => IndexFields(seq(|s|, i requires 0 <= i < |s| => JStr([s[i]])))
    case JArr(items) => IndexFields(items)
    case _ => map[]
  }

  /** The fields '0', '1', ... holding the elements in order. */
  function IndexFields(items: seq<Json>): map<string, Json> {
    if items == [] then map[]
    else IndexFields(items[..|items| - 1])[NatText(|items| - 1) := items[|items| - 1]]
  }

  /** One field per index, named by its decimal text, holding the element
      at that index. */
  lemma {:induction false} IndexFieldsMeaning(items: seq<Json>)
    ensures IndexFields(items).Keys == set i | 0 <= i < |items| :: NatText(i)
    ensures forall i :: 0 <= i < |items| ==> IndexFields(items)[NatText(i)] == items[i]
  {
    if items != [] {
      var n := |items| - 1;
      var prev := IndexFields(items[..n]);
      var r := IndexFields(items);
      IndexFieldsMeaning(items[..n]);
      assert r == prev[NatText(n) := items[n]];
      forall i | 0 <= i < |items| ensures NatText(i) in r && r[NatText(i)] == items[i] {
        if i < n {
          NatTextValue(i);
          NatTextValue(n);
          assert NatText(i) in prev.Keys;
          assert items[..n][i] == items[i];
        }
      }
      assert r.Keys == prev.Keys + {NatText(n)};
    }
  }

  /** Spreading the string 'ab' gives the fields '0': 'a' and '1': 'b'. */
  lemma SpreadStringExample()
    ensures SpreadFields(JStr("ab")) == map["0" := JStr("a"), "1" := JStr("b")]
  {
    var items := seq(2, i requires 0 <= i < 2 => JStr(["ab"[i]]));
    assert items == [JStr("a"), JStr("b")];
    assert items[..1] == [JStr("a")] && items[..1][..0] == [];
    assert NatText(0) == "0" && NatText(1) == "1";
    assert IndexFields(items[..1]) == map["0" := JStr("a")];
    assert IndexFields(items) == IndexFields(items[..1])["1" := JStr("b")];
  }

  /** The `date` field: 'No date' when falsy; a string kept as it is; a
      number, a `Date` or another object formatted by `formatDate`; and a
      value of any other type (`true`) kept, since no branch applies. */
  function DateField(d: Json, formatDate: Json -> string): (r: Json)
    ensures !Truthy(d) ==> r == JStr("No date")
    ensures Truthy(d) && TypeOf(d) != "number" && TypeOf(d) != "object" ==> r == d
    ensures Truthy(d) && (TypeOf(d) == "number" || TypeOf(d) == "object") ==> r == JStr(formatDate(d))
  {
    if !Truthy(d) then JStr("No date")
    else if d.JStr? || d.JBool? then d
    else JStr(formatDate(d))
  }

  /** The `category` field: a truthy object is replaced by its `name`. */
  function CategoryField(c: Json): (r: Json)
    ensures c.JObj? ==> r == Get(c, "name")
    ensures !(Truthy(c) && TypeOf(c) == "object") ==> r == c
  {
    if Truthy(c) && TypeOf(c) == "object" then Get(c, "name") else c
  }

  /** The `amount` field: a string is parsed (NaN when it does not parse),
      anything else is kept. */
  function AmountField(a: Json, parse: string -> Option<real>): (r: Json)
    ensures a.JStr? && parse(a.s).Some? ==> r == JNum(parse(a.s).value)
    ensures a.JStr? && parse(a.s).None? ==> r == JNaN
    ensures !a.JStr? ==> r == a
  {
    if a.JStr? then (if parse(a.s).Some? then JNum(parse(a.s).value) else JNaN) else a
  }

  /** `{ ...transaction, date, category, amount }`: every other field of
      the transaction object is copied through unchanged. */
  function Normalise(e: Json, parse: string -> Option<real>, formatDate: Json -> string): (r: Json)
    ensures r.JObj? && Truthy(r)
    ensures Get(r, "date") == DateField(Get(e, "date"), formatDate)
    ensures Get(r, "category") == CategoryField(Get(e, "category"))
    ensures Get(r, "amount") == AmountField(Get(e, "amount"), parse)
    ensures forall k :: k != "date" && k != "category" && k != "amount" ==> Get(r, k) == Get(JObj(SpreadFields(e)), k)
  {
    JObj(SpreadFields(e)["date" := DateField(Get(e, "date"), formatDate)]
                        ["category" := CategoryField(Get(e, "category"))]
                        ["amount" := AmountField(Get(e, "amount"), parse)])
  }

  /** The truthy elements of the list, in order. */
  function TruthyElements(items: seq<Json>): seq<Json> {
    if items == [] then [] else (if Truthy(items[0]) then [items[0]] else []) + TruthyElements(items[1..])
  }

  function NormaliseAll(items: seq<Json>, parse: string -> Option<real>, formatDate: Json -> string): (r: seq<Json>)
    ensures |r| == |items|
    ensures forall i :: 0 <= i < |items| ==> r[i] == Normalise(items[i], parse, formatDate)
  {
    if items == [] then [] else [Normalise(items[0], parse, formatDate)] + NormaliseAll(items[1..], parse, formatDate)
  }

  /** `transactions.map(...).filter(Boolean)` as written: the callback
      reads `transaction.id` before its null guard, so one `null` or
      `undefined` element throws and the whole call fails (`None`). */
  function ProcessListAsWritten(items: seq<Json>, parse: string -> Option<real>, formatDate: Json -> string): (r: Option<seq<Json>>)
    ensures r.Some? ==> r.value == ProcessList(items, parse, formatDate)
    ensures items != [] && IsNullish(items[0]) ==> r.None?
  {
    if items == [] then Some([])
    else if IsNullish(items[0]) then None
    else
      var rest := ProcessListAsWritten(items[1..], parse, formatDate);
      if rest.None? then None
      else Some((if Truthy(items[0]) then [Normalise(items[0], parse, formatDate)] else []) + rest.value)
  }

  /** The list a null entry reaches the guard in, as intended: falsy
      entries (including `null` and `undefined`) are dropped and the others
      normalised, in order. */
  function ProcessList(items: seq<Json>, parse: string -> Option<real>, formatDate: Json -> string): (r: seq<Json>)
    ensures r == NormaliseAll(TruthyElements(items), parse, formatDate)
  {
    if items == [] then []
    else
      (if Truthy(items[0]) then [Normalise(items[0], parse, formatDate)] else []) + ProcessList(items[1..], parse, formatDate)
  }

  /** As written, a list with a nullish entry throws. */
  lemma {:induction false} NullEntryThrows(items: seq<Json>, parse: string -> Option<real>, formatDate: Json -> string, i: int)
    requires 0 <= i < |items| && IsNullish(items[i])
    ensures ProcessListAsWritten(items, parse, formatDate).None?
  {
    if i > 0 && !IsNullish(items[0]) {
      NullEntryThrows(items[1..], parse, formatDate, i - 1);
    }
  }

  /** Concretely: `[null]` makes the call throw, while the intended
      processing yields the empty list. */
  lemma NullEntryExample(parse: string -> Option<real>, formatDate: Json -> string)
    ensures ProcessListAsWritten([JNull], parse, formatDate).None?
    ensures ProcessList([JNull], parse, formatDate) == []
  {
  }

  predicate NoNullish(items: seq<Json>) {
    forall i :: 0 <= i < |items| ==> !IsNullish(items[i])
  }

  /** Without nullish entries the code as written and the intended
      processing agree; with one, the code as written throws. */
  lemma {:induction false} ProcessListAgrees(items: seq<Json>, parse: string -> Option<real>, formatDate: Json -> string)
    ensures NoNullish(items) ==> ProcessListAsWritten(items, parse, formatDate) == Some(ProcessList(items, parse, formatDate))
    ensures !NoNullish(items) ==> ProcessListAsWritten(items, parse, formatDate).None?
  {
    if !NoNullish(items) {
      var i :| 0 <= i < |items| && IsNullish(items[i]);
      NullEntryThrows(items, parse, formatDate, i);
    } else if items != [] {
      assert NoNullish(items[1..]) by {
        forall i | 0 <= i < |items[1..]| ensures !IsNullish(items[1..][i]) {
          assert items[1..][i] == items[i + 1];
        }
      }
      ProcessListAgrees(items[1..], parse, formatDate);
    }
  }

  // ---------------------------------------------------------------------
  // Normalising the list response

  const EmptyObject: Json := JObj(map[])

  /** The list and the pagination metadata found in the response body:
      array data is the list; object data with an array `data` field
      supplies that list; other object data is a one-element list; no data
      is an empty list. */
  function ExtractList(resp: Json): (r: (seq<Json>, Json))
    ensures Get(resp, "data").JArr? ==> r.0 == Get(resp, "data").items
    ensures Get(resp, "data").JObj? && Get(Get(resp, "data"), "data").JArr? ==> r.0 == Get(Get(resp, "data"), "data").items
    ensures Get(resp, "data").JObj? && !Get(Get(resp, "data"), "data").JArr? ==> r == ([Get(resp, "data")], EmptyObject)
    ensures !Get(resp, "data").JArr? && !Get(resp, "data").JObj? ==> r == ([], EmptyObject)
  {
    var data := Get(resp, "data");
    if data.JArr? then (data.items, Or(Get(resp, "meta"), EmptyObject))
    else if Truthy(data) && TypeOf(data) == "object" then
      var inner := Get(data, "data");
      if inner.JArr? then (inner.items, Or(Get(data, "meta"), Or(Get(resp, "meta"), EmptyObject)))
      else ([data], EmptyObject)
    else ([], EmptyObject)
  }

  /** `hasMore`: `typeof meta.count === 'number' && page * pageSize < meta.count`. */
  predicate HasMore(count: Json, page: int, pageSize: int) {
    count.JNum? && ((page * pageSize) as real) < count.n
  }

  function Pagination(meta: Json, page: int, pageSize: int): (r: Json)
    ensures Get(r, "page") == Or(Get(meta, "page"), JNum(page as real))
    ensures Get(r, "pageSize") == Or(Get(meta, "pageSize"), JNum(pageSize as real))
    ensures Get(r, "totalCount") == Or(Get(meta, "count"), JNum(0.0))
    ensures Get(r, "hasMore") == JBool(HasMore(Get(meta, "count"), page, pageSize))
  {
    JObj(map[
      "page" := Or(Get(meta, "page"), JNum(page as real)),
      "pageSize" := Or(Get(meta, "pageSize"), JNum(pageSize as real)),
      "totalCount" := Or(Get(meta, "count"), JNum(0.0)),
      "hasMore" := JBool(HasMore(Get(meta, "count"), page, pageSize))])
  }

  /** What a service call ends with: a value, or a thrown error. */
  datatype Outcome = Returned(value: Json) | Thrown(error: string)

  /** The successful result `{ success: true, data: { data, pagination } }`. */
  function ListEnvelope(list: seq<Json>, pagination: Json): Json {
    JObj(map["success" := JBool(true), "data" := JObj(map["data" := JArr(list), "pagination" := pagination])])
  }

  /** `getTransactions` after the request: a nullish response throws on
      `response.success`; an unsuccessful one is handed back; a successful
      one yields the processed list and the pagination, or throws, as
      written, when the list has a nullish entry. */
  function TransactionsOutcome(resp: Json, page: int, pageSize: int,
                               parse: string -> Option<real>, formatDate: Json -> string): (r: Outcome)
    ensures IsNullish(resp) ==> r == Thrown("TypeError")
    ensures !IsNullish(resp) && !Truthy(Get(resp, "success")) ==> r == Returned(resp)
    ensures !IsNullish(resp) && Truthy(Get(resp, "success")) ==>
      var (list, meta) := ExtractList(resp);
      r == if NoNullish(list) then Returned(ListEnvelope(ProcessList(list, parse, formatDate), Pagination(meta, page, pageSize)))
           else Thrown("TypeError")
  {
    if IsNullish(resp) then Thrown("TypeError")
    else if !Truthy(Get(resp, "success")) then Returned(resp)
    else
      var (list, meta) := ExtractList(resp);
      ProcessListAgrees(list, parse, formatDate);
      match ProcessListAsWritten(list, parse, formatDate)
      case None => Thrown("TypeError")
      case Some(processed) => Returned(ListEnvelope(processed, Pagination(meta, page, pageSize)))
  }

  /** The response handling of `getTransactions`, with `transactions` and
      `meta` reassigned branch by branch as in the source. */
  method ProcessTransactionsResponse(resp: Json, page: int, pageSize: int,
                                     parse: string -> Option<real>, formatDate: Json -> string)
    returns (outcome: Outcome)
    ensures outcome == TransactionsOutcome(resp, page, pageSize, parse, formatDate)
  {
    if IsNullish(resp) {
      return Thrown("TypeError");
    }
    if !Truthy(Get(resp, "success")) {
      return Returned(resp);
    }
    var transactions: seq<Json> := [];
    var meta: Json := EmptyObject;
    var data := Get(resp, "data");
    if data.JArr? {
      transactions := data.items;
      meta := Or(Get(resp, "meta"), EmptyObject);
    } else if Truthy(data) && TypeOf(data) == "object" {
      var inner := Get(data, "data");
      if inner.JArr? {
        transactions := inner.items;
        meta := Or(Get(data, "meta"), Or(Get(resp, "meta"), EmptyObject));
      } else {
        transactions := [data];
      }
    }
    var processed := ProcessListAsWritten(transactions, parse, formatDate);
    if processed.None? {
      return Thrown("TypeError");
    }
    outcome := Returned(ListEnvelope(processed.value, Pagination(meta, page, pageSize)));
  }

  /** An unsuccessful response is handed back unchanged. */
  lemma UnsuccessfulUnchanged(resp: Json, page: int, pageSize: int,
                              parse: string -> Option<real>, formatDate: Json -> string)
    requires !IsNullish(resp) && !Truthy(Get(resp, "success"))
    ensures TransactionsOutcome(resp, page, pageSize, parse, formatDate) == Returned(resp)
  {
  }

  /** The list a successful result carries. */
  function ResultList(out: Outcome): Json {
    if out.Returned? then Get(Get(out.value, "data"), "data") else JUndefined
  }

  lemma EnvelopeList(list: seq<Json>, pagination: Json)
    ensures ResultList(Returned(ListEnvelope(list, pagination))) == JArr(list)
  {
    assert Get(ListEnvelope(list, pagination), "data") == JObj(map["data" := JArr(list), "pagination" := pagination]);
  }

  /** Array data is the list; as written a nullish entry in it throws. */
  lemma ArrayDataIsTheList(resp: Json, page: int, pageSize: int,
                           parse: string -> Option<real>, formatDate: Json -> string)
    requires resp.JObj? && Truthy(Get(resp, "success")) && Get(resp, "data").JArr?
    ensures NoNullish(Get(resp, "data").items) ==>
      ResultList(TransactionsOutcome(resp, page, pageSize, parse, formatDate))
         == JArr(ProcessList(Get(resp, "data").items, parse, formatDate))
    ensures !NoNullish(Get(resp, "data").items) ==>
      TransactionsOutcome(resp, page, pageSize, parse, formatDate) == Thrown("TypeError")
  {
    var (list, meta) := ExtractList(resp);
    assert list == Get(resp, "data").items;
    EnvelopeList(ProcessList(list, parse, formatDate), Pagination(meta, page, pageSize));
  }

  /** Object data with an array `data` field supplies that list; as
      written a nullish entry in it throws. */
  lemma NestedDataIsTheList(resp: Json, page: int, pageSize: int,
                            parse: string -> Option<real>, formatDate: Json -> string)
    requires resp.JObj? && Truthy(Get(resp, "success"))
    requires Get(resp, "data").JObj? && Get(Get(resp, "data"), "data").JArr?
    ensures NoNullish(Get(Get(resp, "data"), "data").items) ==>
      ResultList(TransactionsOutcome(resp, page, pageSize, parse, formatDate))
         == JArr(ProcessList(Get(Get(resp, "data"), "data").items, parse, formatDate))
    ensures !NoNullish(Get(Get(resp, "data"), "data").items) ==>
      TransactionsOutcome(resp, page, pageSize, parse, formatDate) == Thrown("TypeError")
  {
    var data := Get(resp, "data");
    assert Truthy(data) && TypeOf(data) == "object";
    var (list, meta) := ExtractList(resp);
    assert list == Get(data, "data").items;
    EnvelopeList(ProcessList(list, parse, formatDate), Pagination(meta, page, pageSize));
  }

  /** Other object data becomes a one-element list. */
  lemma OtherObjectIsOneElement(resp: Json, page: int, pageSize: int,
                                parse: string -> Option<real>, formatDate: Json -> string)
    requires resp.JObj? && Truthy(Get(resp, "success"))
    requires Get(resp, "data").JObj? && !Get(Get(resp, "data"), "data").JArr?
    ensures ResultList(TransactionsOutcome(resp, page, pageSize, parse, formatDate))
         == JArr([Normalise(Get(resp, "data"), parse, formatDate)])
  {
    var data := Get(resp, "data");
    assert Truthy(data) && TypeOf(data) == "object";
    var (list, meta) := ExtractList(resp);
    assert list == [data] && NoNullish(list);
    assert TransactionsOutcome(resp, page, pageSize, parse, formatDate)
        == Returned(ListEnvelope(ProcessList(list, parse, formatDate), Pagination(meta, page, pageSize)));
    assert ProcessList(list, parse, formatDate) == [Normalise(data, parse, formatDate)];
    EnvelopeList(ProcessList(list, parse, formatDate), Pagination(meta, page, pageSize));
  }

  /** Missing data gives the empty list. */
  lemma MissingDataIsEmpty(resp: Json, page: int, pageSize: int,
                           parse: string -> Option<real>, formatDate: Json -> string)
    requires resp.JObj? && Truthy(Get(resp, "success")) && !Truthy(Get(resp, "data"))
    ensures ResultList(TransactionsOutcome(resp, page, pageSize, parse, formatDate)) == JArr([])
  {
    var (list, meta) := ExtractList(resp);
    assert list == [] && meta == EmptyObject && NoNullish(list);
    assert TransactionsOutcome(resp, page, pageSize, parse, formatDate)
        == Returned(ListEnvelope([], Pagination(EmptyObject, page, pageSize)));
    EnvelopeList([], Pagination(EmptyObject, page, pageSize));
  }

  /** The pagination of a successful result: `hasMore` holds exactly when
      the metadata has a numeric count beyond `page * pageSize`; a missing
      count gives a total of 0 and no further page. */
  lemma PaginationMeaning(meta: Json, page: int, pageSize: int)
    ensures Get(Pagination(meta, page, pageSize), "hasMore") == JBool(true) <==>
      Get(meta, "count").JNum? && ((page * pageSize) as real) < Get(meta, "count").n
    ensures !Truthy(Get(meta, "count")) ==> Get(Pagination(meta, page, pageSize), "totalCount") == JNum(0.0)
    ensures !Get(meta, "count").JNum? ==> Get(Pagination(meta, page, pageSize), "hasMore") == JBool(false)
    ensures !Truthy(Get(meta, "page")) ==> Get(Pagination(meta, page, pageSize), "page") == JNum(page as real)
  {
  }

  // ---------------------------------------------------------------------
  // One transaction

  /** `getTransaction(id)`: a successful response with truthy data gets
      its data normalised; any other response is handed back unchanged. */
  function TransactionOutcome(resp: Json, parse: string -> Option<real>, formatDate: Json -> string): (r: Outcome)
    ensures !IsNullish(resp) && !(Truthy(Get(resp, "success")) && Truthy(Get(resp, "data"))) ==> r == Returned(resp)
    ensures Truthy(Get(resp, "success")) && Truthy(Get(resp, "data")) ==>
      r == Returned(JObj(map["success" := JBool(true), "data" := Normalise(Get(resp, "data"), parse, formatDate)]))
  {
    if IsNullish(resp) then Thrown("TypeError")
    else if Truthy(Get(resp, "success")) && Truthy(Get(resp, "data")) then
      Returned(JObj(map["success" := JBool(true), "data" := Normalise(Get(resp, "data"), parse, formatDate)]))
    else Returned(resp)
  }

  // ---------------------------------------------------------------------
  // Payloads

  const PayloadKeys: set<string> := {"date", "amount", "category", "description", "type"}

  /** `createTransaction`: exactly the five fields, whatever their values. */
  function CreatePayload(data: Json): (r: Json)
    ensures r.JObj? && r.fields.Keys == PayloadKeys
    ensures forall k :: k in PayloadKeys ==> Get(r, k) == Get(data, k)
  {
    JObj(map k | k in PayloadKeys :: Get(data, k))
  }

  /** `updateTransaction`: only the fields with a truthy value, so an
      amount of 0 or an empty description is not sent. */
  function UpdatePayload(data: Json): (r: Json)
    ensures r.JObj?
    ensures forall k :: k in r.fields <==> k in PayloadKeys && Truthy(Get(data, k))
    ensures forall k :: k in r.fields ==> r.fields[k] == Get(data, k)
  {
    JObj(map k | k in PayloadKeys && Truthy(Get(data, k)) :: Get(data, k))
  }

  lemma UpdateDropsZeroAmount(data: Json)
    requires Get(data, "amount") == JNum(0.0)
    ensures "amount" !in UpdatePayload(data).fields
    ensures "amount" in CreatePayload(data).fields
  {
  }
}
