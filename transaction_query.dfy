/** The query layer over the transaction service
    (services/transaction/query.ts): the success guards of `getTransactions`
    and `getTransaction`, and the page-advance rule of the infinite list.
    The React Query hooks, caching and invalidation are not modelled. */
module TransactionQuery {
  import opened JsValue
  import opened TransactionService

  const ListFailure: string := "Failed to fetch transactions"
  const ItemFailure: string := "Failed to fetch transaction"

  /** `new Error(response.error?.message || fallback).message`. */
  function FailureMessage(resp: Json, fallback: string): (r: string)
    ensures Truthy(GetOpt(Get(resp, "error"), "message")) ==> r == JsString(GetOpt(Get(resp, "error"), "message"))
    ensures !Truthy(GetOpt(Get(resp, "error"), "message")) ==> r == fallback
  {
    var m := GetOpt(Get(resp, "error"), "message");
    if Truthy(m) then JsString(m) else fallback
  }

  /** The guard shared by both queries: throw unless `success` and `data`
      are both truthy, otherwise hand back `data`. A thrown service call
      propagates, and a nullish response throws on the property read. */
  function Guarded(call: Outcome, fallback: string): (r: Outcome)
    ensures call.Thrown? ==> r == call
    ensures call.Returned? && !IsNullish(call.value) ==>
      (r.Returned? <==> Truthy(Get(call.value, "success")) && Truthy(Get(call.value, "data")))
    ensures r.Returned? ==> call.Returned? && r.value == Get(call.value, "data") && Truthy(r.value)
  {
    match call
    case Thrown(_) => call
    case Returned(resp) =>
      if IsNullish(resp) then Thrown("TypeError")
      else if !Truthy(Get(resp, "success")) || !Truthy(Get(resp, "data")) then Thrown(FailureMessage(resp, fallback))
      else Returned(Get(resp, "data"))
  }

  /** `getTransactions`' query function: the data of a successful
      response, otherwise an error with the server's message or
      'Failed to fetch transactions'. */
  function GetTransactions(call: Outcome): (r: Outcome)
    ensures r.Returned? <==>
      call.Returned? && !IsNullish(call.value) && Truthy(Get(call.value, "success")) && Truthy(Get(call.value, "data"))
    ensures call.Returned? && !IsNullish(call.value) &&
            !(Truthy(Get(call.value, "success")) && Truthy(Get(call.value, "data"))) ==>
      r == Thrown(FailureMessage(call.value, ListFailure))
  {
    Guarded(call, ListFailure)
  }

  /** `getTransaction`'s query function, with 'Failed to fetch transaction'. */
  function GetTransaction(call: Outcome): (r: Outcome)
    ensures r.Returned? <==>
      call.Returned? && !IsNullish(call.value) && Truthy(Get(call.value, "success")) && Truthy(Get(call.value, "data"))
    ensures call.Returned? && !IsNullish(call.value) &&
            !(Truthy(Get(call.value, "success")) && Truthy(Get(call.value, "data"))) ==>
      r == Thrown(FailureMessage(call.value, ItemFailure))
  {
    Guarded(call, ItemFailure)
  }

  /** An unsuccessful list response becomes an error carrying the server's
      message, or the fixed list message when there is none. */
  lemma ListFailureMessage(resp: Json)
    requires !IsNullish(resp) && !Truthy(Get(resp, "success"))
    ensures GetTransactions(Returned(resp)) == Thrown(FailureMessage(resp, ListFailure))
    ensures !Truthy(GetOpt(Get(resp, "error"), "message")) ==>
      GetTransactions(Returned(resp)) == Thrown("Failed to fetch transactions")
  {
  }

  lemma ItemFailureMessage(resp: Json)
    requires !IsNullish(resp) && !Truthy(Get(resp, "success"))
    ensures !Truthy(GetOpt(Get(resp, "error"), "message")) ==>
      GetTransaction(Returned(resp)) == Thrown("Failed to fetch transaction")
  {
  }

  /** A successful service result reaches the caller as its `data`: the
      processed list together with the pagination; as written, a list with
      a nullish entry reaches it as the service's TypeError. */
  lemma ServiceResultReturned(resp: Json, page: int, pageSize: int,
                              parse: string -> Option<real>, formatDate: Json -> string)
    requires !IsNullish(resp) && Truthy(Get(resp, "success"))
    ensures var (list, meta) := ExtractList(resp);
            NoNullish(list) ==>
            GetTransactions(TransactionsOutcome(resp, page, pageSize, parse, formatDate)) ==
              Returned(JObj(map["data" := JArr(ProcessList(list, parse, formatDate)),
                                "pagination" := Pagination(meta, page, pageSize)]))
    ensures var (list, meta) := ExtractList(resp);
            !NoNullish(list) ==> GetTransactions(TransactionsOutcome(resp, page, pageSize, parse, formatDate)) == Thrown("TypeError")
  {
    var (list, meta) := ExtractList(resp);
    var out := TransactionsOutcome(resp, page, pageSize, parse, formatDate);
    if NoNullish(list) {
      var data := JObj(map["data" := JArr(ProcessList(list, parse, formatDate)),
                           "pagination" := Pagination(meta, page, pageSize)]);
      assert out == Returned(JObj(map["success" := JBool(true), "data" := data]));
      assert Get(out.value, "success") == JBool(true) && Get(out.value, "data") == data;
      assert GetTransactions(out) == Guarded(out, ListFailure);
    } else {
      assert out == Thrown("TypeError");
    }
  }

  // ---------------------------------------------------------------------
  // Infinite paging

  const InitialPageParam: int := 1

  /** JavaScript `x + 1`: numbers add, strings (and objects, through their
      string form) concatenate, and `undefined` gives NaN. */
  function PlusOne(x: Json): (r: Json)
    ensures x.JNum? ==> r == JNum(x.n + 1.0)
    ensures x.JStr? ==> r == JStr(x.s + "1")
  {
    match x
    case JUndefined => JNaN
    case JNull => JNum(1.0)
    case JBool(b) => JNum(if b then 2.0 else 1.0)
    case JNum(n) => JNum(n + 1.0)
    case JNaN => JNaN
    case JStr(s) => JStr(s + "1")
    case JArr(_) => JStr(JsString(x) + "1")
    case JObj(_) => JStr(JsString(x) + "1")
  }

  /** `getNextPageParam`: the next page number when `hasMore` is truthy,
      `undefined` (no further page) otherwise; a missing pagination object
      throws on the property read. */
  function NextPageParam(lastPage: Json): (r: Outcome)
    ensures IsNullish(Get(lastPage, "pagination")) <==> r.Thrown?
    ensures r.Returned? ==>
      (Truthy(Get(Get(lastPage, "pagination"), "hasMore")) <==> r.value != JUndefined)
  {
    var pagination := Get(lastPage, "pagination");
    if IsNullish(pagination) then Thrown("TypeError")
    else if Truthy(Get(pagination, "hasMore")) then Returned(PlusOne(Get(pagination, "page")))
    else Returned(JUndefined)
  }

  /** Over a page the service produced, with no page number in the
      metadata and a numeric count, the next page is `page + 1` exactly when
      `page * pageSize` falls short of the count. */
  lemma NextPageFromService(page: int, pageSize: int, list: seq<Json>, meta: Json, count: real)
    requires !Truthy(Get(meta, "page")) && Get(meta, "count") == JNum(count)
    ensures var lastPage := JObj(map["data" := JArr(list), "pagination" := Pagination(meta, page, pageSize)]);
            NextPageParam(lastPage) ==
              (if ((page * pageSize) as real) < count then Returned(JNum((page + 1) as real)) else Returned(JUndefined))
  {
  }

  /** A page whose metadata has no numeric count ends the paging. */
  lemma NoCountStops(page: int, pageSize: int, list: seq<Json>, meta: Json)
    requires !Get(meta, "count").JNum?
    ensures NextPageParam(JObj(map["data" := JArr(list), "pagination" := Pagination(meta, page, pageSize)]))
         == Returned(JUndefined)
  {
  }

  /** The page at which paging from page `p` stops, for a server whose
      count `count` and page size never change and whose metadata carries
      no page number. */
  function LastPage(p: int, pageSize: int, count: int): (r: int)
    requires pageSize >= 1
    ensures r >= p
    ensures r * pageSize >= count
    ensures r > p ==> (r - 1) * pageSize < count
    decreases if p * pageSize < count then count - p * pageSize else 0
  {
    if p * pageSize < count then LastPage(p + 1, pageSize, count) else p
  }
}
