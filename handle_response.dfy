/** `extractErrorMessage` (hooks/useHandleResponse.ts): the message shown
    for an error payload that may be a list of messages, a message, an
    object carrying one, or anything else. The hook's callbacks only log
    and delegate to the toast helpers (see module Toast). */
module HandleResponse {
  import opened JsValue

  const NetworkErrorText: string := "Network Error"

  /** The type tests in their order, each returning early. */
  function ExtractErrorMessage(msg: Json): (r: Json)
    ensures msg.JArr? ==> r == JStr(Join(seq(|msg.items|, i requires 0 <= i < |msg.items| => ElementText(msg.items[i])), ", "))
    ensures msg.JStr? ==> r == msg
    ensures msg.JObj? && "message" in msg.fields ==> r == msg.fields["message"]
    ensures !msg.JArr? && !msg.JStr? && !(msg.JObj? && "message" in msg.fields) ==> r == JStr(NetworkErrorText)
  {
    if msg.JArr? then JStr(ArrayJoin(msg.items, ", "))
    else if msg.JStr? then msg
    else if TypeOf(msg) == "object" && !msg.JNull? && HasKey(msg, "message") then Get(msg, "message")
    else JStr(NetworkErrorText)
  }

  /** A list of messages is shown joined by ', ', its entries in order. */
  lemma {:induction false} JoinedList(first: string, rest: seq<string>)
    requires rest != []
    ensures ExtractErrorMessage(JArr([JStr(first)] + seq(|rest|, i requires 0 <= i < |rest| => JStr(rest[i])))) ==
            JStr(first + ", " + Join(rest, ", "))
  {
    var items := [JStr(first)] + seq(|rest|, i requires 0 <= i < |rest| => JStr(rest[i]));
    var parts := seq(|items|, i requires 0 <= i < |items| => ElementText(items[i]));
    assert parts[0] == first;
    assert parts[1..] == rest;
  }

  /** A one-element list shows its element; an empty one shows ''. */
  lemma ShortLists(text: string)
    ensures ExtractErrorMessage(JArr([JStr(text)])) == JStr(text)
    ensures ExtractErrorMessage(JArr([])) == JStr("")
  {
  }

  /** The result is a string unless it is an object's own `message`. */
  lemma ResultIsText(msg: Json)
    requires !(msg.JObj? && "message" in msg.fields)
    ensures ExtractErrorMessage(msg).JStr?
  {
  }

  /** `null`, `undefined`, booleans and numbers give 'Network Error', and
      so does an object without a `message` key. */
  lemma FallbackCases(msg: Json)
    requires msg.JNull? || msg.JUndefined? || msg.JBool? || msg.JNum? || msg.JNaN? ||
             (msg.JObj? && "message" !in msg.fields)
    ensures ExtractErrorMessage(msg) == JStr(NetworkErrorText)
  {
  }
}
