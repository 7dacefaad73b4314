/** The toast helpers (utils/toast.ts): the defaults of `showToast`, its
    three typed wrappers, and `handleApiError`, which derives a title and a
    message from whatever error value it is given. Showing the toast is
    modelled as the record that would be handed to the toast library. */
module Toast {
  import opened JsValue

  datatype ToastType = SuccessToast | ErrorToast | InfoToast
  datatype Position = Top | Bottom

  /** The options object; a missing property is `None`. The message is a
      dynamic value because `handleApiError` passes `error.message` through
      whatever its type. */
  datatype ToastOptions = ToastOptions(
    title: Option<string>,
    message: Json,
    kind: Option<ToastType>,
    duration: Option<int>,
    position: Option<Position>)

  /** What is handed to the toast library. */
  datatype Shown = Shown(kind: ToastType, text1: string, text2: Json, position: Position, visibilityTime: int)

  function DefaultTitle(kind: ToastType): (r: string)
    ensures r != ""
  {
    match kind
    case SuccessToast => "Success"
    case ErrorToast => "Error"
    case InfoToast => "Information"
  }

  /** `title || defaultTitles[type]`: an empty title is falsy too. */
  function TitleOr(title: Option<string>, kind: ToastType): (r: string)
    ensures r != ""
    ensures title.Some? && title.value != "" ==> r == title.value
    ensures !(title.Some? && title.value != "") ==> r == DefaultTitle(kind)
  {
    if title.Some? && title.value != "" then title.value else DefaultTitle(kind)
  }

  /** `duration || (type === 'error' ? 4000 : 3000)`: a zero duration is
      falsy too. */
  function VisibilityTime(duration: Option<int>, kind: ToastType): (r: int)
    ensures r != 0
    ensures duration.Some? && duration.value != 0 ==> r == duration.value
    ensures !(duration.Some? && duration.value != 0) ==> r == (if kind == ErrorToast then 4000 else 3000)
  {
    if duration.Some? && duration.value != 0 then duration.value
    else if kind == ErrorToast then 4000 else 3000
  }

  /** `showToast`: type `info` and position `bottom` by default, the
      message passed through unchanged. */
  function ShowToast(options: ToastOptions): (r: Shown)
    ensures r.kind == options.kind.GetOr(InfoToast)
    ensures r.position == options.position.GetOr(Bottom)
    ensures r.text1 == TitleOr(options.title, r.kind)
    ensures r.text2 == options.message
    ensures r.visibilityTime == VisibilityTime(options.duration, r.kind)
  {
    var kind := options.kind.GetOr(InfoToast);
    Shown(kind, TitleOr(options.title, kind), options.message, options.position.GetOr(Bottom),
          VisibilityTime(options.duration, kind))
  }

  function ShowSuccess(message: string, title: Option<string>): (r: Shown)
    ensures r.kind == SuccessToast && r.position == Bottom && r.visibilityTime == 3000
    ensures r.text1 == TitleOr(title, SuccessToast) && r.text2 == JStr(message)
  {
    ShowToast(ToastOptions(title, JStr(message), Some(SuccessToast), None, None))
  }

  function ShowError(message: string, title: Option<string>): (r: Shown)
    ensures r.kind == ErrorToast && r.position == Bottom && r.visibilityTime == 4000
    ensures r.text1 == TitleOr(title, ErrorToast) && r.text2 == JStr(message)
  {
    ShowToast(ToastOptions(title, JStr(message), Some(ErrorToast), None, None))
  }

  function ShowInfo(message: string, title: Option<string>): (r: Shown)
    ensures r.kind == InfoToast && r.position == Bottom && r.visibilityTime == 3000
    ensures r.text1 == TitleOr(title, InfoToast) && r.text2 == JStr(message)
  {
    ShowToast(ToastOptions(title, JStr(message), Some(InfoToast), None, None))
  }

  /** Each wrapper shows its own type at the bottom, titled by its default
      unless a non-empty title is given; errors stay 4000 ms, the others
      3000 ms. */
  lemma WrapperDefaults(message: string)
    ensures ShowSuccess(message, None) == Shown(SuccessToast, "Success", JStr(message), Bottom, 3000)
    ensures ShowError(message, None) == Shown(ErrorToast, "Error", JStr(message), Bottom, 4000)
    ensures ShowInfo(message, None) == Shown(InfoToast, "Information", JStr(message), Bottom, 3000)
  {
  }

  lemma WrapperTitles(message: string, title: string)
    requires title != ""
    ensures ShowSuccess(message, Some(title)).text1 == title
    ensures ShowError(message, Some(title)).text1 == title
    ensures ShowInfo(message, Some(title)).text1 == title
  {
  }

  // ---------------------------------------------------------------------
  // handleApiError

  const DefaultMessage: string := "An unexpected error occurred"
  const DefaultErrorTitle: string := "Error"

  /** `error?.response?.data?.error`. */
  function PayloadOf(error: Json): Json {
    GetOpt(GetOpt(GetOpt(error, "response"), "data"), "error")
  }

  /** `error?.response?.status`. */
  function StatusOf(error: Json): Json {
    GetOpt(GetOpt(error, "response"), "status")
  }

  /** `typeof x === 'object' && x !== null`, which arrays satisfy. */
  predicate IsObjectLike(x: Json) {
    x.JObj? || x.JArr?
  }

  /** `'key' in x && typeof x.key === t` on an object-like value. */
  predicate HasOfType(x: Json, key: string, t: string)
    requires IsObjectLike(x)
  {
    HasKey(x, key) && TypeOf(Get(x, key)) == t
  }

  /** The title and message `handleApiError` derives, as a pair. */
  datatype Content = Content(title: string, message: Json)

  /** The fixed texts for the four statuses it recognises. */
  function StatusContent(status: Json): (r: Option<Content>)
    ensures r.Some? <==> status in {JNum(401.0), JNum(403.0), JNum(404.0), JNum(500.0)}
  {
    if status == JNum(401.0) then Some(Content("Authentication Error", JStr("Your session has expired. Please log in again.")))
    else if status == JNum(403.0) then Some(Content("Access Denied", JStr("You do not have permission to perform this action.")))
    else if status == JNum(404.0) then Some(Content("Not Found", JStr("The requested resource was not found.")))
    else if status == JNum(500.0) then Some(Content("Server Error", JStr("An unexpected error occurred on the server.")))
    else None
  }

  /** `handleApiError`: the locals `message` and `title` start at their
      defaults and are overwritten branch by branch; the toast is always
      an error toast shown for 4000 ms. */
  method HandleApiError(error: Json) returns (shown: Shown)
    ensures shown.kind == ErrorToast && shown.visibilityTime == 4000 && shown.position == Bottom
    ensures shown == ShowToast(ToastOptions(Some(ApiErrorContent(error).title), ApiErrorContent(error).message,
                                            Some(ErrorToast), Some(4000), None))
  {
    var message: Json := JStr(DefaultMessage);
    var title: string := DefaultErrorTitle;
    var errorData := PayloadOf(error);
    if Truthy(errorData) {
      if IsObjectLike(errorData) {
        if HasOfType(errorData, "message", "string") {
          message := Get(errorData, "message");
        }
        if HasOfType(errorData, "title", "string") {
          title := Get(errorData, "title").s;
        }
        if HasOfType(errorData, "code", "string") || HasOfType(errorData, "code", "number") {
          title := title + " (" + JsString(Get(errorData, "code")) + ")";
        }
      } else if errorData.JStr? {
        message := errorData;
      } else if errorData.JArr? {
        // `Array.isArray`: arrays already took the object branch
        assert false;
      }
    } else if Truthy(StatusOf(error)) {
      var fixed := StatusContent(StatusOf(error));
      if fixed.Some? {
        title := fixed.value.title;
        message := fixed.value.message;
      }
    } else if Truthy(GetOpt(error, "message")) {
      message := GetOpt(error, "message");
    }
    shown := ShowToast(ToastOptions(Some(title), message, Some(ErrorToast), Some(4000), None));
  }

  /** The title an object-like payload gives. */
  function PayloadTitle(errorData: Json): (r: string)
    requires IsObjectLike(errorData)
  {
    var base := if HasOfType(errorData, "title", "string") then Get(errorData, "title").s else DefaultErrorTitle;
    if HasOfType(errorData, "code", "string") || HasOfType(errorData, "code", "number")
    then base + " (" + JsString(Get(errorData, "code")) + ")"
    else base
  }

  /** What the branches of `handleApiError` leave in `title` and
      `message`, in their priority order: the response body's error, then
      the response status, then the error's own message. */
  function ApiErrorContent(error: Json): (r: Content)
    ensures !Truthy(PayloadOf(error)) && !Truthy(StatusOf(error)) && !Truthy(GetOpt(error, "message")) ==>
      r == Content(DefaultErrorTitle, JStr(DefaultMessage))
  {
    var errorData := PayloadOf(error);
    if Truthy(errorData) then
      if IsObjectLike(errorData) then
        Content(PayloadTitle(errorData),
                if HasOfType(errorData, "message", "string") then Get(errorData, "message") else JStr(DefaultMessage))
      else if errorData.JStr? then Content(DefaultErrorTitle, errorData)
      else Content(DefaultErrorTitle, JStr(DefaultMessage))
    else if Truthy(StatusOf(error)) then
      StatusContent(StatusOf(error)).GetOr(Content(DefaultErrorTitle, JStr(DefaultMessage)))
    else if Truthy(GetOpt(error, "message")) then Content(DefaultErrorTitle, GetOpt(error, "message"))
    else Content(DefaultErrorTitle, JStr(DefaultMessage))
  }

  /** An object payload gives its string message, its string title, and
      its string or numeric code appended to the title in parentheses. */
  lemma ObjectPayload(error: Json, message: string, title: string, code: int)
    requires PayloadOf(error) == JObj(map["message" := JStr(message), "title" := JStr(title), "code" := JNum(code as real)])
    ensures ApiErrorContent(error) == Content(title + " (" + IntText(code) + ")", JStr(message))
  {
    assert Get(PayloadOf(error), "code") == JNum(code as real);
    assert (code as real).Floor == code;
  }

  /** Without a string message or title the defaults stay, and other keys
      of the payload are ignored. */
  lemma ObjectPayloadDefaults(error: Json)
    requires PayloadOf(error).JObj?
    requires forall k :: k in PayloadOf(error).fields ==> k != "message" && k != "title" && k != "code"
    ensures ApiErrorContent(error) == Content(DefaultErrorTitle, JStr(DefaultMessage))
  {
  }

  /** A string payload is the message. */
  lemma StringPayload(error: Json, text: string)
    requires PayloadOf(error) == JStr(text) && text != ""
    ensures ApiErrorContent(error) == Content(DefaultErrorTitle, JStr(text))
  {
  }

  /** An array payload takes the object branch, since `typeof` of an
      array is 'object'; an array has no 'message', 'title' or 'code' key,
      so the join is never reached and the defaults stay. */
  lemma ArrayPayloadKeepsDefaults(error: Json, items: seq<Json>)
    requires PayloadOf(error) == JArr(items)
    ensures ApiErrorContent(error) == Content(DefaultErrorTitle, JStr(DefaultMessage))
  {
  }

  /** Without a payload, the four known statuses give their fixed texts
      and every other status keeps the defaults, whatever the message. */
  lemma StatusTexts(error: Json)
    requires !Truthy(PayloadOf(error)) && Truthy(StatusOf(error))
    ensures StatusOf(error) == JNum(401.0) ==>
      ApiErrorContent(error) == Content("Authentication Error", JStr("Your session has expired. Please log in again."))
    ensures StatusOf(error) == JNum(403.0) ==>
      ApiErrorContent(error) == Content("Access Denied", JStr("You do not have permission to perform this action."))
    ensures StatusOf(error) == JNum(404.0) ==>
      ApiErrorContent(error) == Content("Not Found", JStr("The requested resource was not found."))
    ensures StatusOf(error) == JNum(500.0) ==>
      ApiErrorContent(error) == Content("Server Error", JStr("An unexpected error occurred on the server."))
    ensures StatusOf(error) !in {JNum(401.0), JNum(403.0), JNum(404.0), JNum(500.0)} ==>
      ApiErrorContent(error) == Content(DefaultErrorTitle, JStr(DefaultMessage))
  {
  }

  /** An error with neither payload nor status shows its own message:
      this is how the normalised rejections of the API client, which carry
      no response, and the `Error`s thrown by the query layer appear. */
  lemma OwnMessage(error: Json)
    requires !IsNullish(error) && !Truthy(PayloadOf(error)) && !Truthy(StatusOf(error))
    requires Truthy(Get(error, "message"))
    ensures ApiErrorContent(error) == Content(DefaultErrorTitle, Get(error, "message"))
  {
  }

  /** The shown title is the derived one unless that is empty (a payload
      title of '' with no code), in which case `showToast` falls back to
      'Error' as well. */
  lemma ShownTitle(error: Json)
    ensures var c := ApiErrorContent(error);
            ShowToast(ToastOptions(Some(c.title), c.message, Some(ErrorToast), Some(4000), None)).text1 ==
              (if c.title == "" then DefaultErrorTitle else c.title)
  {
  }
}
