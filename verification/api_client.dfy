/**
 * The HTTP client's error model: how a response is turned into a value or
 * an `ApiRequestError`, and how any thrown value is turned into the text the
 * user sees (`getErrorMessage`).
 */
module ApiClient {
  import opened JsCore

  /** What the code can observe of a parsed JSON body. */
  datatype JsonShape =
    /** null, a boolean, a number or a string, with its JavaScript truthiness */
    | Primitive(truthy: bool)
    /** an object or an array; `detail` is `String(body.detail)` when the key is present */
    | Object(detail: Option<string>)

  /** A thrown value, as `getErrorMessage` distinguishes it. */
  datatype ApiError =
    /** an `ApiRequestError`; `data` is None when the body was absent or not JSON */
    | ApiRequestError(status: int, statusText: string, data: Option<JsonShape>)
    | TypeError(message: string)
    /** any other `Error` instance */
    | OtherError(message: string)
    /** a thrown value that is not an `Error` */
    | NonError

  /** The `message` property of an `ApiRequestError`: "<status> <statusText>". */
  function StatusLine(status: int, statusText: string): (r: string)
    ensures |r| > |statusText|
    ensures r[|r| - |statusText|..] == statusText
    ensures IsDigit(r[0]) || r[0] == '-'
  {
    IntToString(status) + " " + statusText
  }

  const InvalidLinkText: string := "Ссылка недействительна. Обратитесь к HR."
  const ConflictText: string := "Анкета уже завершена."
  const RateLimitText: string := "Слишком много сообщений. Подождите немного."
  const UnavailableText: string := "Сервис временно недоступен. Попробуйте позже."
  const ServerErrorText: string := "Ошибка сервера. Попробуйте позже."
  const ConnectivityText: string := "Не удалось отправить сообщение. Проверьте соединение."
  const UnknownText: string := "Неизвестная ошибка"

  /** The texts the client chooses itself, as opposed to texts a server or the
      runtime supplies. */
  const FixedTexts: set<string> := {InvalidLinkText, ConflictText, RateLimitText, UnavailableText,
                                    ServerErrorText, ConnectivityText, UnknownText}

  /** `getErrorMessage(error)`: the user-facing text for any thrown value. A fixed
      status never shows anything the server sent; a text that is not one of the
      client's own is carried by the error: its `detail`, its status line or its
      message. */
  function GetErrorMessage(e: ApiError): (r: string)
    ensures e.ApiRequestError? && FixedStatus(e.status) ==> r in FixedTexts
    ensures e.NonError? ==> r == UnknownText
    ensures e.OtherError? ==> r == e.message
    ensures e.TypeError? ==> r == (if Contains(e.message, "fetch") then ConnectivityText else e.message)
    ensures r !in FixedTexts ==>
      || (e.ApiRequestError? && (r == StatusLine(e.status, e.statusText)
                                 || (e.data.Some? && e.data.value.Object? && e.data.value.detail == Some(r))))
      || ((e.TypeError? || e.OtherError?) && r == e.message)
  {
    match e
    case ApiRequestError(status, statusText, data) =>
      if status == 404 || status == 410 then InvalidLinkText
      else if status == 409 then ConflictText
      else if status == 429 then RateLimitText
      else if status == 503 then UnavailableText
      else if status >= 500 then ServerErrorText
      else if data.Some? && data.value.Object? && data.value.detail.Some? then data.value.detail.value
      else StatusLine(status, statusText)
    case TypeError(message) =>
      if Contains(message, "fetch") then ConnectivityText else message
    case OtherError(message) => message
    case NonError => UnknownText
  }

  /** The statuses whose text the client fixes, whatever the response says. */
  predicate FixedStatus(status: int) {
    status in {404, 409, 410, 429, 503} || status >= 500
  }

  /** Which fixed statuses share a text: 404 with 410, and every status of 500 or
      more except 503 with each other. */
  predicate SameFixedText(a: int, b: int) {
    || a == b
    || (a in {404, 410} && b in {404, 410})
    || (a >= 500 && a != 503 && b >= 500 && b != 503)
  }

  /** For a fixed status the text depends on the status alone, not on the status
      text or the body; and two fixed statuses show the same text exactly when
      they share one, so a fixed text on screen tells which case occurred. */
  lemma FixedTextIdentifiesStatus(a: int, ta: string, da: Option<JsonShape>,
                                  b: int, tb: string, db: Option<JsonShape>)
    requires FixedStatus(a) && FixedStatus(b)
    ensures GetErrorMessage(ApiRequestError(a, ta, da)) == GetErrorMessage(ApiRequestError(b, tb, db))
        <==> SameFixedText(a, b)
  {
  }

  /** 404 and 410 share the invalid-link text, 409 and 429 have their own texts, the
      503 case takes precedence over the generic server error, and an unlisted status
      below 500 without a detail shows the error's own "<status> <statusText>" message. */
  lemma StatusTexts(status: int, statusText: string, data: Option<JsonShape>)
    ensures var m := GetErrorMessage(ApiRequestError(status, statusText, data));
      && (status == 404 || status == 410 ==> m == InvalidLinkText)
      && (status == 409 ==> m == ConflictText)
      && (status == 429 ==> m == RateLimitText)
      && (status == 503 ==> m == UnavailableText && m != ServerErrorText)
      && (status >= 500 && status != 503 ==> m == ServerErrorText)
      && (status < 500 && status !in {404, 409, 410, 429} && !(data.Some? && data.value.Object? && data.value.detail.Some?)
          ==> m == StatusLine(status, statusText))
  {
  }

  // ---------------------------------------------------------------------
  // ApiClient.request: classifying a fetch outcome
  // ---------------------------------------------------------------------

  /** The body of a response, as `res.json()` sees it. */
  datatype Body =
    | Json(shape: JsonShape)
    /** not valid JSON (or empty): `res.json()` rejects with a SyntaxError carrying `syntaxMessage` */
    | NotJson(syntaxMessage: string)

  /** What `fetch` produced. */
  datatype FetchOutcome =
    /** the request never reached a server: fetch rejects with a TypeError */
    | NetworkFailure(message: string)
    | Response(status: int, statusText: string, body: Body)

  predicate IsOk(status: int) {
    200 <= status <= 299
  }

  /** `request<T>`: a non-ok response rejects with an `ApiRequestError` carrying the
      status, the status text and the parsed body (None when it does not parse); a
      204 resolves with no body; any other ok response resolves with its JSON. */
  function Request(f: FetchOutcome): (r: Result<Option<JsonShape>, ApiError>)
    ensures f.Response? && !IsOk(f.status) <==> r.Failure? && r.error.ApiRequestError?
    ensures r.Failure? && r.error.ApiRequestError? ==>
      && r.error.status == f.status && r.error.statusText == f.statusText
      && r.error.data == (if f.body.Json? then Some(f.body.shape) else None)
    ensures f.Response? && f.status == 204 ==> r == Success(None)
    ensures r.Success? && r.value.Some? ==> f.Response? && IsOk(f.status) && f.body == Json(r.value.value)
    ensures f.NetworkFailure? ==> r == Failure(TypeError(f.message))
    ensures f.Response? && IsOk(f.status) && f.status != 204 ==>
      r == (if f.body.Json? then Success(Some(f.body.shape)) else Failure(OtherError(f.body.syntaxMessage)))
  {
    match f
    case NetworkFailure(message) => Failure(TypeError(message))
    case Response(status, statusText, body) =>
      if !IsOk(status) then
        Failure(ApiRequestError(status, statusText, if body.Json? then Some(body.shape) else None))
      else if status == 204 then Success(None)
      else if body.Json? then Success(Some(body.shape))
      else Failure(OtherError(body.syntaxMessage))
  }

  /** A 404 or 410 from the token lookup always reads as the invalid-link text,
      whatever body came with it. */
  lemma NotFoundReadsAsInvalidLink(status: int, statusText: string, body: Body)
    requires status == 404 || status == 410
    ensures var r := Request(Response(status, statusText, body));
      r.Failure? && GetErrorMessage(r.error) == InvalidLinkText
  {
  }

  /** A fetch that never reached the server is reported as a connectivity problem when
      the runtime's message mentions "fetch", and never as any HTTP-status text. */
  lemma NetworkFailureIsNotAnHttpError(message: string)
    requires Contains(message, "fetch")
    ensures var r := Request(NetworkFailure(message));
      && r.Failure?
      && GetErrorMessage(r.error) == ConnectivityText
      && forall status: int, t: string, d: Option<JsonShape> :: FixedStatus(status) ==>
           GetErrorMessage(ApiRequestError(status, t, d)) != ConnectivityText
  {
  }

  /** Through `request`: a failed response with a status the client does not fix
      shows the server's `detail` when its JSON body carries one, and otherwise the
      status line. */
  lemma ReportedStatusText(status: int, statusText: string, body: Body)
    requires !IsOk(status) && !FixedStatus(status)
    ensures var r := Request(Response(status, statusText, body));
      && r.Failure?
      && var m := GetErrorMessage(r.error);
      && (body.Json? && body.shape.Object? && body.shape.detail.Some? ==> m == body.shape.detail.value)
      && (!(body.Json? && body.shape.Object? && body.shape.detail.Some?) ==>
            m == StatusLine(status, statusText))
  {
  }
}
