/**
 * The interview page's initial-load decision: from the URL token and the
 * state of the session query, which single view is rendered. The legacy
 * page checks the token first and classifies fetch errors; the redesigned
 * page has no token check and shows one fixed text for every failure.
 */
module ChatPage {
  import opened JsCore
  import opened ApiTypes
  import opened ApiClient

  /** The state of the `['session', token]` query. */
  datatype SessionQuery = SessionQuery(isLoading: bool, error: Option<ApiError>, data: Option<Session>)

  /** What the page renders. */
  datatype PageView =
    | Loader
    | Notice(text: string)
    /** the chat container, given exactly this session and token */
    | Chat(session: Session, token: Option<string>)

  const InvalidTokenText: string := "Неверная ссылка"
  const NoSessionText: string := "Сессия не найдена"
  const NotFoundOrExpiredText: string := "Сессия не найдена или истекла"

  /** A route token that JavaScript treats as present (`!token` is false). */
  predicate HasToken(token: Option<string>) {
    token.Some? && |token.value| > 0
  }

  /** The state `useSession(token)` reports. The query is enabled only for a present
      token (`enabled: !!token`); a disabled query never loads, fails or holds data.
      With a token it reports whatever the lookup `fetched` reached. */
  function QueryFor(token: Option<string>, fetched: SessionQuery): (q: SessionQuery)
    ensures !HasToken(token) ==> !q.isLoading && q.error.None? && q.data.None?
    ensures HasToken(token) ==> q == fetched
  {
    if HasToken(token) then fetched else SessionQuery(false, None, None)
  }

  /** The legacy page: token, then loading, then error, then a missing session. */
  function LegacyPage(token: Option<string>, q: SessionQuery): (v: PageView)
    ensures !HasToken(token) ==> v == Notice(InvalidTokenText)
    ensures HasToken(token) && q.isLoading ==> v == Loader
    ensures v == Loader ==> HasToken(token) && q.isLoading
    ensures HasToken(token) && !q.isLoading && q.error.Some? ==> v == Notice(GetErrorMessage(q.error.value))
    ensures v.Chat? <==> HasToken(token) && !q.isLoading && q.error.None? && q.data.Some?
    ensures v.Chat? ==> v.session == q.data.value && v.token == token
    ensures HasToken(token) && !q.isLoading && q.error.None? && q.data.None? ==> v == Notice(NoSessionText)
  {
    if !HasToken(token) then Notice(InvalidTokenText)
    else if q.isLoading then Loader
    else if q.error.Some? then Notice(GetErrorMessage(q.error.value))
    else if q.data.None? then Notice(NoSessionText)
    else Chat(q.data.value, token)
  }

  /** The redesigned page: loading, then one fixed text for an error or a missing
      session; the token is passed on unchecked. */
  function RedesignPage(token: Option<string>, q: SessionQuery): (v: PageView)
    ensures q.isLoading <==> v == Loader
    ensures !q.isLoading && (q.error.Some? || q.data.None?) ==> v == Notice(NotFoundOrExpiredText)
    ensures v.Notice? ==> v.text == NotFoundOrExpiredText
    ensures v.Chat? <==> !q.isLoading && q.error.None? && q.data.Some?
    ensures v.Chat? ==> v.session == q.data.value && v.token == token
  {
    if q.isLoading then Loader
    else if q.error.Some? || q.data.None? then Notice(NotFoundOrExpiredText)
    else Chat(q.data.value, token)
  }

  /** A 404 or 410 from the token lookup shows the invalid-link text on the legacy
      page, and the fixed "not found or expired" text on the redesigned one. */
  lemma ExpiredLinkTexts(token: string, status: int, statusText: string, body: Body)
    requires |token| > 0
    requires status == 404 || status == 410
    ensures var r := Request(Response(status, statusText, body));
      && r.Failure?
      && LegacyPage(Some(token), SessionQuery(false, Some(r.error), None)) == Notice(InvalidLinkText)
      && RedesignPage(Some(token), SessionQuery(false, Some(r.error), None)) == Notice(NotFoundOrExpiredText)
  {
    NotFoundReadsAsInvalidLink(status, statusText, body);
  }

  /** The two pages open the chat on exactly the same query states once a token is
      present, and hand it the same session and token; they differ only in what
      they show otherwise. */
  lemma PagesAgreeOnChat(token: Option<string>, q: SessionQuery)
    requires HasToken(token)
    ensures LegacyPage(token, q).Chat? <==> RedesignPage(token, q).Chat?
    ensures LegacyPage(token, q).Chat? ==> LegacyPage(token, q) == RedesignPage(token, q)
    ensures LegacyPage(token, q) == Loader <==> RedesignPage(token, q) == Loader
  {
  }

  /** Without a token neither page opens the chat, whatever the lookup would have
      returned: the legacy page shows its invalid-link notice, and the redesigned
      page, whose query is disabled, shows its not-found text. */
  lemma MissingTokenGate(token: Option<string>, fetched: SessionQuery)
    requires !HasToken(token)
    ensures LegacyPage(token, QueryFor(token, fetched)) == Notice(InvalidTokenText)
    ensures RedesignPage(token, QueryFor(token, fetched)) == Notice(NotFoundOrExpiredText)
  {
  }

  /** For every token, present or not, the two pages open the chat on the same
      lookups and hand it the same session and token. */
  lemma PagesOpenTheSameChats(token: Option<string>, fetched: SessionQuery)
    ensures var q := QueryFor(token, fetched);
      && (LegacyPage(token, q).Chat? <==> RedesignPage(token, q).Chat?)
      && (LegacyPage(token, q).Chat? ==> LegacyPage(token, q) == RedesignPage(token, q))
  {
    if HasToken(token) {
      PagesAgreeOnChat(token, fetched);
    }
  }
}
