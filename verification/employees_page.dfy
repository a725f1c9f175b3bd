/**
 * The employees list page: the status badge of each row, from two maps that
 * are total over the seven session statuses plus "none", and the choice
 * between loader, error, empty text and table.
 */
module EmployeesPage {
  import opened JsCore
  import opened ApiTypes
  import opened ApiClient

  /** A key of the two badge maps: a session status, or "none" for an employee
      without a session. */
  datatype BadgeKey = Status(status: SessionStatus) | NoSession

  /** `emp.latest_session_status || 'none'`: every status name is a non-empty string,
      so only a null status falls back. */
  function BadgeKeyOf(latest: Option<SessionStatus>): (b: BadgeKey)
    ensures b == NoSession <==> latest.None?
    ensures latest.Some? ==> b.status == latest.value
  {
    match latest
    case None => NoSession
    case Some(s) => Status(s)
  }

  /** `statusColors`. */
  function StatusColor(b: BadgeKey): (c: string)
    ensures c in {"gray", "blue", "yellow", "green", "red"}
    ensures b.Status? && IsProcessing(b.status) ==> c == "yellow"
    ensures b.Status? && IsTerminal(b.status) ==> c != "yellow" && c != "gray"
  {
    match b
    case NoSession => "gray"
    case Status(s) =>
      match s
      case NotStarted => "gray"
      case InProgress => "blue"
      case Completed => "yellow"
      case Extracting => "yellow"
      case Summarizing => "yellow"
      case Finalized => "green"
      case Error => "red"
  }

  /** `statusLabels`. */
  function StatusLabel(b: BadgeKey): (l: string)
    ensures |l| > 0
    ensures b.Status? && IsProcessing(b.status) ==> l == "Обработка"
  {
    match b
    case NoSession => "Новый"
    case Status(s) =>
      match s
      case NotStarted => "Не начата"
      case InProgress => "В процессе"
      case Completed => "Обработка"
      case Extracting => "Обработка"
      case Summarizing => "Обработка"
      case Finalized => "Завершена"
      case Error => "Ошибка"
  }

  /** The three processing statuses read alike: one colour, one label. */
  predicate SameBadgeClass(a: BadgeKey, b: BadgeKey) {
    a == b || (a.Status? && b.Status? && IsProcessing(a.status) && IsProcessing(b.status))
  }

  /** Two keys get the same label exactly when they are the same key or both are
      processing statuses. */
  lemma LabelsSeparateAllButProcessing(a: BadgeKey, b: BadgeKey)
    ensures StatusLabel(a) == StatusLabel(b) <==> SameBadgeClass(a, b)
  {
  }

  /** Colours are coarser than labels: they also merge NOT_STARTED with "none". */
  lemma ColoursMergeNotStartedAndNone(a: BadgeKey, b: BadgeKey)
    ensures StatusColor(a) == StatusColor(b) <==>
      SameBadgeClass(a, b) || (a in {NoSession, Status(NotStarted)} && b in {NoSession, Status(NotStarted)})
    ensures StatusLabel(a) == StatusLabel(b) ==> StatusColor(a) == StatusColor(b)
    ensures StatusColor(NoSession) == StatusColor(Status(NotStarted))
    ensures StatusLabel(NoSession) != StatusLabel(Status(NotStarted))
  {
  }

  /** One table row, without the activity date's formatting. */
  datatype Row = Row(id: string, name: string, email: string, position: string, department: string,
                     badgeColour: string, badgeLabel: string, lastActivityAt: Option<int>)

  const Dash: string := "—"

  /** `value || '—'` on an optional string. */
  function OrDash(v: Option<string>): (r: string)
    ensures |r| > 0
    ensures v.Some? && |v.value| > 0 ==> r == v.value
    ensures r == Dash <==> v.None? || v.value == "" || v.value == Dash
  {
    if v.Some? && |v.value| > 0 then v.value else Dash
  }

  function RowOf(emp: EmployeeListItem): (r: Row)
    ensures r.id == emp.id && r.name == emp.name && r.email == emp.email
    ensures r.badgeLabel == StatusLabel(BadgeKeyOf(emp.latestSessionStatus))
    ensures r.badgeColour == StatusColor(BadgeKeyOf(emp.latestSessionStatus))
  {
    var b := BadgeKeyOf(emp.latestSessionStatus);
    Row(emp.id, emp.name, emp.email, OrDash(emp.position), OrDash(emp.department),
        StatusColor(b), StatusLabel(b), emp.lastActivityAt)
  }

  datatype ListView = Skeleton | ErrorText(text: string) | NoEmployees | Table(rows: seq<Row>)

  /** The page: loading, then error, then an empty list, then one row per employee
      in the order received. */
  function EmployeesView(isLoading: bool, error: Option<ApiError>, data: Option<seq<EmployeeListItem>>): (v: ListView)
    ensures isLoading <==> v == Skeleton
    ensures !isLoading && error.Some? ==> v == ErrorText(GetErrorMessage(error.value))
    ensures v == NoEmployees <==> !isLoading && error.None? && (data.None? || |data.value| == 0)
    ensures v.Table? ==> data.Some? && |v.rows| == |data.value| > 0
    ensures v.Table? ==> forall i :: 0 <= i < |v.rows| ==> v.rows[i] == RowOf(data.value[i])
  {
    if isLoading then Skeleton
    else if error.Some? then ErrorText(GetErrorMessage(error.value))
    else if data.None? || |data.value| == 0 then NoEmployees
    else Table(seq(|data.value|, i requires 0 <= i < |data.value| => RowOf(data.value[i])))
  }

  /** An employee just created (no session yet) is labelled "Новый" in grey, one
      with an open invite but no answers "Не начата" in the same grey. */
  lemma NewAndNotStartedRows(emp: EmployeeListItem)
    ensures emp.latestSessionStatus.None? ==> RowOf(emp).badgeLabel == "Новый" && RowOf(emp).badgeColour == "gray"
    ensures emp.latestSessionStatus == Some(NotStarted) ==> RowOf(emp).badgeLabel == "Не начата" && RowOf(emp).badgeColour == "gray"
  {
  }
}
