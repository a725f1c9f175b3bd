/**
 * The wire types shared by the chat widget, the admin console and the mock
 * backend. Timestamps are integer milliseconds (the ISO-8601 rendering of
 * `created_at` is not modelled).
 */
module ApiTypes {
  import opened JsCore

  /** The seven session statuses, in the order of the backend's state graph. */
  datatype SessionStatus =
    | NotStarted | InProgress | Completed | Extracting | Summarizing | Finalized | Error

  /** Backend post-processing: COMPLETED, EXTRACTING or SUMMARIZING. */
  predicate IsProcessing(s: SessionStatus) {
    s == Completed || s == Extracting || s == Summarizing
  }

  /** FINALIZED or ERROR. */
  predicate IsTerminal(s: SessionStatus) {
    s == Finalized || s == Error
  }

  /** The wire string of a status. */
  function StatusName(s: SessionStatus): string {
    match s
    case NotStarted => "NOT_STARTED"
    case InProgress => "IN_PROGRESS"
    case Completed => "COMPLETED"
    case Extracting => "EXTRACTING"
    case Summarizing => "SUMMARIZING"
    case Finalized => "FINALIZED"
    case Error => "ERROR"
  }

  /** No status is both processing and terminal, and the wire names identify statuses. */
  lemma StatusClassesDisjoint(a: SessionStatus, b: SessionStatus)
    ensures !(IsProcessing(a) && IsTerminal(a))
    ensures StatusName(a) == StatusName(b) ==> a == b
  {
  }

  datatype Role = User | Assistant

  datatype Message = Message(id: string, role: Role, content: string, sequence: int, createdAt: int)

  datatype Session = Session(id: string, status: SessionStatus, messages: seq<Message>, summary: Option<string>)

  datatype SendMessageRequest = SendMessageRequest(content: string, idempotencyKey: string)

  datatype SendMessageResponse = SendMessageResponse(userMessage: Message, assistantMessage: Message, isComplete: bool)

  datatype Invite = Invite(id: string, token: string, sessionId: string, isRevoked: bool, createdAt: int)

  datatype Employee = Employee(
    id: string, name: string, email: string,
    position: Option<string>, department: Option<string>,
    createdAt: int, activeInvite: Option<Invite>)

  datatype EmployeeListItem = EmployeeListItem(
    id: string, name: string, email: string,
    position: Option<string>, department: Option<string>, createdAt: int,
    latestSessionStatus: Option<SessionStatus>, lastActivityAt: Option<int>,
    hasActiveInvite: bool)

  datatype Question = Question(
    id: string, questionKey: string, title: Option<string>, text: string,
    answerGuidance: Option<string>, sortOrder: int, isActive: bool, questionnaireVersion: int)

  datatype PromptType = ChatPrompt | ExtractorPrompt | SummaryPrompt

  function PromptTypeName(t: PromptType): string {
    match t
    case ChatPrompt => "chat"
    case ExtractorPrompt => "extractor"
    case SummaryPrompt => "summary"
  }

  datatype Prompt = Prompt(
    id: string, promptType: PromptType, version: int, content: string,
    isActive: bool, createdAt: int, supportedVariables: seq<string>)

  /** The part of an admin session detail the mock backend consults. */
  datatype AdminSession = AdminSession(id: string, employeeId: string, status: SessionStatus)

  datatype SettingSource = FromDatabase | FromEnv | FromDefault

  /** A stored setting: its value and where that value comes from. */
  datatype Setting = Setting(value: Unknown, source: SettingSource)
}
