/**
 * The fixture data the mock backend starts from, with its ISO timestamps
 * written as milliseconds since the epoch. The settings defaults double as
 * the values a reset restores.
 */
module MockData {
  import opened JsCore
  import opened ApiTypes
  import opened KeyedTable

  const Dec01: int := 1733047200000
  const Dec05: int := 1733392800000
  const Dec10: int := 1733824800000

  const InitialEmployeesList: seq<EmployeeListItem> := [
    EmployeeListItem("1", "Иван Петров", "ivan@example.com", Some("Разработчик"), Some("IT"), Dec01,
                     Some(InProgress), Some(Dec10), true),
    EmployeeListItem("2", "Мария Сидорова", "maria@example.com", Some("Менеджер"), Some("HR"), Dec05,
                     None, None, false)
  ]

  const InitialEmployees: map<string, Employee> := map[
    "1" := Employee("1", "Иван Петров", "ivan@example.com", Some("Разработчик"), Some("IT"), Dec01,
                    Some(Invite("inv1", "abc123", "sess1", false, Dec01))),
    "2" := Employee("2", "Мария Сидорова", "maria@example.com", Some("Менеджер"), Some("HR"), Dec05, None)
  ]

  const InitialMessages: seq<Message> := [
    Message("m1", Assistant, "Здравствуйте! Я помогу вам заполнить анкету. Расскажите о вашей текущей роли в компании.", 1, Dec10),
    Message("m2", User, "Я работаю разработчиком уже 3 года.", 2, 1733824860000),
    Message("m3", Assistant, "Отлично! Какие основные задачи вы выполняете?", 3, 1733824890000)
  ]

  /** The sessions, keyed by invite token. */
  const InitialSessions: seq<Row<Session>> := [
    Row("abc123", Session("sess1", InProgress, InitialMessages, None))
  ]

  const InitialAdminSessions: seq<AdminSession> := [AdminSession("sess1", "1", InProgress)]

  const InitialQuestions: seq<Question> := [
    Question("q1", "role", Some("Роль"), "Опишите вашу текущую роль в компании",
             Some("Укажите должность и основные обязанности"), 1, true, 1),
    Question("q2", "tasks", Some("Задачи"), "Какие основные задачи вы выполняете?", None, 2, true, 1),
    Question("q3", "goals", Some("Цели"), "Какие у вас цели на ближайший год?", None, 3, true, 1)
  ]

  const ChatVariables: seq<string> := ["employee_name", "employee_position", "employee_department", "questions"]
  const SummaryVariables: seq<string> := ["employee_name", "employee_position", "employee_department", "answers"]

  const InitialPrompts: seq<Prompt> := [
    Prompt("p1", ChatPrompt, 1, "You are a helpful assistant...", true, Dec01, ChatVariables),
    Prompt("p2", ChatPrompt, 2, "You are a helpful assistant v2...", false, Dec05, ChatVariables),
    Prompt("p3", ExtractorPrompt, 1, "Extract answers from conversation...", true, Dec01, ChatVariables),
    Prompt("p4", SummaryPrompt, 1, "Summarize the employee profile...", true, Dec01, SummaryVariables)
  ]

  const WelcomeText: string := "Здравствуйте! Давайте начнём заполнение анкеты."

  /** A numeric setting value as `Number()` and `String()` see it. */
  function NumberValue(r: real, text: string): Unknown {
    Unknown(Finite(r), text)
  }

  /** A text setting value; none of these texts reads as a number. */
  function TextValue(text: string): Unknown {
    Unknown(NaN, text)
  }

  /** `mockSettings`: the initial settings and the defaults a reset restores. */
  const DefaultSettings: map<string, Setting> := map[
    "welcome_message" := Setting(TextValue(WelcomeText), FromDatabase),
    "chat_provider" := Setting(TextValue("openai"), FromEnv),
    "chat_model" := Setting(TextValue("gpt-4o"), FromDefault),
    "chat_temperature" := Setting(NumberValue(0.7, "0.7"), FromDefault),
    "chat_max_tokens" := Setting(NumberValue(4096.0, "4096"), FromDefault),
    "chat_reasoning_effort" := Setting(TextValue("medium"), FromDefault),
    "extract_provider" := Setting(TextValue("openai"), FromEnv),
    "extract_model" := Setting(TextValue("gpt-4o"), FromDefault),
    "extract_temperature" := Setting(NumberValue(0.3, "0.3"), FromDefault),
    "extract_max_tokens" := Setting(NumberValue(4096.0, "4096"), FromDefault),
    "extract_reasoning_effort" := Setting(TextValue("high"), FromDefault),
    "summary_provider" := Setting(TextValue("openai"), FromEnv),
    "summary_model" := Setting(TextValue("gpt-4o"), FromDefault),
    "summary_temperature" := Setting(NumberValue(0.5, "0.5"), FromDefault),
    "summary_max_tokens" := Setting(NumberValue(2048.0, "2048"), FromDefault),
    "summary_reasoning_effort" := Setting(TextValue("medium"), FromDefault),
    "llm_timeout_seconds" := Setting(NumberValue(60.0, "60"), FromDefault),
    "daily_budget_usd" := Setting(NumberValue(100.0, "100"), FromDatabase),
    "rate_limit_messages" := Setting(NumberValue(30.0, "30"), FromDefault),
    "rate_limit_window" := Setting(NumberValue(60.0, "60"), FromDefault)
  ]

  /** `messageSeq` starts one past the fixture messages. */
  const InitialMessageSeq: int := |InitialMessages| + 1
}
