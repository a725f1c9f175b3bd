/**
 * The mock backend's in-memory store and its request handlers: sessions and
 * their messages, employees with their list rows and invites, questions,
 * prompt versions and settings. Each handler is a pure function from the
 * store (and the request's parameters) to the next store and the reply;
 * the clock, the random invite token and the response delay are parameters
 * or left out.
 */
module MockStore {
  import opened JsCore
  import opened ApiTypes
  import opened KeyedTable
  import opened MockData

  datatype Store = Store(
    employeesList: seq<EmployeeListItem>,
    employees: map<string, Employee>,
    /** keyed by invite token, in insertion order */
    sessions: seq<Row<Session>>,
    /** the values of the `adminSessions` record, in insertion order; no handler changes it */
    adminSessions: seq<AdminSession>,
    questions: seq<Question>,
    prompts: seq<Prompt>,
    settings: map<string, Setting>,
    /** the number in the next message id `m<n>` */
    messageSeq: int)

  const Initial: Store := Store(InitialEmployeesList, InitialEmployees, InitialSessions,
                                InitialAdminSessions, InitialQuestions, InitialPrompts,
                                DefaultSettings, InitialMessageSeq)

  /** A handler's reply: a JSON body with a status, or a bodiless status. */
  datatype Reply<T> = Json(status: nat, body: T) | Empty(status: nat)

  datatype Handled<T> = Handled(store: Store, reply: Reply<T>)

  /** `s || fallback` on an optional string: the empty string is falsy. */
  function OrElse(v: Option<string>, fallback: string): (r: string)
    ensures v.Some? && |v.value| > 0 ==> r == v.value
    ensures (v.None? || v.value == "") ==> r == fallback
  {
    if v.Some? && |v.value| > 0 then v.value else fallback
  }

  /** `s || null`. */
  function OrNull(v: Option<string>): (r: Option<string>)
    ensures r.Some? <==> v.Some? && |v.value| > 0
    ensures r.Some? ==> r == v
  {
    if v.Some? && |v.value| > 0 then v else None
  }

  // ---------------------------------------------------------------------
  // Sessions and messages
  // ---------------------------------------------------------------------

  /** `GET /api/i/:token`. */
  function GetSessionByToken(st: Store, token: string): (h: Handled<Session>)
    ensures h.store == st
    ensures h.reply == Empty(404) <==> !HasKey(st.sessions, token)
    ensures h.reply.Json? ==> h.reply.status == 200 && Get(st.sessions, token) == Some(h.reply.body)
  {
    match Get(st.sessions, token)
    case None => Handled(st, Empty(404))
    case Some(s) => Handled(st, Json(200, s))
  }

  const ReplyText: string := "Спасибо за ответ! Продолжим."

  /** The first session, in insertion order, with this id. */
  function SessionIndex(sessions: seq<Row<Session>>, id: string): (i: int)
    ensures -1 <= i < |sessions|
    ensures i == -1 <==> forall j :: 0 <= j < |sessions| ==> sessions[j].value.id != id
    ensures i >= 0 ==> sessions[i].value.id == id && forall j :: 0 <= j < i ==> sessions[j].value.id != id
  {
    FindIndex(sessions, (r: Row<Session>) => r.value.id == id)
  }

  /** `POST /api/sessions/:id/message`: append the user's message and the canned
      reply, numbered after the session's last message; the idempotency key is
      never read. */
  function SendMessage(st: Store, sessionId: string, body: SendMessageRequest, now: int)
    : (h: Handled<SendMessageResponse>)
    ensures var i := SessionIndex(st.sessions, sessionId);
      && (i == -1 <==> h.reply == Empty(404))
      && (i == -1 ==> h.store == st)
      && (i >= 0 ==>
            var row := st.sessions[i]; var n := |row.value.messages|;
            && h.reply.Json? && h.reply.status == 201
            && var resp := h.reply.body;
            && resp.userMessage == Message("m" + IntToString(st.messageSeq), User, body.content, n + 1, now)
            && resp.assistantMessage == Message("m" + IntToString(st.messageSeq + 1), Assistant, ReplyText, n + 2, now)
            && !resp.isComplete
            && h.store == st.(sessions := st.sessions[i := Row(row.key, row.value.(messages := row.value.messages + [resp.userMessage, resp.assistantMessage]))],
                              messageSeq := st.messageSeq + 2))
  {
    var i := SessionIndex(st.sessions, sessionId);
    if i == -1 then Handled(st, Empty(404))
    else
      var row := st.sessions[i];
      var s := row.value;
      var n := |s.messages|;
      var user := Message("m" + IntToString(st.messageSeq), User, body.content, n + 1, now);
      var assistant := Message("m" + IntToString(st.messageSeq + 1), Assistant, ReplyText, n + 2, now);
      var next := st.(sessions := st.sessions[i := Row(row.key, s.(messages := s.messages + [user, assistant]))],
                      messageSeq := st.messageSeq + 2);
      Handled(next, Json(201, SendMessageResponse(user, assistant, false)))
  }

  // ---------------------------------------------------------------------
  // Employees
  // ---------------------------------------------------------------------

  /** The fields of an employee a create or update body may carry. */
  datatype EmployeeFields = EmployeeFields(
    name: Option<string>, email: Option<string>, position: Option<string>, department: Option<string>)

  /** `GET /api/admin/employees/:id`. */
  function GetEmployee(st: Store, id: string): (h: Handled<Employee>)
    ensures h.store == st
    ensures h.reply == Empty(404) <==> id !in st.employees
    ensures id in st.employees ==> h.reply == Json(200, st.employees[id])
  {
    if id in st.employees then Handled(st, Json(200, st.employees[id])) else Handled(st, Empty(404))
  }

  /** `POST /api/admin/employees`: the new id is one more than the number of
      employees, and the list gets a row without status or invite. */
  function CreateEmployee(st: Store, body: EmployeeFields, now: int): (h: Handled<Employee>)
    ensures var id := IntToString(|st.employees| + 1);
      && h.reply.Json? && h.reply.status == 201
      && var e := h.reply.body;
      && e == Employee(id, OrElse(body.name, ""), OrElse(body.email, ""), OrNull(body.position),
                       OrNull(body.department), now, None)
      && h.store.employees == st.employees[id := e]
      && h.store.employeesList == st.employeesList +
           [EmployeeListItem(id, e.name, e.email, e.position, e.department, now, None, None, false)]
      && h.store == st.(employees := h.store.employees, employeesList := h.store.employeesList)
  {
    var id := IntToString(|st.employees| + 1);
    var e := Employee(id, OrElse(body.name, ""), OrElse(body.email, ""), OrNull(body.position),
                      OrNull(body.department), now, None);
    var row := EmployeeListItem(id, e.name, e.email, e.position, e.department, now, None, None, false);
    Handled(st.(employees := st.employees[id := e], employeesList := st.employeesList + [row]), Json(201, e))
  }

  /** `{...record, ...body}` on an employee. */
  function MergeEmployee(e: Employee, patch: EmployeeFields): Employee {
    e.(name := patch.name.GetOr(e.name), email := patch.email.GetOr(e.email),
       position := if patch.position.Some? then patch.position else e.position,
       department := if patch.department.Some? then patch.department else e.department)
  }

  /** `{...row, ...body}` on a list row. */
  function MergeRow(r: EmployeeListItem, patch: EmployeeFields): EmployeeListItem {
    r.(name := patch.name.GetOr(r.name), email := patch.email.GetOr(r.email),
       position := if patch.position.Some? then patch.position else r.position,
       department := if patch.department.Some? then patch.department else r.department)
  }

  function RowIndex(list: seq<EmployeeListItem>, id: string): (i: int)
    ensures -1 <= i < |list|
    ensures i == -1 <==> forall j :: 0 <= j < |list| ==> list[j].id != id
    ensures i >= 0 ==> list[i].id == id && forall j :: 0 <= j < i ==> list[j].id != id
  {
    FindIndex(list, (r: EmployeeListItem) => r.id == id)
  }

  /** Applies `f` to the first list row with this id, if there is one. */
  function UpdateRow(list: seq<EmployeeListItem>, id: string, f: EmployeeListItem -> EmployeeListItem)
    : (r: seq<EmployeeListItem>)
    ensures |r| == |list|
    ensures var i := RowIndex(list, id);
      forall j :: 0 <= j < |list| ==> r[j] == if j == i then f(list[j]) else list[j]
  {
    var i := RowIndex(list, id);
    if i >= 0 then list[i := f(list[i])] else list
  }

  /** `PUT /api/admin/employees/:id`. */
  function UpdateEmployee(st: Store, id: string, patch: EmployeeFields): (h: Handled<Employee>)
    ensures id !in st.employees <==> h.reply == Empty(404)
    ensures id !in st.employees ==> h.store == st
    ensures id in st.employees ==>
      && h.store.employees == st.employees[id := MergeEmployee(st.employees[id], patch)]
      && h.reply == Json(200, h.store.employees[id])
      && h.store.employeesList == UpdateRow(st.employeesList, id, (r: EmployeeListItem) => MergeRow(r, patch))
      && h.store == st.(employees := h.store.employees, employeesList := h.store.employeesList)
  {
    if id !in st.employees then Handled(st, Empty(404))
    else
      var e := MergeEmployee(st.employees[id], patch);
      var list := UpdateRow(st.employeesList, id, (r: EmployeeListItem) => MergeRow(r, patch));
      Handled(st.(employees := st.employees[id := e], employeesList := list), Json(200, e))
  }

  /** The row test of the delete: `e => e.id !== id`. */
  function OtherThan(id: string): EmployeeListItem -> bool {
    (r: EmployeeListItem) => r.id != id
  }

  /** `DELETE /api/admin/employees/:id`: always 204; the employee's sessions and
      invite stay behind. */
  function DeleteEmployee(st: Store, id: string): (h: Handled<()>)
    ensures h.reply == Empty(204)
    ensures id !in h.store.employees
    ensures forall k :: k != id ==> (k in h.store.employees <==> k in st.employees)
    ensures forall k :: k in h.store.employees ==> k in st.employees && h.store.employees[k] == st.employees[k]
    ensures forall r :: r in h.store.employeesList <==> r in st.employeesList && r.id != id
    ensures h.store.employeesList == Filter(st.employeesList, OtherThan(id))
    ensures h.store == st.(employees := h.store.employees, employeesList := h.store.employeesList)
  {
    Handled(st.(employees := st.employees - {id},
                employeesList := Filter(st.employeesList, OtherThan(id))),
            Empty(204))
  }

  /** The session test of the listing: `s => s.employee_id === params.id`. */
  function OfEmployee(id: string): AdminSession -> bool {
    (s: AdminSession) => s.employeeId == id
  }

  /** `GET /api/admin/employees/:id/sessions`: the employee's sessions, in the
      record's order. */
  function EmployeeSessions(st: Store, id: string): (h: Handled<seq<AdminSession>>)
    ensures h.store == st && h.reply.Json? && h.reply.status == 200
    ensures forall s :: s in h.reply.body <==> s in st.adminSessions && s.employeeId == id
    ensures h.reply.body == Filter(st.adminSessions, OfEmployee(id))
  {
    Handled(st, Json(200, Filter(st.adminSessions, OfEmployee(id))))
  }

  /** `GET /api/admin/sessions/:id`. */
  function GetAdminSession(st: Store, id: string): (h: Handled<AdminSession>)
    ensures h.store == st
    ensures h.reply == Empty(404) <==> forall i :: 0 <= i < |st.adminSessions| ==> st.adminSessions[i].id != id
    ensures h.reply.Json? ==> h.reply.body in st.adminSessions && h.reply.body.id == id
  {
    var i := FindIndex(st.adminSessions, (s: AdminSession) => s.id == id);
    if i == -1 then Handled(st, Empty(404)) else Handled(st, Json(200, st.adminSessions[i]))
  }

  // ---------------------------------------------------------------------
  // Invites
  // ---------------------------------------------------------------------

  datatype InviteResponse = InviteResponse(id: string, token: string, sessionId: string)

  /** The session a new invite opens: not started, with the greeting as message 1. */
  function InviteSession(sessionId: string, now: int): (s: Session)
    ensures s.id == sessionId && s.status == NotStarted && s.summary.None?
    ensures |s.messages| == 1 && s.messages[0].sequence == 1
    ensures s.messages[0].role == Assistant && s.messages[0].content == WelcomeText
  {
    Session(sessionId, NotStarted, [Message("m1", Assistant, WelcomeText, 1, now)], None)
  }

  /** The list-row update of the invite handlers: sets `hasActiveInvite`. */
  function InviteFlag(flag: bool): EmployeeListItem -> EmployeeListItem {
    (r: EmployeeListItem) => r.(hasActiveInvite := flag)
  }

  /** `POST /api/admin/employees/:id/invite`, with the random token and the clock
      as parameters. */
  function CreateInvite(st: Store, id: string, token: string, now: int): (h: Handled<InviteResponse>)
    ensures id !in st.employees <==> h.reply == Empty(404)
    ensures id !in st.employees ==> h.store == st
    ensures id in st.employees ==>
      var sessionId := "sess" + IntToString(now);
      var invite := Invite("inv" + IntToString(now), token, sessionId, false, now);
      && h.reply == Json(200, InviteResponse(invite.id, token, sessionId))
      && h.store.employees == st.employees[id := st.employees[id].(activeInvite := Some(invite))]
      && h.store.sessions == Set(st.sessions, token, InviteSession(sessionId, now))
      && h.store.employeesList == UpdateRow(st.employeesList, id, InviteFlag(true))
      && h.store == st.(employees := h.store.employees, sessions := h.store.sessions,
                        employeesList := h.store.employeesList)
  {
    if id !in st.employees then Handled(st, Empty(404))
    else
      var sessionId := "sess" + IntToString(now);
      var invite := Invite("inv" + IntToString(now), token, sessionId, false, now);
      var next := st.(employees := st.employees[id := st.employees[id].(activeInvite := Some(invite))],
                      sessions := Set(st.sessions, token, InviteSession(sessionId, now)),
                      employeesList := UpdateRow(st.employeesList, id, InviteFlag(true)));
      Handled(next, Json(200, InviteResponse(invite.id, token, sessionId)))
  }

  /** `DELETE /api/admin/employees/:id/invite`: drops the active invite's session
      and clears the invite and the row's flag. */
  function RevokeInvite(st: Store, id: string): (h: Handled<()>)
    ensures id !in st.employees <==> h.reply == Empty(404)
    ensures id !in st.employees ==> h.store == st
    ensures id in st.employees ==>
      var invite := st.employees[id].activeInvite;
      && h.reply == Empty(204)
      && h.store.employees == st.employees[id := st.employees[id].(activeInvite := None)]
      && h.store.sessions == (if invite.Some? then Delete(st.sessions, invite.value.token) else st.sessions)
      && h.store.employeesList == UpdateRow(st.employeesList, id, InviteFlag(false))
      && h.store == st.(employees := h.store.employees, sessions := h.store.sessions,
                        employeesList := h.store.employeesList)
  {
    if id !in st.employees then Handled(st, Empty(404))
    else
      var invite := st.employees[id].activeInvite;
      var sessions := if invite.Some? then Delete(st.sessions, invite.value.token) else st.sessions;
      var next := st.(employees := st.employees[id := st.employees[id].(activeInvite := None)],
                      sessions := sessions,
                      employeesList := UpdateRow(st.employeesList, id, InviteFlag(false)));
      Handled(next, Empty(204))
  }

  // ---------------------------------------------------------------------
  // Questions
  // ---------------------------------------------------------------------

  datatype QuestionFields = QuestionFields(
    questionKey: Option<string>, title: Option<string>, text: Option<string>,
    answerGuidance: Option<string>, sortOrder: Option<int>)

  datatype QuestionPatch = QuestionPatch(
    title: Option<string>, text: Option<string>, answerGuidance: Option<string>,
    sortOrder: Option<int>, isActive: Option<bool>)

  /** `POST /api/admin/questions`: id and default position from the list length;
      a sort order of 0 is falsy and replaced too. */
  function CreateQuestion(st: Store, body: QuestionFields): (h: Handled<Question>)
    ensures var n := |st.questions|;
      && h.reply.Json? && h.reply.status == 201
      && var q := h.reply.body;
      && q.id == "q" + IntToString(n + 1)
      && q.sortOrder == (if body.sortOrder.Some? && body.sortOrder.value != 0 then body.sortOrder.value else n + 1)
      && q.isActive && q.questionnaireVersion == 1
      && q.text == OrElse(body.text, "") && q.title == OrNull(body.title)
      && q.questionKey == OrElse(body.questionKey, "") && q.answerGuidance == OrNull(body.answerGuidance)
      && h.store == st.(questions := st.questions + [q])
  {
    var n := |st.questions|;
    var q := Question("q" + IntToString(n + 1), OrElse(body.questionKey, ""), OrNull(body.title),
                      OrElse(body.text, ""), OrNull(body.answerGuidance),
                      if body.sortOrder.Some? && body.sortOrder.value != 0 then body.sortOrder.value else n + 1,
                      true, 1);
    Handled(st.(questions := st.questions + [q]), Json(201, q))
  }

  function MergeQuestion(q: Question, patch: QuestionPatch): Question {
    q.(title := if patch.title.Some? then patch.title else q.title,
       text := patch.text.GetOr(q.text),
       answerGuidance := if patch.answerGuidance.Some? then patch.answerGuidance else q.answerGuidance,
       sortOrder := patch.sortOrder.GetOr(q.sortOrder),
       isActive := patch.isActive.GetOr(q.isActive))
  }

  /** `PUT /api/admin/questions/:id`: the first question with the id is merged. */
  function UpdateQuestion(st: Store, id: string, patch: QuestionPatch): (h: Handled<Question>)
    ensures var i := FindIndex(st.questions, (q: Question) => q.id == id);
      && (i == -1 <==> h.reply == Empty(404))
      && (i == -1 ==> h.store == st)
      && (i >= 0 ==> h.store == st.(questions := st.questions[i := MergeQuestion(st.questions[i], patch)])
                     && h.reply == Json(200, MergeQuestion(st.questions[i], patch)))
  {
    var i := FindIndex(st.questions, (q: Question) => q.id == id);
    if i == -1 then Handled(st, Empty(404))
    else
      var q := MergeQuestion(st.questions[i], patch);
      Handled(st.(questions := st.questions[i := q]), Json(200, q))
  }

  /** The question test of the delete: `q => q.id !== params.id`. */
  function QuestionOtherThan(id: string): Question -> bool {
    (q: Question) => q.id != id
  }

  /** `DELETE /api/admin/questions/:id`: always 204; the other questions keep
      their order. */
  function DeleteQuestion(st: Store, id: string): (h: Handled<()>)
    ensures h.reply == Empty(204)
    ensures forall q :: q in h.store.questions <==> q in st.questions && q.id != id
    ensures h.store.questions == Filter(st.questions, QuestionOtherThan(id))
    ensures h.store == st.(questions := h.store.questions)
  {
    Handled(st.(questions := Filter(st.questions, QuestionOtherThan(id))), Empty(204))
  }

  // ---------------------------------------------------------------------
  // Prompts
  // ---------------------------------------------------------------------

  /** The prompt test of the listing: `p => p.type === type`, on the wire name. */
  function OfTypeName(name: string): Prompt -> bool {
    (p: Prompt) => PromptTypeName(p.promptType) == name
  }

  /** `GET /api/admin/prompts?type=…`: an absent or empty type lists all; a type
      lists that type's prompts in list order. */
  function ListPrompts(st: Store, promptType: Option<string>): (h: Handled<seq<Prompt>>)
    ensures h.store == st && h.reply.Json? && h.reply.status == 200
    ensures (promptType.None? || promptType.value == "") ==> h.reply.body == st.prompts
    ensures promptType.Some? && promptType.value != "" ==>
      (forall p :: p in h.reply.body <==> p in st.prompts && PromptTypeName(p.promptType) == promptType.value)
    ensures promptType.Some? && promptType.value != "" ==>
      h.reply.body == Filter(st.prompts, OfTypeName(promptType.value))
  {
    if promptType.None? || promptType.value == "" then Handled(st, Json(200, st.prompts))
    else Handled(st, Json(200, Filter(st.prompts, OfTypeName(promptType.value))))
  }

  /** `Math.max(0, ...versions)`. */
  function MaxVersion(ps: seq<Prompt>): (m: int)
    ensures m >= 0
    ensures forall p :: p in ps ==> p.version <= m
    ensures m == 0 || exists p :: p in ps && p.version == m
    decreases |ps|
  {
    if ps == [] then 0
    else
      var rest := MaxVersion(ps[1..]);
      assert forall p :: p in ps ==> p == ps[0] || p in ps[1..];
      if ps[0].version > rest then ps[0].version else rest
  }

  /** The prompt test of the creation: `p => p.type === body.type`. */
  function OfType(t: PromptType): Prompt -> bool {
    (p: Prompt) => p.promptType == t
  }

  /** `prompts.filter(p => p.type === body.type)`: the prompts of the type, in list
      order, so its first element is the first prompt of that type. */
  function SameType(ps: seq<Prompt>, t: PromptType): (r: seq<Prompt>)
    ensures forall p :: p in r <==> p in ps && p.promptType == t
    ensures r == Filter(ps, OfType(t))
    ensures |r| > 0 <==> FindIndex(ps, OfType(t)) >= 0
    ensures |r| > 0 ==> r[0] == ps[FindIndex(ps, OfType(t))]
  {
    FilterFirst(ps, OfType(t));
    Filter(ps, OfType(t))
  }

  /** `POST /api/admin/prompts`: the next version of its type, inactive, with the
      variables of the first prompt of that type. */
  function CreatePrompt(st: Store, promptType: PromptType, content: string, now: int): (h: Handled<Prompt>)
    ensures h.reply.Json? && h.reply.status == 201
    ensures var p := h.reply.body;
      && p.id == "p" + IntToString(|st.prompts| + 1)
      && p.promptType == promptType && p.content == content && !p.isActive
      && (forall q :: q in st.prompts && q.promptType == promptType ==> q.version < p.version)
      && p.version >= 1
      && (p.version == 1 || exists q :: q in st.prompts && q.promptType == promptType && q.version == p.version - 1)
      && var first := FindIndex(st.prompts, OfType(promptType));
      && p.supportedVariables == (if first >= 0 then st.prompts[first].supportedVariables else [])
      && h.store == st.(prompts := st.prompts + [p])
  {
    var same := SameType(st.prompts, promptType);
    var p := Prompt("p" + IntToString(|st.prompts| + 1), promptType, MaxVersion(same) + 1, content, false, now,
                    if |same| > 0 then same[0].supportedVariables else []);
    Handled(st.(prompts := st.prompts + [p]), Json(201, p))
  }

  /** `POST /api/admin/prompts/:id/activate`: every prompt of the target's type is
      switched off, then the target on. */
  function ActivatePrompt(st: Store, id: string): (h: Handled<Prompt>)
    ensures var i := FindIndex(st.prompts, (p: Prompt) => p.id == id);
      && (i == -1 <==> h.reply == Empty(404))
      && (i == -1 ==> h.store == st)
      && (i >= 0 ==>
            var ps := h.store.prompts;
            && h.store == st.(prompts := ps)
            && |ps| == |st.prompts|
            && h.reply == Json(200, ps[i]) && ps[i] == st.prompts[i].(isActive := true)
            && (forall j :: 0 <= j < |ps| && j != i ==>
                  ps[j] == if st.prompts[j].promptType == st.prompts[i].promptType
                           then st.prompts[j].(isActive := false) else st.prompts[j]))
  {
    var i := FindIndex(st.prompts, (p: Prompt) => p.id == id);
    if i == -1 then Handled(st, Empty(404))
    else
      var t := st.prompts[i].promptType;
      var ps := seq(|st.prompts|, j requires 0 <= j < |st.prompts| =>
                      if st.prompts[j].promptType == t then st.prompts[j].(isActive := j == i) else st.prompts[j]);
      Handled(st.(prompts := ps), Json(200, ps[i]))
  }

  // ---------------------------------------------------------------------
  // Settings
  // ---------------------------------------------------------------------

  /** `PUT /api/admin/settings`: every key of the body is stored with source
      "database"; other keys keep their values. */
  function PutSettings(st: Store, values: map<string, Unknown>): (h: Handled<map<string, Setting>>)
    ensures forall k :: k in values ==> k in h.store.settings && h.store.settings[k] == Setting(values[k], FromDatabase)
    ensures forall k :: k !in values ==> (k in h.store.settings <==> k in st.settings)
    ensures forall k :: k !in values && k in st.settings ==> h.store.settings[k] == st.settings[k]
    ensures h.store == st.(settings := h.store.settings) && h.reply == Json(200, h.store.settings)
  {
    var settings := st.settings + map k | k in values :: Setting(values[k], FromDatabase);
    Handled(st.(settings := settings), Json(200, settings))
  }

  /** What a reset restores for a key with a default: the default, reported as a
      default when its source was the database. */
  function Restored(d: Setting): (r: Setting)
    ensures r.value == d.value
    ensures r.source != FromDatabase
    ensures d.source != FromDatabase ==> r == d
  {
    if d.source == FromDatabase then Setting(d.value, FromDefault) else d
  }

  /** `DELETE /api/admin/settings/:key`: always 204; a key without a default is
      left alone. */
  function ResetSetting(st: Store, key: string): (h: Handled<()>)
    ensures h.reply == Empty(204)
    ensures key !in DefaultSettings ==> h.store == st
    ensures key in DefaultSettings ==> h.store == st.(settings := st.settings[key := Restored(DefaultSettings[key])])
  {
    if key in DefaultSettings then Handled(st.(settings := st.settings[key := Restored(DefaultSettings[key])]), Empty(204))
    else Handled(st, Empty(204))
  }
}
