/**
 * Properties of the mock backend: the invariant every handler keeps (unique
 * tokens, messages numbered 1..n, one active prompt per type, prompt ids by
 * position), the ignored idempotency key, the invite round trip, the reset of
 * a setting, and the id reuse after a delete.
 */
module MockStoreProps {
  import opened JsCore
  import opened ApiTypes
  import opened KeyedTable
  import opened MockData
  import opened MockStore

  /** Messages numbered 1, 2, …, n in list order. */
  predicate Numbered(ms: seq<Message>) {
    forall i :: 0 <= i < |ms| ==> ms[i].sequence == i + 1
  }

  predicate OneActivePerType(ps: seq<Prompt>) {
    forall i, j :: 0 <= i < j < |ps| && ps[i].promptType == ps[j].promptType ==> !(ps[i].isActive && ps[j].isActive)
  }

  predicate PromptIdsByPosition(ps: seq<Prompt>) {
    forall i :: 0 <= i < |ps| ==> ps[i].id == "p" + IntToString(i + 1)
  }

  predicate WellFormed(st: Store) {
    && UniqueKeys(st.sessions)
    && (forall i :: 0 <= i < |st.sessions| ==> Numbered(st.sessions[i].value.messages))
    && OneActivePerType(st.prompts)
    && PromptIdsByPosition(st.prompts)
  }

  /** The handlers that change the store. */
  datatype Op =
    | SendOp(sessionId: string, body: SendMessageRequest, now: int)
    | CreateEmployeeOp(fields: EmployeeFields, now: int)
    | UpdateEmployeeOp(id: string, patch: EmployeeFields)
    | DeleteEmployeeOp(id: string)
    | CreateInviteOp(id: string, token: string, now: int)
    | RevokeInviteOp(id: string)
    | CreateQuestionOp(qbody: QuestionFields)
    | UpdateQuestionOp(id: string, qpatch: QuestionPatch)
    | DeleteQuestionOp(id: string)
    | CreatePromptOp(promptType: PromptType, content: string, now: int)
    | ActivatePromptOp(id: string)
    | PutSettingsOp(values: map<string, Unknown>)
    | ResetSettingOp(key: string)

  function Apply(st: Store, op: Op): Store {
    match op
    case SendOp(sessionId, body, now) => SendMessage(st, sessionId, body, now).store
    case CreateEmployeeOp(fields, now) => CreateEmployee(st, fields, now).store
    case UpdateEmployeeOp(id, patch) => UpdateEmployee(st, id, patch).store
    case DeleteEmployeeOp(id) => DeleteEmployee(st, id).store
    case CreateInviteOp(id, token, now) => CreateInvite(st, id, token, now).store
    case RevokeInviteOp(id) => RevokeInvite(st, id).store
    case CreateQuestionOp(qbody) => CreateQuestion(st, qbody).store
    case UpdateQuestionOp(id, qpatch) => UpdateQuestion(st, id, qpatch).store
    case DeleteQuestionOp(id) => DeleteQuestion(st, id).store
    case CreatePromptOp(t, content, now) => CreatePrompt(st, t, content, now).store
    case ActivatePromptOp(id) => ActivatePrompt(st, id).store
    case PutSettingsOp(values) => PutSettings(st, values).store
    case ResetSettingOp(key) => ResetSetting(st, key).store
  }

  function Run(st: Store, ops: seq<Op>): Store
    decreases |ops|
  {
    if ops == [] then st else Run(Apply(st, ops[0]), ops[1..])
  }

  lemma InitialWellFormed()
    ensures WellFormed(Initial)
  {
    assert IntToString(1) == "1" && IntToString(2) == "2" && IntToString(3) == "3" && IntToString(4) == "4";
  }

  lemma SendKeepsWellFormed(st: Store, sessionId: string, body: SendMessageRequest, now: int)
    requires WellFormed(st)
    ensures WellFormed(SendMessage(st, sessionId, body, now).store)
  {
    var i := SessionIndex(st.sessions, sessionId);
    if i >= 0 {
      var next := SendMessage(st, sessionId, body, now).store;
      assert Numbered(next.sessions[i].value.messages);
      forall a, b | 0 <= a < b < |next.sessions|
        ensures next.sessions[a].key != next.sessions[b].key
      {
        assert next.sessions[a].key == st.sessions[a].key;
        assert next.sessions[b].key == st.sessions[b].key;
      }
    }
  }

  lemma InviteKeepsWellFormed(st: Store, id: string, token: string, now: int)
    requires WellFormed(st)
    ensures WellFormed(CreateInvite(st, id, token, now).store)
  {
    if id in st.employees {
      var s := InviteSession("sess" + IntToString(now), now);
      var next := CreateInvite(st, id, token, now).store;
      SetKeepsUnique(st.sessions, token, s);
      forall i | 0 <= i < |next.sessions|
        ensures Numbered(next.sessions[i].value.messages)
      {
        assert next.sessions[i] in next.sessions;
        if next.sessions[i] != Row(token, s) {
          var j :| 0 <= j < |st.sessions| && st.sessions[j] == next.sessions[i];
        }
      }
    }
  }

  lemma RevokeKeepsWellFormed(st: Store, id: string)
    requires WellFormed(st)
    ensures WellFormed(RevokeInvite(st, id).store)
  {
    if id in st.employees && st.employees[id].activeInvite.Some? {
      var token := st.employees[id].activeInvite.value.token;
      var next := RevokeInvite(st, id).store;
      DeleteKeepsUnique(st.sessions, token);
      forall i | 0 <= i < |next.sessions|
        ensures Numbered(next.sessions[i].value.messages)
      {
        assert next.sessions[i] in next.sessions;
        var j :| 0 <= j < |st.sessions| && st.sessions[j] == next.sessions[i];
      }
    }
  }

  lemma CreatePromptKeepsWellFormed(st: Store, t: PromptType, content: string, now: int)
    requires WellFormed(st)
    ensures WellFormed(CreatePrompt(st, t, content, now).store)
  {
    var p := CreatePrompt(st, t, content, now).reply.body;
    AppendInactiveKeepsWellFormed(st, p);
  }

  /** Appending an inactive prompt whose id continues the numbering keeps the store
      well formed. */
  lemma AppendInactiveKeepsWellFormed(st: Store, p: Prompt)
    requires WellFormed(st)
    requires !p.isActive && p.id == "p" + IntToString(|st.prompts| + 1)
    ensures WellFormed(st.(prompts := st.prompts + [p]))
  {
    var ps := st.prompts + [p];
    forall a, b | 0 <= a < b < |ps| && ps[a].promptType == ps[b].promptType
      ensures !(ps[a].isActive && ps[b].isActive)
    {
      if b < |st.prompts| {
        assert ps[a] == st.prompts[a] && ps[b] == st.prompts[b];
      } else {
        assert ps[b] == p;
      }
    }
    forall a | 0 <= a < |ps|
      ensures ps[a].id == "p" + IntToString(a + 1)
    {
      if a < |st.prompts| {
        assert ps[a] == st.prompts[a];
      }
    }
  }

  /** A handler that leaves the sessions and the prompts alone keeps the store well
      formed. */
  lemma SameCoreKeepsWellFormed(st: Store, next: Store)
    requires WellFormed(st)
    requires next.sessions == st.sessions && next.prompts == st.prompts
    ensures WellFormed(next)
  {
  }

  /** The employee, question and settings handlers touch neither the sessions nor
      the prompts. */
  lemma OtherOpsKeepCore(st: Store, op: Op)
    requires !op.SendOp? && !op.CreateInviteOp? && !op.RevokeInviteOp?
    requires !op.CreatePromptOp? && !op.ActivatePromptOp?
    ensures Apply(st, op).sessions == st.sessions && Apply(st, op).prompts == st.prompts
  {
  }

  lemma ActivateKeepsWellFormed(st: Store, id: string)
    requires WellFormed(st)
    ensures WellFormed(ActivatePrompt(st, id).store)
  {
    var i := FindIndex(st.prompts, (p: Prompt) => p.id == id);
    if i >= 0 {
      var ps := ActivatePrompt(st, id).store.prompts;
      forall a, b | 0 <= a < b < |ps| && ps[a].promptType == ps[b].promptType
        ensures !(ps[a].isActive && ps[b].isActive)
      {
        assert ps[a].promptType == st.prompts[a].promptType;
        assert ps[b].promptType == st.prompts[b].promptType;
      }
      forall a | 0 <= a < |ps|
        ensures ps[a].id == st.prompts[a].id
      {
      }
    }
  }

  /** Every handler keeps the store well formed. */
  lemma ApplyKeepsWellFormed(st: Store, op: Op)
    requires WellFormed(st)
    ensures WellFormed(Apply(st, op))
  {
    match op
    case SendOp(sessionId, body, now) => SendKeepsWellFormed(st, sessionId, body, now);
    case CreateInviteOp(id, token, now) => InviteKeepsWellFormed(st, id, token, now);
    case RevokeInviteOp(id) => RevokeKeepsWellFormed(st, id);
    case CreatePromptOp(t, content, now) => CreatePromptKeepsWellFormed(st, t, content, now);
    case ActivatePromptOp(id) => ActivateKeepsWellFormed(st, id);
    case _ =>
      OtherOpsKeepCore(st, op);
      SameCoreKeepsWellFormed(st, Apply(st, op));
  }

  /** From the fixture data, whatever requests arrive: message numbers stay 1..n in
      every session, at most one prompt per type is active, tokens stay unique. */
  lemma {:induction false} RunKeepsWellFormed(st: Store, ops: seq<Op>)
    requires WellFormed(st)
    ensures WellFormed(Run(st, ops))
    decreases |ops|
  {
    if ops != [] {
      ApplyKeepsWellFormed(st, ops[0]);
      RunKeepsWellFormed(Apply(st, ops[0]), ops[1..]);
    }
  }

  // ---------------------------------------------------------------------
  // Messages
  // ---------------------------------------------------------------------

  /** In a well-formed store a send numbers its two messages right after the
      session's last message, so the session stays numbered 1..n+2. */
  lemma SendContinuesNumbering(st: Store, sessionId: string, body: SendMessageRequest, now: int)
    requires WellFormed(st)
    requires SessionIndex(st.sessions, sessionId) >= 0
    ensures var i := SessionIndex(st.sessions, sessionId);
      var ms := st.sessions[i].value.messages;
      var r := SendMessage(st, sessionId, body, now).reply.body;
      && (|ms| > 0 ==> r.userMessage.sequence == ms[|ms| - 1].sequence + 1)
      && r.assistantMessage.sequence == r.userMessage.sequence + 1
      && Numbered(SendMessage(st, sessionId, body, now).store.sessions[i].value.messages)
  {
    SendKeepsWellFormed(st, sessionId, body, now);
  }

  /** The idempotency key makes no difference to the store or the reply. */
  lemma SendIgnoresIdempotencyKey(st: Store, sessionId: string, content: string, k1: string, k2: string, now: int)
    ensures SendMessage(st, sessionId, SendMessageRequest(content, k1), now)
         == SendMessage(st, sessionId, SendMessageRequest(content, k2), now)
  {
  }

  /** So a retry with the same key appends a second pair: four new messages. */
  lemma RetryAppendsTwice(st: Store, sessionId: string, body: SendMessageRequest, t1: int, t2: int)
    requires SessionIndex(st.sessions, sessionId) >= 0
    ensures var i := SessionIndex(st.sessions, sessionId);
      var s2 := SendMessage(SendMessage(st, sessionId, body, t1).store, sessionId, body, t2).store;
      && |s2.sessions[i].value.messages| == |st.sessions[i].value.messages| + 4
      && s2.messageSeq == st.messageSeq + 4
      && s2.sessions[i].value.messages[|st.sessions[i].value.messages| + 2].content == body.content
  {
    var i := SessionIndex(st.sessions, sessionId);
    var s1 := SendMessage(st, sessionId, body, t1).store;
    assert s1.sessions[i].value.id == sessionId;
    forall j | 0 <= j < i
      ensures s1.sessions[j].value.id != sessionId
    {
      assert s1.sessions[j] == st.sessions[j];
    }
    assert SessionIndex(s1.sessions, sessionId) == i;
  }

  /** The session's status is left as it was: the mock never completes an
      interview. */
  lemma SendKeepsStatus(st: Store, sessionId: string, body: SendMessageRequest, now: int)
    requires SessionIndex(st.sessions, sessionId) >= 0
    ensures var i := SessionIndex(st.sessions, sessionId);
      && SendMessage(st, sessionId, body, now).store.sessions[i].value.status == st.sessions[i].value.status
      && SendMessage(st, sessionId, body, now).store.sessions[i].key == st.sessions[i].key
  {
  }

  // ---------------------------------------------------------------------
  // Prompts
  // ---------------------------------------------------------------------

  /** After activation the target is the only active prompt of its type; prompts of
      other types keep their flags. */
  lemma ActivateLeavesOnlyTarget(st: Store, id: string)
    requires FindIndex(st.prompts, (p: Prompt) => p.id == id) >= 0
    ensures var i := FindIndex(st.prompts, (p: Prompt) => p.id == id);
      var ps := ActivatePrompt(st, id).store.prompts;
      && ps[i].isActive
      && (forall j :: 0 <= j < |ps| && ps[j].promptType == st.prompts[i].promptType && ps[j].isActive ==> j == i)
      && (forall j :: 0 <= j < |ps| && ps[j].promptType != st.prompts[i].promptType ==> ps[j] == st.prompts[j])
  {
  }

  /** A new prompt never disturbs the active one. */
  lemma CreatePromptKeepsActive(st: Store, t: PromptType, content: string, now: int)
    ensures var ps := CreatePrompt(st, t, content, now).store.prompts;
      && ps[..|st.prompts|] == st.prompts
      && !ps[|st.prompts|].isActive
  {
  }

  /** A new prompt is listed last among the prompts of its type, after that type's
      earlier listing, which is unchanged. */
  lemma CreatePromptListedLast(st: Store, t: PromptType, content: string, now: int)
    ensures var h := CreatePrompt(st, t, content, now);
      ListPrompts(h.store, Some(PromptTypeName(t))).reply.body
        == ListPrompts(st, Some(PromptTypeName(t))).reply.body + [h.reply.body]
  {
    var h := CreatePrompt(st, t, content, now);
    FilterAppend(st.prompts, [h.reply.body], OfTypeName(PromptTypeName(t)));
    FilterSingle(h.reply.body, OfTypeName(PromptTypeName(t)));
  }

  // ---------------------------------------------------------------------
  // Invites
  // ---------------------------------------------------------------------

  /** With a token not yet in use, an invite makes its session reachable by token,
      and revoking it takes the sessions back to what they were; the employee ends
      without an invite, whatever invite it had before. */
  lemma InviteThenRevoke(st: Store, id: string, token: string, now: int)
    requires id in st.employees && !HasKey(st.sessions, token)
    ensures var s1 := CreateInvite(st, id, token, now).store;
      && GetSessionByToken(s1, token).reply == Json(200, InviteSession("sess" + IntToString(now), now))
      && var s2 := RevokeInvite(s1, id).store;
      && s2.sessions == st.sessions
      && s2.employees == st.employees[id := st.employees[id].(activeInvite := None)]
      && GetSessionByToken(s2, token).reply == Empty(404)
  {
    var s := InviteSession("sess" + IntToString(now), now);
    var s1 := CreateInvite(st, id, token, now).store;
    InviteAppendsSession(st, id, token, now);
    SetThenGet(st.sessions, token, s, token);
    TokenLookup(s1, token, Some(s));
    var s2 := RevokeInvite(s1, id).store;
    RevokeDropsSession(s1, id);
    DeleteAppended(st.sessions, token, s);
    TokenLookup(s2, token, None);
    assert s2.employees == s1.employees[id := s1.employees[id].(activeInvite := None)];
  }

  /** The token lookup answers with exactly what the table holds under the token. */
  lemma TokenLookup(st: Store, token: string, found: Option<Session>)
    requires Get(st.sessions, token) == found
    ensures found.Some? ==> GetSessionByToken(st, token).reply == Json(200, found.value)
    ensures found.None? ==> GetSessionByToken(st, token).reply == Empty(404)
  {
  }

  /** A fresh token's invite appends its session and records the token. */
  lemma InviteAppendsSession(st: Store, id: string, token: string, now: int)
    requires id in st.employees && !HasKey(st.sessions, token)
    ensures var s1 := CreateInvite(st, id, token, now).store;
      && s1.sessions == Set(st.sessions, token, InviteSession("sess" + IntToString(now), now))
      && s1.sessions == st.sessions + [Row(token, InviteSession("sess" + IntToString(now), now))]
      && id in s1.employees && s1.employees[id].activeInvite.Some?
      && s1.employees[id].activeInvite.value.token == token
      && s1.employees == st.employees[id := s1.employees[id]]
  {
  }

  /** Revoking drops the session of the employee's active invite. */
  lemma RevokeDropsSession(st: Store, id: string)
    requires id in st.employees && st.employees[id].activeInvite.Some?
    ensures var s2 := RevokeInvite(st, id).store;
      && s2.sessions == Delete(st.sessions, st.employees[id].activeInvite.value.token)
      && s2.employees == st.employees[id := st.employees[id].(activeInvite := None)]
  {
  }

  /** A second invite replaces the first on the employee but leaves the first
      invite's session behind: revoking afterwards removes only the second. */
  lemma SecondInviteOrphansFirst(st: Store, id: string, t1: string, t2: string, now1: int, now2: int)
    requires id in st.employees && t1 != t2
    ensures var s2 := CreateInvite(CreateInvite(st, id, t1, now1).store, id, t2, now2).store;
      var s3 := RevokeInvite(s2, id).store;
      && HasKey(s3.sessions, t1) && !HasKey(s3.sessions, t2)
  {
    var s1 := CreateInvite(st, id, t1, now1).store;
    var s2 := CreateInvite(s1, id, t2, now2).store;
    SetThenGet(st.sessions, t1, InviteSession("sess" + IntToString(now1), now1), t1);
    SetThenGet(s1.sessions, t2, InviteSession("sess" + IntToString(now2), now2), t1);
  }

  // ---------------------------------------------------------------------
  // Employees
  // ---------------------------------------------------------------------

  /** The new id counts the remaining employees, so after a delete it can be an id
      still in use: deleting employee 1 of the fixture and creating one overwrites
      employee 2 and leaves two list rows with id "2". */
  lemma EmployeeIdReusedAfterDelete(body: EmployeeFields, now: int)
    ensures var s1 := DeleteEmployee(Initial, "1").store;
      var h := CreateEmployee(s1, body, now);
      && "2" in Initial.employees
      && h.reply.body.id == "2"
      && h.store.employees == map["2" := h.reply.body]
      && |h.store.employeesList| == 2
      && h.store.employeesList[0].id == "2" && h.store.employeesList[1].id == "2"
  {
    FixtureWithoutFirst();
    CreateAfterOneLeft(DeleteEmployee(Initial, "1").store, body, now);
  }

  /** With one employee left, "2", and its one row, a created employee takes id "2". */
  lemma CreateAfterOneLeft(s1: Store, body: EmployeeFields, now: int)
    requires s1.employees.Keys == {"2"} && |s1.employees| == 1
    requires |s1.employeesList| == 1 && s1.employeesList[0].id == "2"
    ensures var h := CreateEmployee(s1, body, now);
      && h.reply.body.id == "2"
      && h.store.employees == map["2" := h.reply.body]
      && |h.store.employeesList| == 2
      && h.store.employeesList[0].id == "2" && h.store.employeesList[1].id == "2"
  {
    assert IntToString(|s1.employees| + 1) == "2";
    var h := CreateEmployee(s1, body, now);
    assert h.store.employees == s1.employees["2" := h.reply.body];
  }

  /** Deleting employee 1 of the fixture leaves employee 2 alone in both views. */
  lemma FixtureWithoutFirst()
    ensures var s1 := DeleteEmployee(Initial, "1").store;
      && s1.employees.Keys == {"2"} && |s1.employees| == 1
      && s1.employeesList == [InitialEmployeesList[1]]
      && InitialEmployeesList[1].id == "2"
      && "2" in Initial.employees
  {
    var s1 := DeleteEmployee(Initial, "1").store;
    assert s1.employees == InitialEmployees - {"1"};
    assert s1.employees.Keys == {"2"};
    FixtureListWithoutFirst();
  }

  lemma FixtureListWithoutFirst()
    ensures Filter(InitialEmployeesList, OtherThan("1")) == [InitialEmployeesList[1]]
  {
    var l := InitialEmployeesList;
    assert l[1..][1..] == [];
    assert Filter(l[1..][1..], OtherThan("1")) == [];
    assert Filter(l[1..], OtherThan("1")) == [l[1]];
  }

  // ---------------------------------------------------------------------
  // Settings
  // ---------------------------------------------------------------------

  /** Whatever was stored, a reset brings a known key back to its default
      (relabelled "default" when the default was stored in the database). */
  lemma ResetAfterPutRestoresDefault(st: Store, values: map<string, Unknown>, key: string)
    requires key in DefaultSettings
    ensures var s := ResetSetting(PutSettings(st, values).store, key).store;
      && s.settings[key] == Restored(DefaultSettings[key])
      && s.settings[key].value == DefaultSettings[key].value
  {
  }

  /** Resetting an untouched setting whose default came from the database still
      changes how its source is reported. */
  lemma ResetRelabelsDatabaseDefault()
    ensures Initial.settings["welcome_message"].source == FromDatabase
    ensures ResetSetting(Initial, "welcome_message").store.settings["welcome_message"].source == FromDefault
    ensures ResetSetting(Initial, "welcome_message").store.settings["welcome_message"].value
         == Initial.settings["welcome_message"].value
  {
  }

  /** Saving the same values twice is the same as saving them once. */
  lemma PutSettingsIdempotent(st: Store, values: map<string, Unknown>)
    ensures PutSettings(PutSettings(st, values).store, values).store == PutSettings(st, values).store
  {
  }
}
